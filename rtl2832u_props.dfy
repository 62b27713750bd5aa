/** What the demodulator's operations put on the wire, and what they leave
  * the tuner in, stated over the replies the device gives. */
module Rtl2832uProps {
  import opened Bits
  import opened Errors
  import opened Transport
  import opened RtlCom
  import opened R820T
  import opened R820TTuner
  import opened Rtl2832u

  /** The status read that follows every demodulator write. */
  const STATUS_READ: Transfer := ControlIn(0x0120, 0x0a, 8)

  /** A one-byte demodulator write of page p (0 or 1), address a: the
    * control value `(a << 8) | 0x20`, the write index `p | 0x10`, then the
    * status read. */
  lemma DemodByte(p: u16, a: byte, v: int)
    requires p <= 1
    ensures DemodLineOut(Line(CMD_DEMODREG, p, a, v, 1)) ==
            [ControlOut(a * 0x100 + 0x20, 0x10 + p, [v % 0x100]), STATUS_READ]
  {
    WriteIndexValues();
    EncodeOneByte(v, true);
  }

  /** A two-byte demodulator write sends the value's low 16 bits high byte first. */
  lemma DemodWord(p: u16, a: byte, v: int)
    requires p <= 1
    ensures DemodLineOut(Line(CMD_DEMODREG, p, a, v, 2)) ==
            [ControlOut(a * 0x100 + 0x20, 0x10 + p, [(v % 0x1_0000) / 0x100, v % 0x100]), STATUS_READ]
  {
    WriteIndexValues();
    EncodeTwoBytes(v);
  }

  lemma DemodLinesCons(l: Line, rest: seq<Line>)
    requires IsDemodWrite(l) && forall i :: 0 <= i < |rest| ==> IsDemodWrite(rest[i])
    ensures DemodLinesOut([l] + rest) == DemodLineOut(l) + DemodLinesOut(rest)
  {
    assert ([l] + rest)[1..] == rest;
  }

  lemma RegLinesCons(l: Line, rest: seq<Line>)
    requires IsRegWrite(l) && forall i :: 0 <= i < |rest| ==> IsRegWrite(rest[i])
    ensures RegLinesOut([l] + rest) == [RegLineOut(l)] + RegLinesOut(rest)
  {
    assert ([l] + rest)[1..] == rest;
  }

  /** The transfers of resetDemodulator: 0x14, then 0x10, to page 1, address 1. */
  const RESET_OUT: seq<Transfer> :=
    [ControlOut(0x0120, 0x11, [0x14]), STATUS_READ, ControlOut(0x0120, 0x11, [0x10]), STATUS_READ]

  lemma ResetLinesOut()
    ensures AllDemodWrites(RESET_LINES)
    ensures DemodLinesOut(RESET_LINES) == RESET_OUT
  {
    var l0 := Line(CMD_DEMODREG, 1, 0x01, 0x14, 1);
    var l1 := Line(CMD_DEMODREG, 1, 0x01, 0x10, 1);
    var r1: seq<Line> := [];
    var r0 := [l1] + r1;
    assert RESET_LINES == [l0] + r0;
    var o0 := [ControlOut(0x0120, 0x11, [0x14]), STATUS_READ];
    var o1 := [ControlOut(0x0120, 0x11, [0x10]), STATUS_READ];
    assert DemodLineOut(l0) == o0 by {
      DemodByte(1, 0x01, 0x14);
    }
    assert DemodLineOut(l1) == o1 by {
      DemodByte(1, 0x01, 0x10);
    }
    assert DemodLinesOut(r0) == o1 by {
      DemodLinesCons(l1, r1);
      assert o1 + [] == o1;
    }
    assert DemodLinesOut([l0] + r0) == RESET_OUT by {
      DemodLinesCons(l0, r0);
      assert o0 + o1 == RESET_OUT;
    }
  }

  /** resetDemodulator issues its two writes in order, each with its status
    * read, and succeeds exactly when both status reads are answered. */
  lemma ResetShape(q: seq<seq<byte>>)
    ensures ResetStep(q).result.Ok? <==> |q| >= 2
    ensures |q| >= 2 ==> ResetStep(q) == Step(RESET_OUT, 2, Ok(()))
  {
    ResetLinesOut();
    assert |RESET_LINES| == 2;
    if |q| >= 2 {
      DemodBatch(RESET_LINES, q);
    } else {
      DemodBatchShort(RESET_LINES, q);
    }
  }

  /** A two-byte register write sends the value low byte first. */
  lemma RegWord(block: u16, reg: u16, v: nat)
    requires v < 0x1_0000
    ensures IsRegWrite(RegLine(block, reg, v, 2))
    ensures RegLineOut(RegLine(block, reg, v, 2)) == ControlOut(reg, WriteIndex(block), [v % 0x100, v / 0x100])
  {
    ByteBaseValues();
    assert v % 0x1_0000 == v;
    assert LeBytes(v / 0x100, 1) == [(v / 0x100) % 0x100];
  }

  /** The endpoint-control writes of resetBuffer. */
  const RESET_BUFFER_OUT: seq<Transfer> :=
    [ControlOut(REG_EPA_CTL, 0x110, [0x10, 0x02]), ControlOut(REG_EPA_CTL, 0x110, [0x00, 0x00])]

  lemma ResetBufferLinesOut()
    ensures AllRegWrites(RESET_BUFFER_LINES)
    ensures RegLinesOut(RESET_BUFFER_LINES) == RESET_BUFFER_OUT
  {
    var l0 := RegLine(BLOCK_USB, REG_EPA_CTL, 0x0210, 2);
    var l1 := RegLine(BLOCK_USB, REG_EPA_CTL, 0x0000, 2);
    var c0 := ControlOut(REG_EPA_CTL, 0x110, [0x10, 0x02]);
    var c1 := ControlOut(REG_EPA_CTL, 0x110, [0x00, 0x00]);
    var r1: seq<Line> := [];
    var r0 := [l1] + r1;
    assert RegLineOut(l0) == c0 by {
      RegWord(BLOCK_USB, REG_EPA_CTL, 0x0210);
      WriteIndexValues();
    }
    assert RegLineOut(l1) == c1 by {
      RegWord(BLOCK_USB, REG_EPA_CTL, 0x0000);
      WriteIndexValues();
    }
    assert RegLinesOut(r0) == [c1] by {
      RegLinesCons(l1, r1);
    }
    assert RegLinesOut([l0] + r0) == [c0, c1] by {
      RegLinesCons(l0, r0);
      assert [c0] + [c1] == [c0, c1];
    }
    assert RESET_BUFFER_LINES == [l0] + r0;
  }

  /** resetBuffer writes 0x0210 and then 0x0000 to the endpoint control,
    * little-endian, and reads nothing. */
  lemma ResetBufferShape(q: seq<seq<byte>>)
    ensures ResetBufferStep(q) == Step(RESET_BUFFER_OUT, 0, Ok(()))
  {
    ResetBufferLinesOut();
    RegBatch(RESET_BUFFER_LINES, q);
  }

  /** The transfers setSampleRate issues for the ratio and the offset: the
    * ratio's high 16 bits to 0x9f and its low 16 bits to 0xa1, then the two
    * offset bytes to 0x3e and 0x3f, all on page 1. */
  function RateOut(ratio: nat, offset: int): (out: seq<Transfer>)
  {
    var hi := (ratio / 0x1_0000) % 0x1_0000;
    var lo := ratio % 0x1_0000;
    var b := OffsetBytes(offset);
    [ControlOut(0x9f20, 0x11, [hi / 0x100, hi % 0x100]), STATUS_READ,
     ControlOut(0xa120, 0x11, [lo / 0x100, lo % 0x100]), STATUS_READ,
     ControlOut(0x3e20, 0x11, [b[0]]), STATUS_READ,
     ControlOut(0x3f20, 0x11, [b[1]]), STATUS_READ]
  }

  lemma RateLinesOut(ratio: nat, offset: int)
    ensures DemodLinesOut(SampleRateLines(ratio, offset)) == RateOut(ratio, offset)
  {
    var b := OffsetBytes(offset);
    var hi := (ratio / 0x1_0000) % 0x1_0000;
    var lo := ratio % 0x1_0000;
    var l0 := Line(CMD_DEMODREG, 1, 0x9f, hi, 2);
    var l1 := Line(CMD_DEMODREG, 1, 0xa1, lo, 2);
    var l2 := Line(CMD_DEMODREG, 1, 0x3e, b[0], 1);
    var l3 := Line(CMD_DEMODREG, 1, 0x3f, b[1], 1);
    assert SampleRateLines(ratio, offset) == [l0, l1, l2, l3];
    DemodLines4(l0, l1, l2, l3);
    DemodWord(1, 0x9f, hi);
    DemodWord(1, 0xa1, lo);
    DemodByte(1, 0x3e, b[0]);
    DemodByte(1, 0x3f, b[1]);
    assert hi % 0x1_0000 == hi && lo % 0x1_0000 == lo;
    assert b[0] % 0x100 == b[0] && b[1] % 0x100 == b[1];
  }

  /** Four demodulator writes send their transfers in order. */
  lemma DemodLines4(l0: Line, l1: Line, l2: Line, l3: Line)
    requires IsDemodWrite(l0) && IsDemodWrite(l1) && IsDemodWrite(l2) && IsDemodWrite(l3)
    ensures DemodLinesOut([l0, l1, l2, l3]) == DemodLineOut(l0) + DemodLineOut(l1) + DemodLineOut(l2) + DemodLineOut(l3)
  {
    var r3: seq<Line> := [];
    var r2 := [l3] + r3;
    var r1 := [l2] + r2;
    var r0 := [l1] + r1;
    assert [l0, l1, l2, l3] == [l0] + r0;
    DemodLinesCons(l3, r3);
    DemodLinesCons(l2, r2);
    DemodLinesCons(l1, r1);
    DemodLinesCons(l0, r0);
  }

  /** setSampleRate issues the ratio and offset writes, then the soft reset,
    * consuming six status replies, and returns the rate the ratio achieves;
    * with fewer replies it fails. */
  lemma SampleRateShape(rate: nat, ppm: int, q: seq<seq<byte>>)
    ensures SampleRateStep(rate, ppm, q).result.Ok? <==> |q| >= 6
    ensures |q| >= 6 ==>
      SampleRateStep(rate, ppm, q) == Step(RateOut(Ratio(rate), PpmOffset(ppm)) + RESET_OUT, 6, Ok(RealRate(rate)))
  {
    var lines := SampleRateLines(Ratio(rate), PpmOffset(ppm));
    assert |lines| == 4;
    if |q| >= 4 {
      DemodBatch(lines, q);
      RateLinesOut(Ratio(rate), PpmOffset(ppm));
      ResetShape(q[4..]);
      if |q| >= 6 {
        assert q[4..][2..] == q[6..];
      }
    } else {
      DemodBatchShort(lines, q);
    }
  }

  /** A rate of 0 still sends the four writes, with a ratio of 0, and the
    * reset, and reports no achieved rate: JavaScript's Infinity. */
  lemma ZeroRate(ppm: int, q: seq<seq<byte>>)
    requires |q| >= 6
    ensures SampleRateStep(0, ppm, q) == Step(RateOut(0, PpmOffset(ppm)) + RESET_OUT, 6, Ok(None))
  {
    SampleRateShape(0, ppm, q);
  }

  /** The I2C repeater switched on: 0x18 to page 1, address 1, and the status read. */
  const I2C_ON: seq<Transfer> := [ControlOut(0x0120, 0x11, [0x18]), STATUS_READ]

  /** The I2C repeater switched off: 0x10 to page 1, address 1, and the status read. */
  const I2C_OFF: seq<Transfer> := [ControlOut(0x0120, 0x11, [0x10]), STATUS_READ]

  /** Switching the repeater takes the one status reply when there is one,
    * and fails without it. */
  lemma RepeaterSteps(q: seq<seq<byte>>)
    ensures OpenI2CStep(q).out == I2C_ON && CloseI2CStep(q).out == I2C_OFF
    ensures OpenI2CStep(q).result.Ok? <==> q != []
    ensures CloseI2CStep(q).result.Ok? <==> q != []
    ensures OpenI2CStep(q).used == CloseI2CStep(q).used == if q == [] then 0 else 1
  {
    I2CRepeater(q);
  }

  /** R820T.check: it selects register 0 of I2C device 0x34 and reads one
    * byte; only a missing reply fails, and the tuner is found exactly when
    * that byte is 0x69. */
  lemma ProbeAnswer(q: seq<seq<byte>>)
    ensures CheckStep(q).out == [ControlOut(0x34, 0x610, [0x00]), ControlIn(0x34, 0x600, 8)]
    ensures CheckStep(q).result.Err? <==> q == []
    ensures CheckStep(q).used == if q == [] then 0 else 1
    ensures CheckStep(q).result == Ok(true) <==> q != [] && q[0] != [] && q[0][0] == 0x69
  {
    I2CFraming(I2C_ADDR, 0, 0, [], q);
    if q != [] && q[0] != [] {
      assert Prefix(q[0], 1) == [q[0][0]];
      assert LeValue([q[0][0]]) == q[0][0];
    }
  }

  /** The tuner's writes `down` between the repeater switches, then the
    * interface released: each switch takes one status reply, and a missing
    * reply stops the sequence there. */
  lemma ShutdownShape(t: Tuning, q: seq<seq<byte>>, down: Run<()>)
    requires down.used == 0 && down.result == Ok(())
    ensures var run := ShutdownRun(t, q, down);
      (run.result.Ok? <==> |q| >= 2) &&
      (q == [] ==> run.out == I2C_ON) &&
      (|q| == 1 ==> run.out == I2C_ON + down.out + I2C_OFF) &&
      (|q| >= 2 ==> run == Run(I2C_ON + down.out + I2C_OFF + [Release(0)], 2, down.after, Ok(())))
  {
    RepeaterSteps(q);
    if q != [] {
      RepeaterSteps(q[1..]);
    }
  }

  /** close: the repeater on, the tuner's shutdown writes, the repeater off
    * and the interface released, in that order, using the two status
    * replies; each failure stops the sequence where it happens. */
  lemma CloseShape(t: Tuning, q: seq<seq<byte>>)
    ensures CloseRun(t, q).result.Ok? <==> |q| >= 2
    ensures q == [] ==> CloseRun(t, q).out == I2C_ON
    ensures |q| == 1 ==> CloseRun(t, q).out == I2C_ON + WritesOut(t.regs, CLOSE_WRITES) + I2C_OFF
    ensures |q| >= 2 ==>
      CloseRun(t, q) == Run(I2C_ON + WritesOut(t.regs, CLOSE_WRITES) + I2C_OFF + [Release(0)], 2,
                            Tuning(ApplyAll(t.regs, CLOSE_WRITES), t.lock), Ok(()))
  {
    ShutdownShape(t, q, WritesRun(t, CLOSE_WRITES));
  }

  /** A tuner run between the repeater switches: on, the run, and off only
    * when the run succeeded; a success is the run's value shifted down. */
  lemma RepeaterShape(t: Tuning, q: seq<seq<byte>>, tune: Run<Option<real>>)
    requires q != [] && tune.used <= |q| - 1
    ensures var run := RepeaterRun(t, q, tune);
      run.out == I2C_ON + tune.out + (if tune.result.Ok? then I2C_OFF else []) &&
      (run.result.Ok? ==> tune.result.Ok? && run.used == tune.used + 2 &&
                          run.result.value == Shift(tune.result.value))
  {
    RepeaterSteps(q);
    assert q[OpenI2CStep(q).used..] == q[1..];
    RepeaterSteps(q[1..][tune.used..]);
  }

  /** setCenterFrequency: the repeater on, the tuner set IF_FREQ above the
    * requested frequency, the repeater off, and the tuner's frequency
    * shifted back down by IF_FREQ. */
  lemma CenterFrequencyOrder(t: Tuning, freq: int, pllRef: nat, q: seq<seq<byte>>)
    requires Tunable(freq + IF_FREQ) && pllRef > 0
    ensures var run := CenterFrequencyRun(t, freq, pllRef, q);
      (q == [] ==> run.out == I2C_ON && run.result.Err?) &&
      (q != [] ==>
        var tune := SetFrequencyRun(t, freq + IF_FREQ, pllRef, q[1..]);
        run.out == I2C_ON + tune.out + (if tune.result.Ok? then I2C_OFF else []) &&
        (run.result.Ok? ==> tune.result.Ok? && run.used == tune.used + 2 &&
                            run.result.value == Shift(tune.result.value)))
  {
    RepeaterSteps(q);
    if q != [] {
      assert q[OpenI2CStep(q).used..] == q[1..];
      RepeaterShape(t, q, SetFrequencyRun(t, freq + IF_FREQ, pllRef, q[1..]));
    }
  }

  /** What setCenterFrequency reports is the frequency the PLL synthesizes
    * for IF_FREQ above the request, less IF_FREQ, and it reports one only
    * when the integer divider is at most 63. */
  lemma CenterFrequencyShift(t: Tuning, freq: int, pllRef: nat, q: seq<seq<byte>>)
    requires Tunable(freq + IF_FREQ) && pllRef > 0
    ensures var r := CenterFrequencyRun(t, freq, pllRef, q).result;
      r.Ok? && r.value.Some? ==>
        Nint(freq + IF_FREQ, pllRef) <= 63 && r.value.value == ActualFreq(freq + IF_FREQ, pllRef) - IF_FREQ as real
  {
    CenterFrequencyOrder(t, freq, pllRef, q);
    if q != [] {
      FrequencyRun(t, freq + IF_FREQ, pllRef, q[1..]);
      var ws := MuxWrites(MUX_CFGS[MuxIndex(freq + IF_FREQ)]);
      PllResult(Tuning(ApplyAll(t.regs, ws), t.lock), freq + IF_FREQ, pllRef, q[1..]);
    }
  }

  /** The transfers of open's IF set-up for multiplier m: 0x1a to page 1,
    * 0xb1; 0x4d to page 0, 0x08; the three multiplier bytes to page 1,
    * 0x19-0x1b; 0x01 to page 1, 0x15; each with its status read. */
  function MultiplierOut(m: int): (out: seq<Transfer>)
  {
    var b := MultiplierBytes(m);
    [ControlOut(0xb120, 0x11, [0x1a]), STATUS_READ,
     ControlOut(0x0820, 0x10, [0x4d]), STATUS_READ,
     ControlOut(0x1920, 0x11, [b[0]]), STATUS_READ,
     ControlOut(0x1a20, 0x11, [b[1]]), STATUS_READ,
     ControlOut(0x1b20, 0x11, [b[2]]), STATUS_READ,
     ControlOut(0x1520, 0x11, [0x01]), STATUS_READ]
  }

  /** The transfers of a batch of demodulator writes are those of its
    * parts, in order. */
  lemma {:induction false} DemodLinesAppend(a: seq<Line>, b: seq<Line>)
    requires AllDemodWrites(a) && AllDemodWrites(b)
    ensures AllDemodWrites(a + b)
    ensures DemodLinesOut(a + b) == DemodLinesOut(a) + DemodLinesOut(b)
  {
    assert AllDemodWrites(a + b) by {
      forall i | 0 <= i < |a + b| ensures IsDemodWrite((a + b)[i]) {
        if i < |a| { assert IsDemodWrite(a[i]); } else { assert IsDemodWrite(b[i - |a|]); }
      }
    }
    if a == [] {
      assert a + b == b;
    } else {
      assert (a + b)[1..] == a[1..] + b;
      assert AllDemodWrites(a[1..]) by {
        forall i | 0 <= i < |a[1..]| ensures IsDemodWrite(a[1..][i]) { assert a[1..][i] == a[i + 1]; }
      }
      DemodLinesAppend(a[1..], b);
    }
  }

  /** Three one-byte demodulator writes of pages 0 or 1. */
  lemma DemodBytes3(p0: u16, a0: byte, v0: int, p1: u16, a1: byte, v1: int, p2: u16, a2: byte, v2: int)
    requires p0 <= 1 && p1 <= 1 && p2 <= 1
    ensures DemodLinesOut([Line(CMD_DEMODREG, p0, a0, v0, 1), Line(CMD_DEMODREG, p1, a1, v1, 1), Line(CMD_DEMODREG, p2, a2, v2, 1)]) ==
      [ControlOut(a0 * 0x100 + 0x20, 0x10 + p0, [v0 % 0x100]), STATUS_READ,
       ControlOut(a1 * 0x100 + 0x20, 0x10 + p1, [v1 % 0x100]), STATUS_READ,
       ControlOut(a2 * 0x100 + 0x20, 0x10 + p2, [v2 % 0x100]), STATUS_READ]
  {
    var l0, l1, l2 := Line(CMD_DEMODREG, p0, a0, v0, 1), Line(CMD_DEMODREG, p1, a1, v1, 1), Line(CMD_DEMODREG, p2, a2, v2, 1);
    var r2: seq<Line> := [];
    var r1 := [l2] + r2;
    var r0 := [l1] + r1;
    assert [l0, l1, l2] == [l0] + r0;
    DemodByte(p0, a0, v0);
    DemodByte(p1, a1, v1);
    DemodByte(p2, a2, v2);
    DemodLinesCons(l2, r2);
    DemodLinesCons(l1, r1);
    DemodLinesCons(l0, r0);
  }

  /** The first three and the last three lines of the IF set-up. */
  function MultiplierFront(m: int): seq<Line>
  {
    var b := MultiplierBytes(m);
    [Line(CMD_DEMODREG, 1, 0xb1, 0x1a, 1), Line(CMD_DEMODREG, 0, 0x08, 0x4d, 1), Line(CMD_DEMODREG, 1, 0x19, b[0], 1)]
  }

  function MultiplierBack(m: int): seq<Line>
  {
    var b := MultiplierBytes(m);
    [Line(CMD_DEMODREG, 1, 0x1a, b[1], 1), Line(CMD_DEMODREG, 1, 0x1b, b[2], 1), Line(CMD_DEMODREG, 1, 0x15, 0x01, 1)]
  }

  lemma MultiplierSplit(m: int)
    ensures AllDemodWrites(MultiplierFront(m)) && AllDemodWrites(MultiplierBack(m))
    ensures MultiplierLines(m) == MultiplierFront(m) + MultiplierBack(m)
  {
  }

  lemma MultiplierFrontOut(m: int)
    ensures DemodLinesOut(MultiplierFront(m)) == MultiplierOut(m)[..6]
  {
    var b := MultiplierBytes(m);
    DemodBytes3(1, 0xb1, 0x1a, 0, 0x08, 0x4d, 1, 0x19, b[0]);
    assert b[0] % 0x100 == b[0];
  }

  lemma MultiplierBackOut(m: int)
    ensures DemodLinesOut(MultiplierBack(m)) == MultiplierOut(m)[6..]
  {
    var b := MultiplierBytes(m);
    DemodBytes3(1, 0x1a, b[1], 1, 0x1b, b[2], 1, 0x15, 0x01);
    assert b[1] % 0x100 == b[1] && b[2] % 0x100 == b[2];
  }

  /** open's IF set-up sends MultiplierOut: its six writes in order. */
  lemma MultiplierLinesOut(m: int)
    ensures |MultiplierLines(m)| == 6
    ensures DemodLinesOut(MultiplierLines(m)) == MultiplierOut(m)
  {
    MultiplierSplit(m);
    DemodLinesAppend(MultiplierFront(m), MultiplierBack(m));
    MultiplierFrontOut(m);
    MultiplierBackOut(m);
    assert MultiplierOut(m)[..6] + MultiplierOut(m)[6..] == MultiplierOut(m);
  }

  /** A failed multiplier batch ends the set-up. */
  lemma BindMulFails(mul: Run<()>, init: Run<()>, g: Option<real>, q: seq<seq<byte>>)
    requires mul.used <= |q| && init.used <= |q| - mul.used && mul.result.Err?
    ensures BindRun(mul, init, g, q).out == mul.out && BindRun(mul, init, g, q).result.Err?
  {
  }

  /** A failed tuner init ends the set-up after the register bank and the
    * init's own transfers. */
  lemma BindInitFails(mul: Run<()>, init: Run<()>, g: Option<real>, q: seq<seq<byte>>)
    requires mul.used <= |q| && init.used <= |q| - mul.used && mul.result.Ok? && init.result.Err?
    ensures BindRun(mul, init, g, q).out == mul.out + InitRegistersOut(REGISTERS) + init.out
    ensures BindRun(mul, init, g, q).result.Err?
  {
  }

  /** After a successful init the gain writes and the repeater switch
    * follow; the switch decides the outcome. */
  lemma BindInitDone(mul: Run<()>, init: Run<()>, g: Option<real>, q: seq<seq<byte>>)
    requires mul.used <= |q| && init.used <= |q| - mul.used && mul.result.Ok? && init.result.Ok?
    ensures var run := BindRun(mul, init, g, q);
      run.out == mul.out + InitRegistersOut(REGISTERS) + init.out + WritesOut(init.after.regs, GainWrites(g)) + I2C_OFF &&
      (run.result.Ok? <==> q[mul.used + init.used..] != []) &&
      (run.result.Ok? ==> run.used == mul.used + init.used + 1 &&
                          run.after == Tuning(ApplyAll(init.after.regs, GainWrites(g)), init.after.lock))
  {
    var q1 := q[mul.used..];
    assert q1[init.used..] == q[mul.used + init.used..];
    RepeaterSteps(q[mul.used + init.used..]);
  }

  /** open's set-up with fewer than six status replies: the IF batch
    * fails and nothing reaches the tuner. */
  lemma SetupShort(lock0: bool, xtal: nat, g: Option<real>, q: seq<seq<byte>>)
    requires xtal > 0 && |q| < 6
    ensures SetupRun(lock0, xtal, g, q).result.Err?
    ensures SetupRun(lock0, xtal, g, q).out == BatchStep(MultiplierLines(Multiplier(xtal)), q).out
  {
    var t0 := Tuning(REGISTERS, lock0);
    var lines := MultiplierLines(Multiplier(xtal));
    var mul := Lift(BatchStep(lines, q), t0);
    MultiplierLinesOut(Multiplier(xtal));
    DemodBatchShort(lines, q);
    BindMulFails(mul, InitElectronicsRun(t0, xtal, q[mul.used..]), g, q);
  }

  /** open's set-up when the tuner's electronics init fails: the six IF
    * writes, the register bank and the init's own transfers, and no more. */
  lemma SetupInitFails(lock0: bool, xtal: nat, g: Option<real>, q: seq<seq<byte>>)
    requires xtal > 0 && |q| >= 6
    requires InitElectronicsRun(Tuning(REGISTERS, lock0), xtal, q[6..]).result.Err?
    ensures SetupRun(lock0, xtal, g, q).result.Err?
    ensures SetupRun(lock0, xtal, g, q).out ==
      MultiplierOut(Multiplier(xtal)) + InitRegistersOut(REGISTERS) + InitElectronicsRun(Tuning(REGISTERS, lock0), xtal, q[6..]).out
  {
    var t0 := Tuning(REGISTERS, lock0);
    var lines := MultiplierLines(Multiplier(xtal));
    var mul := Lift(BatchStep(lines, q), t0);
    MultiplierLinesOut(Multiplier(xtal));
    DemodBatch(lines, q);
    BindInitFails(mul, InitElectronicsRun(t0, xtal, q[6..]), g, q);
  }

  /** open's set-up in order: the six IF writes, the register bank, the
    * electronics init, the gain writes and the repeater off; it succeeds
    * when a status reply is left for that last switch, and then leaves the
    * tuner locked. */
  lemma SetupDone(lock0: bool, xtal: nat, g: Option<real>, q: seq<seq<byte>>)
    requires xtal > 0 && |q| >= 6
    requires InitElectronicsRun(Tuning(REGISTERS, lock0), xtal, q[6..]).result.Ok?
    ensures var init := InitElectronicsRun(Tuning(REGISTERS, lock0), xtal, q[6..]);
      var run := SetupRun(lock0, xtal, g, q);
      run.out == MultiplierOut(Multiplier(xtal)) + InitRegistersOut(REGISTERS) + init.out +
                 WritesOut(init.after.regs, GainWrites(g)) + I2C_OFF &&
      (run.result.Ok? <==> |q| > 6 + init.used) &&
      (run.result.Ok? ==> run.used == 7 + init.used && run.after.lock)
  {
    var t0 := Tuning(REGISTERS, lock0);
    var lines := MultiplierLines(Multiplier(xtal));
    var mul := Lift(BatchStep(lines, q), t0);
    var init := InitElectronicsRun(t0, xtal, q[6..]);
    MultiplierLinesOut(Multiplier(xtal));
    DemodBatch(lines, q);
    BindInitDone(mul, init, g, q);
    ElectronicsOutcome(t0, xtal, q[6..], 0);
  }

  /** A one-byte register write of a byte sends exactly that byte. */
  lemma RegByte(block: u16, reg: u16, v: byte)
    ensures IsRegWrite(RegLine(block, reg, v, 1))
    ensures RegLineOut(RegLine(block, reg, v, 1)) == ControlOut(reg, WriteIndex(block), [v])
  {
    EncodeOneByte(v, false);
  }

  /** The USB set-up of open: 0x09 to the system control, 0x0200 to the
    * maximum packet size and 0x0210 to the endpoint control, on block USB. */
  const USB_OUT: seq<Transfer> :=
    [ControlOut(REG_SYSCTL, 0x110, [0x09]), ControlOut(REG_EPA_MAXPKT, 0x110, [0x00, 0x02]),
     ControlOut(REG_EPA_CTL, 0x110, [0x10, 0x02])]

  /** The demodulator power-up of open: 0x22 and 0xe8 on block SYS. */
  const SYS_OUT: seq<Transfer> :=
    [ControlOut(REG_DEMOD_CTL_1, 0x210, [0x22]), ControlOut(REG_DEMOD_CTL, 0x210, [0xe8])]

  lemma UsbLinesOut()
    ensures AllRegWrites(USB_LINES)
    ensures RegLinesOut(USB_LINES) == USB_OUT
  {
    var l0 := RegLine(BLOCK_USB, REG_SYSCTL, 0x09, 1);
    var l1 := RegLine(BLOCK_USB, REG_EPA_MAXPKT, 0x0200, 2);
    var l2 := RegLine(BLOCK_USB, REG_EPA_CTL, 0x0210, 2);
    var r2: seq<Line> := [];
    var r1 := [l2] + r2;
    var r0 := [l1] + r1;
    assert RegLineOut(l0) == USB_OUT[0] by {
      RegByte(BLOCK_USB, REG_SYSCTL, 0x09);
      WriteIndexValues();
    }
    assert RegLineOut(l1) == USB_OUT[1] by {
      RegWord(BLOCK_USB, REG_EPA_MAXPKT, 0x0200);
      WriteIndexValues();
    }
    assert RegLineOut(l2) == USB_OUT[2] by {
      RegWord(BLOCK_USB, REG_EPA_CTL, 0x0210);
      WriteIndexValues();
    }
    assert RegLinesOut(r1) == [USB_OUT[2]] by {
      RegLinesCons(l2, r2);
    }
    assert RegLinesOut(r0) == [USB_OUT[1], USB_OUT[2]] by {
      RegLinesCons(l1, r1);
    }
    assert RegLinesOut([l0] + r0) == USB_OUT by {
      RegLinesCons(l0, r0);
    }
    assert USB_LINES == [l0] + r0;
  }

  lemma SysLinesOut()
    ensures AllRegWrites(SYS_LINES)
    ensures RegLinesOut(SYS_LINES) == SYS_OUT
  {
    var l0 := RegLine(BLOCK_SYS, REG_DEMOD_CTL_1, 0x22, 1);
    var l1 := RegLine(BLOCK_SYS, REG_DEMOD_CTL, 0xe8, 1);
    var r1: seq<Line> := [];
    var r0 := [l1] + r1;
    assert RegLineOut(l0) == SYS_OUT[0] by {
      RegByte(BLOCK_SYS, REG_DEMOD_CTL_1, 0x22);
      WriteIndexValues();
    }
    assert RegLineOut(l1) == SYS_OUT[1] by {
      RegByte(BLOCK_SYS, REG_DEMOD_CTL, 0xe8);
      WriteIndexValues();
    }
    assert RegLinesOut(r0) == [SYS_OUT[1]] by {
      RegLinesCons(l1, r1);
    }
    assert RegLinesOut([l0] + r0) == SYS_OUT by {
      RegLinesCons(l0, r0);
    }
    assert SYS_LINES == [l0] + r0;
  }

  /** The demodulator initialization of open: the two power-up writes, then
    * the 39 demodulator writes of the table, each taking a status reply. */
  lemma InitBatch(q: seq<seq<byte>>)
    requires |q| >= |DEMOD_INIT|
    ensures AllWellFormed(INIT_LINES)
    ensures BatchStep(INIT_LINES, q) == Step(SYS_OUT + DemodLinesOut(DemodLines(DEMOD_INIT)), |DEMOD_INIT|, Ok(()))
  {
    var demod := DemodLines(DEMOD_INIT);
    SysLinesOut();
    RegBatch(SYS_LINES, q);
    BatchAppend(SYS_LINES, demod, q);
    assert q[0..] == q;
    DemodBatch(demod, q);
  }

  /** With fewer than 39 status replies the initialization fails. */
  lemma InitBatchShort(q: seq<seq<byte>>)
    requires |q| < |DEMOD_INIT|
    ensures AllWellFormed(INIT_LINES)
    ensures BatchStep(INIT_LINES, q).result.Err?
  {
    var demod := DemodLines(DEMOD_INIT);
    SysLinesOut();
    RegBatch(SYS_LINES, q);
    BatchAppend(SYS_LINES, demod, q);
    assert q[0..] == q;
    DemodBatchShort(demod, q);
  }

  /** R820T.check on the wire: register 0 of device 0x34 selected, then read. */
  const PROBE_OUT: seq<Transfer> := [ControlOut(0x34, 0x610, [0x00]), ControlIn(0x34, 0x600, 8)]

  /** What the preparation of open sends when every reply is there: the USB
    * set-up, the interface claim, the initialization, the repeater on and
    * the probe. */
  function PrepareOut(): seq<Transfer>
  {
    USB_OUT + [Claim(0)] + SYS_OUT + DemodLinesOut(DemodLines(DEMOD_INIT)) + I2C_ON + PROBE_OUT
  }

  /** The first part of open stops in the initialization when fewer than
    * 39 status replies are there: nothing reaches the I2C bus. */
  lemma PrepareShort(q: seq<seq<byte>>)
    requires |q| < |DEMOD_INIT|
    ensures PrepareStep(q).result.Err?
  {
    RegBatch(USB_LINES, q);
    InitBatchShort(q);
    assert q[0..] == q;
  }

  /** What the failing first part of open sends: the USB set-up, the claim
    * and the initialization up to the write that got no reply. */
  lemma PrepareShortOut(q: seq<seq<byte>>)
    requires |q| < |DEMOD_INIT|
    ensures PrepareStep(q).out == USB_OUT + [Claim(0)] + BatchStep(INIT_LINES, q).out
  {
    UsbLinesOut();
    RegBatch(USB_LINES, q);
    InitBatchShort(q);
    assert q[0..] == q;
    var usb := BatchStep(USB_LINES, q);
    var init := After([Claim(0)], BatchStep(INIT_LINES, q));
    var q2 := q[init.used..];
    var open := OpenI2CStep(q2);
    ChainStops(usb, init, Chain(open, CheckStep(q2[open.used..])));
    var io := BatchStep(INIT_LINES, q).out;
    assert PrepareStep(q).out == USB_OUT + ([Claim(0)] + io);
    Associative(USB_OUT, [Claim(0)], io);
  }

  /** Concatenation of transfer lists is associative. */
  lemma Associative(a: seq<Transfer>, b: seq<Transfer>, c: seq<Transfer>)
    ensures a + (b + c) == a + b + c
  {
  }

  /** A chain that fails at its second step sends the first two steps'
    * transfers only. */
  lemma ChainStops<T>(a: Step<()>, b: Step<()>, c: Step<T>)
    requires a.result.Ok? && b.result.Err?
    ensures Chain(a, Chain(b, c)).out == a.out + b.out && Chain(a, Chain(b, c)).result.Err?
  {
  }

  /** With exactly 39 replies the initialization goes through and the
    * repeater switch fails. */
  lemma PrepareNoSwitch(q: seq<seq<byte>>)
    requires |q| == |DEMOD_INIT|
    ensures PrepareStep(q).result.Err?
    ensures PrepareStep(q).out == USB_OUT + [Claim(0)] + SYS_OUT + DemodLinesOut(DemodLines(DEMOD_INIT)) + I2C_ON
  {
    UsbLinesOut();
    RegBatch(USB_LINES, q);
    InitBatch(q);
    assert q[0..] == q;
    RepeaterSteps(q[|DEMOD_INIT|..]);
  }

  /** With 40 replies everything is sent and the probe's read fails. */
  lemma PrepareNoProbe(q: seq<seq<byte>>)
    requires |q| == |DEMOD_INIT| + 1
    ensures PrepareStep(q).result.Err?
    ensures PrepareStep(q).out == PrepareOut()
  {
    var q2 := q[|DEMOD_INIT|..];
    UsbLinesOut();
    RegBatch(USB_LINES, q);
    InitBatch(q);
    assert q[0..] == q;
    RepeaterSteps(q2);
    ProbeAnswer(q2[1..]);
  }

  /** The first part of open in its fixed order: the USB set-up, the claim,
    * the initialization, the repeater on and the probe, reading 41 replies;
    * the tuner is found exactly when the probe's byte, the 41st reply, is
    * 0x69. */
  lemma PrepareProbe(q: seq<seq<byte>>)
    requires |q| >= |DEMOD_INIT| + 2
    ensures var n := |DEMOD_INIT|;
      PrepareStep(q) == Step(PrepareOut(), n + 2, Ok(q[n + 1] != [] && q[n + 1][0] == 0x69))
  {
    var n := |DEMOD_INIT|;
    var q2 := q[n..];
    UsbLinesOut();
    RegBatch(USB_LINES, q);
    InitBatch(q);
    assert q[0..] == q;
    RepeaterSteps(q2);
    ProbeAnswer(q2[1..]);
    assert q2[1..][0] == q[n + 1];
  }

  /** The preparation succeeds only once all 41 of its replies are there. */
  lemma PrepareNeeds(q: seq<seq<byte>>)
    ensures PrepareStep(q).result.Ok? ==> |q| >= |DEMOD_INIT| + 2
  {
    if |q| < |DEMOD_INIT| {
      PrepareShort(q);
    } else if |q| == |DEMOD_INIT| {
      PrepareNoSwitch(q);
    } else if |q| == |DEMOD_INIT| + 1 {
      PrepareNoProbe(q);
    }
  }

  /** A set-up that succeeds leaves the tuner's PLL locked, whatever the
    * earlier lock flag. */
  lemma SetupLocks(lock0: bool, xtal: nat, g: Option<real>, q: seq<seq<byte>>)
    requires xtal > 0
    ensures SetupRun(lock0, xtal, g, q).result.Ok? ==> SetupRun(lock0, xtal, g, q).after.lock
  {
    if |q| < 6 {
      SetupShort(lock0, xtal, g, q);
    } else if InitElectronicsRun(Tuning(REGISTERS, lock0), xtal, q[6..]).result.Err? {
      SetupInitFails(lock0, xtal, g, q);
    } else {
      SetupDone(lock0, xtal, g, q);
    }
  }

  /** open on a fresh device whose probe does not answer 0x69 fails with
    * UnsupportedTuner after the preparation, sending nothing to a tuner. */
  lemma OpenRejected(q: seq<seq<byte>>, lock0: bool, xtal: nat, g: Option<real>)
    requires xtal > 0 && |q| >= |DEMOD_INIT| + 2
    requires q[|DEMOD_INIT| + 1] == [] || q[|DEMOD_INIT| + 1][0] != 0x69
    ensures OpenRun(q, false, lock0, xtal, g) ==
      Run(PrepareOut(), |DEMOD_INIT| + 2, Tuning(REGISTERS, lock0), Err(UnsupportedTuner))
  {
    PrepareProbe(q);
  }

  /** open when the probe answers 0x69: the preparation's transfers, then
    * the set-up of the newly bound tuner, which starts unlocked. */
  lemma OpenFound(q: seq<seq<byte>>, hadTuner: bool, lock0: bool, xtal: nat, g: Option<real>)
    requires xtal > 0 && |q| >= |DEMOD_INIT| + 2
    requires q[|DEMOD_INIT| + 1] != [] && q[|DEMOD_INIT| + 1][0] == 0x69
    ensures var setup := SetupRun(false, xtal, g, q[|DEMOD_INIT| + 2..]);
      OpenRun(q, hadTuner, lock0, xtal, g) ==
        Run(PrepareOut() + setup.out, |DEMOD_INIT| + 2 + setup.used, setup.after, setup.result)
  {
    var n := |DEMOD_INIT|;
    PrepareProbe(q);
    OpenRunIs(q, hadTuner, lock0, xtal, g, Ok(true), q[n + 2..]);
    ProbeThenGoesOn(PrepareStep(q), hadTuner, lock0, SetupRun(false, xtal, g, q[n + 2..]));
  }

  /** open when the probe does not find a tuner but an earlier open bound
    * one: the preparation's transfers, then the set-up of that tuner with
    * its lock flag as it was. */
  lemma OpenRebound(q: seq<seq<byte>>, lock0: bool, xtal: nat, g: Option<real>)
    requires xtal > 0 && |q| >= |DEMOD_INIT| + 2
    requires q[|DEMOD_INIT| + 1] == [] || q[|DEMOD_INIT| + 1][0] != 0x69
    ensures var setup := SetupRun(lock0, xtal, g, q[|DEMOD_INIT| + 2..]);
      OpenRun(q, true, lock0, xtal, g) ==
        Run(PrepareOut() + setup.out, |DEMOD_INIT| + 2 + setup.used, setup.after, setup.result)
  {
    var n := |DEMOD_INIT|;
    PrepareProbe(q);
    OpenRunIs(q, true, lock0, xtal, g, Ok(false), q[n + 2..]);
    ProbeThenGoesOn(PrepareStep(q), true, lock0, SetupRun(lock0, xtal, g, q[n + 2..]));
  }

  /** Past a probe that found a tuner, or with one bound before, open's run
    * is the preparation followed by the set-up. */
  lemma ProbeThenGoesOn(pre: Step<bool>, hadTuner: bool, lock0: bool, setup: Run<()>)
    requires pre.result.Ok? && (pre.result.value || hadTuner)
    ensures ProbeThen(pre, hadTuner, lock0, setup) ==
      Run(pre.out + setup.out, pre.used + setup.used, setup.after, setup.result)
  {
  }

  /** open fails unless a status reply is there for each of its writes, and
    * when it succeeds the tuner's PLL is locked. */
  lemma OpenLocks(q: seq<seq<byte>>, hadTuner: bool, lock0: bool, xtal: nat, g: Option<real>)
    requires xtal > 0
    ensures OpenRun(q, hadTuner, lock0, xtal, g).result.Ok? ==>
      |q| >= |DEMOD_INIT| + 2 && OpenRun(q, hadTuner, lock0, xtal, g).after.lock
  {
    var pre := PrepareStep(q);
    PrepareNeeds(q);
    if pre.result.Ok? && (pre.result.value || hadTuner) {
      var found := pre.result == Ok(true);
      SetupLocks(if found then false else lock0, xtal, g, q[pre.used..]);
      OpenRunIs(q, hadTuner, lock0, xtal, g, pre.result, q[pre.used..]);
    }
  }
}
