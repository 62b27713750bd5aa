/** The R820T tuner as an object: the shadow register bank, the PLL lock
  * flag and the operations that drive the chip over I2C.
  *
  * Every operation is specified by a run function of the initial tuning
  * state and of the replies the device will give: the transfers it sends,
  * the replies it consumes, the state it leaves and its outcome. The
  * methods of `Tuner` are proved to do exactly what their run says. */
module R820TTuner {
  import opened Bits
  import opened Errors
  import opened Transport
  import opened RtlCom
  import opened R820T

  // ----- Runs -----

  /** The tuner's state: the shadow bank and the PLL lock flag. */
  datatype Tuning = Tuning(regs: Bank, lock: bool)

  /** What a tuner operation does: the transfers, the replies consumed, the
    * state it leaves and its outcome. */
  datatype Run<T> = Run(out: seq<Transfer>, used: nat, after: Tuning, result: Result<T>)

  /** Nothing sent, nothing read: the state t and the value v. */
  function Ret<T>(t: Tuning, v: T): Run<T>
  {
    Run([], 0, t, Ok(v))
  }

  /** Nothing sent, nothing read: the state t and the error e. */
  function Fail<T>(t: Tuning, e: Error): Run<T>
  {
    Run([], 0, t, Err(e))
  }

  /** a, then b from the state a left. */
  function AndThen<T>(a: Run<()>, b: Run<T>): Run<T>
  {
    Run(a.out + b.out, a.used + b.used, b.after, b.result)
  }

  /** a with its value dropped. */
  function Done<T>(a: Run<T>): Run<()>
  {
    Run(a.out, a.used, a.after, Ok(()))
  }

  /** a's failure, as an outcome of another type. */
  function Failed<T, U>(a: Run<T>): Run<U>
    requires a.result.Err?
  {
    Run(a.out, a.used, a.after, Err(a.result.error))
  }

  /** The transfers, replies and state of an operation are those of run:
    * from trace tr0 and replies q0 it reached state t1, trace tr1 and
    * replies q1 with outcome r. */
  ghost predicate Moves<T>(run: Run<T>, tr0: seq<Transfer>, q0: seq<seq<byte>>,
                           t1: Tuning, tr1: seq<Transfer>, q1: seq<seq<byte>>, r: Result<T>)
  {
    run.used <= |q0| && t1 == run.after && tr1 == tr0 + run.out && q1 == q0[run.used..] && r == run.result
  }

  lemma MovesThen<T>(a: Run<()>, b: Run<T>, tr0: seq<Transfer>, q0: seq<seq<byte>>,
                     t1: Tuning, tr1: seq<Transfer>, q1: seq<seq<byte>>,
                     t2: Tuning, tr2: seq<Transfer>, q2: seq<seq<byte>>, r: Result<T>)
    requires Moves(a, tr0, q0, t1, tr1, q1, Ok(())) && Moves(b, tr1, q1, t2, tr2, q2, r)
    ensures Moves(AndThen(a, b), tr0, q0, t2, tr2, q2, r)
  {
    assert q0[a.used..][b.used..] == q0[a.used + b.used..];
  }

  /** writeEach: the masked writes in order. */
  function WritesRun(t: Tuning, ws: seq<RegWrite>): (r: Run<()>)
    ensures r.used == 0 && r.result == Ok(()) && r.after.lock == t.lock
  {
    Run(WritesOut(t.regs, ws), 0, Tuning(ApplyAll(t.regs, ws), t.lock), Ok(()))
  }

  /** readRegBuffer: an I2C read of the chip, each byte bit-reversed. */
  function ReadBackRun(t: Tuning, addr: int, length: nat, q: seq<seq<byte>>): (r: Run<seq<byte>>)
    ensures r.used <= |q| && r.after == t
  {
    var s := ReadStep(addr, length, q);
    Run(s.out, s.used, t, s.result)
  }

  /** getPllLock: read the status; when unlocked on the first try, adjust
    * register 0x12 and look once more. */
  function GetPllLockRun(t: Tuning, firstTry: bool, q: seq<seq<byte>>): (r: Run<()>)
    ensures r.used <= |q|
    decreases firstTry
  {
    var rd := ReadBackRun(t, 0x00, 3, q);
    if rd.result.Err? then Failed(rd)
    else if LockSeen(rd.result.value) then AndThen(Done(rd), Ret(Tuning(t.regs, true), ()))
    else if firstTry then
      var head := AndThen(Done(rd), WritesRun(t, [LOCK_RETRY]));
      AndThen(head, GetPllLockRun(head.after, false, q[head.used..]))
    else AndThen(Done(rd), Ret(Tuning(t.regs, false), ()))
  }

  /** setPll: prepare, read the VCO fine tune and write the divider, then
    * program the PLL. */
  function SetPllRun(t: Tuning, freq: int, pllRef: nat, q: seq<seq<byte>>): (r: Run<Option<real>>)
    requires Tunable(freq) && pllRef > 0
    ensures r.used <= |q|
  {
    var a := WritesRun(t, PLL_PREPARE);
    var rd := ReadBackRun(a.after, 0x00, 5, q[a.used..]);
    if rd.result.Err? then AndThen(a, Failed(rd))
    else
      var s1 := AndThen(AndThen(a, Done(rd)), WritesRun(rd.after, [DividerWrite(freq, VcoFineTune(rd.result.value))]));
      AndThen(s1, ProgramPllRun(s1.after, freq, pllRef, q[s1.used..]))
  }

  /** The rest of setPll: unless the integer divider is out of range,
    * program it and the fractional part, then start the PLL. */
  function ProgramPllRun(t: Tuning, freq: int, pllRef: nat, q: seq<seq<byte>>): (r: Run<Option<real>>)
    requires Tunable(freq) && pllRef > 0
    ensures r.used <= |q|
  {
    if Nint(freq, pllRef) > 63 then Ret(Tuning(t.regs, false), None)
    else
      var s2 := WritesRun(t, IntegerWrites(freq, pllRef));
      var s3 := AndThen(s2, WritesRun(s2.after, SdmWrites(freq, pllRef)));
      AndThen(s3, StartPllRun(s3.after, ActualFreq(freq, pllRef), q[s3.used..]))
  }

  /** The end of setPll: check the lock, start the PLL and report the
    * synthesized frequency. */
  function StartPllRun(t: Tuning, actual: real, q: seq<seq<byte>>): (r: Run<Option<real>>)
    ensures r.used <= |q|
  {
    var lock := GetPllLockRun(t, true, q);
    if lock.result.Err? then Failed(lock)
    else
      var s4 := AndThen(lock, WritesRun(lock.after, [PLL_DONE]));
      AndThen(s4, Ret(s4.after, Some(actual)))
  }

  /** One pass of calibrateFilter: tune the PLL to 56 MHz, fail unless it
    * locked, then measure. */
  function CalibratePassRun(t: Tuning, pllRef: nat, q: seq<seq<byte>>): (r: Run<nat>)
    requires pllRef > 0
    ensures r.used <= |q|
  {
    var a := WritesRun(t, CALIBRATE_PREPARE);
    var pll := SetPllRun(a.after, CALIBRATION_FREQ, pllRef, q[a.used..]);
    if pll.result.Err? then AndThen(a, Failed(pll))
    else
      var s1 := AndThen(a, Done(pll));
      if !s1.after.lock then AndThen(s1, Fail(s1.after, PllNotLocked))
      else AndThen(s1, MeasureRun(s1.after, q[s1.used..]))
  }

  /** Trigger the filter calibration and read the capacitance it found. */
  function MeasureRun(t: Tuning, q: seq<seq<byte>>): (r: Run<nat>)
    ensures r.used <= |q|
  {
    var s2 := WritesRun(t, CALIBRATE_TRIGGER);
    var rd := ReadBackRun(s2.after, 0x00, 5, q[s2.used..]);
    if rd.result.Err? then AndThen(s2, Failed(rd))
    else AndThen(AndThen(s2, Done(rd)), Ret(rd.after, FilterCap(rd.result.value)))
  }

  /** calibrateFilter: a pass, and on the first try a second pass when the
    * first read a non-zero capacitance. */
  function CalibrateFilterRun(t: Tuning, pllRef: nat, firstTry: bool, q: seq<seq<byte>>): (r: Run<nat>)
    requires pllRef > 0
    ensures r.used <= |q|
    decreases firstTry
  {
    var pass := CalibratePassRun(t, pllRef, q);
    if pass.result.Ok? && pass.result.value != 0 && firstTry then
      AndThen(Done(pass), CalibrateFilterRun(pass.after, pllRef, false, q[pass.used..]))
    else pass
  }

  /** initElectronics: prepare, calibrate the filter, and program the rest
    * with the calibrated capacitance. */
  function InitElectronicsRun(t: Tuning, pllRef: nat, q: seq<seq<byte>>): (r: Run<()>)
    requires pllRef > 0
    ensures r.used <= |q|
  {
    var a := WritesRun(t, ELECTRONICS_PREPARE);
    var cal := CalibrateFilterRun(a.after, pllRef, true, q[a.used..]);
    if cal.result.Err? then AndThen(a, Failed(cal))
    else AndThen(AndThen(a, Done(cal)), WritesRun(cal.after, ElectronicsSetup(cal.result.value)))
  }

  /** setMux: the writes of the band the frequency falls in. */
  function SetMuxRun(t: Tuning, freq: int): (r: Run<()>)
    ensures r.used == 0 && r.result == Ok(())
  {
    WritesRun(t, MuxWrites(MUX_CFGS[MuxIndex(freq)]))
  }

  /** setFrequency: the band, then the PLL. */
  function SetFrequencyRun(t: Tuning, freq: int, pllRef: nat, q: seq<seq<byte>>): (r: Run<Option<real>>)
    requires Tunable(freq) && pllRef > 0
    ensures r.used <= |q|
  {
    var mux := SetMuxRun(t, freq);
    AndThen(mux, SetPllRun(mux.after, freq, pllRef, q[mux.used..]))
  }

  /** The I2C transfers of initRegisters: one write per register, 0x05 to
    * 0x1f in ascending order. */
  function InitRegistersOut(regs: Bank): (r: seq<Transfer>)
    ensures |r| == BANK_SIZE
    ensures forall i :: 0 <= i < BANK_SIZE ==> r[i] == ControlOut(I2C_ADDR, 0x610, [i + FIRST_REG, regs[i]])
  {
    seq(BANK_SIZE, i requires 0 <= i < BANK_SIZE => ControlOut(I2C_ADDR, 0x610, [i + FIRST_REG, regs[i]]))
  }

  /** The batch initRegisters hands to the protocol layer. */
  function InitLines(regs: Bank): (r: seq<Line>)
    ensures |r| == BANK_SIZE
  {
    seq(BANK_SIZE, i requires 0 <= i < BANK_SIZE => Line(CMD_I2CREG, I2C_ADDR, i + FIRST_REG, regs[i], 0))
  }

  /** initRegisters hands the protocol layer one I2C write per register, in
    * ascending address order, and they all go through. */
  lemma InitRegistersBatch(regs: Bank, q: seq<seq<byte>>)
    ensures AllWellFormed(InitLines(regs))
    ensures BatchStep(InitLines(regs), q) == Step(InitRegistersOut(regs), 0, Ok(()))
  {
    var lines := InitLines(regs);
    I2CBatch(lines, q);
    InitLinesOut(regs, 0);
    assert lines[0..] == lines;
    assert InitRegistersOut(regs)[0..] == InitRegistersOut(regs);
  }

  lemma {:induction false} InitLinesOut(regs: Bank, i: nat)
    requires i <= BANK_SIZE
    ensures I2CLinesOut(InitLines(regs)[i..]) == InitRegistersOut(regs)[i..]
    decreases BANK_SIZE - i
  {
    if i < BANK_SIZE {
      InitLinesOut(regs, i + 1);
      var lines := InitLines(regs)[i..];
      assert lines[0] == Line(CMD_I2CREG, I2C_ADDR, i + FIRST_REG, regs[i], 0);
      assert lines[1..] == InitLines(regs)[i + 1..];
      assert InitRegistersOut(regs)[i..] == [InitRegistersOut(regs)[i]] + InitRegistersOut(regs)[i + 1..];
      assert WriteIndex(BLOCK_I2C) == 0x610;
    }
  }

  // ----- Properties of the runs -----

  /** The lock check fails when no reply is left. Otherwise it reports the
    * lock bit of the status it read; unlocked on the first try it writes
    * 0x60 under mask 0xe0 to register 0x12 and looks exactly once more, and
    * that second look decides. */
  lemma GetPllLockOutcome(t: Tuning, firstTry: bool, r0: seq<byte>, r1: seq<byte>, q: seq<seq<byte>>)
    ensures GetPllLockRun(t, firstTry, []).result.Err?
    ensures var run := GetPllLockRun(t, firstTry, [r0] + q);
      var first := LockSeen(ReverseAll(Prefix(r0, 3)));
      (first ==> run.result == Ok(()) && run.used == 1 && run.after == Tuning(t.regs, true)) &&
      (!first && !firstTry ==> run.result == Ok(()) && run.used == 1 && run.after == Tuning(t.regs, false)) &&
      (!first && firstTry && q == [] ==> run.result.Err?)
    ensures var run := GetPllLockRun(t, true, [r0, r1] + q);
      !LockSeen(ReverseAll(Prefix(r0, 3))) ==>
        run.result == Ok(()) && run.used == 2 &&
        run.after == Tuning(Apply(t.regs, LOCK_RETRY), LockSeen(ReverseAll(Prefix(r1, 3)))) &&
        run.out == ReadStep(0x00, 3, [r0]).out + WriteOut(t.regs, LOCK_RETRY) + ReadStep(0x00, 3, [r1]).out
  {
    assert ([r0] + q)[0] == r0 && ([r0] + q)[1..] == q;
    assert ([r0, r1] + q)[0] == r0 && ([r0, r1] + q)[1..] == [r1] + q && ([r1] + q)[0] == r1;
    WritesOne(t.regs, LOCK_RETRY);
  }

  /** The lock check leaves every register but 0x12 alone, and bit 3 of
    * 0x12 too. */
  lemma LockKeeps(t: Tuning, q: seq<seq<byte>>)
    ensures var l := GetPllLockRun(t, true, q).after.regs;
      (forall i :: 0 <= i < BANK_SIZE && i != 0x12 - FIRST_REG ==> l[i] == t.regs[i]) &&
      BitOf(l[0x12 - FIRST_REG], 3) == BitOf(t.regs[0x12 - FIRST_REG], 3)
  {
    var run := GetPllLockRun(t, true, q);
    var retried := Apply(t.regs, LOCK_RETRY);
    WritesOne(t.regs, LOCK_RETRY);
    ApplyBits(t.regs, LOCK_RETRY, 0x12, 3);
    assert BitOf(0xe0, 3) == 0;
    forall i | 0 <= i < BANK_SIZE && i != 0x12 - FIRST_REG
      ensures retried[i] == t.regs[i]
    {
      ApplyBits(t.regs, LOCK_RETRY, i + FIRST_REG, 0);
    }
    assert run.after.regs == t.regs || run.after.regs == retried;
  }

  lemma LockFailsOnlyOnRead(t: Tuning, firstTry: bool, q: seq<seq<byte>>)
    ensures GetPllLockRun(t, firstTry, q).result.Err? ==> GetPllLockRun(t, firstTry, q).result.error.TransportError?
  {
  }

  /** When nint exceeds 63 setPll clears the lock flag and returns no
    * frequency, after the preparation writes, the status read and the
    * divider write, and sends nothing more. */
  lemma PllBailOut(t: Tuning, freq: int, pllRef: nat, reply: seq<byte>, q: seq<seq<byte>>)
    requires Tunable(freq) && pllRef > 0 && Nint(freq, pllRef) > 63
    ensures var run := SetPllRun(t, freq, pllRef, [reply] + q);
      var fine := VcoFineTune(ReverseAll(Prefix(reply, 5)));
      run.result == Ok(None) && run.used == 1 && !run.after.lock &&
      run.after.regs == ApplyAll(t.regs, PLL_PREPARE + [DividerWrite(freq, fine)]) &&
      run.out == WritesOut(t.regs, PLL_PREPARE) + ReadStep(0x00, 5, [reply]).out
                 + WriteOut(ApplyAll(t.regs, PLL_PREPARE), DividerWrite(freq, fine))
  {
    assert ([reply] + q)[0] == reply;
    var fine := VcoFineTune(ReverseAll(Prefix(reply, 5)));
    WritesSnoc(t.regs, PLL_PREPARE, DividerWrite(freq, fine));
    WritesOne(ApplyAll(t.regs, PLL_PREPARE), DividerWrite(freq, fine));
  }

  /** When the divider is in range and setPll succeeds, it returns the
    * frequency of its divider settings and leaves 0x14 = ni + (si << 6),
    * bit 3 of 0x12 set exactly when vcoFra is 0, sdm's high and low bytes
    * in 0x16 and 0x15, and bit 3 of 0x1a set. */
  lemma PllRegisters(t: Tuning, freq: int, pllRef: nat, q: seq<seq<byte>>)
    requires Tunable(freq) && pllRef > 0 && Nint(freq, pllRef) <= 63
    requires SetPllRun(t, freq, pllRef, q).result.Ok?
    ensures var run := SetPllRun(t, freq, pllRef, q);
      var nint, sdm := Nint(freq, pllRef), Sdm(freq, pllRef);
      var regs := run.after.regs;
      run.result == Ok(Some(ActualFreq(freq, pllRef))) &&
      regs[0x14 - FIRST_REG] == (Ni(nint) + Si(nint) * 64) % 0x100 &&
      (BitOf(regs[0x12 - FIRST_REG], 3) == 1 <==> VcoFra(freq, pllRef) == 0) &&
      regs[0x16 - FIRST_REG] == sdm / 256 && regs[0x15 - FIRST_REG] == sdm % 256 &&
      BitOf(regs[0x1a - FIRST_REG], 3) == 1
  {
    var a := WritesRun(t, PLL_PREPARE);
    var rd := ReadBackRun(a.after, 0x00, 5, q[a.used..]);
    var s1 := AndThen(AndThen(a, Done(rd)), WritesRun(rd.after, [DividerWrite(freq, VcoFineTune(rd.result.value))]));
    var q1 := q[s1.used..];
    var s2 := WritesRun(s1.after, IntegerWrites(freq, pllRef));
    var s3 := AndThen(s2, WritesRun(s2.after, SdmWrites(freq, pllRef)));
    var d := s3.after.regs;
    DividerRegisters(s1.after.regs, freq, pllRef);
    var lock := GetPllLockRun(s3.after, true, q1[s3.used..]);
    LockKeeps(s3.after, q1[s3.used..]);
    var l := lock.after.regs;
    assert l[0x14 - FIRST_REG] == d[0x14 - FIRST_REG] && l[0x15 - FIRST_REG] == d[0x15 - FIRST_REG];
    assert l[0x16 - FIRST_REG] == d[0x16 - FIRST_REG];
    WritesOne(l, PLL_DONE);
    ApplyBits(l, PLL_DONE, 0x12, 3);
    ApplyBits(l, PLL_DONE, 0x14, 0);
    ApplyBits(l, PLL_DONE, 0x15, 0);
    ApplyBits(l, PLL_DONE, 0x16, 0);
    assert BitOf(0x08, 3) == 1;
  }

  /** Whatever frequency setPll reports is the one its divider settings
    * synthesize, and it reports one only for an integer divider of at most 63. */
  lemma PllResult(t: Tuning, freq: int, pllRef: nat, q: seq<seq<byte>>)
    requires Tunable(freq) && pllRef > 0
    ensures var r := SetPllRun(t, freq, pllRef, q).result;
      r.Ok? && r.value.Some? ==> Nint(freq, pllRef) <= 63 && r.value.value == ActualFreq(freq, pllRef)
  {
    var r := SetPllRun(t, freq, pllRef, q).result;
    if r.Ok? && Nint(freq, pllRef) <= 63 {
      PllRegisters(t, freq, pllRef, q);
    }
  }

  /** setPll itself never fails with PllNotLocked: only its reads can fail. */
  lemma PllFailsOnlyOnRead(t: Tuning, freq: int, pllRef: nat, q: seq<seq<byte>>)
    requires Tunable(freq) && pllRef > 0
    ensures SetPllRun(t, freq, pllRef, q).result.Err? ==> SetPllRun(t, freq, pllRef, q).result.error.TransportError?
  {
    var a := WritesRun(t, PLL_PREPARE);
    var rd := ReadBackRun(a.after, 0x00, 5, q[a.used..]);
    if rd.result.Ok? && Nint(freq, pllRef) <= 63 {
      var s1 := AndThen(AndThen(a, Done(rd)), WritesRun(rd.after, [DividerWrite(freq, VcoFineTune(rd.result.value))]));
      var q1 := q[s1.used..];
      var s2 := WritesRun(s1.after, IntegerWrites(freq, pllRef));
      var s3 := AndThen(s2, WritesRun(s2.after, SdmWrites(freq, pllRef)));
      LockFailsOnlyOnRead(s3.after, true, q1[s3.used..]);
    }
  }

  /** A calibration that succeeds leaves the PLL locked and a capacitance of
    * at most 14; one that fails with PllNotLocked leaves the flag clear. */
  lemma {:induction false} CalibrateOutcome(t: Tuning, pllRef: nat, firstTry: bool, q: seq<seq<byte>>)
    requires pllRef > 0
    ensures var run := CalibrateFilterRun(t, pllRef, firstTry, q);
      (run.result.Ok? ==> run.result.value <= 14 && run.after.lock) &&
      (run.result == Err(PllNotLocked) ==> !run.after.lock)
    decreases firstTry
  {
    var a := WritesRun(t, CALIBRATE_PREPARE);
    var pll := SetPllRun(a.after, CALIBRATION_FREQ, pllRef, q[a.used..]);
    PllFailsOnlyOnRead(a.after, CALIBRATION_FREQ, pllRef, q[a.used..]);
    var pass := CalibratePassRun(t, pllRef, q);
    if pass.result.Ok? && pass.result.value != 0 && firstTry {
      CalibrateOutcome(pass.after, pllRef, false, q[pass.used..]);
    }
  }

  /** The second calibration pass never recurses: calibrateFilter(false) is
    * one pass, and calibrateFilter(true) runs a second pass only after a
    * first pass that read a non-zero capacitance. */
  lemma CalibrateRetriesOnce(t: Tuning, pllRef: nat, q: seq<seq<byte>>)
    requires pllRef > 0
    ensures CalibrateFilterRun(t, pllRef, false, q) == CalibratePassRun(t, pllRef, q)
    ensures var once := CalibratePassRun(t, pllRef, q);
      var run := CalibrateFilterRun(t, pllRef, true, q);
      (once.result.Err? || once.result == Ok(0) ==> run == once) &&
      (once.result.Ok? && once.result.value != 0 ==>
         run == AndThen(Done(once), CalibratePassRun(once.after, pllRef, q[once.used..])))
  {
    var once := CalibratePassRun(t, pllRef, q);
    if once.result.Ok? && once.result.value != 0 {
      assert CalibrateFilterRun(once.after, pllRef, false, q[once.used..]) == CalibratePassRun(once.after, pllRef, q[once.used..]);
    }
  }

  /** After initElectronics succeeds the PLL is locked, and the bank is the
    * calibrated one with the rest of the programming applied: bits 0-3 of
    * 0x0a hold the capacitance and bit 4 is set. */
  lemma ElectronicsOutcome(t: Tuning, pllRef: nat, q: seq<seq<byte>>, k: nat)
    requires pllRef > 0 && k < 5
    requires InitElectronicsRun(t, pllRef, q).result.Ok?
    ensures var a := WritesRun(t, ELECTRONICS_PREPARE);
      var cal := CalibrateFilterRun(a.after, pllRef, true, q[a.used..]);
      var run := InitElectronicsRun(t, pllRef, q);
      cal.result.Ok? && cal.result.value <= 14 && run.after.lock &&
      run.after.regs == ApplyAll(cal.after.regs, ElectronicsSetup(cal.result.value)) &&
      BitOf(run.after.regs[0x0a - FIRST_REG], k) == BitOf(WithBit(cal.result.value, 4), k)
  {
    var a := WritesRun(t, ELECTRONICS_PREPARE);
    var cal := CalibrateFilterRun(a.after, pllRef, true, q[a.used..]);
    CalibrateOutcome(a.after, pllRef, true, q[a.used..]);
    ElectronicsFilterCap(cal.after.regs, cal.result.value, k);
  }

  /** Tuning is the band writes and then setPll from the bank they leave. */
  lemma FrequencyRun(t: Tuning, freq: int, pllRef: nat, q: seq<seq<byte>>)
    requires Tunable(freq) && pllRef > 0
    ensures var run := SetFrequencyRun(t, freq, pllRef, q);
      var ws := MuxWrites(MUX_CFGS[MuxIndex(freq)]);
      var pll := SetPllRun(Tuning(ApplyAll(t.regs, ws), t.lock), freq, pllRef, q);
      run.out == WritesOut(t.regs, ws) + pll.out && run.used == pll.used &&
      run.after == pll.after && run.result == pll.result
  {
    assert q[0..] == q;
  }

  // ----- The probe -----

  /** R820T.check: the chip answers 0x69 from register 0. */
  function CheckStep(q: seq<seq<byte>>): (s: Step<bool>)
    ensures s.used <= |q|
  {
    var s := ReadI2CRegStep(I2C_ADDR, 0, q);
    Step(s.out, s.used, if s.result.Err? then Err(s.result.error) else Ok(s.result.value == Some(0x69)))
  }

  method Check(com: Com) returns (r: Result<bool>)
    modifies com.conn
    ensures Did(com.conn, CheckStep(old(com.conn.replies)), r)
  {
    var data :- com.ReadI2CReg(I2C_ADDR, 0);
    r := Ok(data == Some(0x69));
  }

  // ----- The tuner object -----

  class Tuner {
    const com: Com
    /** The reference frequency, `Math.floor(xtalFreq)`. */
    const pllRef: Positive
    var shadow: array?<byte>
    var hasPllLock: bool

    ghost predicate Ready()
      reads this
    {
      shadow != null && shadow.Length == BANK_SIZE
    }

    function State(): Tuning
      reads this, shadow
      requires Ready()
    {
      Tuning(shadow[..], hasPllLock)
    }

    /** The operation did what `run` describes, on the same shadow array. */
    twostate predicate Does<T>(new run: Run<T>, new r: Result<T>)
      reads this, shadow, com.conn
    {
      Ready() && shadow == old(shadow) &&
      Moves(run, old(com.conn.trace), old(com.conn.replies), State(), com.conn.trace, com.conn.replies, r)
    }

    constructor (com: Com, xtalFreq: nat)
      requires xtalFreq > 0
      ensures this.com == com && pllRef == xtalFreq && shadow == null && !hasPllLock
    {
      this.com := com;
      pllRef := xtalFreq;
      shadow := null;
      hasPllLock := false;
    }

    /** writeRegMask: merge into the shadow register and send the result. */
    method WriteRegMask(w: RegWrite)
      requires Ready()
      modifies shadow, com.conn
      ensures Does(WritesRun(old(State()), [w]), Ok(()))
    {
      ghost var regs0 := shadow[..];
      var rc := shadow[w.addr - FIRST_REG];
      var val := MaskedByte(rc, w.value % 0x100, w.mask);
      shadow[w.addr - FIRST_REG] := val;
      com.WriteI2CReg(I2C_ADDR, w.addr, val);
      WritesOne(regs0, w);
      assert shadow[..] == Apply(regs0, w);
    }

    /** writeEach: the masked writes one after another. */
    method WriteEach(ws: seq<RegWrite>)
      requires Ready()
      modifies shadow, com.conn
      ensures Does(WritesRun(old(State()), ws), Ok(()))
    {
      ghost var regs0: Bank := shadow[..];
      ghost var trace0 := com.conn.trace;
      var i := 0;
      while i < |ws|
        invariant 0 <= i <= |ws|
        invariant shadow[..] == ApplyAll(regs0, ws[..i])
        invariant com.conn.trace == trace0 + WritesOut(regs0, ws[..i])
        invariant com.conn.replies == old(com.conn.replies)
      {
        WritesSnoc(regs0, ws[..i], ws[i]);
        assert ws[..i + 1] == ws[..i] + [ws[i]];
        WritesOne(shadow[..], ws[i]);
        WriteRegMask(ws[i]);
        i := i + 1;
      }
      assert ws[..i] == ws;
    }

    /** The loop of readRegBuffer: reverse the bits of each byte in place. */
    static method ReverseEach(buf: array<byte>)
      modifies buf
      ensures buf[..] == ReverseAll(old(buf[..]))
    {
      var i := 0;
      while i < buf.Length
        invariant 0 <= i <= buf.Length
        invariant forall j :: 0 <= j < i ==> buf[j] == ReverseBits(old(buf[j]))
        invariant forall j :: i <= j < buf.Length ==> buf[j] == old(buf[j])
      {
        var b := buf[i];
        buf[i] := ReverseBits(b);
        i := i + 1;
      }
    }

    /** readRegBuffer: read over I2C and reverse the bits of each byte in place. */
    method ReadRegBuffer(addr: int, length: nat) returns (r: Result<seq<byte>>)
      requires Ready()
      modifies com.conn
      ensures Does(ReadBackRun(old(State()), addr, length, old(com.conn.replies)), r)
    {
      var data := com.ReadI2CRegBuffer(I2C_ADDR, addr, length);
      if data.Err? {
        return Err(data.error);
      }
      var buf := new byte[|data.value|](i requires 0 <= i < |data.value| => data.value[i]);
      ReverseEach(buf);
      assert buf[..] == ReverseAll(data.value);
      r := Ok(buf[..]);
    }

    /** getPllLock. */
    method GetPllLock(firstTry: bool) returns (r: Result<()>)
      requires Ready()
      modifies this, shadow, com.conn
      ensures Does(GetPllLockRun(old(State()), firstTry, old(com.conn.replies)), r)
      decreases firstTry
    {
      ghost var t0, tr0, q0 := State(), com.conn.trace, com.conn.replies;
      ghost var rd := ReadBackRun(t0, 0x00, 3, q0);
      var data := ReadRegBuffer(0x00, 3);
      if data.Err? {
        return Err(data.error);
      }
      ghost var tr1, q1 := com.conn.trace, com.conn.replies;
      if BitOf(ByteAt(data.value, 2), 6) == 1 {
        hasPllLock := true;
        MovesThen(Done(rd), Ret(State(), ()), tr0, q0, t0, tr1, q1, State(), tr1, q1, Ok(()));
        return Ok(());
      }
      if firstTry {
        ghost var w := WritesRun(t0, [LOCK_RETRY]);
        WriteRegMask(LOCK_RETRY);
        ghost var tr2, q2 := com.conn.trace, com.conn.replies;
        MovesThen(Done(rd), w, tr0, q0, t0, tr1, q1, w.after, tr2, q2, Ok(()));
        ghost var head := AndThen(Done(rd), w);
        r := GetPllLock(false);
        ghost var rest := GetPllLockRun(w.after, false, q2);
        MovesThen(head, rest, tr0, q0, w.after, tr2, q2, State(), com.conn.trace, com.conn.replies, r);
        assert GetPllLockRun(t0, true, q0) == AndThen(head, rest);
      } else {
        hasPllLock := false;
        MovesThen(Done(rd), Ret(State(), ()), tr0, q0, t0, tr1, q1, State(), tr1, q1, Ok(()));
        r := Ok(());
      }
    }

    /** setPll: the PLL's dividers for `freq`; the frequency they
      * synthesize, or `None` when the integer divider is out of range. */
    /** setPll. */
    method SetPll(freq: int) returns (r: Result<Option<real>>)
      requires Ready() && Tunable(freq)
      modifies this, shadow, com.conn
      ensures Does(SetPllRun(old(State()), freq, pllRef, old(com.conn.replies)), r)
    {
      ghost var t0, tr0, q0 := State(), com.conn.trace, com.conn.replies;
      ghost var a := WritesRun(t0, PLL_PREPARE);
      WriteEach(PLL_PREPARE);
      ghost var tr1, q1 := com.conn.trace, com.conn.replies;
      var divNum := DivNum(freq);
      var mixDiv := Pow2(divNum + 1);
      ghost var rd := ReadBackRun(a.after, 0x00, 5, q1);
      var data := ReadRegBuffer(0x00, 5);
      if data.Err? {
        MovesThen<Option<real>>(a, Failed(rd), tr0, q0, a.after, tr1, q1, State(), com.conn.trace, com.conn.replies, Err(data.error));
        return Err(data.error);
      }
      ghost var tr2, q2 := com.conn.trace, com.conn.replies;
      MovesThen(a, Done(rd), tr0, q0, a.after, tr1, q1, State(), tr2, q2, Ok(()));
      var vcoFineTune := (ByteAt(data.value, 4) / 16) % 4;
      var div: int := divNum;
      if vcoFineTune > 2 {
        div := div - 1;
      } else if vcoFineTune < 2 {
        div := div + 1;
      }
      ghost var w := WritesRun(rd.after, [DividerWrite(freq, VcoFineTune(data.value))]);
      WriteRegMask(RegWrite(0x10, div * 32, 0xe0));
      ghost var s1 := AndThen(AndThen(a, Done(rd)), w);
      ghost var t3, tr3, q3 := State(), com.conn.trace, com.conn.replies;
      MovesThen(AndThen(a, Done(rd)), w, tr0, q0, rd.after, tr2, q2, t3, tr3, q3, Ok(()));
      r := ProgramPll(freq, mixDiv);
      MovesThen(s1, ProgramPllRun(t3, freq, pllRef, q3), tr0, q0, t3, tr3, q3, State(), com.conn.trace, com.conn.replies, r);
    }

    /** Lines 264-281 of setPll: the integer and fractional dividers. */
    method ProgramPll(freq: int, mixDiv: nat) returns (r: Result<Option<real>>)
      requires Ready() && Tunable(freq) && mixDiv == MixDiv(freq)
      modifies this, shadow, com.conn
      ensures Does(ProgramPllRun(old(State()), freq, pllRef, old(com.conn.replies)), r)
    {
      ghost var t0, tr0, q0 := State(), com.conn.trace, com.conn.replies;
      // The divider arithmetic of the source, as the functions that define it.
      var nint := Nint(freq, pllRef);
      var vcoFra := VcoFra(freq, pllRef);
      if nint > 63 {
        hasPllLock := false;
        return Ok(None);
      }
      var ni, si := Ni(nint), Si(nint);
      var integer := [RegWrite(0x14, ni + si * 64, 0xff), RegWrite(0x12, if vcoFra == 0 then 0x08 else 0x00, 0x08)];
      assert integer == IntegerWrites(freq, pllRef);
      ghost var s2 := WritesRun(t0, IntegerWrites(freq, pllRef));
      WriteEach(integer);
      ghost var tr4, q4 := com.conn.trace, com.conn.replies;
      var sdm := Sdm(freq, pllRef);
      var fraction := [RegWrite(0x16, sdm / 256, 0xff), RegWrite(0x15, sdm % 256, 0xff)];
      assert fraction == SdmWrites(freq, pllRef);
      ghost var sw := WritesRun(s2.after, SdmWrites(freq, pllRef));
      WriteEach(fraction);
      ghost var s3 := AndThen(s2, sw);
      ghost var tr5, q5 := com.conn.trace, com.conn.replies;
      MovesThen(s2, sw, tr0, q0, s2.after, tr4, q4, sw.after, tr5, q5, Ok(()));
      var actualFreq := Synthesized(pllRef, nint, sdm, mixDiv);
      r := StartPll(actualFreq);
      MovesThen(s3, StartPllRun(sw.after, actualFreq, q5), tr0, q0, sw.after, tr5, q5, State(), com.conn.trace, com.conn.replies, r);
    }

    /** Lines 282-285 of setPll: check the lock, start the PLL, and return
      * the frequency. */
    method StartPll(actualFreq: real) returns (r: Result<Option<real>>)
      requires Ready()
      modifies this, shadow, com.conn
      ensures Does(StartPllRun(old(State()), actualFreq, old(com.conn.replies)), r)
    {
      ghost var t0, tr0, q0 := State(), com.conn.trace, com.conn.replies;
      ghost var lock := GetPllLockRun(t0, true, q0);
      var locked := GetPllLock(true);
      if locked.Err? {
        return Err(locked.error);
      }
      ghost var tr6, q6 := com.conn.trace, com.conn.replies;
      ghost var done := WritesRun(lock.after, [PLL_DONE]);
      WriteRegMask(PLL_DONE);
      ghost var tr7, q7 := com.conn.trace, com.conn.replies;
      MovesThen(lock, done, tr0, q0, lock.after, tr6, q6, done.after, tr7, q7, Ok(()));
      r := Ok(Some(actualFreq));
      MovesThen(AndThen(lock, done), Ret(done.after, Some(actualFreq)), tr0, q0, done.after, tr7, q7, done.after, tr7, q7, r);
    }

    static lemma CalibrateTuneFails(t: Tuning, pllRef: nat, q: seq<seq<byte>>, a: Run<()>, pll: Run<Option<real>>)
      requires pllRef > 0
      requires a == WritesRun(t, CALIBRATE_PREPARE) && pll == SetPllRun(a.after, CALIBRATION_FREQ, pllRef, q[a.used..])
      requires pll.result.Err? || !pll.after.lock
      ensures CalibrateFilterRun(t, pllRef, true, q) == CalibratePassRun(t, pllRef, q)
      ensures CalibrateFilterRun(t, pllRef, false, q) == CalibratePassRun(t, pllRef, q)
      ensures CalibratePassRun(t, pllRef, q) ==
              if pll.result.Err? then AndThen(a, Failed(pll)) else AndThen(AndThen(a, Done(pll)), Fail(pll.after, PllNotLocked))
    {
    }

    /** Lines 192-200 of calibrateFilter, then the measurement. */
    method CalibratePass() returns (r: Result<nat>)
      requires Ready()
      modifies this, shadow, com.conn
      ensures Does(CalibratePassRun(old(State()), pllRef, old(com.conn.replies)), r)
    {
      ghost var t0, tr0, q0 := State(), com.conn.trace, com.conn.replies;
      ghost var a := WritesRun(t0, CALIBRATE_PREPARE);
      WriteEach(CALIBRATE_PREPARE);
      ghost var tr1, q1 := com.conn.trace, com.conn.replies;
      ghost var pll := SetPllRun(a.after, CALIBRATION_FREQ, pllRef, q1);
      var tuned := SetPll(CALIBRATION_FREQ);
      if tuned.Err? {
        MovesThen<nat>(a, Failed(pll), tr0, q0, a.after, tr1, q1, State(), com.conn.trace, com.conn.replies, Err(tuned.error));
        CalibrateTuneFails(t0, pllRef, q0, a, pll);
        return Err(tuned.error);
      }
      ghost var tr2, q2 := com.conn.trace, com.conn.replies;
      MovesThen(a, Done(pll), tr0, q0, a.after, tr1, q1, pll.after, tr2, q2, Ok(()));
      ghost var s1 := AndThen(a, Done(pll));
      if !hasPllLock {
        MovesThen<nat>(s1, Fail(pll.after, PllNotLocked), tr0, q0, pll.after, tr2, q2, pll.after, tr2, q2, Err(PllNotLocked));
        CalibrateTuneFails(t0, pllRef, q0, a, pll);
        return Err(PllNotLocked);
      }
      r := Measure();
      MovesThen(s1, MeasureRun(pll.after, q2), tr0, q0, pll.after, tr2, q2, State(), com.conn.trace, com.conn.replies, r);
    }

    /** Lines 201-211 of calibrateFilter: trigger the calibration and read
      * the capacitance, 0x0f counting as 0. */
    method Measure() returns (r: Result<nat>)
      requires Ready()
      modifies shadow, com.conn
      ensures Does(MeasureRun(old(State()), old(com.conn.replies)), r)
    {
      ghost var t0, tr0, q0 := State(), com.conn.trace, com.conn.replies;
      ghost var trigger := WritesRun(t0, CALIBRATE_TRIGGER);
      WriteEach(CALIBRATE_TRIGGER);
      ghost var tr3, q3 := com.conn.trace, com.conn.replies;
      ghost var rd := ReadBackRun(trigger.after, 0x00, 5, q3);
      var data := ReadRegBuffer(0x00, 5);
      if data.Err? {
        MovesThen<nat>(trigger, Failed(rd), tr0, q0, trigger.after, tr3, q3, State(), com.conn.trace, com.conn.replies, Err(data.error));
        return Err(data.error);
      }
      ghost var tr4, q4 := com.conn.trace, com.conn.replies;
      MovesThen(trigger, Done(rd), tr0, q0, trigger.after, tr3, q3, rd.after, tr4, q4, Ok(()));
      var filterCap: nat := ByteAt(data.value, 4) % 16;
      if filterCap == 0x0f {
        filterCap := 0;
      }
      r := Ok(filterCap);
      MovesThen(AndThen(trigger, Done(rd)), Ret(rd.after, filterCap), tr0, q0, rd.after, tr4, q4, rd.after, tr4, q4, r);
    }

    /** calibrateFilter: the capacitance the calibration reads; on the
      * first try a non-zero reading is calibrated once more. */
    method CalibrateFilter(firstTry: bool) returns (r: Result<nat>)
      requires Ready()
      modifies this, shadow, com.conn
      ensures Does(CalibrateFilterRun(old(State()), pllRef, firstTry, old(com.conn.replies)), r)
      decreases firstTry
    {
      ghost var t0, tr0, q0 := State(), com.conn.trace, com.conn.replies;
      ghost var pass := CalibratePassRun(t0, pllRef, q0);
      var filterCap := CalibratePass();
      if filterCap.Ok? && filterCap.value != 0 && firstTry {
        ghost var t1, tr1, q1 := State(), com.conn.trace, com.conn.replies;
        r := CalibrateFilter(false);
        MovesThen(Done(pass), CalibrateFilterRun(t1, pllRef, false, q1), tr0, q0, t1, tr1, q1,
                  State(), com.conn.trace, com.conn.replies, r);
      } else {
        r := filterCap;
      }
    }

    /** initElectronics. */
    method InitElectronics() returns (r: Result<()>)
      requires Ready()
      modifies this, shadow, com.conn
      ensures Does(InitElectronicsRun(old(State()), pllRef, old(com.conn.replies)), r)
    {
      ghost var t0, tr0, q0 := State(), com.conn.trace, com.conn.replies;
      ghost var a := WritesRun(t0, ELECTRONICS_PREPARE);
      WriteEach(ELECTRONICS_PREPARE);
      ghost var tr1, q1 := com.conn.trace, com.conn.replies;
      ghost var cal := CalibrateFilterRun(a.after, pllRef, true, q1);
      var filterCap := CalibrateFilter(true);
      if filterCap.Err? {
        MovesThen<()>(a, Failed(cal), tr0, q0, a.after, tr1, q1, State(), com.conn.trace, com.conn.replies, Err(filterCap.error));
        return Err(filterCap.error);
      }
      ghost var tr2, q2 := com.conn.trace, com.conn.replies;
      MovesThen(a, Done(cal), tr0, q0, a.after, tr1, q1, cal.after, tr2, q2, Ok(()));
      ghost var setup := WritesRun(cal.after, ElectronicsSetup(filterCap.value));
      WriteEach(ElectronicsSetup(filterCap.value));
      MovesThen(AndThen(a, Done(cal)), setup, tr0, q0, cal.after, tr2, q2, State(), com.conn.trace, com.conn.replies, Ok(()));
      r := Ok(());
    }

    /** initRegisters: a fresh shadow bank holding `regs`, and one I2C write
      * per register. */
    method InitRegisters(regs: Bank)
      modifies this, com.conn
      ensures Ready() && fresh(shadow) && shadow[..] == regs && hasPllLock == old(hasPllLock)
      ensures com.conn.trace == old(com.conn.trace) + InitRegistersOut(regs)
      ensures com.conn.replies == old(com.conn.replies)
    {
      shadow := new byte[BANK_SIZE](i requires 0 <= i < BANK_SIZE => regs[i]);
      var cmds: seq<Line> := [];
      var i := 0;
      while i < |regs|
        invariant 0 <= i <= |regs|
        invariant cmds == InitLines(regs)[..i]
      {
        cmds := cmds + [Line(CMD_I2CREG, I2C_ADDR, i + FIRST_REG, regs[i], 0)];
        i := i + 1;
      }
      assert cmds == InitLines(regs);
      InitRegistersBatch(regs, com.conn.replies);
      var _ := com.WriteEach(cmds);
    }

    /** init: the register bank, then the electronics. */
    method Init() returns (r: Result<()>)
      modifies this, com.conn
      ensures Ready() && fresh(shadow)
      ensures var run := InitElectronicsRun(Tuning(REGISTERS, old(hasPllLock)), pllRef, old(com.conn.replies));
        shadow[..] == run.after.regs && hasPllLock == run.after.lock && r == run.result &&
        com.conn.trace == old(com.conn.trace) + InitRegistersOut(REGISTERS) + run.out &&
        com.conn.replies == old(com.conn.replies)[run.used..]
    {
      InitRegisters(REGISTERS);
      r := InitElectronics();
    }

    /** setMux: find the band of `freq` and program it. */
    method SetMux(freq: int)
      requires Ready()
      modifies shadow, com.conn
      ensures Does(SetMuxRun(old(State()), freq), Ok(()))
    {
      var i := 0;
      while i < |MUX_CFGS| - 1
        invariant 0 <= i < |MUX_CFGS|
        invariant forall j :: 0 < j <= i ==> BandStart(j) <= freq
      {
        if freq < MUX_CFGS[i + 1].mhz * MHZ {
          break;
        }
        i := i + 1;
      }
      MuxIndexUnique(freq, i);
      var cfg := MUX_CFGS[i];
      WriteEach(MuxWrites(cfg));
    }

    /** setFrequency: the band, then the PLL; the result is the PLL's. */
    method SetFrequency(freq: int) returns (r: Result<Option<real>>)
      requires Ready() && Tunable(freq)
      modifies this, shadow, com.conn
      ensures Does(SetFrequencyRun(old(State()), freq, pllRef, old(com.conn.replies)), r)
    {
      ghost var t0, tr0, q0 := State(), com.conn.trace, com.conn.replies;
      ghost var mux := SetMuxRun(t0, freq);
      SetMux(freq);
      ghost var tr1, q1 := com.conn.trace, com.conn.replies;
      r := SetPll(freq);
      MovesThen(mux, SetPllRun(mux.after, freq, pllRef, q1), tr0, q0, mux.after, tr1, q1,
                State(), com.conn.trace, com.conn.replies, r);
    }

    method SetAutoGain()
      requires Ready()
      modifies shadow, com.conn
      ensures Does(WritesRun(old(State()), AUTO_GAIN_WRITES), Ok(()))
    {
      WriteEach(AUTO_GAIN_WRITES);
    }

    /** setManualGain: the gain curve's step, clamped to 0-30, split between
      * the LNA and the mixer. */
    method SetManualGain(gain: real)
      requires Ready()
      modifies shadow, com.conn
      ensures Does(WritesRun(old(State()), ManualGainWrites(GainStep(gain))), Ok(()))
    {
      var step := Round(GainCurve(gain));
      if step < 0 {
        step := 0;
      } else if step > 30 {
        step := 30;
      }
      WriteEach(ManualGainWrites(step));
    }

    method Close()
      requires Ready()
      modifies shadow, com.conn
      ensures Does(WritesRun(old(State()), CLOSE_WRITES), Ok(()))
    {
      WriteEach(CLOSE_WRITES);
    }
  }
}
