/** The RTL2832U demodulator: its USB and demodulator bring-up, the IF
  * frequency shift, the sample-rate divider and the sample reads.
  *
  * Every operation is specified by a step or run function of the queued
  * device replies, as in the layers below; the pure arithmetic the chip is
  * programmed with is specified by its own lemmas. JavaScript's `>>` and
  * `&` with a constant low mask act on the two's-complement value, which is
  * exactly Dafny's floor `/` by a power of two and Euclidean `%`. */
module Rtl2832u {
  import opened Bits
  import opened Errors
  import opened Transport
  import opened RtlCom
  import opened R820T
  import opened R820TTuner

  /** Frequency of the oscillator crystal, in Hz. */
  const XTAL_FREQ := 28_800_000
  /** The tuner's intermediate frequency, in Hz. */
  const IF_FREQ := 3_570_000
  const BYTES_PER_SAMPLE := 2
  /** `1 << 22` and `1 << 24`. */
  const TWO_22 := 0x40_0000
  const TWO_24 := 0x100_0000
  /** The largest sample-rate ratio the register holds: bits 2-27. */
  const RATIO_SPAN := 0x1000_0000

  // ----- Crystal and IF arithmetic -----

  /** `Math.floor(XTAL_FREQ * (1 + ppm / 1000000))`, in exact arithmetic. */
  function XtalFreq(ppm: int): (r: int)
    ensures ppm > -1_000_000 ==> r > 0
  {
    XTAL_FREQ * (1_000_000 + ppm) / 1_000_000
  }

  /** The corrected crystal frequency is the nominal one scaled by
    * 1 + ppm/10^6, rounded down. */
  lemma XtalFreqBounds(ppm: int)
    ensures XtalFreq(ppm) * 1_000_000 <= XTAL_FREQ * (1_000_000 + ppm) < (XtalFreq(ppm) + 1) * 1_000_000
    ensures ppm == 0 ==> XtalFreq(ppm) == XTAL_FREQ
  {
  }

  /** `-1 * Math.floor(IF_FREQ * (1 << 22) / xtalFreq)`: the IF mixer's
    * frequency-shift word. */
  function Multiplier(xtal: int): (m: int)
    requires xtal > 0
    ensures m <= 0
  {
    -(IF_FREQ * TWO_22 / xtal)
  }

  /** The three bytes written for the multiplier: bits 21-16 (masked to six
    * bits), bits 15-8 and bits 7-0. */
  function MultiplierBytes(m: int): (r: seq<int>)
    ensures |r| == 3 && r[0] < 0x40 && r[1] < 0x100 && r[2] < 0x100
    ensures forall i :: 0 <= i < 3 ==> 0 <= r[i]
  {
    [(m / 0x1_0000) % 0x40, (m / 0x100) % 0x100, m % 0x100]
  }

  /** `(x / d) % e` is the digit of `x % (d * e)` above d, and the part below
    * d is kept by the outer remainder. */
  lemma NestedDigits(x: int, d: int, e: int)
    requires d > 0 && e > 0
    ensures (x / d) % e == (x % (d * e)) / d
    ensures x % d == (x % (d * e)) % d
  {
    var a, r := x / (d * e), x % (d * e);
    assert x == a * (d * e) + r;
    assert r / d < e by {
      assert (r / d) * d <= r < e * d;
      if e <= r / d {
        MulMonotone(e, r / d, d);
      }
    }
    assert x == (a * e + r / d) * d + r % d;
    DivModUnique(x, d, a * e + r / d, r % d);
    assert x / d == a * e + r / d;
    DivModUnique(x / d, e, a, r / d);
  }

  /** The three multiplier bytes are the low 22 bits of the (negative)
    * multiplier in two's complement, most significant first. */
  lemma MultiplierFields(m: int)
    ensures var b := MultiplierBytes(m);
      b[0] * 0x1_0000 + b[1] * 0x100 + b[2] == m % TWO_22
  {
    var R := m % TWO_22;
    NestedDigits(m, 0x1_0000, 0x40);
    NestedDigits(m, 0x100, 0x100);
    NestedDigits(R, 0x1_0000, 0x40);
    NestedDigits(R, 0x100, 0x100);
    assert R % TWO_22 == R;
    var low := R % 0x1_0000;
    assert R == (R / 0x1_0000) * 0x1_0000 + low;
    assert m % 0x1_0000 == low;
    assert low == (low / 0x100) * 0x100 + low % 0x100;
  }

  /** With the nominal crystal the multiplier is -519918, written as
    * 0x38, 0x11, 0x12. */
  lemma MultiplierNominal()
    ensures Multiplier(XtalFreq(0)) == -519_918
    ensures MultiplierBytes(Multiplier(XtalFreq(0))) == [0x38, 0x11, 0x12]
  {
    assert XtalFreq(0) == XTAL_FREQ;
    assert IF_FREQ * TWO_22 == 519_918 * XTAL_FREQ + 26_880_000;
    DivModUnique(IF_FREQ * TWO_22, XTAL_FREQ, 519_918, 26_880_000);
    DivModUnique(-519_918, 0x1_0000, -8, 4370);
    DivModUnique(-519_918, 0x100, -2031, 18);
    DivModUnique(-8, 0x40, -1, 56);
    DivModUnique(-2031, 0x100, -8, 17);
  }

  // ----- Sample-rate arithmetic -----

  /** `XTAL_FREQ * (1 << 22)`, which is 450000 * 2^28. */
  const RATE_NUMERATOR := XTAL_FREQ * TWO_22

  /** The resampling ratio `Math.floor(XTAL_FREQ * (1 << 22) / rate)`, as
    * `& 0x0ffffffc` leaves it: modulo 2^28 (the 32-bit conversion keeps the
    * low 32 bits, the mask the low 28) with the two low bits cleared. A rate
    * of 0 gives Infinity, which the 32-bit conversion turns into 0. */
  function Ratio(rate: nat): (ratio: nat)
  {
    if rate == 0 then 0 else
    var low := (RATE_NUMERATOR / rate) % RATIO_SPAN;
    low - low % 4
  }

  /** The ratio is a multiple of 4 below 2^28; when the exact quotient fits
    * in 28 bits it is that quotient rounded down to a multiple of 4. */
  lemma RatioShape(rate: nat)
    requires rate > 0
    ensures var ratio, q := Ratio(rate), RATE_NUMERATOR / rate;
      ratio % 4 == 0 && ratio < RATIO_SPAN && q % RATIO_SPAN - ratio < 4 &&
      (q < RATIO_SPAN ==> ratio <= q < ratio + 4)
  {
    var low := (RATE_NUMERATOR / rate) % RATIO_SPAN;
    DivModUnique(low - low % 4, 4, low / 4, 0);
  }

  /** Every rate above 450000 samples/s gives a quotient that fits in the
    * ratio register. */
  lemma RatioFits(rate: nat)
    requires rate > 450_000
    ensures RATE_NUMERATOR / rate < RATIO_SPAN
  {
    assert RATE_NUMERATOR == 450_000 * RATIO_SPAN;
    var q := RATE_NUMERATOR / rate;
    assert q * rate <= RATE_NUMERATOR;
    if RATIO_SPAN <= q {
      MulMonotone(RATIO_SPAN, q, rate);
    }
  }

  /** `Math.floor(XTAL_FREQ * (1 << 22) / ratio)`, the rate the ratio gives;
    * a zero ratio (a rate at most 450000 whose quotient wraps to a multiple
    * of 2^28 below 4) divides by zero, which JavaScript answers with Infinity. */
  function RealRate(rate: nat): (achieved: Option<nat>)
    ensures achieved.None? <==> Ratio(rate) == 0
  {
    var ratio := Ratio(rate);
    if ratio == 0 then None else Some(RATE_NUMERATOR / ratio)
  }

  /** Without wrap-around the achieved rate is at least the requested one
    * (the ratio is rounded down), and the ratio reproduces itself from it. */
  lemma RealRateAtLeast(rate: nat)
    requires rate > 0 && RATE_NUMERATOR / rate < RATIO_SPAN && Ratio(rate) > 0
    ensures RealRate(rate).Some? && RealRate(rate).value >= rate
    ensures RealRate(rate).value * Ratio(rate) <= RATE_NUMERATOR
  {
    RatioShape(rate);
    var ratio, q := Ratio(rate), RATE_NUMERATOR / rate;
    MulMonotone(ratio, q, rate);
    assert ratio * rate <= q * rate <= RATE_NUMERATOR;
    var achieved := RATE_NUMERATOR / ratio;
    assert RATE_NUMERATOR < (achieved + 1) * ratio;
    if achieved + 1 <= rate {
      MulMonotone(achieved + 1, rate, ratio);
    }
  }

  /** 2048000 samples/s is achieved exactly, with ratio 58982400 = 900 * 2^16. */
  lemma RatioExample()
    ensures Ratio(2_048_000) == 58_982_400 && RealRate(2_048_000) == Some(2_048_000)
    ensures 58_982_400 / 0x1_0000 == 900 && 58_982_400 % 0x1_0000 == 0
  {
    assert RATE_NUMERATOR == 58_982_400 * 2_048_000;
    DivModUnique(RATE_NUMERATOR, 2_048_000, 58_982_400, 0);
    DivModUnique(58_982_400, RATIO_SPAN, 0, 58_982_400);
    DivModUnique(RATE_NUMERATOR, 58_982_400, 2_048_000, 0);
  }

  /** `-1 * Math.floor(ppm * (1 << 24) / 1000000)`: the sample clock's
    * frequency correction. */
  function PpmOffset(ppm: int): (p: int)
    ensures ppm >= 0 ==> p <= 0
  {
    -(ppm * TWO_24 / 1_000_000)
  }

  /** The two offset bytes: bits 13-8 (masked to six bits) and bits 7-0. */
  function OffsetBytes(p: int): (r: seq<int>)
    ensures |r| == 2 && 0 <= r[0] < 0x40 && 0 <= r[1] < 0x100
  {
    [(p / 0x100) % 0x40, p % 0x100]
  }

  /** The offset bytes are the low 14 bits of the offset in two's complement. */
  lemma OffsetFields(p: int)
    ensures var b := OffsetBytes(p); b[0] * 0x100 + b[1] == p % 0x4000
  {
    NestedDigits(p, 0x100, 0x40);
    var R := p % 0x4000;
    assert R == (R / 0x100) * 0x100 + R % 0x100;
  }

  /** No correction writes zeros; one ppm writes -16, that is 0x3f, 0xf0. */
  lemma OffsetExamples()
    ensures PpmOffset(0) == 0 && OffsetBytes(PpmOffset(0)) == [0, 0]
    ensures PpmOffset(1) == -16 && OffsetBytes(PpmOffset(1)) == [0x3f, 0xf0]
  {
    DivModUnique(TWO_24, 1_000_000, 16, 777_216);
    DivModUnique(-16, 0x100, -1, 240);
    DivModUnique(-1, 0x40, -1, 63);
  }

  // ----- Register batches -----

  function RegLine(block: u16, reg: u16, value: int, len: int): Line
  {
    Line(CMD_REG, block, reg, value, len)
  }

  type Width = n: int | n == 1 || n == 2 || n == 4 witness 1

  /** One demodulator register write of a batch: page, address, value, width. */
  datatype DemodWrite = DemodWrite(page: u16, addr: byte, value: int, len: Width)

  /** The batch lines of a table of demodulator writes. */
  function DemodLines(ws: seq<DemodWrite>): (lines: seq<Line>)
    ensures |lines| == |ws| && AllDemodWrites(lines) && AllWellFormed(lines)
    ensures forall i :: 0 <= i < |ws| ==>
      lines[i] == Line(CMD_DEMODREG, ws[i].page, ws[i].addr, ws[i].value, ws[i].len)
  {
    seq(|ws|, i requires 0 <= i < |ws| => Line(CMD_DEMODREG, ws[i].page, ws[i].addr, ws[i].value, ws[i].len))
  }

  predicate AllRegWrites(lines: seq<Line>)
  {
    forall i :: 0 <= i < |lines| ==> IsRegWrite(lines[i])
  }

  predicate AllDemodWrites(lines: seq<Line>)
  {
    forall i :: 0 <= i < |lines| ==> IsDemodWrite(lines[i])
  }

  /** The USB endpoint set-up of open: system control, the maximum packet
    * size and the endpoint control. */
  const USB_LINES: seq<Line> := [
    RegLine(BLOCK_USB, REG_SYSCTL, 0x09, 1),
    RegLine(BLOCK_USB, REG_EPA_MAXPKT, 0x0200, 2),
    RegLine(BLOCK_USB, REG_EPA_CTL, 0x0210, 2)
  ]

  /** The demodulator power-up of open, on the system block. */
  const SYS_LINES: seq<Line> := [
    RegLine(BLOCK_SYS, REG_DEMOD_CTL_1, 0x22, 1),
    RegLine(BLOCK_SYS, REG_DEMOD_CTL, 0xe8, 1)
  ]

  /** The demodulator register initialization of open. */
  const DEMOD_INIT: seq<DemodWrite> := [
    DemodWrite(1, 0x01, 0x14, 1),
    DemodWrite(1, 0x01, 0x10, 1),
    DemodWrite(1, 0x15, 0x00, 1),
    DemodWrite(1, 0x16, 0x0000, 2),
    DemodWrite(1, 0x16, 0x00, 1),
    DemodWrite(1, 0x17, 0x00, 1),
    DemodWrite(1, 0x18, 0x00, 1),
    DemodWrite(1, 0x19, 0x00, 1),
    DemodWrite(1, 0x1a, 0x00, 1),
    DemodWrite(1, 0x1b, 0x00, 1),
    DemodWrite(1, 0x1c, 0xca, 1),
    DemodWrite(1, 0x1d, 0xdc, 1),
    DemodWrite(1, 0x1e, 0xd7, 1),
    DemodWrite(1, 0x1f, 0xd8, 1),
    DemodWrite(1, 0x20, 0xe0, 1),
    DemodWrite(1, 0x21, 0xf2, 1),
    DemodWrite(1, 0x22, 0x0e, 1),
    DemodWrite(1, 0x23, 0x35, 1),
    DemodWrite(1, 0x24, 0x06, 1),
    DemodWrite(1, 0x25, 0x50, 1),
    DemodWrite(1, 0x26, 0x9c, 1),
    DemodWrite(1, 0x27, 0x0d, 1),
    DemodWrite(1, 0x28, 0x71, 1),
    DemodWrite(1, 0x29, 0x11, 1),
    DemodWrite(1, 0x2a, 0x14, 1),
    DemodWrite(1, 0x2b, 0x71, 1),
    DemodWrite(1, 0x2c, 0x74, 1),
    DemodWrite(1, 0x2d, 0x19, 1),
    DemodWrite(1, 0x2e, 0x41, 1),
    DemodWrite(1, 0x2f, 0xa5, 1),
    DemodWrite(0, 0x19, 0x05, 1),
    DemodWrite(1, 0x93, 0xf0, 1),
    DemodWrite(1, 0x94, 0x0f, 1),
    DemodWrite(1, 0x11, 0x00, 1),
    DemodWrite(1, 0x04, 0x00, 1),
    DemodWrite(0, 0x61, 0x60, 1),
    DemodWrite(0, 0x06, 0x80, 1),
    DemodWrite(1, 0xb1, 0x1b, 1),
    DemodWrite(0, 0x0d, 0x83, 1)
  ]

  const INIT_LINES: seq<Line> := SYS_LINES + DemodLines(DEMOD_INIT)

  /** The IF set-up of open: the multiplier's three bytes among fixed writes. */
  function MultiplierLines(m: int): (lines: seq<Line>)
    ensures AllDemodWrites(lines) && AllWellFormed(lines)
  {
    var b := MultiplierBytes(m);
    DemodLines([DemodWrite(1, 0xb1, 0x1a, 1),
     DemodWrite(0, 0x08, 0x4d, 1),
     DemodWrite(1, 0x19, b[0], 1),
     DemodWrite(1, 0x1a, b[1], 1),
     DemodWrite(1, 0x1b, b[2], 1),
     DemodWrite(1, 0x15, 0x01, 1)])
  }

  /** The writes of setSampleRate: the ratio's high and low 16 bits, then
    * the offset's two fields. */
  function SampleRateLines(ratio: nat, offset: int): (lines: seq<Line>)
    ensures AllDemodWrites(lines) && AllWellFormed(lines)
  {
    var b := OffsetBytes(offset);
    DemodLines([DemodWrite(1, 0x9f, (ratio / 0x1_0000) % 0x1_0000, 2),
     DemodWrite(1, 0xa1, ratio % 0x1_0000, 2),
     DemodWrite(1, 0x3e, b[0], 1),
     DemodWrite(1, 0x3f, b[1], 1)])
  }

  /** resetDemodulator: the soft-reset bit of page 1, address 1, set and cleared. */
  const RESET_LINES: seq<Line> := DemodLines([
    DemodWrite(1, 0x01, 0x14, 1),
    DemodWrite(1, 0x01, 0x10, 1)
  ])

  /** resetBuffer: the endpoint control stalled and released. */
  const RESET_BUFFER_LINES: seq<Line> := [
    RegLine(BLOCK_USB, REG_EPA_CTL, 0x0210, 2),
    RegLine(BLOCK_USB, REG_EPA_CTL, 0x0000, 2)
  ]

  lemma FixedBatchesWellFormed()
    ensures AllRegWrites(USB_LINES) && AllRegWrites(SYS_LINES) && AllRegWrites(RESET_BUFFER_LINES)
    ensures AllWellFormed(USB_LINES) && AllWellFormed(INIT_LINES) && AllWellFormed(RESET_LINES)
    ensures AllWellFormed(RESET_BUFFER_LINES)
  {
    RegBatch(USB_LINES, []);
    RegBatch(RESET_BUFFER_LINES, []);
    RegBatch(SYS_LINES, []);
    DemodLinesWellFormed(RESET_LINES);
    DemodLinesWellFormed(DemodLines(DEMOD_INIT));
    WellFormedAppend(SYS_LINES, DemodLines(DEMOD_INIT));
  }

  lemma DemodLinesWellFormed(lines: seq<Line>)
    requires AllDemodWrites(lines)
    ensures AllWellFormed(lines)
  {
    forall i | 0 <= i < |lines|
      ensures WellFormed(lines[i])
    {
      assert IsDemodWrite(lines[i]);
    }
  }

  // ----- Operation steps and runs -----

  /** a, then b only if a succeeded. */
  function Chain<T>(a: Step<()>, b: Step<T>): Step<T>
  {
    if a.result.Err? then Step(a.out, a.used, Err(a.result.error)) else Then(a, b)
  }

  lemma PerformsChain<T>(a: Step<()>, b: Step<T>, tr0: seq<Transfer>, q0: seq<seq<byte>>,
                         tr1: seq<Transfer>, q1: seq<seq<byte>>, tr2: seq<Transfer>, q2: seq<seq<byte>>, r: Result<T>)
    requires Performs(a, tr0, q0, tr1, q1, a.result)
    requires a.result.Err? ==> tr2 == tr1 && q2 == q1 && r == Err(a.result.error)
    requires a.result.Ok? ==> Performs(b, tr1, q1, tr2, q2, r)
    ensures Performs(Chain(a, b), tr0, q0, tr2, q2, r)
  {
    if a.result.Ok? {
      assert q0[a.used..][b.used..] == q0[a.used + b.used..];
    }
  }

  /** Lines 76-128 of open: the USB set-up, the interface claim, the
    * demodulator initialization, the I2C repeater switched on, and the
    * tuner probe, whose answer is the result. */
  function PrepareStep(q: seq<seq<byte>>): (s: Step<bool>)
    ensures s.used <= |q|
  {
    FixedBatchesWellFormed();
    var usb := BatchStep(USB_LINES, q);
    var q1 := q[usb.used..];
    var init := After([Claim(0)], BatchStep(INIT_LINES, q1));
    var q2 := q1[init.used..];
    var open := OpenI2CStep(q2);
    Chain(usb, Chain(init, Chain(open, CheckStep(q2[open.used..]))))
  }

  /** A gain is falsy for JavaScript when it is absent or zero. */
  predicate Falsy(g: Option<real>)
  {
    g.None? || g.value == 0.0
  }

  /** setGain: automatic gain for a falsy gain, otherwise the manual step. */
  function GainWrites(g: Option<real>): seq<RegWrite>
  {
    if Falsy(g) then AUTO_GAIN_WRITES else ManualGainWrites(GainStep(g.value))
  }

  /** A link step as a tuner run that leaves the tuner in state t. */
  function Lift<T>(s: Step<T>, t: Tuning): Run<T>
  {
    Run(s.out, s.used, t, s.result)
  }

  /** a's outcome with its value dropped. */
  function Status<T>(a: Run<T>): Run<()>
  {
    Run(a.out, a.used, a.after, if a.result.Err? then Err(a.result.error) else Ok(()))
  }

  /** a, then b only if a succeeded. */
  function Seq<T>(a: Run<()>, b: Run<T>): Run<T>
  {
    if a.result.Err? then Run(a.out, a.used, a.after, Err(a.result.error)) else AndThen(a, b)
  }

  lemma MovesChain<T>(a: Run<()>, b: Run<T>, tr0: seq<Transfer>, q0: seq<seq<byte>>,
                      t1: Tuning, tr1: seq<Transfer>, q1: seq<seq<byte>>,
                      t2: Tuning, tr2: seq<Transfer>, q2: seq<seq<byte>>, r: Result<T>)
    requires Moves(a, tr0, q0, t1, tr1, q1, a.result)
    requires a.result.Err? ==> t2 == t1 && tr2 == tr1 && q2 == q1 && r == Err(a.result.error)
    requires a.result.Ok? ==> Moves(b, tr1, q1, t2, tr2, q2, r)
    ensures Moves(Seq(a, b), tr0, q0, t2, tr2, q2, r)
  {
    if a.result.Ok? {
      assert q0[a.used..][b.used..] == q0[a.used + b.used..];
    }
  }

  /** Lines 136-147 of open, once a tuner is bound: the IF multiplier, the
    * tuner's init (register bank, then electronics), the gain, and the I2C
    * repeater switched off. `lock0` is the tuner's lock flag beforehand; the
    * state a failed multiplier batch leaves is not the tuner's. */
  function SetupRun(lock0: bool, xtal: nat, g: Option<real>, q: seq<seq<byte>>): (r: Run<()>)
    requires xtal > 0
    ensures r.used <= |q|
  {
    var t0 := Tuning(REGISTERS, lock0);
    var mul := Lift(BatchStep(MultiplierLines(Multiplier(xtal)), q), t0);
    var init := InitElectronicsRun(t0, xtal, q[mul.used..]);
    BindRun(mul, init, g, q)
  }

  /** The multiplier batch `mul`, then the rest of the set-up. */
  function BindRun(mul: Run<()>, init: Run<()>, g: Option<real>, q: seq<seq<byte>>): (r: Run<()>)
    requires mul.used <= |q| && init.used <= |q| - mul.used
  {
    Seq(mul, TailRun(mul.after, init, g, q[mul.used..]))
  }

  /** From tuner state t0: the register bank, the tuner's electronics
    * `init`, then the gain and the I2C repeater switched off. */
  function TailRun(t0: Tuning, init: Run<()>, g: Option<real>, q: seq<seq<byte>>): (r: Run<()>)
    requires init.used <= |q|
  {
    var regs := Run(InitRegistersOut(REGISTERS), 0, t0, Ok(()));
    AndThen(regs, Seq(init, FinishRun(init.after, g, q[init.used..])))
  }

  /** From tuner state t: the gain writes, then the I2C repeater off. */
  function FinishRun(t: Tuning, g: Option<real>, q: seq<seq<byte>>): (r: Run<()>)
  {
    var gain := WritesRun(t, GainWrites(g));
    AndThen(gain, Lift(CloseI2CStep(q), gain.after))
  }

  lemma TailMoves(t0: Tuning, init: Run<()>, g: Option<real>, q0: seq<seq<byte>>, tr0: seq<Transfer>,
                  i: Result<()>, t2: Tuning, tr2: seq<Transfer>, q2: seq<seq<byte>>,
                  tEnd: Tuning, trEnd: seq<Transfer>, qEnd: seq<seq<byte>>, r: Result<()>)
    requires Moves(init, tr0 + InitRegistersOut(REGISTERS), q0, t2, tr2, q2, i)
    requires i.Err? ==> tEnd == t2 && trEnd == tr2 && qEnd == q2 && r == i
    requires i.Ok? ==> Moves(FinishRun(t2, g, q2), tr2, q2, tEnd, trEnd, qEnd, r)
    ensures Moves(TailRun(t0, init, g, q0), tr0, q0, tEnd, trEnd, qEnd, r)
  {
    var regs := Run(InitRegistersOut(REGISTERS), 0, t0, Ok(()));
    MovesChain(init, FinishRun(init.after, g, q0[init.used..]), tr0 + regs.out, q0, t2, tr2, q2, tEnd, trEnd, qEnd, r);
    MovesThen(regs, Seq(init, FinishRun(init.after, g, q0[init.used..])), tr0, q0, t0, tr0 + regs.out, q0, tEnd, trEnd, qEnd, r);
  }

  /** open: the preparation, then the set-up with the tuner found now or
    * bound by an earlier open; without either it fails with
    * UnsupportedTuner. A newly bound tuner starts unlocked. */
  function OpenRun(q: seq<seq<byte>>, hadTuner: bool, lock0: bool, xtal: nat, g: Option<real>): (r: Run<()>)
    requires xtal > 0
    ensures r.used <= |q|
  {
    var pre := PrepareStep(q);
    var found := pre.result == Ok(true);
    ProbeThen(pre, hadTuner, lock0, SetupRun(if found then false else lock0, xtal, g, q[pre.used..]))
  }

  lemma OpenRunIs(q: seq<seq<byte>>, hadTuner: bool, lock0: bool, xtal: nat, g: Option<real>,
                  found: Result<bool>, q1: seq<seq<byte>>)
    requires xtal > 0 && found == PrepareStep(q).result && q1 == q[PrepareStep(q).used..]
    ensures OpenRun(q, hadTuner, lock0, xtal, g) ==
            ProbeThen(PrepareStep(q), hadTuner, lock0, SetupRun(if found == Ok(true) then false else lock0, xtal, g, q1))
  {
  }

  /** open's run from the preparation's outcome `f` and the set-up's. */
  lemma OpenMoves(q0: seq<seq<byte>>, hadTuner: bool, lock0: bool, xtal: nat, g: Option<real>,
                  tr0: seq<Transfer>, f: Result<bool>, tr1: seq<Transfer>, q1: seq<seq<byte>>,
                  trEnd: seq<Transfer>, qEnd: seq<seq<byte>>, r: Result<()>)
    requires xtal > 0
    requires Performs(PrepareStep(q0), tr0, q0, tr1, q1, f)
    requires f.Err? ==> trEnd == tr1 && qEnd == q1 && r == Err(f.error)
    requires f.Ok? && !(f == Ok(true) || hadTuner) ==> r == Err(UnsupportedTuner) && trEnd == tr1 && qEnd == q1
    requires f.Ok? && (f == Ok(true) || hadTuner) ==>
      var setup := SetupRun(if f == Ok(true) then false else lock0, xtal, g, q1);
      trEnd == tr1 + setup.out && qEnd == q1[setup.used..] && r == setup.result
    ensures var run := OpenRun(q0, hadTuner, lock0, xtal, g);
      trEnd == tr0 + run.out && qEnd == q0[run.used..] && r == run.result &&
      (r.Ok? ==> run.after == SetupRun(if f == Ok(true) then false else lock0, xtal, g, q1).after)
  {
    var setup := SetupRun(if f == Ok(true) then false else lock0, xtal, g, q1);
    ProbeThenMoves(PrepareStep(q0), hadTuner, lock0, setup, tr0, q0, f, tr1, q1, trEnd, qEnd, r);
    OpenRunIs(q0, hadTuner, lock0, xtal, g, f, q1);
  }

  /** The preparation `pre`, then `setup` when the probe found the tuner or
    * one was bound before. */
  function ProbeThen(pre: Step<bool>, hadTuner: bool, lock0: bool, setup: Run<()>): (r: Run<()>)
    ensures r.used <= pre.used + setup.used
  {
    var t0 := Tuning(REGISTERS, lock0);
    if pre.result.Err? then Run(pre.out, pre.used, t0, Err(pre.result.error))
    else if !pre.result.value && !hadTuner then Run(pre.out, pre.used, t0, Err(UnsupportedTuner))
    else Run(pre.out + setup.out, pre.used + setup.used, setup.after, setup.result)
  }

  lemma ProbeThenMoves(pre: Step<bool>, hadTuner: bool, lock0: bool, setup: Run<()>,
                       tr0: seq<Transfer>, q0: seq<seq<byte>>, f: Result<bool>, tr1: seq<Transfer>, q1: seq<seq<byte>>,
                       trEnd: seq<Transfer>, qEnd: seq<seq<byte>>, r: Result<()>)
    requires Performs(pre, tr0, q0, tr1, q1, f)
    requires f.Err? ==> trEnd == tr1 && qEnd == q1 && r == Err(f.error)
    requires f.Ok? && !f.value && !hadTuner ==> trEnd == tr1 && qEnd == q1 && r == Err(UnsupportedTuner)
    requires f.Ok? && (f.value || hadTuner) ==>
      setup.used <= |q1| && trEnd == tr1 + setup.out && qEnd == q1[setup.used..] && r == setup.result
    ensures var run := ProbeThen(pre, hadTuner, lock0, setup);
      run.used <= |q0| && trEnd == tr0 + run.out && qEnd == q0[run.used..] && r == run.result &&
      (r.Ok? ==> run.after == setup.after)
  {
    if f.Err? {
    } else if !f.value && !hadTuner {
    } else {
      assert q0[pre.used..][setup.used..] == q0[pre.used + setup.used..];
    }
  }

  /** setSampleRate: the ratio and offset writes, the soft reset, and the
    * achieved rate. */
  function SampleRateStep(rate: nat, ppm: int, q: seq<seq<byte>>): (s: Step<Option<nat>>)
    ensures s.used <= |q|
  {
    var batch := BatchStep(SampleRateLines(Ratio(rate), PpmOffset(ppm)), q);
    var reset := ResetStep(q[batch.used..]);
    Chain(batch, Chain(reset, Step([], 0, Ok(RealRate(rate)))))
  }

  /** resetDemodulator. */
  function ResetStep(q: seq<seq<byte>>): (s: Step<()>)
    ensures s.used <= |q|
  {
    FixedBatchesWellFormed();
    BatchStep(RESET_LINES, q)
  }

  /** resetBuffer. */
  function ResetBufferStep(q: seq<seq<byte>>): (s: Step<()>)
    ensures s.used <= |q|
  {
    FixedBatchesWellFormed();
    BatchStep(RESET_BUFFER_LINES, q)
  }

  /** The RF frequency a tuner frequency stands for: IF_FREQ lower. */
  function Shift(actual: Option<real>): Option<real>
  {
    if actual.None? then None else Some(actual.value - IF_FREQ as real)
  }

  /** A tuner run with the I2C repeater switched on before it and off
    * after it, and its frequency shifted down by IF_FREQ. */
  function RepeaterRun(t: Tuning, q: seq<seq<byte>>, tune: Run<Option<real>>): (r: Run<Option<real>>)
    requires tune.used <= |q| - OpenI2CStep(q).used
  {
    var open := Lift(OpenI2CStep(q), t);
    var close := Lift(CloseI2CStep(q[open.used..][tune.used..]), tune.after);
    var shifted := if tune.result.Ok? then Shift(tune.result.value) else None;
    Seq(open, Seq(Status(tune), Seq(close, Ret(tune.after, shifted))))
  }

  /** setCenterFrequency: the tuner tuned IF_FREQ above `freq` with the I2C
    * repeater on, and the tuned frequency shifted back down. */
  function CenterFrequencyRun(t: Tuning, freq: int, pllRef: nat, q: seq<seq<byte>>): (r: Run<Option<real>>)
    requires Tunable(freq + IF_FREQ) && pllRef > 0
    ensures r.used <= |q|
  {
    RepeaterRun(t, q, SetFrequencyRun(t, freq + IF_FREQ, pllRef, q[OpenI2CStep(q).used..]))
  }

  lemma RepeaterMoves(t0: Tuning, q0: seq<seq<byte>>, tune: Run<Option<real>>, tr0: seq<Transfer>,
                      o: Result<()>, tr1: seq<Transfer>, q1: seq<seq<byte>>,
                      actual: Result<Option<real>>, t2: Tuning, tr2: seq<Transfer>, q2: seq<seq<byte>>,
                      c: Result<()>, tr3: seq<Transfer>, q3: seq<seq<byte>>, r: Result<Option<real>>)
    requires Performs(OpenI2CStep(q0), tr0, q0, tr1, q1, o)
    requires o.Err? ==> t2 == t0 && tr3 == tr1 && q3 == q1 && r == Err(o.error)
    requires o.Ok? ==> Moves(tune, tr1, q1, t2, tr2, q2, actual)
    requires o.Ok? && actual.Err? ==> tr3 == tr2 && q3 == q2 && r == Err(actual.error)
    requires o.Ok? && actual.Ok? ==>
      Performs(CloseI2CStep(q2), tr2, q2, tr3, q3, c) && r == if c.Err? then Err(c.error) else Ok(Shift(actual.value))
    ensures tune.used <= |q0| - OpenI2CStep(q0).used ==> Moves(RepeaterRun(t0, q0, tune), tr0, q0, t2, tr3, q3, r)
  {
    if tune.used <= |q0| - OpenI2CStep(q0).used {
      var open := Lift(OpenI2CStep(q0), t0);
      var close := Lift(CloseI2CStep(q0[open.used..][tune.used..]), tune.after);
      var ret := Ret(tune.after, if tune.result.Ok? then Shift(tune.result.value) else None);
      if o.Ok? {
        if actual.Ok? {
          MovesChain(close, ret, tr2, q2, t2, tr3, q3, t2, tr3, q3, r);
        }
        MovesChain(Status(tune), Seq(close, ret), tr1, q1, t2, tr2, q2, t2, tr3, q3, r);
      }
      MovesChain(open, Seq(Status(tune), Seq(close, ret)), tr0, q0, t0, tr1, q1, t2, tr3, q3, r);
    }
  }

  /** close: the tuner's shutdown writes with the I2C repeater on, then the
    * interface released. */
  function CloseRun(t: Tuning, q: seq<seq<byte>>): (r: Run<()>)
    ensures r.used <= |q|
  {
    ShutdownRun(t, q, WritesRun(t, CLOSE_WRITES))
  }

  /** The I2C repeater on, the tuner's writes `down` (which read nothing),
    * the repeater off, and the interface released. */
  function ShutdownRun(t: Tuning, q: seq<seq<byte>>, down: Run<()>): (r: Run<()>)
  {
    var open := Lift(OpenI2CStep(q), t);
    var close := Lift(CloseI2CStep(q[open.used..]), down.after);
    Seq(open, AndThen(down, Seq(close, Run([Release(0)], 0, down.after, Ok(())))))
  }

  lemma ShutdownMoves(t0: Tuning, q0: seq<seq<byte>>, down: Run<()>, tr0: seq<Transfer>,
                      o: Result<()>, tr1: seq<Transfer>, q1: seq<seq<byte>>, t2: Tuning, tr2: seq<Transfer>,
                      c: Result<()>, tr3: seq<Transfer>, q3: seq<seq<byte>>, trEnd: seq<Transfer>, r: Result<()>)
    requires Performs(OpenI2CStep(q0), tr0, q0, tr1, q1, o)
    requires o.Err? ==> t2 == t0 && trEnd == tr1 && q3 == q1 && r == Err(o.error)
    requires o.Ok? ==> Moves(down, tr1, q1, t2, tr2, q1, Ok(())) && Performs(CloseI2CStep(q1), tr2, q1, tr3, q3, c)
    requires o.Ok? && c.Err? ==> trEnd == tr3 && r == Err(c.error)
    requires o.Ok? && c.Ok? ==> trEnd == tr3 + [Release(0)] && r == Ok(())
    ensures down.used == 0 ==> Moves(ShutdownRun(t0, q0, down), tr0, q0, t2, trEnd, q3, r)
  {
    if down.used == 0 {
      var open := Lift(OpenI2CStep(q0), t0);
      var close := Lift(CloseI2CStep(q0[open.used..]), down.after);
      var release := Run([Release(0)], 0, down.after, Ok(()));
      if o.Ok? {
        if c.Ok? {
          assert q3[0..] == q3;
        }
        MovesChain(close, release, tr2, q1, t2, tr3, q3, t2, trEnd, q3, r);
        MovesThen(down, Seq(close, release), tr1, q1, t2, tr2, q1, t2, trEnd, q3, r);
      }
      MovesChain(open, AndThen(down, Seq(close, release)), tr0, q0, t0, tr1, q1, t2, trEnd, q3, r);
    }
  }

  /** setGain on a bound tuner. */
  method ApplyGain(tu: Tuner, g: Option<real>)
    requires tu.Ready()
    modifies tu.shadow, tu.com.conn
    ensures tu.Does(WritesRun(old(tu.State()), GainWrites(g)), Ok(()))
  {
    if !Falsy(g) {
      tu.SetManualGain(g.value);
    } else {
      tu.SetAutoGain();
    }
  }

  /** The gain set on a bound tuner, then the I2C repeater switched off. */
  method Finish(tu: Tuner, g: Option<real>) returns (r: Result<()>)
    requires tu.Ready()
    modifies tu.shadow, tu.com.conn
    ensures tu.Does(FinishRun(old(tu.State()), g, old(tu.com.conn.replies)), r)
  {
    var com := tu.com;
    ghost var t0, q0 := tu.State(), com.conn.replies;
    ApplyGain(tu, g);
    ghost var tr1, q1, t1 := com.conn.trace, com.conn.replies, tu.State();
    r := com.CloseI2C();
    MovesThen(WritesRun(t0, GainWrites(g)), Lift(CloseI2CStep(q1), t1), old(com.conn.trace), q0, t1, tr1, q1,
              tu.State(), com.conn.trace, com.conn.replies, r);
  }

  /** The tuner's init, then the gain and the I2C repeater switched off. */
  method InitTuner(tu: Tuner, g: Option<real>) returns (r: Result<()>)
    modifies tu, tu.com.conn
    ensures tu.Ready()
    ensures var t0 := Tuning(REGISTERS, old(tu.hasPllLock));
      Moves(TailRun(t0, InitElectronicsRun(t0, tu.pllRef, old(tu.com.conn.replies)), g, old(tu.com.conn.replies)),
            old(tu.com.conn.trace), old(tu.com.conn.replies), tu.State(), tu.com.conn.trace, tu.com.conn.replies, r)
  {
    var com := tu.com;
    ghost var tr0, q0 := com.conn.trace, com.conn.replies;
    ghost var t0 := Tuning(REGISTERS, tu.hasPllLock);
    r := tu.Init();
    ghost var i, t2, tr2, q2 := r, tu.State(), com.conn.trace, com.conn.replies;
    if r.Ok? {
      r := Finish(tu, g);
    }
    TailMoves(t0, InitElectronicsRun(t0, tu.pllRef, q0), g, q0, tr0, i, t2, tr2, q2,
              tu.State(), com.conn.trace, com.conn.replies, r);
  }

  method Bind(tu: Tuner, g: Option<real>, ghost lock0: bool) returns (r: Result<()>)
    requires lock0 == tu.hasPllLock
    modifies tu, tu.com.conn
    ensures var run := SetupRun(lock0, tu.pllRef, g, old(tu.com.conn.replies));
      tu.com.conn.trace == old(tu.com.conn.trace) + run.out && tu.com.conn.replies == old(tu.com.conn.replies)[run.used..] &&
      r == run.result &&
      (r.Ok? ==> BatchStep(MultiplierLines(Multiplier(tu.pllRef)), old(tu.com.conn.replies)).result.Ok?) &&
      (BatchStep(MultiplierLines(Multiplier(tu.pllRef)), old(tu.com.conn.replies)).result.Ok? ==>
         tu.Ready() && tu.State() == run.after)
  {
    var com := tu.com;
    ghost var tr0, q0 := com.conn.trace, com.conn.replies;
    ghost var t0 := Tuning(REGISTERS, lock0);
    r := com.WriteEach(MultiplierLines(Multiplier(tu.pllRef)));
    ghost var tr1, q1 := com.conn.trace, com.conn.replies;
    ghost var tEnd := t0;
    if r.Ok? {
      r := InitTuner(tu, g);
      tEnd := tu.State();
    }
    ghost var mul := Lift(BatchStep(MultiplierLines(Multiplier(tu.pllRef)), q0), t0);
    ghost var init := InitElectronicsRun(t0, tu.pllRef, q1);
    MovesChain(mul, TailRun(t0, init, g, q1), tr0, q0, t0, tr1, q1,
               tEnd, com.conn.trace, com.conn.replies, r);
  }

  // ----- The demodulator object -----

  /** RTL2832U: the demodulator, the tuner it found, and the settings it
    * was opened with. */
  class Demodulator {
    const com: Com
    /** The frequency correction, in parts per million. */
    const ppm: int
    /** The gain open applies: absent or zero for automatic gain. */
    const gain: Option<real>
    var tuner: Tuner?

    /** A bound tuner shares the link and runs from the corrected crystal. */
    ghost predicate Valid()
      reads this
    {
      ppm > -1_000_000 && (tuner != null ==> tuner.com == com && tuner.pllRef == XtalFreq(ppm))
    }

    /** Opened: a tuner is bound and has its register bank. */
    ghost predicate Ready()
      reads this, tuner
    {
      Valid() && tuner != null && tuner.Ready()
    }

    constructor (conn: Connection, ppm: int, gain: Option<real>)
      requires ppm > -1_000_000
      ensures com.conn == conn && this.ppm == ppm && this.gain == gain && tuner == null
      ensures Valid()
    {
      com := new Com(conn);
      this.ppm := ppm;
      this.gain := gain;
      tuner := null;
    }

    /** Lines 76-128 of open: set-up up to the tuner probe. */
    method Prepare() returns (r: Result<bool>)
      modifies com.conn
      ensures Did(com.conn, PrepareStep(old(com.conn.replies)), r)
    {
      FixedBatchesWellFormed();
      ghost var tr0, q0 := com.conn.trace, com.conn.replies;
      ghost var usbStep := BatchStep(USB_LINES, q0);
      var usb := com.WriteEach(USB_LINES);
      ghost var tr1, q1 := com.conn.trace, com.conn.replies;
      ghost var initStep := After([Claim(0)], BatchStep(INIT_LINES, q1));
      ghost var q2 := q1[initStep.used..];
      ghost var openStep := OpenI2CStep(q2);
      ghost var probe := Chain(openStep, CheckStep(q2[openStep.used..]));
      if usb.Err? {
        r := Err(usb.error);
      } else {
        com.ClaimInterface();
        var init := com.WriteEach(INIT_LINES);
        ghost var tr2 := com.conn.trace;
        assert tr2 == tr1 + initStep.out;
        if init.Err? {
          r := Err(init.error);
        } else {
          var open := com.OpenI2C();
          ghost var tr3, q3 := com.conn.trace, com.conn.replies;
          if open.Err? {
            r := Err(open.error);
          } else {
            // The source calls `R820T.check(com)` with an undefined `com` and
            // does not await it; this probes over the demodulator's own link and
            // waits for the answer (README, "Deviations from the source").
            r := Check(com);
          }
          PerformsChain(openStep, CheckStep(q2[openStep.used..]), tr2, q2, tr3, q3, com.conn.trace, com.conn.replies, r);
        }
        PerformsChain(initStep, probe, tr1, q1, tr2, q2, com.conn.trace, com.conn.replies, r);
      }
      PerformsChain(usbStep, Chain(initStep, probe), tr0, q0, tr1, q1, com.conn.trace, com.conn.replies, r);
    }

    /** Lines 129-147 of open: bind a newly found tuner, or keep the one an
      * earlier open bound, and set it up; with neither, UnsupportedTuner. */
    method Attach(found: bool, ghost lock0: bool) returns (r: Result<()>)
      requires Valid() && lock0 == (tuner != null && tuner.hasPllLock)
      modifies this, com.conn, tuner
      ensures Valid()
      ensures !found && old(tuner) == null ==>
        r == Err(UnsupportedTuner) && com.conn.trace == old(com.conn.trace) && com.conn.replies == old(com.conn.replies)
      ensures found || old(tuner) != null ==>
        var run := SetupRun(if found then false else lock0, XtalFreq(ppm), gain, old(com.conn.replies));
        com.conn.trace == old(com.conn.trace) + run.out && com.conn.replies == old(com.conn.replies)[run.used..] &&
        r == run.result && (r.Ok? ==> Ready() && tuner.State() == run.after)
      ensures found ==> tuner != null && fresh(tuner)
      ensures !found ==> tuner == old(tuner)
    {
      var tu := tuner;
      if found {
        tu := new Tuner(com, XtalFreq(ppm));
      }
      if tu == null {
        r := Err(UnsupportedTuner);
      } else {
        tuner := tu;
        r := Bind(tu, gain, if found then false else lock0);
      }
    }

    /** open: bring the demodulator up and bind the tuner. */
    method Open() returns (r: Result<()>)
      requires Valid()
      modifies this, com.conn, tuner
      ensures Valid()
      ensures var run := OpenRun(old(com.conn.replies), old(tuner) != null,
                                 old(tuner) != null && old(tuner.hasPllLock), XtalFreq(ppm), gain);
        com.conn.trace == old(com.conn.trace) + run.out && com.conn.replies == old(com.conn.replies)[run.used..] &&
        r == run.result && (r.Ok? ==> Ready() && tuner.State() == run.after)
      ensures PrepareStep(old(com.conn.replies)).result == Ok(true) ==> tuner != null && fresh(tuner)
      ensures PrepareStep(old(com.conn.replies)).result != Ok(true) ==> tuner == old(tuner)
    {
      ghost var tr0, q0 := com.conn.trace, com.conn.replies;
      ghost var had := tuner != null;
      ghost var lock0 := tuner != null && tuner.hasPllLock;
      var found := Prepare();
      ghost var tr1, q1 := com.conn.trace, com.conn.replies;
      if found.Err? {
        r := Err(found.error);
      } else {
        r := Attach(found == Ok(true), lock0);
      }
      OpenMoves(q0, had, lock0, XtalFreq(ppm), gain, tr0, found, tr1, q1, com.conn.trace, com.conn.replies, r);
    }

    /** setGain: manual gain for a truthy gain, automatic otherwise. */
    method SetGain(g: Option<real>)
      requires Ready()
      modifies tuner.shadow, com.conn
      ensures Ready()
      ensures tuner.Does(WritesRun(old(tuner.State()), GainWrites(g)), Ok(()))
    {
      ApplyGain(tuner, g);
    }

    /** setSampleRate: program the ratio and the offset, reset, and report
      * the achieved rate. */
    method SetSampleRate(rate: nat) returns (r: Result<Option<nat>>)
      modifies com.conn
      ensures Did(com.conn, SampleRateStep(rate, ppm, old(com.conn.replies)), r)
    {
      ghost var tr0, q0 := com.conn.trace, com.conn.replies;
      var ratio := Ratio(rate);
      var offset := PpmOffset(ppm);
      ghost var batch := BatchStep(SampleRateLines(ratio, offset), q0);
      var written := com.WriteEach(SampleRateLines(ratio, offset));
      ghost var tr1, q1 := com.conn.trace, com.conn.replies;
      ghost var rest := Chain(ResetStep(q1), Step([], 0, Ok(RealRate(rate))));
      if written.Err? {
        r := Err(written.error);
      } else {
        var reset := ResetDemodulator();
        if reset.Err? {
          r := Err(reset.error);
        } else {
          r := Ok(RealRate(rate));
        }
        PerformsChain(ResetStep(q1), Step([], 0, Ok(RealRate(rate))), tr1, q1, com.conn.trace, com.conn.replies,
                      com.conn.trace, com.conn.replies, r);
      }
      PerformsChain(batch, rest, tr0, q0, tr1, q1, com.conn.trace, com.conn.replies, r);
    }

    /** resetDemodulator: toggle the soft reset. */
    method ResetDemodulator() returns (r: Result<()>)
      modifies com.conn
      ensures Did(com.conn, ResetStep(old(com.conn.replies)), r)
    {
      FixedBatchesWellFormed();
      r := com.WriteEach(RESET_LINES);
    }

    /** setCenterFrequency: tune IF_FREQ above the requested frequency and
      * report the frequency actually received. */
    method SetCenterFrequency(freq: int) returns (r: Result<Option<real>>)
      requires Ready() && Tunable(freq + IF_FREQ)
      modifies tuner, tuner.shadow, com.conn
      ensures Ready()
      ensures tuner.Does(CenterFrequencyRun(old(tuner.State()), freq, tuner.pllRef, old(com.conn.replies)), r)
    {
      var tu := tuner;
      ghost var t0, tr0, q0 := tu.State(), com.conn.trace, com.conn.replies;
      var o := com.OpenI2C();
      ghost var tr1, q1 := com.conn.trace, com.conn.replies;
      ghost var tr2, q2 := tr1, q1;
      var actual: Result<Option<real>> := Err(ProtocolError(0));
      var c: Result<()> := Ok(());
      if o.Err? {
        r := Err(o.error);
      } else {
        // The source adds a bare `IF_FREQ` and does not await setFrequency;
        // this tunes RTL2832U.IF_FREQ above and waits for the result (README,
        // "Deviations from the source").
        actual := tu.SetFrequency(freq + IF_FREQ);
        tr2, q2 := com.conn.trace, com.conn.replies;
        if actual.Err? {
          r := Err(actual.error);
        } else {
          c := com.CloseI2C();
          r := if c.Err? then Err(c.error) else Ok(Shift(actual.value));
        }
      }
      RepeaterMoves(t0, q0, SetFrequencyRun(t0, freq + IF_FREQ, tu.pllRef, q1), tr0, o, tr1, q1, actual, tu.State(),
                    tr2, q2, c, com.conn.trace, com.conn.replies, r);
    }

    /** resetBuffer: stall and release the bulk endpoint. */
    method ResetBuffer() returns (r: Result<()>)
      modifies com.conn
      ensures Did(com.conn, ResetBufferStep(old(com.conn.replies)), r)
    {
      FixedBatchesWellFormed();
      r := com.WriteEach(RESET_BUFFER_LINES);
    }

    /** readSamples: one bulk read of two bytes (I and Q) per sample. */
    method ReadSamples(length: nat) returns (r: Result<seq<byte>>)
      modifies com.conn
      ensures Did(com.conn, ReadBulkStep(length * BYTES_PER_SAMPLE, old(com.conn.replies)), r)
    {
      r := com.ReadBulk(length * BYTES_PER_SAMPLE);
    }

    /** close: shut the tuner down and release the interface. */
    method Close() returns (r: Result<()>)
      requires Ready()
      modifies tuner.shadow, com.conn
      ensures Ready()
      ensures tuner.Does(CloseRun(old(tuner.State()), old(com.conn.replies)), r)
    {
      var tu := tuner;
      ghost var t0, tr0, q0 := tu.State(), com.conn.trace, com.conn.replies;
      r := com.OpenI2C();
      ghost var o, tr1, q1 := r, com.conn.trace, com.conn.replies;
      ghost var tr2, c, tr3 := tr1, r, tr1;
      if r.Ok? {
        tu.Close();
        tr2 := com.conn.trace;
        r := com.CloseI2C();
        c, tr3 := r, com.conn.trace;
        if r.Ok? {
          com.ReleaseInterface();
        }
      }
      ShutdownMoves(t0, q0, WritesRun(t0, CLOSE_WRITES), tr0, o, tr1, q1, tu.State(), tr2,
                    c, tr3, com.conn.replies, com.conn.trace, r);
    }
  }
}
