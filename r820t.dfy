/** The R820T tuner, driven over the demodulator's I2C repeater.
  *
  * The tuner keeps a shadow copy of its registers 0x05-0x1f, because masked
  * writes have to know the bits they do not change. Each operation of the
  * tuner is specified by a pure `Run` function of the tuner's state (the
  * shadow bank and the lock flag) and of the queued device replies; the
  * methods of class `Tuner` are proved to do exactly what their run
  * describes, and the lemmas state what the runs guarantee. */
module R820T {
  import opened Bits
  import opened Errors
  import opened Transport
  import opened RtlCom

  /** The tuner's I2C address. */
  const I2C_ADDR: u16 := 0x34

  /** The shadow bank covers registers 0x05 to 0x1f. */
  const FIRST_REG := 5
  const BANK_SIZE := 27

  type Bank = s: seq<byte> | |s| == 27 witness seq(27, _ => 0)

  /** The address of a register in the shadow bank. */
  type Addr = a: int | 5 <= a < 32 witness 5

  /** A reference frequency in Hz. */
  type Positive = x: nat | x > 0 witness 1

  /** Initial values for registers 0x05-0x1f. */
  const REGISTERS: Bank := [0x83, 0x32, 0x75, 0xc0, 0x40, 0xd6, 0x6c, 0xf5, 0x63, 0x75,
                            0x68, 0x6c, 0x83, 0x80, 0x00, 0x0f, 0x00, 0xc0, 0x30, 0x48,
                            0xcc, 0x60, 0x00, 0x54, 0xae, 0x4a, 0xc0]

  /** A multiplexer configuration: the lowest frequency of its band in MHz and
    * the values for registers 0x17, 0x1a and 0x1b. */
  datatype MuxCfg = MuxCfg(mhz: nat, r17: byte, r1a: byte, r1b: byte)

  const MUX_CFGS: seq<MuxCfg> := [
    MuxCfg(0, 0x08, 0x02, 0xdf),
    MuxCfg(50, 0x08, 0x02, 0xbe),
    MuxCfg(55, 0x08, 0x02, 0x8b),
    MuxCfg(60, 0x08, 0x02, 0x7b),
    MuxCfg(65, 0x08, 0x02, 0x69),
    MuxCfg(70, 0x08, 0x02, 0x58),
    MuxCfg(75, 0x00, 0x02, 0x44),
    MuxCfg(90, 0x00, 0x02, 0x34),
    MuxCfg(110, 0x00, 0x02, 0x24),
    MuxCfg(140, 0x00, 0x02, 0x14),
    MuxCfg(180, 0x00, 0x02, 0x13),
    MuxCfg(250, 0x00, 0x02, 0x11),
    MuxCfg(280, 0x00, 0x02, 0x00),
    MuxCfg(310, 0x00, 0x41, 0x00),
    MuxCfg(588, 0x00, 0x40, 0x00)
  ]

  /** The 4-bit reversal of each nibble. */
  const BIT_REVS: seq<byte> := [0x0, 0x8, 0x4, 0xc, 0x2, 0xa, 0x6, 0xe,
                                0x1, 0x9, 0x5, 0xd, 0x3, 0xb, 0x7, 0xf]

  // ----- Bit reversal of read-back bytes -----

  /** `(BIT_REVS[b & 0xf] << 4) | BIT_REVS[b >> 4]`. */
  function ReverseBits(b: byte): byte
  {
    BIT_REVS[b % 16] * 16 + BIT_REVS[b / 16]
  }

  function ReverseAll(s: seq<byte>): (r: seq<byte>)
    ensures |r| == |s|
    ensures forall i :: 0 <= i < |s| ==> r[i] == ReverseBits(s[i])
  {
    seq(|s|, i requires 0 <= i < |s| => ReverseBits(s[i]))
  }

  lemma NibbleMirror(n: nat)
    requires n < 16
    ensures BIT_REVS[n] < 16 && BIT_REVS[BIT_REVS[n]] == n
    ensures BitOf(BIT_REVS[n], 0) == BitOf(n, 3) && BitOf(BIT_REVS[n], 1) == BitOf(n, 2)
    ensures BitOf(BIT_REVS[n], 2) == BitOf(n, 1) && BitOf(BIT_REVS[n], 3) == BitOf(n, 0)
  {
    assert n in {0, 1, 2, 3, 4, 5, 6, 7, 8, 9, 10, 11, 12, 13, 14, 15};
  }

  lemma NibbleBit(n: nat, k: nat)
    requires n < 16 && k < 4
    ensures BitOf(BIT_REVS[n], k) == BitOf(n, 3 - k)
  {
    NibbleMirror(n);
  }

  /** Bit k of hi * 16 + lo is bit k of lo below bit 4 and bit k - 4 of hi above. */
  lemma BitOfNibbles(hi: nat, lo: nat, k: nat)
    requires lo < 16
    ensures BitOf(hi * 16 + lo, k) == if k < 4 then BitOf(lo, k) else BitOf(hi, k - 4)
  {
    Pow2Values();
    BitOfConcat(hi, lo, 4, k);
  }

  /** The read-back mapping is a full 8-bit reversal: bit k of the result is
    * bit 7 - k of the byte read. */
  lemma ReverseBitsMirror(b: byte, k: nat)
    requires k < 8
    ensures BitOf(ReverseBits(b), k) == BitOf(b, 7 - k)
  {
    var hi, lo := b / 16, b % 16;
    assert b == hi * 16 + lo;
    NibbleMirror(hi);
    NibbleMirror(lo);
    BitOfNibbles(BIT_REVS[lo], BIT_REVS[hi], k);
    BitOfNibbles(hi, lo, 7 - k);
    if k < 4 {
      NibbleBit(hi, k);
    } else {
      NibbleBit(lo, k - 4);
    }
  }

  /** Reversing twice gives the byte back. */
  lemma ReverseBitsInvolution(b: byte)
    ensures ReverseBits(ReverseBits(b)) == b
  {
    var hi, lo := b / 16, b % 16;
    NibbleMirror(hi);
    NibbleMirror(lo);
    var r := ReverseBits(b);
    assert r % 16 == BIT_REVS[hi] && r / 16 == BIT_REVS[lo];
  }

  lemma ReverseBitsExamples()
    ensures ReverseBits(0x00) == 0x00 && ReverseBits(0xff) == 0xff && ReverseBits(0x12) == 0x48
  {
  }

  // ----- Masked writes on the shadow bank -----

  /** One entry of the tuner's write lists: `[addr, value, mask]`. */
  datatype RegWrite = RegWrite(addr: Addr, value: int, mask: byte)

  /** The byte a masked write stores: `(rc & ~mask) | (value & mask)` over the
    * shadowed value rc. */
  function WrittenByte(regs: Bank, w: RegWrite): byte
  {
    MaskedByte(regs[w.addr - FIRST_REG], w.value % 0x100, w.mask)
  }

  function Apply(regs: Bank, w: RegWrite): (r: Bank)
  {
    regs[w.addr - FIRST_REG := WrittenByte(regs, w)]
  }

  /** The I2C write that carries a masked write to the chip. */
  function WriteOut(regs: Bank, w: RegWrite): seq<Transfer>
  {
    WriteI2CRegStep(I2C_ADDR, w.addr, WrittenByte(regs, w)).out
  }

  /** The shadow bank after the writes, in order. */
  function ApplyAll(regs: Bank, ws: seq<RegWrite>): Bank
    decreases |ws|
  {
    if ws == [] then regs else ApplyAll(Apply(regs, ws[0]), ws[1..])
  }

  /** The I2C transfers of the writes, in order. */
  function WritesOut(regs: Bank, ws: seq<RegWrite>): seq<Transfer>
    decreases |ws|
  {
    if ws == [] then [] else WriteOut(regs, ws[0]) + WritesOut(Apply(regs, ws[0]), ws[1..])
  }

  lemma {:induction false} WritesAppend(regs: Bank, a: seq<RegWrite>, b: seq<RegWrite>)
    ensures ApplyAll(regs, a + b) == ApplyAll(ApplyAll(regs, a), b)
    ensures WritesOut(regs, a + b) == WritesOut(regs, a) + WritesOut(ApplyAll(regs, a), b)
    decreases |a|
  {
    if a == [] {
      assert a + b == b;
    } else {
      assert (a + b)[0] == a[0] && (a + b)[1..] == a[1..] + b;
      WritesAppend(Apply(regs, a[0]), a[1..], b);
    }
  }

  lemma WritesSnoc(regs: Bank, a: seq<RegWrite>, w: RegWrite)
    ensures ApplyAll(regs, a + [w]) == Apply(ApplyAll(regs, a), w)
    ensures WritesOut(regs, a + [w]) == WritesOut(regs, a) + WriteOut(ApplyAll(regs, a), w)
  {
    WritesAppend(regs, a, [w]);
    assert [w][1..] == [];
  }

  /** The writes up to and including ws[i]. */
  lemma WritesOne(regs: Bank, w: RegWrite)
    ensures ApplyAll(regs, [w]) == Apply(regs, w)
    ensures WritesOut(regs, [w]) == WriteOut(regs, w)
  {
    assert [w][0] == w && [w][1..] == [];
    assert WritesOut(Apply(regs, w), []) == [];
  }

  lemma ApplyTwo(regs: Bank, w0: RegWrite, w1: RegWrite)
    ensures ApplyAll(regs, [w0, w1]) == Apply(Apply(regs, w0), w1)
  {
    assert [w0, w1][0] == w0 && [w0, w1][1..] == [w1];
    assert ApplyAll(regs, [w0, w1]) == ApplyAll(Apply(regs, w0), [w1]);
    assert [w1][0] == w1 && [w1][1..] == [];
    assert ApplyAll(Apply(regs, w0), [w1]) == ApplyAll(Apply(Apply(regs, w0), w1), []);
  }

  lemma ApplyFive(regs: Bank, ws: seq<RegWrite>)
    requires |ws| == 5
    ensures ApplyAll(regs, ws) == Apply(Apply(Apply(Apply(Apply(regs, ws[0]), ws[1]), ws[2]), ws[3]), ws[4])
  {
    var r1 := Apply(regs, ws[0]);
    var r2 := Apply(r1, ws[1]);
    var r3 := Apply(r2, ws[2]);
    assert ApplyAll(regs, ws) == ApplyAll(r1, ws[1..]);
    assert ApplyAll(r1, ws[1..]) == ApplyAll(r2, ws[2..]) by {
      assert ws[1..][0] == ws[1] && ws[1..][1..] == ws[2..];
    }
    assert ApplyAll(r2, ws[2..]) == ApplyAll(r3, ws[3..]) by {
      assert ws[2..][0] == ws[2] && ws[2..][1..] == ws[3..];
    }
    assert ws[3..] == [ws[3], ws[4]];
    ApplyTwo(r3, ws[3], ws[4]);
  }

  /** A masked write replaces its register with `(old & ~mask) | (value &
    * mask)`, keeps every other register, and sends exactly that byte to
    * register `addr` of I2C device 0x34. */
  lemma ShadowWrite(regs: Bank, w: RegWrite, i: nat)
    requires i < BANK_SIZE
    ensures Apply(regs, w)[i] == if i == w.addr - FIRST_REG then MaskedByte(regs[i], w.value % 0x100, w.mask) else regs[i]
    ensures WriteOut(regs, w) == [ControlOut(I2C_ADDR, 0x610, [w.addr, WrittenByte(regs, w)])]
  {
    WriteIndexValues();
  }

  /** A register no write addresses keeps its value. */
  lemma {:induction false} ApplyAllUntouched(regs: Bank, ws: seq<RegWrite>, addr: Addr)
    requires forall i :: 0 <= i < |ws| ==> ws[i].addr != addr
    ensures ApplyAll(regs, ws)[addr - FIRST_REG] == regs[addr - FIRST_REG]
    decreases |ws|
  {
    if ws != [] {
      assert forall i :: 0 <= i < |ws[1..]| ==> ws[1..][i] == ws[i + 1];
      ApplyAllUntouched(Apply(regs, ws[0]), ws[1..], addr);
    }
  }

  /** A masked write changes exactly the bits of its register under its mask,
    * and no other register. */
  lemma ApplyBits(regs: Bank, w: RegWrite, a: Addr, k: nat)
    requires k < 8
    ensures a != w.addr ==> Apply(regs, w)[a - FIRST_REG] == regs[a - FIRST_REG]
    ensures BitOf(Apply(regs, w)[w.addr - FIRST_REG], k) ==
            if BitOf(w.mask, k) == 1 then BitOf(w.value % 0x100, k) else BitOf(regs[w.addr - FIRST_REG], k)
  {
    MergeBit(regs[w.addr - FIRST_REG], w.value % 0x100, w.mask, 8, k);
  }

  // ----- Write lists -----

  const CLOSE_WRITES: seq<RegWrite> := [
    RegWrite(0x06, 0xb1, 0xff), RegWrite(0x05, 0xb3, 0xff), RegWrite(0x07, 0x3a, 0xff),
    RegWrite(0x08, 0x40, 0xff), RegWrite(0x09, 0xc0, 0xff), RegWrite(0x0a, 0x36, 0xff),
    RegWrite(0x0c, 0x35, 0xff), RegWrite(0x0f, 0x68, 0xff), RegWrite(0x11, 0x03, 0xff),
    RegWrite(0x17, 0xf4, 0xff), RegWrite(0x19, 0x0c, 0xff)]

  const ELECTRONICS_PREPARE: seq<RegWrite> := [
    RegWrite(0x0c, 0x00, 0x0f), RegWrite(0x13, 49, 0x3f), RegWrite(0x1d, 0x00, 0x38)]

  /** The writes after filter calibration. The first programs the
    * calibrated capacitance as `0x10 | filterCap`; register 0x0a is written
    * once more, under mask 0x60, between the middle and the tail. */
  function ElectronicsSetup(filterCap: nat): seq<RegWrite>
  {
    [RegWrite(0x0a, WithBit(filterCap, 4), 0x1f)] + ELECTRONICS_MIDDLE + [RegWrite(0x0a, 0x40, 0x60)] + ELECTRONICS_TAIL
  }

  const ELECTRONICS_MIDDLE: seq<RegWrite> := [
    RegWrite(0x0b, 0x6b, 0xef), RegWrite(0x07, 0x00, 0x80), RegWrite(0x06, 0x10, 0x30),
    RegWrite(0x1e, 0x40, 0x60), RegWrite(0x05, 0x00, 0x80), RegWrite(0x1f, 0x00, 0x80),
    RegWrite(0x0f, 0x00, 0x80), RegWrite(0x19, 0x60, 0x60), RegWrite(0x1d, 0xe5, 0xc7),
    RegWrite(0x1c, 0x24, 0xf8), RegWrite(0x0d, 0x53, 0xff), RegWrite(0x0e, 0x75, 0xff),
    RegWrite(0x05, 0x00, 0x60), RegWrite(0x06, 0x00, 0x08), RegWrite(0x11, 0x38, 0x08),
    RegWrite(0x17, 0x30, 0x30)]

  const ELECTRONICS_TAIL: seq<RegWrite> := [
    RegWrite(0x1d, 0x00, 0x38), RegWrite(0x1c, 0x00, 0x04), RegWrite(0x06, 0x00, 0x40),
    RegWrite(0x1a, 0x30, 0x30), RegWrite(0x1d, 0x18, 0x38), RegWrite(0x1c, 0x24, 0x04),
    RegWrite(0x1e, 0x0d, 0x1f), RegWrite(0x1a, 0x20, 0x30)]

  /** The calibrated capacitance ends in bits 0-3 of register 0x0a with bit
    * 4 set, as `0x10 | filterCap` under mask 0x1f writes it: the later
    * write to 0x0a, under mask 0x60, leaves bits 0-4 alone. */
  lemma ElectronicsFilterCap(regs: Bank, filterCap: nat, k: nat)
    requires filterCap <= 14 && k < 5
    ensures BitOf(ApplyAll(regs, ElectronicsSetup(filterCap))[0x0a - FIRST_REG], k) == BitOf(WithBit(filterCap, 4), k)
  {
    var first := RegWrite(0x0a, WithBit(filterCap, 4), 0x1f);
    var again := RegWrite(0x0a, 0x40, 0x60);
    var r1 := Apply(regs, first);
    var fin := ApplyAll(Apply(ApplyAll(r1, ELECTRONICS_MIDDLE), again), ELECTRONICS_TAIL);
    assert ApplyAll(regs, ElectronicsSetup(filterCap)) == fin by {
      SetupSplit(regs, first, again);
    }
    assert BitOf(fin[0x0a - FIRST_REG], k) == BitOf(r1[0x0a - FIRST_REG], k) by {
      assert BitOf(0x60, k) == 0 by {
        assert k in {0, 1, 2, 3, 4};
      }
      SetupSpares0a();
      SparedBits(regs, first, ELECTRONICS_MIDDLE, again, ELECTRONICS_TAIL, k);
    }
    CapWrite(regs, filterCap, k);
  }

  /** The first write to 0x0a stores bits 0-4 of `0x10 | filterCap`. */
  lemma CapWrite(regs: Bank, filterCap: nat, k: nat)
    requires filterCap <= 14 && k < 5
    ensures BitOf(Apply(regs, RegWrite(0x0a, WithBit(filterCap, 4), 0x1f))[0x0a - FIRST_REG], k) == BitOf(WithBit(filterCap, 4), k)
  {
    var wb := WithBit(filterCap, 4);
    assert BitOf(0x1f, k) == 1 by {
      assert k in {0, 1, 2, 3, 4};
    }
    ApplyBits(regs, RegWrite(0x0a, wb, 0x1f), 0x0a, k);
    assert wb < 0x100 by {
      Pow2Values();
      WithBitBound(filterCap, 4, 8);
    }
    assert wb % 0x100 == wb by {
      DivModUnique(wb, 0x100, 0, wb);
    }
  }

  /** Two writes to one register with only unrelated writes around them:
    * a bit the second mask spares is the one the first write left. */
  lemma SparedBits(regs: Bank, first: RegWrite, mid: seq<RegWrite>, again: RegWrite, tail: seq<RegWrite>, k: nat)
    requires k < 8 && again.addr == first.addr
    requires Spares(mid, first.addr) && Spares(tail, first.addr)
    requires BitOf(again.mask, k) == 0
    ensures var fin := ApplyAll(Apply(ApplyAll(Apply(regs, first), mid), again), tail);
      BitOf(fin[first.addr - FIRST_REG], k) == BitOf(Apply(regs, first)[first.addr - FIRST_REG], k)
  {
    var r1 := Apply(regs, first);
    var r2 := ApplyAll(r1, mid);
    var r3 := Apply(r2, again);
    ApplyAllUntouched(r1, mid, first.addr);
    ApplyAllUntouched(r3, tail, first.addr);
    ApplyBits(r2, again, first.addr, k);
    var a := first.addr - FIRST_REG;
    assert ApplyAll(r3, tail)[a] == r3[a];
    assert r2[a] == r1[a];
    assert BitOf(r3[a], k) == BitOf(r2[a], k);
  }

  lemma SetupSplit(regs: Bank, first: RegWrite, again: RegWrite)
    ensures ApplyAll(regs, [first] + ELECTRONICS_MIDDLE + [again] + ELECTRONICS_TAIL) ==
            ApplyAll(Apply(ApplyAll(Apply(regs, first), ELECTRONICS_MIDDLE), again), ELECTRONICS_TAIL)
  {
    var m := [first] + ELECTRONICS_MIDDLE;
    WritesAppend(regs, m + [again], ELECTRONICS_TAIL);
    WritesSnoc(regs, m, again);
    WritesAppend(regs, [first], ELECTRONICS_MIDDLE);
    WritesOne(regs, first);
  }

  /** Between the two writes to 0x0a, and after them, no write touches it. */
  lemma SetupSpares0a()
    ensures Spares(ELECTRONICS_MIDDLE, 0x0a) && Spares(ELECTRONICS_TAIL, 0x0a)
  {
  }

  /** No write of ws addresses register addr. */
  predicate Spares(ws: seq<RegWrite>, addr: Addr)
  {
    forall i :: 0 <= i < |ws| ==> ws[i].addr != addr
  }

  const AUTO_GAIN_WRITES: seq<RegWrite> := [
    RegWrite(0x05, 0x00, 0x10), RegWrite(0x07, 0x10, 0x10), RegWrite(0x0c, 0x0b, 0x9f)]

  /** The frequency the PLL is tuned to for filter calibration, 56 MHz. */
  const CALIBRATION_FREQ := 56_000_000

  const CALIBRATE_PREPARE: seq<RegWrite> := [
    RegWrite(0x0b, 0x6b, 0x60), RegWrite(0x0f, 0x04, 0x04), RegWrite(0x10, 0x00, 0x03)]

  const CALIBRATE_TRIGGER: seq<RegWrite> := [
    RegWrite(0x0b, 0x10, 0x10), RegWrite(0x0b, 0x00, 0x10), RegWrite(0x0f, 0x00, 0x04)]

  function MuxWrites(cfg: MuxCfg): seq<RegWrite>
  {
    [RegWrite(0x17, cfg.r17, 0x08), RegWrite(0x1a, cfg.r1a, 0xc3), RegWrite(0x1b, cfg.r1b, 0xff),
     RegWrite(0x10, 0x00, 0x0b), RegWrite(0x08, 0x00, 0x3f), RegWrite(0x09, 0x00, 0x3f)]
  }

  const PLL_PREPARE: seq<RegWrite> := [
    RegWrite(0x10, 0x00, 0x10), RegWrite(0x1a, 0x00, 0x0c), RegWrite(0x12, 0x80, 0xe0)]

  const LOCK_RETRY: RegWrite := RegWrite(0x12, 0x60, 0xe0)
  const PLL_DONE: RegWrite := RegWrite(0x1a, 0x08, 0x08)

  // ----- Multiplexer band selection -----

  const MHZ := 1_000_000

  /** The lowest frequency of band i, in Hz. */
  function BandStart(i: nat): nat
    requires i < |MUX_CFGS|
  {
    MUX_CFGS[i].mhz * MHZ
  }

  /** Row i is the band of freq: every later threshold up to row i has been
    * passed, and the next one, if any, has not. */
  predicate InBand(freq: int, i: nat)
  {
    i < |MUX_CFGS| &&
    (forall j :: 0 < j <= i ==> BandStart(j) <= freq) &&
    (i < |MUX_CFGS| - 1 ==> freq < BandStart(i + 1))
  }

  function MuxIndexFrom(freq: int, i: nat): (r: nat)
    requires i < |MUX_CFGS|
    requires forall j :: 0 < j <= i ==> BandStart(j) <= freq
    ensures i <= r && InBand(freq, r)
    decreases |MUX_CFGS| - i
  {
    if i == |MUX_CFGS| - 1 || freq < BandStart(i + 1) then i
    else MuxIndexFrom(freq, i + 1)
  }

  /** The band row setMux selects: the first i with `freq / 1e6 < MUX_CFGS[i + 1][0]`,
    * or the last row when there is none. */
  function MuxIndex(freq: int): (i: nat)
    ensures InBand(freq, i)
  {
    MuxIndexFrom(freq, 0)
  }

  /** Exactly one row is the band of a frequency, so the search's result is
    * determined by InBand. */
  lemma MuxIndexUnique(freq: int, i: nat)
    requires InBand(freq, i)
    ensures i == MuxIndex(freq)
  {
  }

  /** For a non-negative frequency the selected row's band contains it: its
    * threshold is at most the frequency and the next threshold, if any, is
    * above it. */
  lemma MuxBand(freq: int)
    requires freq >= 0
    ensures var i := MuxIndex(freq);
      BandStart(i) <= freq && (i < |MUX_CFGS| - 1 ==> freq < BandStart(i + 1))
  {
    var i := MuxIndex(freq);
    if i > 0 {
      assert BandStart(i) <= freq;
    }
  }

  /** 103.57 MHz falls in the 90 MHz band, 0 Hz in the first and 1 GHz in the last. */
  lemma MuxExample()
    ensures MuxIndex(103_570_000) == 7 && MuxIndex(0) == 0 && MuxIndex(1_000_000_000) == 14
  {
    assert InBand(103_570_000, 7) by {
      assert forall j :: 0 < j <= 7 ==> BandStart(j) <= 90 * MHZ;
    }
    MuxIndexUnique(103_570_000, 7);
    MuxIndexUnique(0, 0);
    assert InBand(1_000_000_000, 14) by {
      assert forall j :: 0 < j <= 14 ==> BandStart(j) <= 588 * MHZ;
    }
    MuxIndexUnique(1_000_000_000, 14);
  }

  // ----- PLL arithmetic -----

  /** The VCO limit in the divider choice `log2(1.77e9 / freq)`. */
  const VCO_MAX := 1_770_000_000

  /** The largest k with 2^k * den <= num. */
  function FloorLog2(num: nat, den: nat): (k: nat)
    requires 0 < den <= num
    ensures Pow2(k) * den <= num < Pow2(k + 1) * den
    decreases num - den
  {
    if 2 * den > num then 0
    else
      var k := FloorLog2(num, 2 * den);
      assert Pow2(k + 1) * den == Pow2(k) * (2 * den);
      assert Pow2(k + 2) * den == Pow2(k + 1) * (2 * den);
      k + 1
  }

  predicate Tunable(freq: int)
  {
    0 < freq <= VCO_MAX
  }

  /** `Math.min(6, floor(log2(1.77e9 / freq)))`. */
  function DivNum(freq: int): (d: nat)
    requires Tunable(freq)
    ensures d <= 6 && Pow2(d) * freq <= VCO_MAX
    ensures d < 6 ==> VCO_MAX < Pow2(d + 1) * freq
  {
    var k := FloorLog2(VCO_MAX, freq);
    if k < 6 then k
    else
      assert Pow2(6) * freq <= Pow2(k) * freq by {
        Pow2Monotone(6, k);
        MulMonotone(Pow2(6), Pow2(k), freq);
      }
      6
  }

  lemma {:induction false} Pow2Monotone(a: nat, b: nat)
    requires a <= b
    ensures Pow2(a) <= Pow2(b)
    decreases b - a
  {
    if a < b {
      Pow2Monotone(a, b - 1);
    }
  }

  lemma MulMonotone(x: nat, y: nat, z: nat)
    requires x <= y
    ensures x * z <= y * z
  {
  }

  /** `1 << (divNum + 1)`, from the divider before the fine-tune correction. */
  function MixDiv(freq: int): nat
    requires Tunable(freq)
  {
    Pow2(DivNum(freq) + 1)
  }

  /** The VCO fine-tune correction of the divider: down when the VCO runs
    * high (fine tune above 2), up when it runs low. */
  function CorrectedDivNum(divNum: nat, fineTune: nat): int
  {
    if fineTune > 2 then divNum - 1 else if fineTune < 2 then divNum + 1 else divNum
  }

  function VcoFreq(freq: int): nat
    requires Tunable(freq)
  {
    freq * MixDiv(freq)
  }

  /** The integer part of the divider: `floor(vcoFreq / (2 * pllRef))`. */
  function Nint(freq: int, pllRef: nat): nat
    requires Tunable(freq) && pllRef > 0
  {
    var vco: nat, twice: nat := VcoFreq(freq), 2 * pllRef;
    vco / twice
  }

  /** The remainder of the divider: `vcoFreq % (2 * pllRef)`. */
  function VcoFra(freq: int, pllRef: nat): nat
    requires Tunable(freq) && pllRef > 0
  {
    var vco: nat, twice: nat := VcoFreq(freq), 2 * pllRef;
    vco % twice
  }

  /** `Math.floor((nint - 13) / 4)`. */
  function Ni(nint: int): int
  {
    (nint - 13) / 4
  }

  /** `(nint - 13) % 4`, whose sign follows the dividend as in JavaScript. */
  function Si(nint: int): int
  {
    if nint >= 13 then (nint - 13) % 4 else -((13 - nint) % 4)
  }

  /** `Math.min(65535, floor(32768 * vcoFra / pllRef))`. */
  function Sdm(freq: int, pllRef: nat): nat
    requires Tunable(freq) && pllRef > 0
  {
    var s := 32768 * VcoFra(freq, pllRef) / pllRef;
    if s < 65535 then s else 65535
  }

  /** `2 * pllRef * (nint + sdm / 65536) / mixDiv`. */
  function ActualFreq(freq: int, pllRef: nat): real
    requires Tunable(freq) && pllRef > 0
  {
    Synthesized(pllRef, Nint(freq, pllRef), Sdm(freq, pllRef), MixDiv(freq))
  }

  /** The frequency a fractional divider n + s / 65536 on the reference r
    * synthesizes, after the mixer divider m. */
  function Synthesized(r: nat, n: nat, s: nat, m: nat): real
    requires m > 0
  {
    2.0 * (r as real) * ((n as real) + (s as real) / 65536.0) / (m as real)
  }

  /** The divider value for register 0x10 (bits 7-5): `divNum << 5`. */
  function DividerWrite(freq: int, fineTune: nat): RegWrite
    requires Tunable(freq)
  {
    RegWrite(0x10, CorrectedDivNum(DivNum(freq), fineTune) * 32, 0xe0)
  }

  /** Register 0x14 holds `ni + (si << 6)`; 0x12 bit 3 flags an exact divider. */
  function IntegerWrites(freq: int, pllRef: nat): seq<RegWrite>
    requires Tunable(freq) && pllRef > 0
  {
    var nint := Nint(freq, pllRef);
    [RegWrite(0x14, Ni(nint) + Si(nint) * 64, 0xff),
     RegWrite(0x12, if VcoFra(freq, pllRef) == 0 then 0x08 else 0x00, 0x08)]
  }

  /** Registers 0x16 and 0x15 hold the high and low bytes of sdm. */
  function SdmWrites(freq: int, pllRef: nat): seq<RegWrite>
    requires Tunable(freq) && pllRef > 0
  {
    var sdm := Sdm(freq, pllRef);
    [RegWrite(0x16, sdm / 256, 0xff), RegWrite(0x15, sdm % 256, 0xff)]
  }

  /** The integer and sdm writes leave 0x14 = ni + (si << 6), bit 3 of 0x12
    * set exactly when vcoFra is 0, and sdm's high and low bytes in 0x16 and
    * 0x15. */
  lemma DividerRegisters(regs: Bank, freq: int, pllRef: nat)
    requires Tunable(freq) && pllRef > 0
    ensures var d := ApplyAll(ApplyAll(regs, IntegerWrites(freq, pllRef)), SdmWrites(freq, pllRef));
      var nint, sdm := Nint(freq, pllRef), Sdm(freq, pllRef);
      d[0x14 - FIRST_REG] == (Ni(nint) + Si(nint) * 64) % 0x100 &&
      (BitOf(d[0x12 - FIRST_REG], 3) == 1 <==> VcoFra(freq, pllRef) == 0) &&
      d[0x16 - FIRST_REG] == sdm / 256 && d[0x15 - FIRST_REG] == sdm % 256
  {
    var c := ApplyAll(regs, IntegerWrites(freq, pllRef));
    IntegerRegisters(regs, freq, pllRef);
    SdmRegisters(c, freq, pllRef);
  }

  lemma IntegerRegisters(regs: Bank, freq: int, pllRef: nat)
    requires Tunable(freq) && pllRef > 0
    ensures var c := ApplyAll(regs, IntegerWrites(freq, pllRef));
      var nint := Nint(freq, pllRef);
      c[0x14 - FIRST_REG] == (Ni(nint) + Si(nint) * 64) % 0x100 &&
      (BitOf(c[0x12 - FIRST_REG], 3) == 1 <==> VcoFra(freq, pllRef) == 0)
  {
    var iw := IntegerWrites(freq, pllRef);
    var c1 := Apply(regs, iw[0]);
    ApplyTwo(regs, iw[0], iw[1]);
    assert iw == [iw[0], iw[1]];
    FullMaskWrites(regs[0x14 - FIRST_REG], iw[0].value % 0x100);
    ApplyBits(c1, iw[1], 0x14, 3);
    ApplyBits(c1, iw[1], 0x12, 3);
    assert BitOf(0x08, 3) == 1 && BitOf(0x00, 3) == 0;
  }

  /** The sdm writes store its two bytes and leave 0x12 and 0x14 alone. */
  lemma SdmRegisters(regs: Bank, freq: int, pllRef: nat)
    requires Tunable(freq) && pllRef > 0
    ensures var d := ApplyAll(regs, SdmWrites(freq, pllRef));
      var sdm := Sdm(freq, pllRef);
      d[0x14 - FIRST_REG] == regs[0x14 - FIRST_REG] && d[0x12 - FIRST_REG] == regs[0x12 - FIRST_REG] &&
      d[0x16 - FIRST_REG] == sdm / 256 && d[0x15 - FIRST_REG] == sdm % 256
  {
    SdmBytes(regs, Sdm(freq, pllRef));
  }

  lemma SdmBytes(regs: Bank, sdm: nat)
    requires sdm < 65536
    ensures var d := ApplyAll(regs, [RegWrite(0x16, sdm / 256, 0xff), RegWrite(0x15, sdm % 256, 0xff)]);
      d[0x14 - FIRST_REG] == regs[0x14 - FIRST_REG] && d[0x12 - FIRST_REG] == regs[0x12 - FIRST_REG] &&
      d[0x16 - FIRST_REG] == sdm / 256 && d[0x15 - FIRST_REG] == sdm % 256
  {
    var hi, lo := RegWrite(0x16, sdm / 256, 0xff), RegWrite(0x15, sdm % 256, 0xff);
    var d1 := Apply(regs, hi);
    ApplyTwo(regs, hi, lo);
    assert sdm / 256 < 0x100;
    FullMaskWrites(regs[0x16 - FIRST_REG], sdm / 256);
    FullMaskWrites(d1[0x15 - FIRST_REG], sdm % 256);
  }

  /** The fine-tune reading only changes the value written to bits 7-5 of
    * register 0x10: address and mask are fixed, and the mask spares bits 4-0. */
  lemma FineTuneOnlyDivider(freq: int, fine1: nat, fine2: nat, k: nat)
    requires Tunable(freq) && k < 8
    ensures DividerWrite(freq, fine1).addr == DividerWrite(freq, fine2).addr == 0x10
    ensures DividerWrite(freq, fine1).mask == DividerWrite(freq, fine2).mask == 0xe0
    ensures BitOf(DividerWrite(freq, fine1).mask, k) == if k < 5 then 0 else 1
  {
    assert k in {0, 1, 2, 3, 4, 5, 6, 7};
  }

  /** The divider uses the whole range: 2^d * freq never exceeds the VCO
    * limit and, below the cap of 6, one more doubling would. */
  lemma DividerRange(freq: int)
    requires Tunable(freq)
    ensures MixDiv(freq) == 2 * Pow2(DivNum(freq)) && MixDiv(freq) <= 128
    ensures DivNum(freq) < 6 ==> VCO_MAX < VcoFreq(freq) <= 2 * VCO_MAX
  {
    Pow2Monotone(DivNum(freq), 6);
    assert Pow2(6) == 64;
  }

  /** The sdm clamp never binds, because vcoFra < 2 * pllRef. */
  lemma SdmUnclamped(freq: int, pllRef: nat)
    requires Tunable(freq) && pllRef > 0
    ensures Sdm(freq, pllRef) == 32768 * VcoFra(freq, pllRef) / pllRef
    ensures pllRef * Sdm(freq, pllRef) <= 32768 * VcoFra(freq, pllRef) < pllRef * Sdm(freq, pllRef) + pllRef
  {
    var fra := VcoFra(freq, pllRef);
    var s := 32768 * fra / pllRef;
    assert fra < 2 * pllRef;
    DivBounds(32768 * fra, pllRef);
    assert pllRef * s <= 32768 * fra;
    if s >= 65535 {
      MulMonotone(65535, s, pllRef);
      assert 65535 * pllRef <= 32768 * fra;
      assert 32768 * fra < 65536 * pllRef;
      DivBelow(32768 * fra, pllRef, 65536);
    }
  }

  lemma DivBounds(x: nat, d: nat)
    requires d > 0
    ensures d * (x / d) <= x < d * (x / d + 1)
  {
  }

  lemma DivBelow(x: nat, d: nat, c: nat)
    requires d > 0 && x < c * d
    ensures x / d < c
  {
    DivBounds(x, d);
    if x / d >= c {
      MulMonotone(c, x / d, d);
    }
  }

  /** nint and vcoFra split the VCO frequency. */
  lemma DividerSplit(freq: int, pllRef: nat)
    requires Tunable(freq) && pllRef > 0
    ensures freq * MixDiv(freq) == 2 * pllRef * Nint(freq, pllRef) + VcoFra(freq, pllRef)
    ensures VcoFra(freq, pllRef) < 2 * pllRef
  {
  }

  /** Register 0x14 encodes nint exactly when 13 <= nint <= 63: the low six
    * bits hold ni, the top two hold si, and nint = 4 * ni + si + 13. */
  lemma IntegerRegister(nint: int)
    requires 13 <= nint <= 63
    ensures var v := Ni(nint) + Si(nint) * 64;
      0 <= v < 256 && v % 64 == Ni(nint) && v / 64 == Si(nint) && 4 * (v % 64) + v / 64 + 13 == nint
  {
  }

  /** Below 13 the JavaScript remainder is negative: nint 12 gives ni = -1,
    * si = -1 and the byte 0xbf. */
  lemma IntegerRegisterBelowRange()
    ensures Ni(12) == -1 && Si(12) == -1 && (Ni(12) + Si(12) * 64) % 256 == 0xbf
  {
  }

  /** The returned frequency is at most the requested one and less than one
    * sdm step (pllRef / (32768 * mixDiv)) below it. */
  lemma ActualFreqError(freq: int, pllRef: nat)
    requires Tunable(freq) && pllRef > 0
    ensures ActualFreq(freq, pllRef) <= freq as real
    ensures (freq as real) - ActualFreq(freq, pllRef) < (pllRef as real) / (32768.0 * (MixDiv(freq) as real))
  {
    PllFacts(freq, pllRef);
    IntError(freq, MixDiv(freq), pllRef, Nint(freq, pllRef), VcoFra(freq, pllRef), Sdm(freq, pllRef));
  }

  lemma PllFacts(freq: int, pllRef: nat)
    requires Tunable(freq) && pllRef > 0
    ensures MixDiv(freq) > 0 && freq * MixDiv(freq) == 2 * pllRef * Nint(freq, pllRef) + VcoFra(freq, pllRef)
    ensures pllRef * Sdm(freq, pllRef) <= 32768 * VcoFra(freq, pllRef) < pllRef * Sdm(freq, pllRef) + pllRef
  {
    DividerSplit(freq, pllRef);
    SdmUnclamped(freq, pllRef);
  }

  lemma IntError(f: int, m: nat, r: nat, n: nat, fra: int, s: nat)
    requires m > 0 && r > 0
    requires f * m == 2 * r * n + fra
    requires r * s <= 32768 * fra < r * s + r
    ensures Synthesized(r, n, s, m) <= f as real
    ensures (f as real) - Synthesized(r, n, s, m) < (r as real) / (32768.0 * (m as real))
  {
    CastSplit(f, m, r, n, fra);
    CastBounds(r, s, fra);
    SdmError(f as real, m as real, r as real, n as real, fra as real, s as real);
  }

  lemma CastSplit(f: int, m: int, r: int, n: int, fra: int)
    requires f * m == 2 * r * n + fra
    ensures (f as real) * (m as real) == 2.0 * (r as real) * (n as real) + (fra as real)
  {
  }

  lemma CastBounds(r: int, s: int, fra: int)
    requires r * s <= 32768 * fra < r * s + r
    ensures (r as real) * (s as real) <= 32768.0 * (fra as real) < (r as real) * (s as real) + (r as real)
  {
  }

  lemma RealDivLess(a: real, b: real, m: real)
    requires m > 0.0 && a < b
    ensures a / m < b / m
  {
    assert b / m - a / m == (b - a) / m;
  }

  lemma RealDivAtMost(a: real, b: real, m: real)
    requires m > 0.0 && a <= b
    ensures a / m <= b / m
  {
    assert b / m - a / m == (b - a) / m;
  }

  /** The frequency error of a fractional divider: with f * m = 2 r n + fra
    * and s the sdm of fra, the synthesized 2 r (n + s / 65536) / m is below f
    * by less than r / (32768 m). */
  lemma SdmError(f: real, m: real, r: real, n: real, fra: real, s: real)
    requires m > 0.0 && r > 0.0
    requires f * m == 2.0 * r * n + fra
    requires r * s <= 32768.0 * fra < r * s + r
    ensures 2.0 * r * (n + s / 65536.0) / m <= f
    ensures f - 2.0 * r * (n + s / 65536.0) / m < r / (32768.0 * m)
  {
    var a := 2.0 * r * (n + s / 65536.0);
    assert a == 2.0 * r * n + r * s / 32768.0;
    var g := fra - r * s / 32768.0;
    assert 0.0 <= g < r / 32768.0;
    assert f * m - a == g;
    assert f - a / m == g / m;
    RealDivAtMost(0.0, g, m);
    RealDivLess(g, r / 32768.0, m);
    assert (r / 32768.0) / m == r / (32768.0 * m);
  }

  /** The divider for 103.57 MHz (100 MHz plus the 3.57 MHz IF) with a
    * 28.8 MHz reference. */
  lemma PllExample()
    ensures DivNum(103_570_000) == 4 && MixDiv(103_570_000) == 32
    ensures Nint(103_570_000, 28_800_000) == 57 && VcoFra(103_570_000, 28_800_000) == 31_040_000
    ensures Ni(57) == 11 && Si(57) == 0 && Sdm(103_570_000, 28_800_000) == 35316
  {
    assert Pow2(4) * 103_570_000 <= VCO_MAX < Pow2(5) * 103_570_000;
    assert DivNum(103_570_000) == 4;
  }

  // ----- Gain -----

  /** The gain curve of setManualGain, over the reals. */
  function GainCurve(gain: real): real
  {
    if gain <= 15.0 then 1.36 + gain * (1.1118 + gain * (-0.0786 + gain * 0.0027))
    else 1.2068 + gain * (0.6875 + gain * (-0.01011 + gain * 0.0001587))
  }

  /** Math.round: the nearest integer, halves rounded up. */
  function Round(x: real): int
  {
    (x + 0.5).Floor
  }

  /** The gain step, clamped to [0, 30]. */
  function GainStep(gain: real): (step: nat)
    ensures step <= 30
    ensures 0 <= Round(GainCurve(gain)) <= 30 ==> step == Round(GainCurve(gain))
    ensures Round(GainCurve(gain)) < 0 ==> step == 0
    ensures Round(GainCurve(gain)) > 30 ==> step == 30
  {
    var step := Round(GainCurve(gain));
    if step < 0 then 0 else if step > 30 then 30 else step
  }

  /** `Math.floor(step / 2)` and `Math.floor((step - 1) / 2)`. */
  function LnaValue(step: nat): int
  {
    step / 2
  }

  function MixerValue(step: nat): int
  {
    (step - 1) / 2
  }

  /** The step is shared between LNA and mixer: the LNA gets the extra half
    * step, both fit in 4 bits, and at step 0 the mixer value is -1. */
  lemma GainSplit(step: nat)
    requires step <= 30
    ensures LnaValue(step) + MixerValue(step) == step - 1
    ensures 0 <= LnaValue(step) - MixerValue(step) <= 1
    ensures 0 <= LnaValue(step) <= 15 && -1 <= MixerValue(step) <= 14
    ensures step == 0 <==> MixerValue(step) == -1
  {
  }

  function ManualGainWrites(step: nat): seq<RegWrite>
  {
    [RegWrite(0x05, 0x10, 0x10), RegWrite(0x07, 0x00, 0x10), RegWrite(0x0c, 0x08, 0x9f),
     RegWrite(0x05, LnaValue(step), 0x0f), RegWrite(0x07, MixerValue(step), 0x0f)]
  }

  /** Manual gain disables the automatic loops (bit 4 of 0x05 set, bit 4 of
    * 0x07 clear) and puts the LNA and mixer values in the low nibbles of
    * 0x05 and 0x07; a mixer value of -1 becomes 0x0f under the mask. */
  lemma ManualGainRegisters(regs: Bank, step: nat, k: nat)
    requires step <= 30 && k < 4
    ensures var after := ApplyAll(regs, ManualGainWrites(step));
      BitOf(after[0x05 - FIRST_REG], 4) == 1 && BitOf(after[0x07 - FIRST_REG], 4) == 0 &&
      BitOf(after[0x05 - FIRST_REG], k) == BitOf(LnaValue(step), k) &&
      BitOf(after[0x07 - FIRST_REG], k) == BitOf(MixerValue(step) % 0x100, k) &&
      (step == 0 ==> BitOf(after[0x07 - FIRST_REG], k) == 1)
  {
    ManualGainManual(regs, step);
    ManualGainLna(regs, step, k);
    ManualGainMixer(regs, step, k);
    if step == 0 {
      assert MixerValue(0) % 0x100 == 0xff;
      assert BitOf(0xff, k) == 1 by {
        assert k in {0, 1, 2, 3};
      }
    }
  }

  /** Bit 4 of 0x05 ends set (LNA gain manual) and bit 4 of 0x07 clear (mixer gain manual). */
  lemma ManualGainManual(regs: Bank, step: nat)
    requires step <= 30
    ensures var after := ApplyAll(regs, ManualGainWrites(step));
      BitOf(after[0x05 - FIRST_REG], 4) == 1 && BitOf(after[0x07 - FIRST_REG], 4) == 0
  {
    var ws := ManualGainWrites(step);
    var r1 := Apply(regs, ws[0]);
    var r2 := Apply(r1, ws[1]);
    var r3 := Apply(r2, ws[2]);
    var r4 := Apply(r3, ws[3]);
    ApplyFive(regs, ws);
    assert BitOf(0x10, 4) == 1 && BitOf(0x0f, 4) == 0;
    ApplyBits(regs, ws[0], 0x05, 4);
    ApplyBits(r1, ws[1], 0x05, 4);
    ApplyBits(r2, ws[2], 0x05, 4);
    ApplyBits(r3, ws[3], 0x05, 4);
    ApplyBits(r4, ws[4], 0x05, 4);
  }

  lemma ManualGainLna(regs: Bank, step: nat, k: nat)
    requires step <= 30 && k < 4
    ensures BitOf(ApplyAll(regs, ManualGainWrites(step))[0x05 - FIRST_REG], k) == BitOf(LnaValue(step), k)
  {
    var ws := ManualGainWrites(step);
    var r4 := Apply(Apply(Apply(Apply(regs, ws[0]), ws[1]), ws[2]), ws[3]);
    ApplyFive(regs, ws);
    assert BitOf(0x0f, k) == 1 by {
      assert k in {0, 1, 2, 3};
    }
    ApplyBits(Apply(Apply(Apply(regs, ws[0]), ws[1]), ws[2]), ws[3], 0x05, k);
    ApplyBits(r4, ws[4], 0x05, k);
    GainSplit(step);
    assert LnaValue(step) % 0x100 == LnaValue(step);
  }

  lemma ManualGainMixer(regs: Bank, step: nat, k: nat)
    requires step <= 30 && k < 4
    ensures BitOf(ApplyAll(regs, ManualGainWrites(step))[0x07 - FIRST_REG], k) == BitOf(MixerValue(step) % 0x100, k)
  {
    var ws := ManualGainWrites(step);
    var r4 := Apply(Apply(Apply(Apply(regs, ws[0]), ws[1]), ws[2]), ws[3]);
    ApplyFive(regs, ws);
    assert BitOf(0x0f, k) == 1 by {
      assert k in {0, 1, 2, 3};
    }
    ApplyBits(r4, ws[4], 0x07, k);
  }

  // ----- Reading registers back -----

  /** readRegBuffer: an I2C buffer read whose bytes come back bit-reversed. */
  function ReadStep(addr: int, length: nat, q: seq<seq<byte>>): (s: Step<seq<byte>>)
    ensures s.used <= |q|
  {
    var s := ReadI2CRegBufferStep(I2C_ADDR, addr, length, q);
    Step(s.out, s.used, if s.result.Err? then Err(s.result.error) else Ok(ReverseAll(s.result.value)))
  }

  /** `arr[2] & 0x40`: the lock flag in the third status byte. */
  predicate LockSeen(data: seq<byte>)
  {
    BitOf(ByteAt(data, 2), 6) == 1
  }

  /** `(arr[4] & 0x30) >> 4`. */
  function VcoFineTune(data: seq<byte>): (r: nat)
    ensures r < 4
  {
    (ByteAt(data, 4) / 16) % 4
  }

  /** `arr[4] & 0x0f`, with 0x0f read as 0. */
  function FilterCap(data: seq<byte>): (r: nat)
    ensures r <= 14
    ensures r == 0 <==> ByteAt(data, 4) % 16 in {0, 15}
  {
    var cap := ByteAt(data, 4) % 16;
    if cap == 15 then 0 else cap
  }

  /** On the wire the lock flag is bit 1 of the third byte the chip sends. */
  lemma LockBitOnTheWire(reply: seq<byte>)
    requires |reply| >= 3
    ensures LockSeen(ReverseAll(Prefix(reply, 3))) <==> BitOf(reply[2], 1) == 1
  {
    ReverseBitsMirror(reply[2], 6);
  }
}
