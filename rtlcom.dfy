/** The register protocol of the RTL2832U: how register reads and writes,
  * demodulator registers and the I2C repeater map onto USB control
  * transfers.
  *
  * Every operation is specified by a pure `Step` function of the queued
  * device replies: the transfers it issues, how many replies it consumes and
  * its outcome. The methods of `Com` perform the operations on a
  * `Connection` and are proved to do exactly what their step describes. */
module RtlCom {
  import opened Bits
  import opened Errors
  import opened Transport

  /** Bit 4 of a control message's index field (WRITE_FLAG = 0x10) marks a write. */
  const WRITE_FLAG_BIT: nat := 4

  /** Operations of a `writeEach` batch. */
  const CMD_REG := 1
  const CMD_REGMASK := 2
  const CMD_DEMODREG := 3
  const CMD_I2CREG := 4

  /** Register blocks. */
  const BLOCK_DEMOD: u16 := 0x000
  const BLOCK_USB: u16 := 0x100
  const BLOCK_SYS: u16 := 0x200
  const BLOCK_I2C: u16 := 0x600

  /** Device registers. */
  const REG_SYSCTL: u16 := 0x2000
  const REG_EPA_CTL: u16 := 0x2148
  const REG_EPA_MAXPKT: u16 := 0x2158
  const REG_DEMOD_CTL: u16 := 0x3000
  const REG_DEMOD_CTL_1: u16 := 0x300b

  // ----- Control message fields -----

  /** The index of a write to `block`: `block | WRITE_FLAG`. */
  function WriteIndex(block: u16): u16
  {
    Pow2Values();
    WithBitBound(block, WRITE_FLAG_BIT, 16);
    WithBit(block, WRITE_FLAG_BIT)
  }

  /** A write index has the write flag set and otherwise the bits of its block. */
  lemma WriteIndexBits(block: u16, k: nat)
    ensures BitOf(WriteIndex(block), k) == if k == WRITE_FLAG_BIT then 1 else BitOf(block, k)
  {
    WithBitBits(block, WRITE_FLAG_BIT, k);
  }

  lemma WriteIndexValues()
    ensures WriteIndex(BLOCK_DEMOD) == 0x010 && WriteIndex(0x001) == 0x011
    ensures WriteIndex(BLOCK_USB) == 0x110 && WriteIndex(BLOCK_SYS) == 0x210
    ensures WriteIndex(BLOCK_I2C) == 0x610
  {
  }

  /** The control value addressing demodulator register `addr`: `(addr << 8) | 0x20`. */
  function DemodAddress(addr: byte): u16
  {
    addr * 0x100 + 0x20
  }

  lemma DemodAddressFields(addr: byte)
    ensures DemodAddress(addr) / 0x100 == addr && DemodAddress(addr) % 0x100 == 0x20
  {
  }

  // ----- Number <-> buffer codecs -----

  function ByteBase(n: nat): (r: nat)
    ensures r >= 1
  {
    if n == 0 then 1 else 0x100 * ByteBase(n - 1)
  }

  lemma ByteBaseValues()
    ensures ByteBase(1) == 0x100 && ByteBase(2) == 0x1_0000 && ByteBase(4) == 0x1_0000_0000
  {
  }

  /** The n-byte little-endian encoding of v (modulo 256^n). */
  function LeBytes(v: nat, n: nat): (r: seq<byte>)
    ensures |r| == n
  {
    if n == 0 then [] else [v % 0x100] + LeBytes(v / 0x100, n - 1)
  }

  /** The n-byte big-endian encoding of v (modulo 256^n). */
  function BeBytes(v: nat, n: nat): (r: seq<byte>)
    ensures |r| == n
  {
    if n == 0 then [] else BeBytes(v / 0x100, n - 1) + [v % 0x100]
  }

  /** The number a buffer holds in little-endian order. */
  function LeValue(s: seq<byte>): (r: nat)
    ensures r < ByteBase(|s|)
  {
    if s == [] then 0 else s[0] + 0x100 * LeValue(s[1..])
  }

  function Reverse<T>(s: seq<T>): (r: seq<T>)
    ensures |r| == |s|
  {
    if s == [] then [] else Reverse(s[1..]) + [s[0]]
  }

  predicate IsWidth(len: int)
  {
    len == 1 || len == 2 || len == 4
  }

  /** numberToBuffer: `value` stored in `len` bytes by a DataView, which keeps
    * it modulo 256^len; little-endian unless `bigEndian`. */
  function NumberToBuffer(value: int, len: int, bigEndian: bool): (r: Result<seq<byte>>)
    ensures r.Ok? <==> IsWidth(len)
    ensures r.Ok? ==> |r.value| == len
    ensures r.Err? ==> r.error == EncodingError(len)
  {
    if !IsWidth(len) then Err(EncodingError(len))
    else
      var v := value % ByteBase(len);
      if bigEndian then Ok(BeBytes(v, len)) else Ok(LeBytes(v, len))
  }

  /** bufferToNumber: null for an empty buffer, the little-endian value of a
    * 1-, 2- or 4-byte buffer, and an error for any other length. */
  function BufferToNumber(buffer: seq<byte>): (r: Result<Option<nat>>)
    ensures r == Ok(None) <==> buffer == []
    ensures r.Ok? <==> buffer == [] || IsWidth(|buffer|)
    ensures r.Err? ==> r.error == EncodingError(|buffer|)
    ensures r.Ok? && r.value.Some? ==> r.value.value < ByteBase(|buffer|)
  {
    if buffer == [] then Ok(None)
    else if IsWidth(|buffer|) then Ok(Some(LeValue(buffer)))
    else Err(EncodingError(|buffer|))
  }

  lemma {:induction false} LeBytesValue(v: nat, n: nat)
    requires v < ByteBase(n)
    ensures LeValue(LeBytes(v, n)) == v
  {
    if n > 0 {
      LeBytesValue(v / 0x100, n - 1);
      assert LeBytes(v, n)[1..] == LeBytes(v / 0x100, n - 1);
    }
  }

  lemma {:induction false} LeValueBytes(s: seq<byte>)
    ensures LeBytes(LeValue(s), |s|) == s
  {
    if s != [] {
      LeValueBytes(s[1..]);
      assert LeValue(s) % 0x100 == s[0];
      assert LeValue(s) / 0x100 == LeValue(s[1..]);
    }
  }

  lemma {:induction false} BeBytesReversed(v: nat, n: nat)
    ensures BeBytes(v, n) == Reverse(LeBytes(v, n))
  {
    if n > 0 {
      BeBytesReversed(v / 0x100, n - 1);
      assert LeBytes(v, n)[1..] == LeBytes(v / 0x100, n - 1);
    }
  }

  /** Decoding an encoded value gives the value back, for every width. */
  lemma NumberRoundTrip(value: int, len: int)
    requires IsWidth(len) && 0 <= value < ByteBase(len)
    ensures NumberToBuffer(value, len, false) == Ok(LeBytes(value, len))
    ensures BufferToNumber(NumberToBuffer(value, len, false).value) == Ok(Some(value))
  {
    LeBytesValue(value, len);
    var buffer := LeBytes(value, len);
    DivModUnique(value, ByteBase(len), 0, value);
    assert NumberToBuffer(value, len, false) == Ok(buffer);
    assert BufferToNumber(buffer) == Ok(Some(LeValue(buffer)));
  }

  /** Encoding a decoded 1-, 2- or 4-byte buffer gives the buffer back. */
  lemma BufferRoundTrip(buffer: seq<byte>)
    requires IsWidth(|buffer|)
    ensures BufferToNumber(buffer).Ok? && BufferToNumber(buffer).value.Some?
    ensures NumberToBuffer(BufferToNumber(buffer).value.value, |buffer|, false) == Ok(buffer)
  {
    LeValueBytes(buffer);
  }

  /** The big-endian encoding is the little-endian one in reverse order. */
  lemma BigEndianReversed(value: int, len: int)
    requires IsWidth(len)
    ensures NumberToBuffer(value, len, true).value == Reverse(NumberToBuffer(value, len, false).value)
  {
    BeBytesReversed(value % ByteBase(len), len);
  }

  /** A one-byte buffer holds the value modulo 256, in either byte order. */
  lemma EncodeOneByte(value: int, bigEndian: bool)
    ensures NumberToBuffer(value, 1, bigEndian) == Ok([value % 0x100])
  {
    var b := value % 0x100;
    assert ByteBase(1) == 0x100;
    assert LeBytes(b, 1) == [b];
    assert BeBytes(b, 1) == [b];
    assert NumberToBuffer(value, 1, bigEndian) == if bigEndian then Ok(BeBytes(b, 1)) else Ok(LeBytes(b, 1));
  }

  /** A two-byte big-endian buffer holds the value modulo 2^16, high byte first. */
  lemma EncodeTwoBytes(value: int)
    ensures NumberToBuffer(value, 2, true) == Ok([(value % 0x1_0000) / 0x100, value % 0x100])
  {
    var w := value % 0x1_0000;
    assert ByteBase(2) == 0x1_0000;
    assert w / 0x100 < 0x100;
    assert BeBytes(w / 0x100, 1) == [w / 0x100];
    assert BeBytes(w, 2) == [w / 0x100, w % 0x100];
    DivModUnique(value, 0x100, (value / 0x1_0000) * 0x100 + w / 0x100, w % 0x100);
  }

  // ----- Operation steps -----

  /** What an operation does on the link: the transfers it issues in order,
    * how many queued replies it consumes, and its outcome. */
  datatype Step<T> = Step(out: seq<Transfer>, used: nat, result: Result<T>)

  /** s preceded by the transfers `first`, which consume no reply. */
  function After<T>(first: seq<Transfer>, s: Step<T>): Step<T>
  {
    Step(first + s.out, s.used, s.result)
  }

  /** s with its value dropped. */
  function Discard<T>(s: Step<T>): Step<()>
  {
    Step(s.out, s.used, if s.result.Err? then Err(s.result.error) else Ok(()))
  }

  /** The transfers, replies and outcome of an operation are those of s. */
  ghost predicate Performs<T>(s: Step<T>, trace0: seq<Transfer>, replies0: seq<seq<byte>>,
                              trace1: seq<Transfer>, replies1: seq<seq<byte>>, r: Result<T>)
  {
    s.used <= |replies0| && trace1 == trace0 + s.out && replies1 == replies0[s.used..] && r == s.result
  }

  twostate predicate Did<T>(conn: Connection, new s: Step<T>, new r: Result<T>)
    reads conn
  {
    Performs(s, old(conn.trace), old(conn.replies), conn.trace, conn.replies, r)
  }

  lemma PerformsThen<T>(a: Step<()>, b: Step<T>, tr0: seq<Transfer>, q0: seq<seq<byte>>,
                        tr1: seq<Transfer>, q1: seq<seq<byte>>, tr2: seq<Transfer>, q2: seq<seq<byte>>, r: Result<T>)
    requires Performs(a, tr0, q0, tr1, q1, Ok(())) && Performs(b, tr1, q1, tr2, q2, r)
    ensures Performs(Then(a, b), tr0, q0, tr2, q2, r)
  {
    assert q0[a.used..][b.used..] == q0[a.used + b.used..];
  }

  /** readCtrlMsg: one IN request for at least 8 bytes, cut to `length`. A
    * failed transfer is an error (see README on the source's swallowed
    * failure). */
  function ReadCtrlStep(value: u16, index: u16, length: nat, q: seq<seq<byte>>): (s: Step<seq<byte>>)
    ensures s.used <= |q|
  {
    var request := ControlIn(value, index, if length < 8 then 8 else length);
    if q == [] then Step([request], 0, Err(TransportError(value, index)))
    else Step([request], 1, Ok(Prefix(q[0], length)))
  }

  /** writeCtrlMsg: one OUT request carrying `data`. */
  function WriteCtrlStep(value: u16, index: u16, data: seq<byte>): Step<()>
  {
    Step([ControlOut(value, index, data)], 0, Ok(()))
  }

  function WriteRegBufferStep(block: u16, reg: u16, buffer: seq<byte>): Step<()>
  {
    WriteCtrlStep(reg, WriteIndex(block), buffer)
  }

  function ReadRegBufferStep(block: u16, reg: u16, length: nat, q: seq<seq<byte>>): (s: Step<seq<byte>>)
    ensures s.used <= |q|
  {
    ReadCtrlStep(reg, block, length, q)
  }

  function WriteRegStep(block: u16, reg: u16, value: int, length: int): Step<()>
  {
    var buffer := NumberToBuffer(value, length, false);
    if buffer.Err? then Step([], 0, Err(buffer.error))
    else WriteRegBufferStep(block, reg, buffer.value)
  }

  function ReadRegStep(block: u16, reg: u16, length: nat, q: seq<seq<byte>>): (s: Step<Option<nat>>)
    ensures s.used <= |q|
  {
    var read := ReadCtrlStep(reg, block, length, q);
    Step(read.out, read.used,
         if read.result.Err? then Err(read.result.error) else BufferToNumber(read.result.value))
  }

  /** The byte a masked write stores over `current`: `(current & ~mask) | (value & mask)`
    * on the low 8 bits, which are all a one-byte write keeps. */
  function MaskedWriteValue(current: byte, value: int, mask: int): byte
  {
    MaskedByte(current, value % 0x100, mask % 0x100)
  }

  /** writeRegMask: a plain write for mask 0xff, otherwise a one-byte read
    * followed by the merged write. A read of no bytes gives null, which
    * the source's bitwise operators treat as 0. */
  function WriteRegMaskStep(block: u16, reg: u16, value: int, mask: int, q: seq<seq<byte>>): (s: Step<()>)
    ensures s.used <= |q|
  {
    if mask == 0xff then WriteRegStep(block, reg, value, 1)
    else
      var read := ReadRegStep(block, reg, 1, q);
      if read.result.Err? then Step(read.out, read.used, Err(read.result.error))
      else
        var current := if read.result.value.Some? then read.result.value.value % 0x100 else 0;
        var write := WriteRegStep(block, reg, MaskedWriteValue(current, value, mask), 1);
        Step(read.out + write.out, read.used, write.result)
  }

  function ReadDemodRegStep(page: u16, addr: byte, q: seq<seq<byte>>): (s: Step<Option<nat>>)
    ensures s.used <= |q|
  {
    ReadRegStep(page, DemodAddress(addr), 1, q)
  }

  /** The demodulator status register read back after every demodulator write. */
  const STATUS_PAGE: u16 := 0x0a
  const STATUS_ADDR: byte := 0x01

  /** writeDemodReg: a big-endian write to the demodulator register, then a
    * read of the status register, whose value is the result. */
  function WriteDemodRegStep(page: u16, addr: byte, value: int, len: int, q: seq<seq<byte>>): (s: Step<Option<nat>>)
    ensures s.used <= |q|
  {
    var buffer := NumberToBuffer(value, len, true);
    if buffer.Err? then Step([], 0, Err(buffer.error))
    else After(WriteRegBufferStep(page, DemodAddress(addr), buffer.value).out,
               ReadDemodRegStep(STATUS_PAGE, STATUS_ADDR, q))
  }

  function OpenI2CStep(q: seq<seq<byte>>): (s: Step<()>)
    ensures s.used <= |q|
  {
    Discard(WriteDemodRegStep(1, 1, 0x18, 1, q))
  }

  function CloseI2CStep(q: seq<seq<byte>>): (s: Step<()>)
    ensures s.used <= |q|
  {
    Discard(WriteDemodRegStep(1, 1, 0x10, 1, q))
  }

  /** readI2CReg: select register `reg` of I2C device `addr`, then read one byte. */
  function ReadI2CRegStep(addr: u16, reg: int, q: seq<seq<byte>>): (s: Step<Option<nat>>)
    ensures s.used <= |q|
  {
    After(WriteRegBufferStep(BLOCK_I2C, addr, [reg % 0x100]).out, ReadRegStep(BLOCK_I2C, addr, 1, q))
  }

  function WriteI2CRegStep(addr: u16, reg: int, value: int): Step<()>
  {
    WriteRegBufferStep(BLOCK_I2C, addr, [reg % 0x100, value % 0x100])
  }

  function ReadI2CRegBufferStep(addr: u16, reg: int, len: nat, q: seq<seq<byte>>): (s: Step<seq<byte>>)
    ensures s.used <= |q|
  {
    After(WriteRegBufferStep(BLOCK_I2C, addr, [reg % 0x100]).out, ReadRegBufferStep(BLOCK_I2C, addr, len, q))
  }

  function WriteI2CRegBufferStep(addr: u16, reg: int, buffer: seq<byte>): Step<()>
  {
    WriteRegBufferStep(BLOCK_I2C, addr, [reg % 0x100] + buffer)
  }

  /** readBulk: one bulk IN request on endpoint 1. */
  function ReadBulkStep(length: nat, q: seq<seq<byte>>): (s: Step<seq<byte>>)
    ensures s.used <= |q|
  {
    if q == [] then Step([BulkIn(1, length)], 0, Err(BulkError(length)))
    else Step([BulkIn(1, length)], 1, Ok(Prefix(q[0], length)))
  }

  // ----- Properties of single operations -----

  /** Control reads ask for at least 8 bytes and return at most `length`,
    * taken from the start of the device's reply. */
  lemma ReadCtrlLength(value: u16, index: u16, length: nat, q: seq<seq<byte>>)
    ensures var s := ReadCtrlStep(value, index, length, q);
      s.out[0].length >= 8 && s.out[0].length >= length &&
      (s.result.Ok? ==> |s.result.value| <= length && s.result.value == q[0][..|s.result.value|])
  {
  }

  /** A register write goes to `block | WRITE_FLAG`; a register read to `block`. */
  lemma RegisterIndices(block: u16, reg: u16, value: int, length: int, q: seq<seq<byte>>)
    requires IsWidth(length)
    ensures WriteRegStep(block, reg, value, length).out ==
            [ControlOut(reg, WriteIndex(block), NumberToBuffer(value, length, false).value)]
    ensures ReadRegStep(block, reg, 1, q).out == [ControlIn(reg, block, 8)]
  {
  }

  /** With mask 0xff a masked write is one one-byte write of the value and no read. */
  lemma MaskedWriteFullMask(block: u16, reg: u16, value: int, q: seq<seq<byte>>)
    ensures WriteRegMaskStep(block, reg, value, 0xff, q) ==
            Step([ControlOut(reg, WriteIndex(block), [value % 0x100])], 0, Ok(()))
  {
    EncodeOneByte(value, false);
  }

  /** With any other mask it reads the register's one byte, then writes the
    * merged byte; when the read gets no byte the old value counts as 0. */
  lemma MaskedWriteRead(block: u16, reg: u16, value: int, mask: int, reply: seq<byte>, q: seq<seq<byte>>)
    requires mask != 0xff
    ensures WriteRegMaskStep(block, reg, value, mask, [reply] + q) ==
            Step([ControlIn(reg, block, 8),
                  ControlOut(reg, WriteIndex(block), [MaskedWriteValue(ByteAt(reply, 0), value, mask)])],
                 1, Ok(()))
  {
    var current := ByteAt(reply, 0);
    OneByteRead(block, reg, reply, q);
    assert current % 0x100 == current;
    OneByteWrite(block, reg, MaskedWriteValue(current, value, mask));
  }

  /** A one-byte register read takes one reply and gives its first byte, or
    * null when the reply is empty. */
  lemma OneByteRead(block: u16, reg: u16, reply: seq<byte>, q: seq<seq<byte>>)
    ensures ReadRegStep(block, reg, 1, [reply] + q) ==
            Step([ControlIn(reg, block, 8)], 1, Ok(if reply == [] then None else Some(ByteAt(reply, 0) as nat)))
  {
    var q' := [reply] + q;
    assert q'[0] == reply;
    var data := Prefix(reply, 1);
    if data != [] {
      assert data == [reply[0]];
      assert LeValue(data) == reply[0] + 0x100 * LeValue(data[1..]);
      assert data[1..] == [];
    }
  }

  /** Of the byte a masked write sends, the bits under the mask come from
    * `value` and every other bit is the register's old bit. */
  lemma MaskedWriteKeepsBits(block: u16, reg: u16, value: int, mask: int,
                             reply: seq<byte>, q: seq<seq<byte>>, k: nat)
    requires mask != 0xff && k < 8
    ensures var s := WriteRegMaskStep(block, reg, value, mask, [reply] + q);
      s.used == 1 && s.result == Ok(()) && |s.out| == 2 &&
      s.out[0] == ControlIn(reg, block, 8) &&
      s.out[1].ControlOut? && s.out[1].value == reg && s.out[1].index == WriteIndex(block) &&
      |s.out[1].data| == 1 &&
      BitOf(s.out[1].data[0], k) ==
        if BitOf(mask % 0x100, k) == 1 then BitOf(value % 0x100, k) else BitOf(ByteAt(reply, 0), k)
  {
    MaskedWriteRead(block, reg, value, mask, reply, q);
    MergeBit(ByteAt(reply, 0), value % 0x100, mask % 0x100, 8, k);
  }

  /** A masked write whose read fails writes nothing. */
  lemma MaskedWriteReadFails(block: u16, reg: u16, value: int, mask: int)
    requires mask != 0xff
    ensures WriteRegMaskStep(block, reg, value, mask, []) ==
            Step([ControlIn(reg, block, 8)], 0, Err(TransportError(reg, block)))
  {
  }

  /** A one-byte register write of a byte sends exactly that byte. */
  lemma OneByteWrite(block: u16, reg: u16, b: byte)
    ensures WriteRegStep(block, reg, b, 1) == Step([ControlOut(reg, WriteIndex(block), [b])], 0, Ok(()))
  {
    EncodeOneByte(b, false);
  }

  /** A demodulator write sends the big-endian value to `(addr << 8) | 0x20`
    * on its page, then reads one byte of page 0x0a, address 0x01. */
  lemma DemodWriteShape(page: u16, addr: byte, value: int, len: int, q: seq<seq<byte>>)
    requires IsWidth(len)
    ensures var s := WriteDemodRegStep(page, addr, value, len, q);
      s.out == [ControlOut(DemodAddress(addr), WriteIndex(page), NumberToBuffer(value, len, true).value),
                ControlIn(DemodAddress(STATUS_ADDR), STATUS_PAGE, 8)]
  {
  }

  /** The I2C repeater is switched by writing 0x18 (open) or 0x10 (close) to
    * demodulator page 1, address 1. */
  lemma I2CRepeater(q: seq<seq<byte>>)
    ensures OpenI2CStep(q).out == [ControlOut(0x0120, 0x11, [0x18]), ControlIn(0x0120, 0x0a, 8)]
    ensures CloseI2CStep(q).out == [ControlOut(0x0120, 0x11, [0x10]), ControlIn(0x0120, 0x0a, 8)]
    ensures OpenI2CStep(q).result.Ok? <==> q != []
    ensures CloseI2CStep(q).result.Ok? <==> q != []
  {
    assert DemodAddress(1) == 0x0120 && WriteIndex(1) == 0x11;
    EncodeOneByte(0x18, true);
    EncodeOneByte(0x10, true);
  }

  /** I2C framing on block 0x600: a read selects `[reg]` then reads; a write
    * sends `[reg, value]`; a buffer write sends `reg` followed by the buffer. */
  lemma I2CFraming(addr: u16, reg: byte, value: byte, buffer: seq<byte>, q: seq<seq<byte>>)
    ensures ReadI2CRegStep(addr, reg, q).out == [ControlOut(addr, 0x610, [reg]), ControlIn(addr, 0x600, 8)]
    ensures WriteI2CRegStep(addr, reg, value).out == [ControlOut(addr, 0x610, [reg, value])]
    ensures WriteI2CRegBufferStep(addr, reg, buffer).out == [ControlOut(addr, 0x610, [reg] + buffer)]
  {
  }

  // ----- The writeEach batch interpreter -----

  /** One entry of a `writeEach` batch: the command, then its arguments
    * (block or device address, register, value, and width or mask). */
  datatype Line = Line(cmd: int, target: u16, reg: u16, value: int, arg: int)

  /** Demodulator addresses are single bytes. */
  predicate WellFormed(line: Line)
  {
    line.cmd == CMD_DEMODREG ==> line.reg < 0x100
  }

  predicate AllWellFormed(lines: seq<Line>)
  {
    forall i :: 0 <= i < |lines| ==> WellFormed(lines[i])
  }

  function LineStep(line: Line, q: seq<seq<byte>>): (s: Step<()>)
    requires WellFormed(line)
    ensures s.used <= |q|
  {
    if line.cmd == CMD_REG then WriteRegStep(line.target, line.reg, line.value, line.arg)
    else if line.cmd == CMD_REGMASK then WriteRegMaskStep(line.target, line.reg, line.value, line.arg, q)
    else if line.cmd == CMD_DEMODREG then Discard(WriteDemodRegStep(line.target, line.reg, line.value, line.arg, q))
    else if line.cmd == CMD_I2CREG then WriteI2CRegStep(line.target, line.reg, line.value)
    else Step([], 0, Err(ProtocolError(line.cmd)))
  }

  /** a followed by b, where b runs on the replies a left. */
  function Then<T>(a: Step<()>, b: Step<T>): Step<T>
  {
    Step(a.out + b.out, a.used + b.used, b.result)
  }

  /** writeEach: the lines in order, stopping at the first failure. */
  function BatchStep(lines: seq<Line>, q: seq<seq<byte>>): (s: Step<()>)
    requires AllWellFormed(lines)
    ensures s.used <= |q|
  {
    if lines == [] then Step([], 0, Ok(()))
    else
      var first := LineStep(lines[0], q);
      if first.result.Err? then first
      else Then(first, BatchStep(lines[1..], q[first.used..]))
  }

  lemma WellFormedAppend(a: seq<Line>, b: seq<Line>)
    requires AllWellFormed(a) && AllWellFormed(b)
    ensures AllWellFormed(a + b)
  {
    forall i | 0 <= i < |a + b|
      ensures WellFormed((a + b)[i])
    {
      if i >= |a| {
        assert (a + b)[i] == b[i - |a|];
      }
    }
  }

  /** Running a + b is running a, then (unless a failed) b on the replies a left. */
  lemma {:induction false} BatchAppend(a: seq<Line>, b: seq<Line>, q: seq<seq<byte>>)
    requires AllWellFormed(a) && AllWellFormed(b)
    ensures AllWellFormed(a + b)
    ensures var sa := BatchStep(a, q);
      BatchStep(a + b, q) == if sa.result.Err? then sa else Then(sa, BatchStep(b, q[sa.used..]))
    decreases |a|, 1
  {
    WellFormedAppend(a, b);
    if a == [] {
      assert a + b == b && q[0..] == q;
      var sb := BatchStep(b, q);
      assert Then(BatchStep(a, q), sb) == sb by {
        assert [] + sb.out == sb.out;
      }
    } else {
      BatchAppendCons(a, b, q);
    }
  }

  /** The inductive case of BatchAppend: a's first line, then the rest of a
    * followed by b. */
  lemma {:induction false} BatchAppendCons(a: seq<Line>, b: seq<Line>, q: seq<seq<byte>>)
    requires AllWellFormed(a) && AllWellFormed(b) && a != []
    ensures AllWellFormed(a + b)
    ensures var sa := BatchStep(a, q);
      BatchStep(a + b, q) == if sa.result.Err? then sa else Then(sa, BatchStep(b, q[sa.used..]))
    decreases |a|, 0
  {
    WellFormedAppend(a, b);
    var ab := a + b;
    var first := LineStep(a[0], q);
    assert AllWellFormed(a[1..]) by {
      forall i | 0 <= i < |a[1..]|
        ensures WellFormed(a[1..][i])
      {
        assert a[1..][i] == a[i + 1];
      }
    }
    WellFormedAppend(a[1..], b);
    assert BatchStep(ab, q) ==
           if first.result.Err? then first else Then(first, BatchStep(a[1..] + b, q[first.used..])) by {
      assert ab[0] == a[0] && ab[1..] == a[1..] + b;
    }
    if first.result.Ok? {
      var rest := q[first.used..];
      BatchAppend(a[1..], b, rest);
      var sa := BatchStep(a[1..], rest);
      assert rest[sa.used..] == q[first.used + sa.used..];
      if sa.result.Ok? {
        var sb := BatchStep(b, rest[sa.used..]);
        assert first.out + (sa.out + sb.out) == (first.out + sa.out) + sb.out;
      }
    }
  }

  /** The batch issues its lines' transfers strictly in list order: running
    * the first i + 1 lines is running the first i, then line i. */
  lemma BatchExtend(lines: seq<Line>, i: nat, q: seq<seq<byte>>)
    requires AllWellFormed(lines) && i < |lines|
    ensures AllWellFormed(lines[..i]) && AllWellFormed(lines[..i + 1])
    ensures var sp := BatchStep(lines[..i], q);
      BatchStep(lines[..i + 1], q) == if sp.result.Err? then sp else Then(sp, LineStep(lines[i], q[sp.used..]))
  {
    assert lines[..i + 1] == lines[..i] + [lines[i]];
    var tail := [lines[i]];
    assert AllWellFormed(tail) by {
      assert tail[0] == lines[i];
    }
    SlicesWellFormed(lines, i);
    BatchAppend(lines[..i], tail, q);
    var sp := BatchStep(lines[..i], q);
    if sp.result.Ok? {
      var rest := q[sp.used..];
      var sl := LineStep(lines[i], rest);
      assert BatchStep(tail, rest) == if sl.result.Err? then sl else Then(sl, BatchStep([], rest[sl.used..])) by {
        assert tail[0] == lines[i] && tail[1..] == [];
      }
      assert BatchStep(tail, rest) == sl by {
        assert sl.out + [] == sl.out;
      }
    }
  }

  /** An unknown command fails the batch at its position, after every earlier
    * line has been issued, and nothing after it is issued. */
  lemma UnknownCommandStops(lines: seq<Line>, i: nat, q: seq<seq<byte>>)
    requires AllWellFormed(lines) && i < |lines|
    requires !(lines[i].cmd in {CMD_REG, CMD_REGMASK, CMD_DEMODREG, CMD_I2CREG})
    requires AllWellFormed(lines[..i]) && BatchStep(lines[..i], q).result.Ok?
    ensures BatchStep(lines, q) ==
            Step(BatchStep(lines[..i], q).out, BatchStep(lines[..i], q).used, Err(ProtocolError(lines[i].cmd)))
  {
    var pre, post := lines[..i], lines[i..];
    assert lines == pre + post;
    assert AllWellFormed(post) by {
      forall j | 0 <= j < |post|
        ensures WellFormed(post[j])
      {
        assert post[j] == lines[i + j];
      }
    }
    BatchAppend(pre, post, q);
    assert post[0] == lines[i];
  }

  lemma SlicesWellFormed(lines: seq<Line>, i: nat)
    requires AllWellFormed(lines) && i <= |lines|
    ensures AllWellFormed(lines[..i]) && AllWellFormed(lines[i..])
  {
    assert forall j :: 0 <= j < |lines[i..]| ==> lines[i..][j] == lines[i + j];
  }

  /** A batch whose first i + 1 lines fail does no more than those lines. */
  lemma BatchStopsAt(lines: seq<Line>, i: nat, q: seq<seq<byte>>)
    requires AllWellFormed(lines) && i < |lines|
    ensures AllWellFormed(lines[..i + 1])
    ensures BatchStep(lines[..i + 1], q).result.Err? ==> BatchStep(lines, q) == BatchStep(lines[..i + 1], q)
  {
    SlicesWellFormed(lines, i + 1);
    assert lines[..i + 1] + lines[i + 1..] == lines;
    BatchAppend(lines[..i + 1], lines[i + 1..], q);
  }

  /** One more line of a batch, performed after the lines before it: the
    * longer prefix was performed, or the whole batch stopped here. */
  lemma BatchAdvance(lines: seq<Line>, i: nat, q0: seq<seq<byte>>, tr0: seq<Transfer>,
                     tr1: seq<Transfer>, q1: seq<seq<byte>>, tr2: seq<Transfer>, q2: seq<seq<byte>>, r: Result<()>)
    requires AllWellFormed(lines) && i < |lines| && AllWellFormed(lines[..i])
    requires Performs(BatchStep(lines[..i], q0), tr0, q0, tr1, q1, Ok(()))
    requires Performs(LineStep(lines[i], q1), tr1, q1, tr2, q2, r)
    ensures AllWellFormed(lines[..i + 1])
    ensures r.Ok? ==> Performs(BatchStep(lines[..i + 1], q0), tr0, q0, tr2, q2, Ok(()))
    ensures r.Err? ==> Performs(BatchStep(lines, q0), tr0, q0, tr2, q2, r)
  {
    var before := BatchStep(lines[..i], q0);
    BatchExtend(lines, i, q0);
    PerformsThen(before, LineStep(lines[i], q1), tr0, q0, tr1, q1, tr2, q2, r);
    BatchStopsAt(lines, i, q0);
  }

  // ----- Batches of one kind of write -----

  predicate IsRegWrite(line: Line)
  {
    line.cmd == CMD_REG && IsWidth(line.arg)
  }

  predicate IsDemodWrite(line: Line)
  {
    line.cmd == CMD_DEMODREG && line.reg < 0x100 && IsWidth(line.arg)
  }

  /** The transfers of a demodulator write line, when the status read succeeds. */
  function DemodLineOut(line: Line): seq<Transfer>
    requires IsDemodWrite(line)
  {
    [ControlOut(DemodAddress(line.reg), WriteIndex(line.target), NumberToBuffer(line.value, line.arg, true).value),
     ControlIn(DemodAddress(STATUS_ADDR), STATUS_PAGE, 8)]
  }

  function DemodLinesOut(lines: seq<Line>): seq<Transfer>
    requires forall i :: 0 <= i < |lines| ==> IsDemodWrite(lines[i])
  {
    if lines == [] then [] else DemodLineOut(lines[0]) + DemodLinesOut(lines[1..])
  }

  function RegLineOut(line: Line): Transfer
    requires IsRegWrite(line)
  {
    ControlOut(line.reg, WriteIndex(line.target), NumberToBuffer(line.value, line.arg, false).value)
  }

  function RegLinesOut(lines: seq<Line>): seq<Transfer>
    requires forall i :: 0 <= i < |lines| ==> IsRegWrite(lines[i])
  {
    if lines == [] then [] else [RegLineOut(lines[0])] + RegLinesOut(lines[1..])
  }

  /** A batch of demodulator writes consumes one status reply per line and
    * succeeds when every line finds one. */
  lemma {:induction false} DemodBatch(lines: seq<Line>, q: seq<seq<byte>>)
    requires forall i :: 0 <= i < |lines| ==> IsDemodWrite(lines[i])
    requires |q| >= |lines|
    ensures AllWellFormed(lines)
    ensures BatchStep(lines, q) == Step(DemodLinesOut(lines), |lines|, Ok(()))
  {
    if lines != [] {
      assert forall i :: 0 <= i < |lines[1..]| ==> IsDemodWrite(lines[1..][i]) by {
        forall i | 0 <= i < |lines[1..]|
          ensures IsDemodWrite(lines[1..][i])
        {
          assert lines[1..][i] == lines[i + 1];
        }
      }
      DemodLine(lines[0], q);
      DemodBatch(lines[1..], q[1..]);
    }
  }

  /** A batch of demodulator writes with fewer status replies than lines
    * fails. */
  lemma {:induction false} DemodBatchShort(lines: seq<Line>, q: seq<seq<byte>>)
    requires forall i :: 0 <= i < |lines| ==> IsDemodWrite(lines[i])
    requires |q| < |lines|
    ensures AllWellFormed(lines) && BatchStep(lines, q).result.Err?
  {
    assert AllWellFormed(lines) by {
      forall i | 0 <= i < |lines|
        ensures WellFormed(lines[i])
      {
        assert IsDemodWrite(lines[i]);
      }
    }
    if q != [] {
      assert forall i :: 0 <= i < |lines[1..]| ==> IsDemodWrite(lines[1..][i]) by {
        forall i | 0 <= i < |lines[1..]|
          ensures IsDemodWrite(lines[1..][i])
        {
          assert lines[1..][i] == lines[i + 1];
        }
      }
      DemodLine(lines[0], q);
      DemodBatchShort(lines[1..], q[1..]);
    } else {
      assert IsDemodWrite(lines[0]);
    }
  }

  /** One demodulator write line with a status reply waiting. */
  lemma DemodLine(line: Line, q: seq<seq<byte>>)
    requires IsDemodWrite(line) && |q| >= 1
    ensures WellFormed(line) && LineStep(line, q) == Step(DemodLineOut(line), 1, Ok(()))
  {
  }

  /** A batch of register writes of valid widths reads nothing and succeeds. */
  lemma {:induction false} RegBatch(lines: seq<Line>, q: seq<seq<byte>>)
    requires forall i :: 0 <= i < |lines| ==> IsRegWrite(lines[i])
    ensures AllWellFormed(lines)
    ensures BatchStep(lines, q) == Step(RegLinesOut(lines), 0, Ok(()))
  {
    if lines != [] {
      assert forall i :: 0 <= i < |lines[1..]| ==> IsRegWrite(lines[1..][i]) by {
        forall i | 0 <= i < |lines[1..]|
          ensures IsRegWrite(lines[1..][i])
        {
          assert lines[1..][i] == lines[i + 1];
        }
      }
      RegBatch(lines[1..], q);
    }
  }

  predicate IsI2CWrite(line: Line)
  {
    line.cmd == CMD_I2CREG
  }

  function I2CLinesOut(lines: seq<Line>): seq<Transfer>
  {
    if lines == [] then []
    else [ControlOut(lines[0].target, WriteIndex(BLOCK_I2C), [lines[0].reg % 0x100, lines[0].value % 0x100])]
         + I2CLinesOut(lines[1..])
  }

  /** A batch of I2C register writes reads nothing and succeeds. */
  lemma {:induction false} I2CBatch(lines: seq<Line>, q: seq<seq<byte>>)
    requires forall i :: 0 <= i < |lines| ==> IsI2CWrite(lines[i])
    ensures AllWellFormed(lines)
    ensures BatchStep(lines, q) == Step(I2CLinesOut(lines), 0, Ok(()))
  {
    if lines != [] {
      assert forall i :: 0 <= i < |lines[1..]| ==> IsI2CWrite(lines[1..][i]) by {
        forall i | 0 <= i < |lines[1..]|
          ensures IsI2CWrite(lines[1..][i])
        {
          assert lines[1..][i] == lines[i + 1];
        }
      }
      I2CBatch(lines[1..], q);
    }
  }

  // ----- The protocol object -----

  /** RtlCom: the protocol operations over one USB connection. */
  class Com {
    const conn: Connection

    constructor (conn: Connection)
      ensures this.conn == conn
    {
      this.conn := conn;
    }

    method ReadCtrlMsg(value: u16, index: u16, length: nat) returns (r: Result<seq<byte>>)
      modifies conn
      ensures Did(conn, ReadCtrlStep(value, index, length, old(conn.replies)), r)
    {
      var data := conn.ControlTransferIn(value, index, if length < 8 then 8 else length);
      if data.None? {
        // The source builds an error message here and then neither throws
        // nor returns it; the model reports the failure.
        return Err(TransportError(value, index));
      }
      PrefixOfPrefix(old(conn.replies)[0], if length < 8 then 8 else length, length);
      r := Ok(Prefix(data.value, length));
    }

    method WriteCtrlMsg(value: u16, index: u16, data: seq<byte>)
      modifies conn
      ensures Did(conn, WriteCtrlStep(value, index, data), Ok(()))
    {
      conn.ControlTransferOut(value, index, data);
    }

    method WriteRegBuffer(block: u16, reg: u16, buffer: seq<byte>)
      modifies conn
      ensures Did(conn, WriteRegBufferStep(block, reg, buffer), Ok(()))
    {
      WriteCtrlMsg(reg, WriteIndex(block), buffer);
    }

    method ReadRegBuffer(block: u16, reg: u16, length: nat) returns (r: Result<seq<byte>>)
      modifies conn
      ensures Did(conn, ReadRegBufferStep(block, reg, length, old(conn.replies)), r)
    {
      r := ReadCtrlMsg(reg, block, length);
    }

    method WriteReg(block: u16, reg: u16, value: int, length: int) returns (r: Result<()>)
      modifies conn
      ensures Did(conn, WriteRegStep(block, reg, value, length), r)
    {
      var buffer :- NumberToBuffer(value, length, false);
      WriteCtrlMsg(reg, WriteIndex(block), buffer);
      r := Ok(());
    }

    method ReadReg(block: u16, reg: u16, length: nat) returns (r: Result<Option<nat>>)
      modifies conn
      ensures Did(conn, ReadRegStep(block, reg, length, old(conn.replies)), r)
    {
      var data :- ReadCtrlMsg(reg, block, length);
      r := BufferToNumber(data);
    }

    method WriteRegMask(block: u16, reg: u16, value: int, mask: int) returns (r: Result<()>)
      modifies conn
      ensures Did(conn, WriteRegMaskStep(block, reg, value, mask, old(conn.replies)), r)
    {
      if mask == 0xff {
        r := WriteReg(block, reg, value, 1);
      } else {
        var current :- ReadReg(block, reg, 1);
        var byte0 := if current.Some? then current.value % 0x100 else 0;
        r := WriteReg(block, reg, MaskedWriteValue(byte0, value, mask), 1);
      }
    }

    method ReadDemodReg(page: u16, addr: byte) returns (r: Result<Option<nat>>)
      modifies conn
      ensures Did(conn, ReadDemodRegStep(page, addr, old(conn.replies)), r)
    {
      r := ReadReg(page, DemodAddress(addr), 1);
    }

    method WriteDemodReg(page: u16, addr: byte, value: int, len: int) returns (r: Result<Option<nat>>)
      modifies conn
      ensures Did(conn, WriteDemodRegStep(page, addr, value, len, old(conn.replies)), r)
    {
      var buffer :- NumberToBuffer(value, len, true);
      WriteRegBuffer(page, DemodAddress(addr), buffer);
      r := ReadDemodReg(STATUS_PAGE, STATUS_ADDR);
    }

    method OpenI2C() returns (r: Result<()>)
      modifies conn
      ensures Did(conn, OpenI2CStep(old(conn.replies)), r)
    {
      var _ :- WriteDemodReg(1, 1, 0x18, 1);
      r := Ok(());
    }

    method CloseI2C() returns (r: Result<()>)
      modifies conn
      ensures Did(conn, CloseI2CStep(old(conn.replies)), r)
    {
      var _ :- WriteDemodReg(1, 1, 0x10, 1);
      r := Ok(());
    }

    method ReadI2CReg(addr: u16, reg: int) returns (r: Result<Option<nat>>)
      modifies conn
      ensures Did(conn, ReadI2CRegStep(addr, reg, old(conn.replies)), r)
    {
      WriteRegBuffer(BLOCK_I2C, addr, [reg % 0x100]);
      r := ReadReg(BLOCK_I2C, addr, 1);
    }

    method WriteI2CReg(addr: u16, reg: int, value: int)
      modifies conn
      ensures Did(conn, WriteI2CRegStep(addr, reg, value), Ok(()))
    {
      WriteRegBuffer(BLOCK_I2C, addr, [reg % 0x100, value % 0x100]);
    }

    method ReadI2CRegBuffer(addr: u16, reg: int, len: nat) returns (r: Result<seq<byte>>)
      modifies conn
      ensures Did(conn, ReadI2CRegBufferStep(addr, reg, len, old(conn.replies)), r)
    {
      WriteRegBuffer(BLOCK_I2C, addr, [reg % 0x100]);
      r := ReadRegBuffer(BLOCK_I2C, addr, len);
    }

    method WriteI2CRegBuffer(addr: u16, reg: int, buffer: seq<byte>)
      modifies conn
      ensures Did(conn, WriteI2CRegBufferStep(addr, reg, buffer), Ok(()))
    {
      WriteRegBuffer(BLOCK_I2C, addr, [reg % 0x100] + buffer);
    }

    method ReadBulk(length: nat) returns (r: Result<seq<byte>>)
      modifies conn
      ensures Did(conn, ReadBulkStep(length, old(conn.replies)), r)
    {
      var data := conn.BulkTransferIn(1, length);
      if data.None? {
        return Err(BulkError(length));
      }
      r := Ok(data.value);
    }

    method ClaimInterface()
      modifies conn
      ensures conn.trace == old(conn.trace) + [Claim(0)] && conn.replies == old(conn.replies)
    {
      conn.ClaimInterface(0);
    }

    method ReleaseInterface()
      modifies conn
      ensures conn.trace == old(conn.trace) + [Release(0)] && conn.replies == old(conn.replies)
    {
      conn.ReleaseInterface(0);
    }

    method WriteLine(line: Line) returns (r: Result<()>)
      requires WellFormed(line)
      modifies conn
      ensures Did(conn, LineStep(line, old(conn.replies)), r)
    {
      if line.cmd == CMD_REG {
        r := WriteReg(line.target, line.reg, line.value, line.arg);
      } else if line.cmd == CMD_REGMASK {
        r := WriteRegMask(line.target, line.reg, line.value, line.arg);
      } else if line.cmd == CMD_DEMODREG {
        var _ :- WriteDemodReg(line.target, line.reg, line.value, line.arg);
        r := Ok(());
      } else if line.cmd == CMD_I2CREG {
        WriteI2CReg(line.target, line.reg, line.value);
        r := Ok(());
      } else {
        r := Err(ProtocolError(line.cmd));
      }
    }

    /** writeEach: the lines one after another, in order, stopping at the
      * first failure. */
    method WriteEach(lines: seq<Line>) returns (r: Result<()>)
      requires AllWellFormed(lines)
      modifies conn
      ensures Did(conn, BatchStep(lines, old(conn.replies)), r)
    {
      ghost var trace0, replies0 := conn.trace, conn.replies;
      var index := 0;
      while index < |lines|
        invariant 0 <= index <= |lines|
        invariant AllWellFormed(lines[..index])
        invariant Performs(BatchStep(lines[..index], replies0), trace0, replies0, conn.trace, conn.replies, Ok(()))
      {
        ghost var trace1, replies1 := conn.trace, conn.replies;
        var step := WriteLine(lines[index]);
        BatchAdvance(lines, index, replies0, trace0, trace1, replies1, conn.trace, conn.replies, step);
        if step.Err? {
          return step;
        }
        index := index + 1;
      }
      assert lines[..index] == lines;
      r := Ok(());
    }
  }
}
