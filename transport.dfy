/** The USB connection the driver talks through, as the driver sees it.
  *
  * The connection records every transfer it is asked to perform, in order,
  * in `trace`. The device's answers to IN transfers are given in advance as
  * the queue `replies`: each IN transfer consumes the next reply, and an IN
  * transfer with no reply left fails. This stands for the device, whose
  * behaviour the driver cannot see. */
module Transport {
  import opened Bits
  import opened Errors

  /** One USB transfer. Control transfers are vendor requests on the
    * device; `value` and `index` are the request's 16-bit fields. */
  datatype Transfer =
    | ControlOut(value: u16, index: u16, data: seq<byte>)
    | ControlIn(value: u16, index: u16, length: nat)
    | BulkIn(endpoint: nat, length: nat)
    | Claim(interface: nat)
    | Release(interface: nat)

  /** The first `length` bytes of `data`, or all of it when it is shorter
    * (the `slice(0, length)` of a typed array). */
  function Prefix(data: seq<byte>, length: nat): (r: seq<byte>)
    ensures |r| <= length && |r| <= |data|
    ensures r == data[..|r|]
    ensures |data| >= length ==> |r| == length
  {
    if length <= |data| then data[..length] else data
  }

  /** Cutting to n bytes and then to length <= n bytes is cutting to length bytes. */
  lemma PrefixOfPrefix(data: seq<byte>, n: nat, length: nat)
    requires length <= n
    ensures Prefix(Prefix(data, n), length) == Prefix(data, length)
  {
  }

  class Connection {
    var trace: seq<Transfer>
    var replies: seq<seq<byte>>

    constructor (replies: seq<seq<byte>>)
      ensures trace == [] && this.replies == replies
    {
      trace := [];
      this.replies := replies;
    }

    /** A control OUT transfer; it always completes. */
    method ControlTransferOut(value: u16, index: u16, data: seq<byte>)
      modifies this
      ensures trace == old(trace) + [ControlOut(value, index, data)]
      ensures replies == old(replies)
    {
      trace := trace + [ControlOut(value, index, data)];
    }

    /** A control IN transfer of at most `length` bytes. */
    method ControlTransferIn(value: u16, index: u16, length: nat) returns (r: Option<seq<byte>>)
      modifies this
      ensures trace == old(trace) + [ControlIn(value, index, length)]
      ensures old(replies) == [] ==> r == None && replies == []
      ensures old(replies) != [] ==> r == Some(Prefix(old(replies)[0], length)) && replies == old(replies)[1..]
    {
      trace := trace + [ControlIn(value, index, length)];
      if replies == [] {
        r := None;
      } else {
        r := Some(Prefix(replies[0], length));
        replies := replies[1..];
      }
    }

    /** A bulk IN transfer of at most `length` bytes from `endpoint`. */
    method BulkTransferIn(endpoint: nat, length: nat) returns (r: Option<seq<byte>>)
      modifies this
      ensures trace == old(trace) + [BulkIn(endpoint, length)]
      ensures old(replies) == [] ==> r == None && replies == []
      ensures old(replies) != [] ==> r == Some(Prefix(old(replies)[0], length)) && replies == old(replies)[1..]
    {
      trace := trace + [BulkIn(endpoint, length)];
      if replies == [] {
        r := None;
      } else {
        r := Some(Prefix(replies[0], length));
        replies := replies[1..];
      }
    }

    method ClaimInterface(interface: nat)
      modifies this
      ensures trace == old(trace) + [Claim(interface)]
      ensures replies == old(replies)
    {
      trace := trace + [Claim(interface)];
    }

    method ReleaseInterface(interface: nat)
      modifies this
      ensures trace == old(trace) + [Release(interface)]
      ensures replies == old(replies)
    {
      trace := trace + [Release(interface)];
    }
  }
}
