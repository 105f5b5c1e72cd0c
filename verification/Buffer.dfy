/** The growable read/write buffer: an array with a reader and a writer index. */
module Buffers {
  import opened Text

  const CHEAP_PREPEND: nat := 8
  const INITIAL_SIZE: nat := 1024
  const EXTRA_SIZE: nat := 65536

  /** What `readv` gives back: the bytes it scattered, or an error. */
  datatype ReadResult = Data(bytes: string) | ReadError

  lemma SliceConcat(s: string, i: nat, j: nat, k: nat)
    requires i <= j <= k <= |s|
    ensures s[i..k] == s[i..j] + s[j..k]
  {
  }

  class Buffer {
    var data: array<char>
    var reader: nat
    var writer: nat

    ghost predicate Valid()
      reads this
    {
      CHEAP_PREPEND <= reader <= writer <= data.Length
    }

    /** The abstract value: the queue of unread bytes. */
    ghost function Contents(): string
      requires Valid()
      reads this, data
    {
      data[reader..writer]
    }

    /** Bytes that fit without a larger array, at either end. */
    function Free(): (f: nat)
      requires Valid()
      reads this, data
      ensures f == data.Length - CHEAP_PREPEND - |Contents()|
    {
      (data.Length - writer) + (reader - CHEAP_PREPEND)
    }

    /** The most `readv` can return: the writable tail plus, if that is small, the stack segment. */
    function ReadCapacity(): nat
      requires Valid()
      reads this
    {
      var writable := data.Length - writer;
      if writable < EXTRA_SIZE then writable + EXTRA_SIZE else writable
    }

    constructor ()
      ensures Valid() && fresh(data)
      ensures Contents() == "" && data.Length == CHEAP_PREPEND + INITIAL_SIZE
    {
      data := new char[CHEAP_PREPEND + INITIAL_SIZE](_ => '\0');
      reader := CHEAP_PREPEND;
      writer := CHEAP_PREPEND;
    }

    method ReadableBytes() returns (n: nat)
      requires Valid()
      ensures n == |Contents()|
    {
      n := writer - reader;
    }

    /** `[peek(), peek() + len)` as a string. */
    method Peek(len: nat) returns (s: string)
      requires Valid() && len <= |Contents()|
      ensures s == Contents()[..len]
    {
      s := data[reader..reader + len];
    }

    /** The offset of the first CRLF from `peek()`, or none. */
    method FindCRLFOffset() returns (r: Option<nat>)
      requires Valid()
      ensures r == FindCRLF(Contents())
    {
      var i := reader;
      while i < writer
        invariant reader <= i <= writer
        invariant FindCRLF(Contents(), i - reader) == FindCRLF(Contents())
      {
        if i + 1 < writer && data[i] == '\r' && data[i + 1] == '\n' {
          assert CrlfAt(Contents(), i - reader);
          return Some(i - reader);
        }
        assert !CrlfAt(Contents(), i - reader);
        i := i + 1;
      }
      r := None;
    }

    method RetrieveAll()
      requires Valid()
      modifies this`reader, this`writer
      ensures Valid() && Contents() == ""
    {
      reader := CHEAP_PREPEND;
      writer := CHEAP_PREPEND;
    }

    method Retrieve(len: nat)
      requires Valid()
      modifies this`reader, this`writer
      ensures Valid()
      ensures Contents() == if len <= |old(Contents())| then old(Contents())[len..] else ""
    {
      if len < writer - reader {
        reader := reader + len;
      } else {
        RetrieveAll();
      }
    }

    method RetrieveAsString(len: nat) returns (s: string)
      requires Valid() && len <= |Contents()|
      modifies this`reader, this`writer
      ensures Valid()
      ensures s == old(Contents())[..len] && Contents() == old(Contents())[len..]
    {
      s := Peek(len);
      Retrieve(len);
    }

    /** Makes room for `len` more bytes: reallocates when both gaps together are too small,
        and otherwise slides the unread bytes down with an overlapping forward copy. */
    method MakeSpace(len: nat)
      requires Valid() && data.Length - writer < len
      modifies this, data
      ensures Valid() && Contents() == old(Contents())
      ensures data.Length - writer >= len
      ensures if old(Free()) < len
              then fresh(data) && data.Length == old(writer) + len
              else data == old(data)
    {
      if (data.Length - writer) + reader - CHEAP_PREPEND < len {
        var grown := new char[writer + len](_ => '\0');
        forall k | 0 <= k < data.Length {
          grown[k] := data[k];
        }
        assert grown[reader..writer] == Contents();
        data := grown;
      } else {
        SlideDown();
      }
    }

    /** `std::copy` to the front, byte by byte: source and target may overlap. */
    method SlideDown()
      requires Valid()
      modifies this`reader, this`writer, data
      ensures Valid() && Contents() == old(Contents())
      ensures reader == CHEAP_PREPEND && writer == CHEAP_PREPEND + |Contents()|
    {
      var readable := writer - reader;
      ghost var unread := Contents();
      var i := 0;
      while i < readable
        invariant 0 <= i <= readable
        invariant forall j :: CHEAP_PREPEND <= j < CHEAP_PREPEND + i ==> data[j] == unread[j - CHEAP_PREPEND]
        invariant forall j :: reader + i <= j < writer ==> data[j] == unread[j - reader]
        modifies data
      {
        data[CHEAP_PREPEND + i] := data[reader + i];
        i := i + 1;
      }
      reader := CHEAP_PREPEND;
      writer := reader + readable;
      assert Contents() == unread;
    }

    method EnsureWritableBytes(len: nat)
      requires Valid()
      modifies this, data
      ensures Valid() && Contents() == old(Contents())
      ensures data.Length - writer >= len
      ensures data == old(data) || fresh(data)
      ensures data.Length > old(data.Length) ==> old(Free()) < len && data.Length == old(writer) + len
      ensures old(Free()) >= len ==> data == old(data)
    {
      if data.Length - writer < len {
        MakeSpace(len);
      }
    }

    /** Queue refinement and the growth bound: the array grows only when both gaps together are
        too small, and then stays below the prepend area plus what is now readable plus `len`. */
    method Append(s: string)
      requires Valid()
      modifies this, data
      ensures Valid() && Contents() == old(Contents()) + s
      ensures data == old(data) || fresh(data)
      ensures old(Free()) >= |s| ==> data == old(data)
      ensures data.Length != old(data.Length) ==>
                old(Free()) < |s| && data.Length < CHEAP_PREPEND + |Contents()| + |s|
    {
      EnsureWritableBytes(|s|);
      Store(s);
      HasWritten(|s|);
    }

    /** `std::copy` to `beginWrite()`. */
    method Store(s: string)
      requires Valid() && writer + |s| <= data.Length
      modifies data
      ensures Contents() == old(Contents())
      ensures data[writer..writer + |s|] == s
    {
      forall j | writer <= j < writer + |s| {
        data[j] := s[j - writer];
      }
    }

    method HasWritten(len: nat)
      requires Valid() && writer + len <= data.Length
      modifies this`writer
      ensures Valid() && writer == old(writer) + len
      ensures Contents() == old(Contents()) + data[old(writer)..writer]
    {
      writer := writer + len;
      SliceConcat(data[..], reader, writer - len, writer);
    }

    /** The kernel's part of `readv`: the first segment is the writable tail of the array. */
    method Scatter(bytes: string, first: nat, extrabuf: array<char>)
      requires Valid() && writer + first <= data.Length && first <= |bytes| <= first + extrabuf.Length
      requires extrabuf != data
      modifies data, extrabuf
      ensures Contents() == old(Contents())
      ensures data[writer..writer + first] == bytes[..first]
      ensures extrabuf[..|bytes| - first] == bytes[first..]
    {
      Store(bytes[..first]);
      forall j | 0 <= j < |bytes| - first {
        extrabuf[j] := bytes[first + j];
      }
    }

    /** The scatter read: the kernel fills the writable tail first and the stack segment next. */
    method ReadFd(incoming: ReadResult) returns (n: int)
      requires Valid()
      requires incoming.Data? ==> |incoming.bytes| <= ReadCapacity()
      modifies this, data
      ensures Valid()
      ensures incoming.Data? ==> n == |incoming.bytes| && Contents() == old(Contents()) + incoming.bytes
      ensures incoming.ReadError? ==> n == -1 && Contents() == old(Contents())
      ensures data == old(data) || fresh(data)
      ensures data.Length != old(data.Length) ==>
                incoming.Data? && data.Length < CHEAP_PREPEND + |Contents()| + |incoming.bytes|
    {
      var extrabuf := new char[EXTRA_SIZE](_ => '\0');
      var writable := data.Length - writer;
      if incoming.ReadError? {
        return -1;
      }
      n := |incoming.bytes|;
      var first := if n <= writable then n else writable;
      Scatter(incoming.bytes, first, extrabuf);
      HasWritten(first);
      assert incoming.bytes == incoming.bytes[..first] + incoming.bytes[first..];
      if n > writable {
        Append(extrabuf[..n - writable]);
      }
    }
  }

  /** One use of the buffer by its callers. */
  datatype Op = AppendOp(s: string) | RetrieveOp(len: nat) | RetrieveAllOp | ReadOp(result: ReadResult)

  /** The byte queue the buffer stands for. */
  function Queue(q: string, op: Op): string {
    match op
    case AppendOp(s) => q + s
    case RetrieveOp(len) => if len <= |q| then q[len..] else ""
    case RetrieveAllOp => ""
    case ReadOp(result) => if result.Data? then q + result.bytes else q
  }

  function QueueAfter(q: string, ops: seq<Op>): string {
    if ops == [] then q else Queue(QueueAfter(q, ops[..|ops| - 1]), ops[|ops| - 1])
  }

  /** The largest number of unread bytes the queue ever holds. */
  function Peak(ops: seq<Op>): (p: nat)
    ensures |QueueAfter("", ops)| <= p
  {
    if ops == [] then 0
    else
      var before, now := Peak(ops[..|ops| - 1]), |QueueAfter("", ops)|;
      if now > before then now else before
  }

  /** Every sequence of uses: the buffer holds exactly the queue, the layout stays well formed, and
      the storage never exceeds the initial size or twice the peak plus the prepend area.
      `done` are the uses as they happened: a read may deliver less than the socket holds. */
  method Drive(ops: seq<Op>) returns (b: Buffer, done: seq<Op>)
    ensures fresh(b) && b.Valid()
    ensures |done| == |ops|
    ensures forall i :: 0 <= i < |ops| ==> Clipped(done[i], ops[i])
    ensures b.Contents() == QueueAfter("", done)
    ensures b.data.Length <= CHEAP_PREPEND + INITIAL_SIZE || b.data.Length < CHEAP_PREPEND + 2 * Peak(done)
  {
    b := new Buffer();
    done := [];
    while |done| < |ops|
      invariant fresh(b) && fresh(b.data) && b.Valid()
      invariant |done| <= |ops|
      invariant forall i :: 0 <= i < |done| ==> Clipped(done[i], ops[i])
      invariant b.Contents() == QueueAfter("", done)
      invariant b.data.Length <= CHEAP_PREPEND + INITIAL_SIZE || b.data.Length < CHEAP_PREPEND + 2 * Peak(done)
    {
      var op := ops[|done|];
      var step := op;
      if op.ReadOp? && op.result.Data? && |op.result.bytes| > b.ReadCapacity() {
        step := ReadOp(Data(op.result.bytes[..b.ReadCapacity()]));
      }
      match step {
        case AppendOp(s) => b.Append(s);
        case RetrieveOp(len) => b.Retrieve(len);
        case RetrieveAllOp => b.RetrieveAll();
        case ReadOp(result) => var n := b.ReadFd(result);
      }
      assert (done + [step])[..|done|] == done;
      done := done + [step];
    }
  }

  /** `d` is `o`, except that a read may deliver a prefix of what was waiting in the socket. */
  ghost predicate Clipped(d: Op, o: Op) {
    d == o || (d.ReadOp? && o.ReadOp? && d.result.Data? && o.result.Data? && d.result.bytes <= o.result.bytes)
  }
}
