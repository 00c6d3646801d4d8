/** include/Buffer.h and src/Buffer.cpp: a growable byte queue with a prepend area. */
module Buffers {
  import opened Seqs

  const kPrepend: nat := 8
  const kInitialSize: nat := 1024
  const kExtraSize: nat := 65536

  /** What readv reports: the bytes it delivered, in order, or an errno. */
  datatype ReadResult = Got(bytes: string) | ReadFailed(errno: int)

  class Buffer {
    var buffer: array<char>
    var readerIndex: nat
    var writerIndex: nat

    ghost predicate Valid()
      reads this
    {
      kPrepend <= readerIndex <= writerIndex <= buffer.Length
    }

    /** The queue: what has been appended and not yet retrieved. */
    ghost function Contents(): (s: string)
      reads this, buffer
      requires Valid()
    {
      buffer[readerIndex..writerIndex]
    }

    /** The size argument is ignored by the source, and here. */
    constructor (initialSize: nat)
      ensures Valid() && fresh(buffer) && Contents() == [] && WriteableBytes() == kInitialSize
    {
      buffer := new char[kPrepend + kInitialSize](_ => '\0');
      readerIndex, writerIndex := kPrepend, kPrepend;
    }

    function WriteableBytes(): nat
      reads this
      requires Valid()
    {
      buffer.Length - writerIndex
    }

    function ReadableBytes(): nat
      reads this
      requires Valid()
    {
      writerIndex - readerIndex
    }

    method RetrieveAll()
      requires buffer.Length >= kPrepend
      modifies `readerIndex, `writerIndex
      ensures Valid() && Contents() == [] && readerIndex == writerIndex == kPrepend
    {
      readerIndex, writerIndex := kPrepend, kPrepend;
    }

    /** Asking for more than is readable empties the queue. */
    method Retrieve(len: nat)
      requires Valid()
      modifies `readerIndex, `writerIndex
      ensures Valid()
      ensures Contents() == if len <= |old(Contents())| then old(Contents())[len..] else []
      ensures if len < |old(Contents())| then readerIndex == old(readerIndex) + len && writerIndex == old(writerIndex)
              else readerIndex == writerIndex == kPrepend
    {
      if len < ReadableBytes() {
        readerIndex := readerIndex + len;
      } else {
        RetrieveAll();
      }
    }

    /** The source copies len bytes from peek() without looking at what is readable. */
    method RetrieveAsString(len: nat) returns (result: string)
      requires Valid() && readerIndex + len <= buffer.Length
      modifies `readerIndex, `writerIndex
      ensures Valid() && |result| == len
      ensures len <= |old(Contents())| ==> result + Contents() == old(Contents())
      ensures len > |old(Contents())| ==> old(Contents()) <= result && Contents() == []
      ensures if len < |old(Contents())| then readerIndex == old(readerIndex) + len && writerIndex == old(writerIndex)
              else readerIndex == writerIndex == kPrepend
    {
      result := buffer[readerIndex..readerIndex + len];
      Retrieve(len);
    }

    method RetrieveAllAsString() returns (result: string)
      requires Valid()
      modifies `readerIndex, `writerIndex
      ensures Valid() && result == old(Contents()) && Contents() == [] && readerIndex == writerIndex == kPrepend
    {
      result := RetrieveAsString(ReadableBytes());
    }

    /** std::copy of the readable bytes to the front. The ranges may overlap. */
    method MoveToFront()
      requires Valid()
      modifies `readerIndex, `writerIndex, buffer
      ensures Valid() && readerIndex == kPrepend && Contents() == old(Contents())
    {
      var readable := ReadableBytes();
      ghost var queue := Contents();
      for i := 0 to readable
        invariant readerIndex == old(readerIndex) && writerIndex == old(writerIndex)
        invariant buffer[kPrepend..kPrepend + i] == queue[..i]
        invariant buffer[readerIndex + i..writerIndex] == queue[i..]
      {
        assert buffer[readerIndex + i] == buffer[readerIndex + i..writerIndex][0] == queue[i];
        buffer[kPrepend + i] := buffer[readerIndex + i];
      }
      readerIndex := kPrepend;
      writerIndex := readerIndex + readable;
    }

    /** vector::resize to a size that is not smaller. */
    method Grow(size: nat)
      requires Valid() && size >= buffer.Length
      modifies `buffer
      ensures Valid() && fresh(buffer) && buffer.Length == size
      ensures buffer[..old(buffer.Length)] == old(buffer[..])
      ensures Contents() == old(Contents())
    {
      var bigger := new char[size](_ => '\0');
      forall i | 0 <= i < buffer.Length { bigger[i] := buffer[i]; }
      buffer := bigger;
    }

    /**
     * Afterwards len bytes are writable. Growing is used only when the bytes
     * in front of and behind the readable ones would not do, and never shrinks.
     */
    method MakeSpace(len: nat)
      requires Valid()
      modifies this, buffer
      ensures Valid() && (buffer == old(buffer) || fresh(buffer))
      ensures Contents() == old(Contents())
      ensures WriteableBytes() >= len
      ensures fresh(buffer) <==> old(buffer.Length) < kPrepend + |old(Contents())| + len
    {
      if WriteableBytes() + readerIndex < len + kPrepend {
        Grow(len + writerIndex);
      } else {
        MoveToFront();
      }
    }

    /** append as the source has it: nothing checks that the bytes fit. */
    method AppendRaw(data: string)
      requires Valid() && |data| <= WriteableBytes()
      modifies `writerIndex, buffer
      ensures Valid() && Contents() == old(Contents()) + data
      ensures writerIndex == old(writerIndex) + |data|
    {
      forall i | 0 <= i < |data| { buffer[writerIndex + i] := data[i]; }
      writerIndex := writerIndex + |data|;
    }

    /**
     * The append that callers need: makeSpace first. The source leaves the call
     * to makeSpace out, which is the same thing only if the data already fit.
     */
    method Append(data: string)
      requires Valid()
      modifies this, buffer
      ensures Valid() && (buffer == old(buffer) || fresh(buffer))
      ensures Contents() == old(Contents()) + data
    {
      MakeSpace(|data|);
      AppendRaw(data);
    }

    /** How much one readv can deliver: the free tail, and extrabuf unless the tail is as large. */
    function ReadCapacity(): nat
      reads this
      requires Valid()
    {
      WriteableBytes() + if WriteableBytes() < kExtraSize then kExtraSize else 0
    }

    /**
     * readFd: readv fills the free tail, then a second segment. What lands in
     * the tail is appended in place by moving writerIndex; the second segment is
     * appended with makeSpace (see Append).
     */
    method ReadFd(syscall: ReadResult) returns (n: int, savedErrno: Option<int>)
      requires Valid()
      requires syscall.Got? ==> |syscall.bytes| <= ReadCapacity()
      modifies this, buffer
      ensures Valid() && (buffer == old(buffer) || fresh(buffer))
      ensures syscall.Got? ==>
        n == |syscall.bytes| && savedErrno == None && Contents() == old(Contents()) + syscall.bytes
      ensures syscall.ReadFailed? ==>
        n == -1 && savedErrno == Some(syscall.errno) && Contents() == old(Contents())
    {
      savedErrno := None;
      if syscall.ReadFailed? {
        return -1, Some(syscall.errno);
      }
      var writeable := WriteableBytes();
      n := |syscall.bytes|;
      if n <= writeable {
        AppendRaw(syscall.bytes);
      } else {
        var extrabuf := syscall.bytes[writeable..];
        AppendRaw(syscall.bytes[..writeable]);
        Append(extrabuf);
        assert syscall.bytes[..writeable] + extrabuf == syscall.bytes;
      }
    }

    /** readFd as the source has it, where what arrives fits the free tail; the other branch writes past the vector. */
    method ReadFdRaw(bytes: string)
      requires Valid() && |bytes| <= WriteableBytes()
      modifies `writerIndex, buffer
      ensures Valid() && Contents() == old(Contents()) + bytes
      ensures writerIndex == old(writerIndex) + |bytes|
    {
      AppendRaw(bytes);
    }
  }

  // ---------------------------------------------------------------------------
  // Whole histories of one buffer

  /** Read: the descriptor holds these bytes, and readFd is called until it has them all. */
  datatype Op = Push(data: string) | Read(bytes: string) | Pop(len: nat) | PopAll

  function Min(a: nat, b: nat): nat { if a < b then a else b }

  /** How many bytes an operation takes from a queue of n bytes, and what it puts in. */
  function Out(n: nat, op: Op): (k: nat)
    ensures k <= n
  {
    match op case Push(_) => 0 case Read(_) => 0 case Pop(len) => Min(len, n) case PopAll => n
  }

  function In(op: Op): string
  {
    match op case Push(data) => data case Read(bytes) => bytes case _ => []
  }

  /** The queue after the operations. */
  function Left(q: string, ops: seq<Op>): string
    decreases |ops|
  {
    if ops == [] then q else Left(q[Out(|q|, ops[0])..] + In(ops[0]), ops[1..])
  }

  /** What the operations took out, in order. */
  function Popped(q: string, ops: seq<Op>): string
    decreases |ops|
  {
    if ops == [] then [] else
    q[..Out(|q|, ops[0])] + Popped(q[Out(|q|, ops[0])..] + In(ops[0]), ops[1..])
  }

  function Pushed(ops: seq<Op>): string
  {
    if ops == [] then [] else In(ops[0]) + Pushed(ops[1..])
  }

  /** First in, first out, nothing lost or repeated. */
  lemma {:induction false} QueueConservation(q: string, ops: seq<Op>)
    ensures Popped(q, ops) + Left(q, ops) == q + Pushed(ops)
    decreases |ops|
  {
    if ops != [] {
      var k, rest := Out(|q|, ops[0]), ops[1..];
      var next := q[k..] + In(ops[0]);
      QueueConservation(next, rest);
      Assoc(q[..k], Popped(next, rest), Left(next, rest));
      Assoc(q[..k], next, Pushed(rest));
      Assoc(q[..k], q[k..], In(ops[0]));
      Assoc(q, In(ops[0]), Pushed(rest));
      assert q == q[..k] + q[k..];
    }
  }

  /** readFd again and again, each time as much as readv can deliver. */
  method ReadAll(b: Buffer, bytes: string)
    requires b.Valid()
    modifies b, b.buffer
    ensures b.Valid() && (b.buffer == old(b.buffer) || fresh(b.buffer))
    ensures b.Contents() == old(b.Contents()) + bytes
  {
    var done := 0;
    while done < |bytes|
      invariant done <= |bytes| && b.Valid() && (b.buffer == old(b.buffer) || fresh(b.buffer))
      invariant b.Contents() == old(b.Contents()) + bytes[..done]
    {
      var n := Min(|bytes| - done, b.ReadCapacity());
      var _, _ := b.ReadFd(Got(bytes[done..done + n]));
      assert bytes[..done] + bytes[done..done + n] == bytes[..done + n];
      done := done + n;
    }
    assert bytes[..|bytes|] == bytes;
  }

  method Do(b: Buffer, op: Op) returns (some: string)
    requires b.Valid()
    modifies b, b.buffer
    ensures b.Valid() && (b.buffer == old(b.buffer) || fresh(b.buffer))
    ensures some == old(b.Contents())[..Out(|old(b.Contents())|, op)]
    ensures b.Contents() == old(b.Contents())[Out(|old(b.Contents())|, op)..] + In(op)
  {
    match op
    case Push(data) =>
      some := [];
      b.Append(data);
    case Read(bytes) =>
      some := [];
      ReadAll(b, bytes);
    case Pop(len) =>
      some := b.RetrieveAsString(Min(len, b.ReadableBytes()));
    case PopAll =>
      some := b.RetrieveAllAsString();
  }

  lemma NextOp(q: string, ops: seq<Op>, i: nat, before: string)
    requires i < |ops|
    ensures var some, next := q[..Out(|q|, ops[i])], q[Out(|q|, ops[i])..] + In(ops[i]);
      && before + Popped(q, ops[i..]) == before + some + Popped(next, ops[i + 1..])
      && Left(q, ops[i..]) == Left(next, ops[i + 1..])
  {
    assert ops[i..][0] == ops[i] && ops[i..][1..] == ops[i + 1..];
    Assoc(before, q[..Out(|q|, ops[i])], Popped(q[Out(|q|, ops[i])..] + In(ops[i]), ops[i + 1..]));
  }

  /** A Buffer that undergoes any operations behaves as the queue, whatever it moved or resized. */
  method Drive(b: Buffer, ops: seq<Op>) returns (taken: string)
    requires b.Valid()
    modifies b, b.buffer
    ensures b.Valid()
    ensures taken == Popped(old(b.Contents()), ops)
    ensures b.Contents() == Left(old(b.Contents()), ops)
  {
    taken := [];
    for i := 0 to |ops|
      invariant b.Valid() && (b.buffer == old(b.buffer) || fresh(b.buffer))
      invariant taken + Popped(b.Contents(), ops[i..]) == Popped(old(b.Contents()), ops)
      invariant Left(b.Contents(), ops[i..]) == Left(old(b.Contents()), ops)
    {
      NextOp(b.Contents(), ops, i, taken);
      var some := Do(b, ops[i]);
      taken := taken + some;
    }
  }

  // ---------------------------------------------------------------------------
  // The source as it stands: append without makeSpace, and readFd on top of it

  /** The vector keeps its first size. */
  const kRawSize: nat := kPrepend + kInitialSize

  /** readerIndex_ and writerIndex_ */
  datatype Indexes = Indexes(reader: nat, writer: nat)

  predicate InVector(x: Indexes)
  {
    kPrepend <= x.reader <= x.writer <= kRawSize
  }

  /** Where readFd leaves the indexes: past the free tail, writerIndex_ jumps to the end, and append adds the rest there. */
  function RawRead(x: Indexes, n: nat): Indexes
    requires InVector(x)
  {
    var writeable := kRawSize - x.writer;
    if n <= writeable then x.(writer := x.writer + n) else x.(writer := kRawSize + (n - writeable))
  }

  function RawStep(x: Indexes, op: Op): (y: Indexes)
    requires InVector(x)
    ensures kPrepend <= y.reader <= y.writer
  {
    match op
    case Push(data) => x.(writer := x.writer + |data|)
    case Read(bytes) => RawRead(x, |bytes|)
    case Pop(len) => if len < x.writer - x.reader then x.(reader := x.reader + len) else Indexes(kPrepend, kPrepend)
    case PopAll => Indexes(kPrepend, kPrepend)
  }

  /** Nothing in the run writes past the end of the vector. */
  predicate StaysInside(x: Indexes, ops: seq<Op>)
    requires InVector(x)
    decreases |ops|
  {
    ops == [] || (RawStep(x, ops[0]).writer <= kRawSize && StaysInside(RawStep(x, ops[0]), ops[1..]))
  }

  /** Bytes that came in since a retrieve last emptied the queue, which held q, `before` of them earlier. */
  function SinceEmpty(q: string, ops: seq<Op>, before: nat): nat
    decreases |ops|
  {
    if ops == [] then before
    else
      var next := q[Out(|q|, ops[0])..] + In(ops[0]);
      SinceEmpty(next, ops[1..], NowSince(ops[0], next, before))
  }

  /** The count after one operation that leaves next. */
  function NowSince(op: Op, next: string, before: nat): nat
  {
    if op.Push? || op.Read? then before + |In(op)| else if next == [] then 0 else before
  }

  ghost predicate Modest(q: string, ops: seq<Op>, before: nat)
  {
    forall i :: 0 <= i <= |ops| ==> SinceEmpty(q, ops[..i], before) <= 1024
  }

  lemma SinceEmptyStep(q: string, ops: seq<Op>, before: nat, i: nat)
    requires 0 < i <= |ops|
    ensures var next := q[Out(|q|, ops[0])..] + In(ops[0]);
      SinceEmpty(q, ops[..i], before) == SinceEmpty(next, ops[1..][..i - 1], NowSince(ops[0], next, before))
  {
    assert ops[..i][1..] == ops[1..][..i - 1];
  }

  /**
   * The append and the readFd of the source never write past the vector if and
   * only if at most 1024 bytes come in between two moments at which everything
   * has been retrieved, however many of them were retrieved in between.
   */
  lemma {:induction false} RawRunsFitIff(q: string, x: Indexes, ops: seq<Op>)
    requires InVector(x) && x.writer == x.reader + |q|
    ensures StaysInside(x, ops) <==> Modest(q, ops, x.writer - kPrepend)
    decreases |ops|
  {
    var before := x.writer - kPrepend;
    if ops == [] {
      assert forall i :: 0 <= i <= |ops| ==> ops[..i] == [];
    } else {
      var y := RawStep(x, ops[0]);
      var next := q[Out(|q|, ops[0])..] + In(ops[0]);
      var after := NowSince(ops[0], next, before);
      assert y.writer == y.reader + |next| && after == y.writer - kPrepend;
      forall i | 0 < i <= |ops| ensures SinceEmpty(q, ops[..i], before) == SinceEmpty(next, ops[1..][..i - 1], after) {
        SinceEmptyStep(q, ops, before, i);
      }
      assert SinceEmpty(next, ops[1..][..0], after) == after;
      assert ops[..0] == [];
      if y.writer <= kRawSize {
        RawRunsFitIff(next, y, ops[1..]);
        ModestStep(q, ops, before, next, after);
      } else {
        assert SinceEmpty(q, ops[..1], before) == after;
      }
    }
  }

  lemma ModestStep(q: string, ops: seq<Op>, before: nat, next: string, after: nat)
    requires ops != [] && before <= kInitialSize
    requires forall i :: 0 < i <= |ops| ==> SinceEmpty(q, ops[..i], before) == SinceEmpty(next, ops[1..][..i - 1], after)
    ensures Modest(q, ops, before) <==> Modest(next, ops[1..], after)
  {
    if Modest(q, ops, before) {
      forall i | 0 <= i <= |ops[1..]| ensures SinceEmpty(next, ops[1..][..i], after) <= kInitialSize {
        assert SinceEmpty(q, ops[..i + 1], before) == SinceEmpty(next, ops[1..][..i + 1 - 1], after);
      }
    }
    if Modest(next, ops[1..], after) {
      assert ops[..0] == [];
    }
  }

  /** One read of 1025 bytes, or one append, into a new Buffer writes past the vector already. */
  lemma OneByteTooMany(data: string)
    requires |data| == 1025
    ensures var x := Indexes(kPrepend, kPrepend);
      && !StaysInside(x, [Read(data)]) && !Modest("", [Read(data)], 0)
      && !StaysInside(x, [Push(data)]) && !Modest("", [Push(data)], 0)
  {
    RawRunsFitIff("", Indexes(kPrepend, kPrepend), [Read(data)]);
    RawRunsFitIff("", Indexes(kPrepend, kPrepend), [Push(data)]);
  }

  /** Under that condition the code as it stands is right: the same queue, and the vector never changes. */
  method DriveRaw(b: Buffer, ops: seq<Op>) returns (taken: string)
    requires b.Valid() && b.buffer.Length == kRawSize
    requires Modest(b.Contents(), ops, b.writerIndex - kPrepend)
    modifies b`readerIndex, b`writerIndex, b.buffer
    ensures b.Valid()
    ensures taken == Popped(old(b.Contents()), ops)
    ensures b.Contents() == Left(old(b.Contents()), ops)
  {
    taken := [];
    RawRunsFitIff(b.Contents(), Indexes(b.readerIndex, b.writerIndex), ops);
    for i := 0 to |ops|
      invariant b.Valid() && StaysInside(Indexes(b.readerIndex, b.writerIndex), ops[i..])
      invariant taken + Popped(b.Contents(), ops[i..]) == Popped(old(b.Contents()), ops)
      invariant Left(b.Contents(), ops[i..]) == Left(old(b.Contents()), ops)
    {
      NextOp(b.Contents(), ops, i, taken);
      assert ops[i..][0] == ops[i] && ops[i..][1..] == ops[i + 1..];
      var some := DoRaw(b, ops[i]);
      taken := taken + some;
    }
  }

  method DoRaw(b: Buffer, op: Op) returns (some: string)
    requires b.Valid() && b.buffer.Length == kRawSize
    requires RawStep(Indexes(b.readerIndex, b.writerIndex), op).writer <= kRawSize
    modifies b`readerIndex, b`writerIndex, b.buffer
    ensures b.Valid() && Indexes(b.readerIndex, b.writerIndex) == RawStep(old(Indexes(b.readerIndex, b.writerIndex)), op)
    ensures some == old(b.Contents())[..Out(|old(b.Contents())|, op)]
    ensures b.Contents() == old(b.Contents())[Out(|old(b.Contents())|, op)..] + In(op)
  {
    match op
    case Push(data) =>
      some := [];
      b.AppendRaw(data);
    case Read(bytes) =>
      some := [];
      b.ReadFdRaw(bytes);
    case Pop(len) =>
      some := b.RetrieveAsString(Min(len, b.ReadableBytes()));
    case PopAll =>
      some := b.RetrieveAllAsString();
  }
}
