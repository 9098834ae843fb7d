/** Whole runs of buffer operations against a bounded queue of bytes. */
module RingRuns {
  import opened Bytes
  import opened ByteRing

  datatype Op =
    | Write(data: seq<Byte>)
    | Peek(size: nat)
    | Read(size: nat)
    | MoveReadOffset(moved: nat)
    | ReceiveThenMoveWriteOffset(received: seq<Byte>)
    | Reset

  datatype Answer = Accepted | Refused | Copied(bytes: seq<Byte>) | Done

  /** The version whose Write is cut where the source cuts it, and the repaired one. */
  datatype Version = AsWritten | Repaired

  /** What Peek copies out: one memcpy, or two when the answer goes round the end. */
  function CopiedOut(buf: seq<Byte>, front: nat, size: nat, direct: nat): seq<Byte>
    requires front + direct <= |buf| && size - direct <= |buf|
  {
    if size <= direct then buf[front..front + size]
    else buf[front..front + direct] + buf[..size - direct]
  }

  function Peeked(r: Ring, size: nat): seq<Byte>
    requires r.Valid()
  {
    CopiedOut(r.buf, r.front, if |r.Contents()| <= size then |r.Contents()| else size, r.DirectReadSize())
  }

  lemma CopiedOutIsOldest(r: Ring, n: nat)
    requires r.Valid() && n <= |r.Contents()|
    ensures CopiedOut(r.buf, r.front, n, r.DirectReadSize()) == r.Contents()[..n]
  {
    if r.front <= r.rear {
      TakeTake(r.buf, r.front, r.rear, n);
    } else if n > r.DirectReadSize() {
      TakePast(r.buf[r.front..], r.buf, r.rear, n);
    } else {
      TakeTake(r.buf, r.front, |r.buf|, n);
      assert r.Contents()[..n] == r.buf[r.front..][..n];
    }
  }

  lemma TakeTake(s: seq<Byte>, from: nat, to: nat, n: nat)
    requires from + n <= to <= |s|
    ensures s[from..to][..n] == s[from..from + n]
  {
  }

  lemma TakePast(a: seq<Byte>, s: seq<Byte>, to: nat, n: nat)
    requires |a| < n <= |a| + to && to <= |s|
    ensures (a + s[..to])[..n] == a + s[..n - |a|]
  {
  }

  lemma PeekedIsOldest(r: Ring, size: nat)
    requires r.Valid()
    ensures Peeked(r, size) == if |r.Contents()| <= size then r.Contents() else r.Contents()[..size]
  {
    var n := if |r.Contents()| <= size then |r.Contents()| else size;
    CopiedOutIsOldest(r, n);
    assert r.Contents()[..|r.Contents()|] == r.Contents();
  }

  /** What the callers guarantee: offsets move over bytes that are there, and recv is
      given no more room than GetDirectWriteSize. */
  ghost predicate Legal(r: Ring, op: Op)
    requires r.Valid()
  {
    match op
    case MoveReadOffset(n) => n <= |r.Contents()|
    case ReceiveThenMoveWriteOffset(data) => |data| <= r.DirectWriteSize()
    case _ => true
  }

  function Step(v: Version, r: Ring, op: Op): (next: (Ring, Answer))
    requires r.Valid() && Legal(r, op)
    ensures next.0.Valid()
  {
    match op
    case Write(data) =>
      (if v == AsWritten then r.Write(data) else r.WriteRepaired(data),
       if |data| <= r.Room() then Accepted else Refused)
    case Peek(size) => (r, Copied(Peeked(r, size)))
    case Read(size) => (r.MoveRead(|Peeked(r, size)|), Copied(Peeked(r, size)))
    case MoveReadOffset(n) => (r.MoveRead(n), Done)
    case ReceiveThenMoveWriteOffset(data) => (r.Receive(data), Done)
    case Reset => (r.Reset(), Done)
  }

  /** The same operation on a queue that holds at most `capacity` bytes. */
  function QueueStep(capacity: nat, q: seq<Byte>, op: Op): (seq<Byte>, Answer) {
    match op
    case Write(data) => if |q| + |data| <= capacity then (q + data, Accepted) else (q, Refused)
    case Peek(size) => (q, Copied(if |q| <= size then q else q[..size]))
    case Read(size) => if |q| <= size then ([], Copied(q)) else (q[size..], Copied(q[..size]))
    case MoveReadOffset(n) => (if n <= |q| then q[n..] else q, Done)
    case ReceiveThenMoveWriteOffset(data) => (q + data, Done)
    case Reset => ([], Done)
  }

  ghost predicate LegalRun(v: Version, r: Ring, ops: seq<Op>)
    requires r.Valid()
    decreases |ops|
  {
    ops == [] || (Legal(r, ops[0]) && LegalRun(v, Step(v, r, ops[0]).0, ops[1..]))
  }

  /** Buffer and queue hold the same bytes before every operation of the run and after the
      last, and give the same answers. */
  ghost predicate TracksQueue(v: Version, r: Ring, q: seq<Byte>, ops: seq<Op>)
    requires r.Valid() && LegalRun(v, r, ops)
    decreases |ops|
  {
    r.Contents() == q && |q| < |r.buf|
    && (ops != [] ==>
      var (r', a) := Step(v, r, ops[0]);
      var (q', b) := QueueStep(|r.buf| - 1, q, ops[0]);
      a == b && |r'.buf| == |r.buf| && TracksQueue(v, r', q', ops[1..]))
  }

  /** Every accepted write of the run stays in one piece, or the bytes past the cut all
      equal the byte lying in the last slot. */
  ghost predicate NoHarmfulSplit(r: Ring, ops: seq<Op>)
    requires r.Valid() && LegalRun(AsWritten, r, ops)
    decreases |ops|
  {
    ops == []
    || ((ops[0].Write? && |ops[0].data| <= r.Room() ==>
           r.Unsplit(ops[0].data)
           || forall k :: r.DirectWriteSize() <= k < |ops[0].data| ==>
                ops[0].data[k] == r.buf[|r.buf| - 1])
        && NoHarmfulSplit(Step(AsWritten, r, ops[0]).0, ops[1..]))
  }

  lemma OtherStepsTrack(v: Version, r: Ring, op: Op)
    requires r.Valid() && Legal(r, op)
    requires op.Write? ==> v == Repaired || |op.data| > r.Room()
    ensures var (r', a) := Step(v, r, op);
            var (q', b) := QueueStep(|r.buf| - 1, r.Contents(), op);
            a == b && r'.Contents() == q' && |r'.buf| == |r.buf|
  {
    match op
    case Write(data) => if |data| <= r.Room() { RepairedWriteAppends(r, data); }
    case Peek(size) => PeekedIsOldest(r, size);
    case Read(size) =>
      PeekedIsOldest(r, size);
      MoveReadDrops(r, |Peeked(r, size)|);
    case MoveReadOffset(n) => MoveReadDrops(r, n);
    case ReceiveThenMoveWriteOffset(data) => ReceiveAppends(r, data);
    case Reset =>
  }

  /** The repaired buffer is a queue of capacity B - 1 through every run, wraps included. */
  lemma {:induction false} RepairedRefinesQueue(r: Ring, ops: seq<Op>)
    requires r.Valid() && LegalRun(Repaired, r, ops)
    ensures TracksQueue(Repaired, r, r.Contents(), ops)
    decreases |ops|
  {
    if ops != [] {
      OtherStepsTrack(Repaired, r, ops[0]);
      RepairedRefinesQueue(Step(Repaired, r, ops[0]).0, ops[1..]);
    }
  }

  /** The buffer as written is that queue through exactly the runs without a harmful split. */
  lemma {:induction false} AsWrittenRefinesQueueIff(r: Ring, ops: seq<Op>)
    requires r.Valid() && LegalRun(AsWritten, r, ops)
    ensures TracksQueue(AsWritten, r, r.Contents(), ops) <==> NoHarmfulSplit(r, ops)
    decreases |ops|
  {
    if ops != [] {
      var r' := Step(AsWritten, r, ops[0]).0;
      if ops[0].Write? && |ops[0].data| <= r.Room() {
        WriteAppendsIff(r, ops[0].data);
      } else {
        OtherStepsTrack(AsWritten, r, ops[0]);
      }
      AsWrittenRefinesQueueIff(r', ops[1..]);
    }
  }

  /** A run of the buffer as written that a queue does not allow: read one byte, then fill
      the buffer up, and the byte that comes out last was never written. */
  lemma WrittenSplitLosesAByte()
    ensures var r := Ring([7, 8, 9, 5], 1, 3);
            r.Valid() && r.Write([1]).Contents() == [8, 9, 5] && !r.Unsplit([1])
    ensures !TracksQueue(AsWritten, Ring([7, 8, 9, 5], 1, 3), [8, 9], [Op.Write([1])])
  {
    var r := Ring([7, 8, 9, 5], 1, 3);
    assert r.Contents() == [8, 9];
    SplitWriteExactEffect(r, [1]);
    assert [8, 9] + [1][..0] + [5] + [1][0..0] == [8, 9, 5];
    assert Legal(r, Op.Write([1]));
    assert [Op.Write([1])][1..] == [];
    assert LegalRun(AsWritten, r, [Op.Write([1])]);
    assert r.DirectWriteSize() == 0 && r.buf[3] == 5;
    AsWrittenRefinesQueueIff(r, [Op.Write([1])]);
  }
}
