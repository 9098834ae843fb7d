/** The circular byte buffer: RecvBuffer.hpp of the server and RingBuffer.hpp of the
    stress client hold the same algorithm. `Ring` is a snapshot of the three fields;
    the class updates them in place. */
module ByteRing {
  import opened Bytes

  /** Overwrite part of an array, as memcpy does. */
  function Splice(dst: seq<Byte>, at: nat, src: seq<Byte>): (r: seq<Byte>)
    requires at + |src| <= |dst|
    ensures |r| == |dst|
  {
    seq(|dst|, i requires 0 <= i < |dst| => if at <= i < at + |src| then src[i - at] else dst[i])
  }

  lemma SpliceParts(dst: seq<Byte>, at: nat, src: seq<Byte>)
    requires at + |src| <= |dst|
    ensures var r := Splice(dst, at, src);
            r[..at] == dst[..at] && r[at..at + |src|] == src && r[at + |src|..] == dst[at + |src|..]
  {
  }

  /** The remainder of x by n, by repeated subtraction. */
  function Wrap(x: nat, n: nat): (r: nat)
    requires 0 < n
    ensures r < n && (x < 2 * n ==> r == if x < n then x else x - n)
    decreases x
  {
    if x < n then x else Wrap(x - n, n)
  }

  lemma {:induction false} WrapIsRemainder(x: nat, n: nat)
    requires 0 < n
    ensures Wrap(x, n) == x % n
    decreases x
  {
    if x >= n {
      WrapIsRemainder(x - n, n);
      RemainderStep(x - n, n);
    }
  }

  lemma RemainderStep(x: nat, n: nat)
    requires 0 < n
    ensures (x + n) % n == x % n
  {
    var q := x / n;
    var q', r' := (x + n) / n, (x + n) % n;
    var gap := q' - q - 1;
    assert gap * n == x % n - r' by {
      assert q * n + x % n == x && q' * n + r' == x + n;
      assert gap * n == q' * n - q * n - n;
    }
    assert gap >= 1 ==> gap * n >= n;
    assert gap <= -1 ==> gap * n <= -1 * n;
  }

  lemma Adjacent(s: seq<Byte>, a: nat, b: nat, c: nat)
    requires a <= b <= c <= |s|
    ensures s[a..b] + s[b..c] == s[a..c]
  {
  }

  lemma SpliceTwice(dst: seq<Byte>, at: nat, a: seq<Byte>, b: seq<Byte>)
    requires at + |a| + |b| <= |dst|
    ensures Splice(Splice(dst, at, a), at + |a|, b) == Splice(dst, at, a + b)
  {
    var once := Splice(dst, at, a);
    SpliceParts(dst, at, a);
    assert once[..at + |a|] == dst[..at] + a;
    assert once[at + |a| + |b|..] == once[at + |a|..][|b|..] == dst[at + |a| + |b|..];
  }

  datatype Ring = Ring(buf: seq<Byte>, front: nat, rear: nat) {
    ghost predicate Valid() {
      2 <= |buf| && front < |buf| && rear < |buf|
    }

    /** The abstract queue: the bytes from `front` up to `rear`, going round. */
    function Contents(): seq<Byte>
      requires Valid()
    {
      if front <= rear then buf[front..rear] else buf[front..] + buf[..rear]
    }

    function Room(): (r: int)
      requires Valid()
      ensures 0 <= r == |buf| - 1 - |Contents()|
    {
      |buf| - 1 - |Contents()|
    }

    /** What GetDirectWriteSize answers: it leaves the last slot of the array out. */
    function DirectWriteSize(): (r: nat)
      requires Valid()
      ensures r <= Room() && rear + r < |buf|
    {
      if front <= rear then |buf| - rear - 1 else front - rear - 1
    }

    /** The number of bytes that do fit between `rear` and the end of the array. */
    function SlotsToEnd(): (r: nat)
      requires Valid()
      ensures rear + r <= |buf|
    {
      if front <= rear then |buf| - rear else front - rear - 1
    }

    function DirectReadSize(): (r: nat)
      requires Valid()
      ensures r <= |Contents()| && front + r <= |buf| && buf[front..front + r] == Contents()[..r]
      ensures r == |Contents()| || (front + r == |buf| && rear < front)
    {
      if front <= rear then rear - front else |buf| - front
    }

    /** The array after the copying of Write, the first memcpy cut off at `cut` bytes. */
    function Stored(data: seq<Byte>, cut: nat): (s: seq<Byte>)
      requires Valid() && rear + cut <= |buf| && |data| - cut <= |buf|
      ensures |s| == |buf|
    {
      if |data| <= cut then Splice(buf, rear, data)
      else Splice(Splice(buf, rear, data[..cut]), 0, data[cut..])
    }

    function StoreCut(data: seq<Byte>, cut: nat): (r: Ring)
      requires Valid() && rear + cut <= |buf| && |data| - cut <= |buf|
      ensures r.Valid() && r.front == front && |r.buf| == |buf|
    {
      Ring(Stored(data, cut), front, Wrap(rear + |data|, |buf|))
    }

    /** Write as the source has it: cut off at GetDirectWriteSize. */
    function Write(data: seq<Byte>): (r: Ring)
      requires Valid()
      ensures r.Valid() && r.front == front && |r.buf| == |buf|
    {
      if Room() < |data| then this else StoreCut(data, DirectWriteSize())
    }

    /** Write with the cut put where the array really ends. */
    function WriteRepaired(data: seq<Byte>): (r: Ring)
      requires Valid()
      ensures r.Valid() && r.front == front && |r.buf| == |buf|
    {
      if Room() < |data| then this else StoreCut(data, SlotsToEnd())
    }

    /** The write does not reach the branch with two memcpys. */
    predicate Unsplit(data: seq<Byte>)
      requires Valid()
    {
      |data| <= DirectWriteSize()
    }

    function MoveRead(n: nat): (r: Ring)
      requires Valid()
      ensures r.Valid()
    {
      this.(front := Wrap(front + n, |buf|))
    }

    /** recv fills the space after `rear`, then MoveWriteOffset counts it. */
    function Receive(data: seq<Byte>): (r: Ring)
      requires Valid() && |data| <= DirectWriteSize()
      ensures r.Valid()
    {
      Ring(Splice(buf, rear, data), front, Wrap(rear + |data|, |buf|))
    }

    function Reset(): (r: Ring)
      requires 2 <= |buf|
      ensures r.Valid() && r.Contents() == []
    {
      Ring(buf, 0, 0)
    }
  }

  /** An accepted write that is not split appends its data. */
  lemma UnsplitWriteAppends(r: Ring, data: seq<Byte>)
    requires r.Valid() && |data| <= r.Room() && r.Unsplit(data)
    ensures r.Write(data).Contents() == r.Contents() + data
    ensures r.Write(data).rear == r.rear + |data|
  {
    if r.front <= r.rear {
      SpliceExtends(r.buf, r.front, r.rear, data);
    } else {
      UnsplitBehindFront(r, data);
    }
  }

  lemma UnsplitBehindFront(r: Ring, data: seq<Byte>)
    requires r.Valid() && |data| <= r.DirectWriteSize() && r.rear < r.front
    ensures var w := Ring(Splice(r.buf, r.rear, data), r.front, r.rear + |data|);
            w.Contents() == r.Contents() + data
  {
    SpliceExtends(r.buf, 0, r.rear, data);
    SpliceKeepsEnd(r.buf, r.rear, data, r.front);
    var end, w := r.buf[r.front..], Splice(r.buf, r.rear, data);
    assert w[r.front..] == end && w[..r.rear + |data|] == w[0..r.rear + |data|] == r.buf[..r.rear] + data;
    assert end + (r.buf[..r.rear] + data) == (end + r.buf[..r.rear]) + data;
  }

  lemma SpliceExtends(buf: seq<Byte>, from: nat, at: nat, data: seq<Byte>)
    requires from <= at && at + |data| <= |buf|
    ensures Splice(buf, at, data)[from..at + |data|] == buf[from..at] + data
  {
    var w := Splice(buf, at, data);
    SpliceParts(buf, at, data);
    Adjacent(w, from, at, at + |data|);
    assert w[from..at] == w[..at][from..] == buf[from..at];
  }

  lemma SpliceKeepsEnd(buf: seq<Byte>, at: nat, data: seq<Byte>, from: nat)
    requires at + |data| <= from <= |buf|
    ensures Splice(buf, at, data)[from..] == buf[from..]
  {
    var w := Splice(buf, at, data);
    SpliceParts(buf, at, data);
    assert w[from..] == w[at + |data|..][from - at - |data|..];
    assert buf[from..] == buf[at + |data|..][from - at - |data|..];
  }

  /** Only a buffer that has been read from and has not wrapped yet can split a write. */
  lemma SplitWriteShape(r: Ring, data: seq<Byte>)
    requires r.Valid() && |data| <= r.Room() && !r.Unsplit(data)
    ensures 0 < r.front <= r.rear && r.DirectWriteSize() == |r.buf| - 1 - r.rear
    ensures |data| - r.DirectWriteSize() <= r.front
  {
  }

  /** The exact effect of an accepted split write as written: what was already in the last
      slot of the array slips in, the last byte of the data is lost. */
  lemma SplitWriteExactEffect(r: Ring, data: seq<Byte>)
    requires r.Valid() && |data| <= r.Room() && !r.Unsplit(data)
    ensures var d := r.DirectWriteSize();
            r.Write(data).Contents()
            == r.Contents() + data[..d] + [r.buf[|r.buf| - 1]] + data[d..|data| - 1]
  {
    SplitWriteShape(r, data);
    var d := r.DirectWriteSize();
    SplitArray(r.buf, r.front, r.rear, data, d);
    var w := Splice(Splice(r.buf, r.rear, data[..d]), 0, data[d..]);
    assert r.Write(data) == Ring(w, r.front, |data| - d - 1);
  }

  lemma SplitArray(buf: seq<Byte>, front: nat, rear: nat, data: seq<Byte>, d: nat)
    requires front <= rear < |buf| && d == |buf| - 1 - rear && d < |data| <= d + front
    ensures var w := Splice(Splice(buf, rear, data[..d]), 0, data[d..]);
            && w[front..] == buf[front..rear] + data[..d] + [buf[|buf| - 1]]
            && w[..|data| - d - 1] == data[d..|data| - 1]
  {
    var once := Splice(buf, rear, data[..d]);
    SpliceExtends(buf, front, rear, data[..d]);
    SpliceKeepsEnd(buf, rear, data[..d], |buf| - 1);
    Adjacent(once, front, |buf| - 1, |buf|);
    SpliceKeepsEnd(once, 0, data[d..], front);
  }

  /** Exactly when an accepted write as written appends its data. */
  lemma WriteAppendsIff(r: Ring, data: seq<Byte>)
    requires r.Valid() && |data| <= r.Room()
    ensures r.Write(data).Contents() == r.Contents() + data
            <==> r.Unsplit(data)
                 || forall k :: r.DirectWriteSize() <= k < |data| ==> data[k] == r.buf[|r.buf| - 1]
  {
    if r.Unsplit(data) {
      UnsplitWriteAppends(r, data);
    } else {
      SplitWriteExactEffect(r, data);
      AppendIff(r.Contents(), r.Write(data).Contents(), data, r.DirectWriteSize(), r.buf[|r.buf| - 1]);
    }
  }

  lemma AppendIff(old': seq<Byte>, new': seq<Byte>, data: seq<Byte>, d: nat, stale: Byte)
    requires d < |data| && new' == old' + data[..d] + [stale] + data[d..|data| - 1]
    ensures new' == old' + data <==> forall k :: d <= k < |data| ==> data[k] == stale
  {
    var shifted := data[..d] + [stale] + data[d..|data| - 1];
    assert new' == old' + shifted;
    assert (old' + shifted)[|old'|..] == shifted && (old' + data)[|old'|..] == data;
    ShiftedIff(data, d, stale);
  }

  /** Pushing one byte in and one byte out changes nothing only where all bytes are alike. */
  lemma {:induction false} ShiftedIff(data: seq<Byte>, d: nat, stale: Byte)
    requires d < |data|
    ensures data[..d] + [stale] + data[d..|data| - 1] == data
            <==> forall k :: d <= k < |data| ==> data[k] == stale
  {
    var shifted := data[..d] + [stale] + data[d..|data| - 1];
    assert forall k :: d < k < |data| ==> shifted[k] == data[k - 1];
    if shifted == data {
      var i := d;
      while i < |data|
        invariant d <= i <= |data|
        invariant forall k :: d <= k < i ==> data[k] == stale
      {
        assert data[i] == shifted[i];
        i := i + 1;
      }
    }
    if forall k :: d <= k < |data| ==> data[k] == stale {
      assert forall k :: 0 <= k < |data| ==> shifted[k] == data[k];
    }
  }

  /** The repaired write always appends. */
  lemma RepairedWriteAppends(r: Ring, data: seq<Byte>)
    requires r.Valid() && |data| <= r.Room()
    ensures r.WriteRepaired(data).Contents() == r.Contents() + data
  {
    if r.Unsplit(data) {
      UnsplitWriteAppends(r, data);
    } else {
      SplitWriteShape(r, data);
      var cut := r.SlotsToEnd();
      SplitAtTheEnd(r.buf, r.front, r.rear, data);
      assert (r.Contents() + data[..cut]) + data[cut..] == r.Contents() + data;
    }
  }

  lemma SplitAtTheEnd(buf: seq<Byte>, front: nat, rear: nat, data: seq<Byte>)
    requires front <= rear <= |buf| && |buf| - rear <= |data| <= |buf| - rear + front
    ensures var cut := |buf| - rear;
            var w := Splice(Splice(buf, rear, data[..cut]), 0, data[cut..]);
            w[front..] == buf[front..rear] + data[..cut] && w[..|data| - cut] == data[cut..]
  {
    var cut := |buf| - rear;
    var once := Splice(buf, rear, data[..cut]);
    SpliceExtends(buf, front, rear, data[..cut]);
    SpliceKeepsEnd(once, 0, data[cut..], front);
    SpliceExtends(once, 0, 0, data[cut..]);
  }

  /** Reading never returns anything but the oldest bytes. */
  lemma MoveReadDrops(r: Ring, n: nat)
    requires r.Valid() && n <= |r.Contents()|
    ensures r.MoveRead(n).Contents() == r.Contents()[n..]
  {
  }

  lemma ReceiveAppends(r: Ring, data: seq<Byte>)
    requires r.Valid() && |data| <= r.DirectWriteSize()
    ensures r.Receive(data).Contents() == r.Contents() + data
    ensures r.Receive(data).rear == r.rear + |data|
  {
    UnsplitWriteAppends(r, data);
  }
}
