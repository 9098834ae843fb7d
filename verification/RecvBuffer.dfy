/** The buffer object: offsets and array updated in place, over an array of any size
    from 2 (the source fixes it at 1024 * 1024). */
module RecvBuffers {
  import opened Bytes
  import opened ByteRing
  import opened RingRuns

  /** memcpy between two different arrays. */
  method MemCopy(dst: array<Byte>, at: nat, src: array<Byte>, from: nat, size: nat)
    requires dst != src && at + size <= dst.Length && from + size <= src.Length
    modifies dst
    ensures dst[..] == Splice(old(dst[..]), at, old(src[..])[from..from + size])
    ensures src[..] == old(src[..])
  {
    forall i | 0 <= i < size {
      dst[at + i] := src[from + i];
    }
    SliceOf(src, from, from + size);
    assert dst[..] == old(dst[..at]) + src[from..from + size] + old(dst[at + size..]);
  }

  lemma SliceOf(a: array<Byte>, from: nat, to: nat)
    requires from <= to <= a.Length
    ensures a[from..to] == a[..][from..to]
  {
  }

  lemma SpliceEither(dst: seq<Byte>, out: seq<Byte>, buf: seq<Byte>, front: nat, size: nat, direct: nat)
    requires front + direct <= |buf| && size <= |dst| && size - direct <= |buf|
    requires size <= direct ==> out == Splice(dst, 0, buf[front..front + size])
    requires size > direct ==>
               out == Splice(Splice(dst, 0, buf[front..front + direct]), direct, buf[0..size - direct])
    ensures out == Splice(dst, 0, CopiedOut(buf, front, size, direct))
  {
    if size > direct {
      SpliceTwice(dst, 0, buf[front..front + direct], buf[0..size - direct]);
    }
  }

  class RecvBuffer {
    const data: array<Byte>
    var front: int
    var rear: int

    ghost predicate Valid()
      reads this
    {
      2 <= data.Length && 0 <= front < data.Length && 0 <= rear < data.Length
    }

    ghost function View(): (r: Ring)
      requires Valid()
      reads this, data
      ensures r.Valid()
    {
      Ring(data[..], front, rear)
    }

    ghost function Contents(): seq<Byte>
      requires Valid()
      reads this, data
    {
      View().Contents()
    }

    /** The server's constructor leaves the offsets as it finds them. */
    constructor Uninitialised(size: nat)
      requires 2 <= size
      ensures data.Length == size && fresh(data)
    {
      data := new Byte[size];
      front := *;
      rear := *;
    }

    /** The stress client's constructor resets. */
    constructor (size: nat)
      requires 2 <= size
      ensures Valid() && data.Length == size && fresh(data) && View() == Ring(data[..], 0, 0)
    {
      data := new Byte[size];
      front, rear := 0, 0;
    }

    method Reset()
      requires 2 <= data.Length
      modifies this
      ensures Valid() && View() == Ring(data[..], 0, 0)
    {
      front, rear := 0, 0;
    }

    function GetDirectWriteSize(): (r: int)
      requires Valid()
      reads this, data
      ensures r == View().DirectWriteSize()
    {
      if front <= rear then data.Length - rear - 1 else front - rear - 1
    }

    function GetDirectReadSize(): (r: int)
      requires Valid()
      reads this, data
      ensures 0 <= r <= |Contents()| && front + r <= data.Length
      ensures data[front..front + r] == Contents()[..r]
      ensures r == |Contents()| <==> front <= rear || rear == 0
    {
      if front <= rear then rear - front else data.Length - front
    }

    function GetUsedSize(): (r: int)
      requires Valid()
      reads this, data
      ensures r == |Contents()|
    {
      if front <= rear then rear - front else data.Length - front + rear
    }

    function GetRemainSize(): (r: int)
      requires Valid()
      reads this, data
      ensures 0 <= r && r + |Contents()| == data.Length - 1
    {
      data.Length - 1 - GetUsedSize()
    }

    /** The two branches of Write: one memcpy, or a second one to the start of the array. */
    method CopyIn(input: array<Byte>, size: nat, cut: nat)
      requires input != data && size <= input.Length
      requires 0 <= rear && rear + cut <= data.Length && size - cut <= data.Length
      modifies data
      ensures size <= cut ==> data[..] == Splice(old(data[..]), rear, old(input[..])[0..size])
      ensures size > cut ==>
                data[..] == Splice(Splice(old(data[..]), rear, old(input[..])[0..cut]), 0, old(input[..])[cut..size])
      ensures input[..] == old(input[..])
    {
      if size <= cut {
        MemCopy(data, rear, input, 0, size);
      } else {
        MemCopy(data, rear, input, 0, cut);
        MemCopy(data, 0, input, cut, size - cut);
      }
    }

    /** Write after its check for room. */
    method Store(input: array<Byte>, size: nat, cut: nat)
      requires Valid() && input != data && size <= input.Length
      requires rear + cut <= data.Length && size - cut <= data.Length
      modifies this`rear, data
      ensures Valid() && View() == old(View()).StoreCut(input[..size], cut)
    {
      ghost var whole := input[..size];
      CopyIn(input, size, cut);
      SliceOf(input, 0, size);
      assert size > cut ==> input[..][0..cut] == whole[..cut] && input[..][cut..size] == whole[cut..];
      assert data[..] == old(View()).Stored(whole, cut);
      WrapIsRemainder(rear + size, data.Length);
      rear := rear + size;
      rear := rear % data.Length;
    }

    /** As written. */
    method Write(input: array<Byte>, size: nat) returns (accepted: bool)
      requires Valid() && input != data && size <= input.Length
      modifies this`rear, data
      ensures Valid() && View() == old(View()).Write(input[..size])
      ensures accepted <==> |old(Contents())| + size < data.Length
    {
      var remain := GetRemainSize();
      if remain < size {
        return false;
      }
      Store(input, size, GetDirectWriteSize());
      return true;
    }

    /** The repair: the first memcpy runs to the real end of the array. */
    method WriteRepaired(input: array<Byte>, size: nat) returns (accepted: bool)
      requires Valid() && input != data && size <= input.Length
      modifies this`rear, data
      ensures Valid()
      ensures accepted <==> |old(Contents())| + size < data.Length
      ensures Contents() == old(Contents()) + if accepted then input[..size] else []
    {
      var remain := GetRemainSize();
      if remain < size {
        return false;
      }
      RepairedWriteAppends(View(), input[..size]);
      Store(input, size, if front <= rear then data.Length - rear else front - rear - 1);
      assert View() == old(View()).WriteRepaired(input[..size]);
      return true;
    }

    /** The two branches of Peek: one memcpy, or a second one from the start of the array. */
    method CopyOut(output: array<Byte>, size: nat, direct: nat)
      requires output != data && size <= output.Length
      requires 0 <= front && front + direct <= data.Length && size - direct <= data.Length
      modifies output
      ensures size <= direct ==> output[..] == Splice(old(output[..]), 0, old(data[..])[front..front + size])
      ensures size > direct ==>
                output[..] == Splice(Splice(old(output[..]), 0, old(data[..])[front..front + direct]), direct,
                                     old(data[..])[0..size - direct])
      ensures data[..] == old(data[..])
    {
      if size <= direct {
        MemCopy(output, 0, data, front, size);
      } else {
        MemCopy(output, 0, data, front, direct);
        MemCopy(output, direct, data, 0, size - direct);
      }
    }

    method Peek(output: array<Byte>, size: nat) returns (copied: nat)
      requires Valid() && output != data && size <= output.Length
      modifies output
      ensures copied == if |Contents()| <= size then |Contents()| else size
      ensures output[..] == Splice(old(output[..]), 0, Contents()[..copied])
    {
      var used := GetUsedSize();
      copied := if used <= size then used else size;
      var direct := GetDirectReadSize();
      ghost var before := output[..];
      CopyOut(output, copied, direct);
      SpliceEither(before, output[..], data[..], front, copied, direct);
      CopiedOutIsOldest(View(), copied);
    }

    method Read(output: array<Byte>, size: nat) returns (copied: nat)
      requires Valid() && output != data && size <= output.Length
      modifies this`front, output
      ensures Valid() && View() == old(View()).MoveRead(copied)
      ensures copied == if |old(Contents())| <= size then |old(Contents())| else size
      ensures output[..] == Splice(old(output[..]), 0, old(Contents())[..copied])
      ensures Contents() == old(Contents())[copied..]
    {
      copied := Peek(output, size);
      MoveReadDrops(View(), copied);
      WrapIsRemainder(front + copied, data.Length);
      front := front + copied;
      front := front % data.Length;
    }

    method MoveReadOffset(moveSize: nat)
      requires Valid()
      modifies this`front
      ensures Valid() && View() == old(View()).MoveRead(moveSize)
      ensures moveSize <= |old(Contents())| ==> Contents() == old(Contents())[moveSize..]
    {
      if moveSize <= GetUsedSize() {
        MoveReadDrops(View(), moveSize);
      }
      WrapIsRemainder(front + moveSize, data.Length);
      front := front + moveSize;
      front := front % data.Length;
    }

    /** recv(fd, GetRearBufferPtr(), GetDirectWriteSize()) put `received` after the rear offset. */
    method FillRear(received: seq<Byte>)
      requires 0 <= rear && rear + |received| <= data.Length
      modifies data
      ensures data[..] == Splice(old(data[..]), rear, received)
    {
      forall i | 0 <= i < |received| {
        data[rear + i] := received[i];
      }
      assert data[..] == old(data[..rear]) + received + old(data[rear + |received|..]);
    }

    method MoveWriteOffset(moveSize: nat)
      requires Valid()
      modifies this`rear
      ensures Valid() && View() == old(View()).(rear := Wrap(old(rear) + moveSize, data.Length))
    {
      WrapIsRemainder(rear + moveSize, data.Length);
      rear := rear + moveSize;
      rear := rear % data.Length;
    }

    /** One recv: the bytes arrive after the rear offset, then MoveWriteOffset counts them. */
    method Accept(received: seq<Byte>)
      requires Valid() && |received| <= GetDirectWriteSize()
      modifies this`rear, data
      ensures Valid() && View() == old(View()).Receive(received)
    {
      FillRear(received);
      MoveWriteOffset(|received|);
    }
  }
}
