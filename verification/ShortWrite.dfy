/** What is left to send after writev took only part of a batch of packets. */
module ShortWrite {
  import opened Bytes

  /** The conversion to size_t that the comparison with iov_len makes of an Int32. */
  function AsSize(result: int): int {
    if result < 0 then result + 0x1_0000_0000_0000_0000 else result
  }

  /** The number of the first packet longer than `bytes`, or the number of packets. */
  function FirstLonger(packets: seq<seq<Byte>>, bytes: int): (i: nat)
    ensures i <= |packets| && (i < |packets| ==> bytes < |packets[i]|)
    ensures forall k :: 0 <= k < i ==> |packets[k]| <= bytes
  {
    if packets == [] || bytes < |packets[0]| then 0 else 1 + FirstLonger(packets[1..], bytes)
  }

  /** The packets from number `index` on, the first one without its first `offset` bytes. */
  function From(packets: seq<seq<Byte>>, index: nat, offset: nat): (tail: seq<seq<Byte>>)
    requires index <= |packets| && (index < |packets| ==> offset <= |packets[index]|)
  {
    if index == |packets| then [] else [packets[index][offset..]] + packets[index + 1..]
  }

  /** What the written loop saves: it compares every packet with the whole result, and starts
      at iov_len - result. */
  function SavedAsWritten(packets: seq<seq<Byte>>, result: int): seq<seq<Byte>>
    requires -1 <= result
  {
    var i := FirstLonger(packets, AsSize(result));
    From(packets, i, if i < |packets| && result >= 0 then |packets[i]| - result else 0)
  }

  lemma {:induction false} FromIsSuffix(packets: seq<seq<Byte>>, index: nat, offset: nat)
    requires index <= |packets| && (index < |packets| ==> offset <= |packets[index]|)
    ensures var before := |Concat(packets[..index])|;
            if index < |packets| then
              before + offset <= |Concat(packets)|
              && Concat(From(packets, index, offset)) == Concat(packets)[before + offset..]
            else Concat(From(packets, index, offset)) == [] && before == |Concat(packets)|
  {
    var before := Concat(packets[..index]);
    assert packets == packets[..index] + packets[index..];
    ConcatAppend(packets[..index], packets[index..]);
    if index < |packets| {
      var p, later := packets[index], packets[index + 1..];
      assert packets[index..] == [p] + later;
      ConcatAppend([p], later);
      ConcatAppend([p[offset..]], later);
      assert Concat([p]) == p && Concat([p[offset..]]) == p[offset..];
      assert Concat(packets) == before + (p + Concat(later));
      assert Concat(packets)[|before| + offset..] == p[offset..] + Concat(later);
    } else {
      assert packets[..index] == packets;
    }
  }

  /** The bytes of the batch up to and including packet number `i`. */
  function BytesThrough(packets: seq<seq<Byte>>, i: nat): nat
    requires i < |packets|
  {
    |Concat(packets[..i + 1])|
  }

  lemma ThroughIsBeforePlusLength(packets: seq<seq<Byte>>, i: nat)
    requires i < |packets|
    ensures BytesThrough(packets, i) == |Concat(packets[..i])| + |packets[i]|
  {
    assert packets[..i + 1] == packets[..i] + [packets[i]];
    ConcatSnoc(packets[..i], packets[i]);
  }

  lemma LastOfPacketIsSuffix(packets: seq<seq<Byte>>, i: nat, n: nat)
    requires i < |packets| && n <= |packets[i]|
    ensures n <= BytesThrough(packets, i) <= |Concat(packets)| + n
    ensures BytesThrough(packets, i) - n <= |Concat(packets)|
    ensures Concat(From(packets, i, |packets[i]| - n)) == Concat(packets)[BytesThrough(packets, i) - n..]
  {
    ThroughIsBeforePlusLength(packets, i);
    FromIsSuffix(packets, i, |packets[i]| - n);
  }

  /** The exact effect of the written loop: it saves some suffix of the batch, from a place
      that is generally not `result`. */
  lemma SavedAsWrittenIsSuffix(packets: seq<seq<Byte>>, result: nat)
    ensures var i := FirstLonger(packets, result);
            if i < |packets| then
              result <= BytesThrough(packets, i) <= |Concat(packets)| + result
              && BytesThrough(packets, i) - result <= |Concat(packets)|
              && Concat(SavedAsWritten(packets, result))
                 == Concat(packets)[BytesThrough(packets, i) - result..]
            else SavedAsWritten(packets, result) == []
  {
    var i := FirstLonger(packets, result);
    if i < |packets| {
      LastOfPacketIsSuffix(packets, i, result);
      assert SavedAsWritten(packets, result) == From(packets, i, |packets[i]| - result);
    }
  }

  /** The written loop saves the right bytes exactly when some packet is longer than the
      result and the bytes up to its end are twice the result. */
  lemma SavedAsWrittenIsTailIff(packets: seq<seq<Byte>>, result: nat)
    requires result < |Concat(packets)|
    ensures Concat(SavedAsWritten(packets, result)) == Concat(packets)[result..]
            <==> var i := FirstLonger(packets, result);
                 i < |packets| && BytesThrough(packets, i) == 2 * result
  {
    SavedAsWrittenIsSuffix(packets, result);
  }

  /** A witness: one byte of a three-byte packet is written; the last byte alone is saved. */
  lemma WrittenTailDiffers()
    ensures Concat(SavedAsWritten([[1, 2, 3]], 1)) != Concat([[1, 2, 3]])[1..]
  {
    var packets: seq<seq<Byte>> := [[1, 2, 3]];
    assert packets[..1] == packets && packets[1..] == [];
    assert FirstLonger(packets, 1) == 0 && Concat(packets) == [1, 2, 3];
    SavedAsWrittenIsTailIff(packets, 1);
  }

  /** After a failed writev the result is -1, which no iov_len exceeds: nothing is saved. */
  lemma FailedWriteSavesNothing(packets: seq<seq<Byte>>)
    requires forall k :: 0 <= k < |packets| ==> |packets[k]| <= 0xFFFF_FFFF_FFFF_FFFF
    ensures SavedAsWritten(packets, -1) == []
  {
  }

  /** The repaired loop takes the length of every skipped packet off the result. */
  method SkipRepaired(packets: seq<seq<Byte>>, result: nat) returns (saved: seq<seq<Byte>>)
    requires result <= |Concat(packets)|
    ensures Concat(saved) == Concat(packets)[result..]
  {
    var index, left: int := 0, result;
    assert packets[..0] == [];
    while index < |packets| && |packets[index]| <= left
      invariant 0 <= index <= |packets| && 0 <= left
      invariant |Concat(packets[..index])| + left == result
    {
      ThroughIsBeforePlusLength(packets, index);
      left := left - |packets[index]|;
      index := index + 1;
    }
    FromIsSuffix(packets, index, left);
    if index == |packets| {
      return [];
    }
    saved := [packets[index][left..]] + packets[index + 1..];
  }
}
