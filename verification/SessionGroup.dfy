/** The table of sessions: a LIFO pool of free indices, and a vector of slots of which only
    the session ID matters here. */
module SessionGroups {
  import opened SessionIds

  const INVALID_INDEX := -1

  /** An access to the vector of slots: an index outside it is undefined behaviour. */
  datatype Access<+T> = Done(value: T) | OutOfRange(index: int)

  /** The pool is a stack whose top is its last element. */
  datatype Table = Table(pool: seq<int>, ids: seq<int>, nextNumber: nat) {
    ghost predicate Valid() {
      |ids| < 65535 && forall k :: 0 <= k < |pool| ==> 0 <= pool[k] <= |ids|
    }

    function AllocIndex(): int {
      if pool == [] then INVALID_INDEX else pool[|pool| - 1]
    }

    function Add(): (t: (Table, Access<int>))
      requires Valid()
      ensures t.0.Valid()
    {
      var index := AllocIndex();
      var popped := if pool == [] then pool else pool[..|pool| - 1];
      if 0 <= index < |ids| then
        var id := Pack(nextNumber, index);
        (Table(popped, ids[index := id], nextNumber + 1), Done(id))
      else
        (Table(popped, ids, nextNumber + 1), OutOfRange(index))
    }

    function Delete(id: int): (t: (Table, Access<bool>))
      requires Valid()
      ensures t.0.Valid()
    {
      var index := GetIndex(id);
      if index >= |ids| then (this, OutOfRange(index))
      else if ids[index] != id then (this, Done(false))
      else (this.(pool := pool + [index]), Done(true))
    }

    /** The slot GetSession answers with, or -1 for null. */
    function Get(id: int): Access<int> {
      var index: int := GetIndex(id);
      if index >= |ids| then OutOfRange(index)
      else if ids[index] != id then Done(-1)
      else Done(index)
    }
  }

  /** An add on an empty pool finds no index of the table, and overwrites no slot. */
  lemma EmptyPoolIsRefused(t: Table)
    requires t.Valid() && t.pool == []
    ensures t.AllocIndex() == -1 && t.Add().1 == OutOfRange(-1)
    ensures t.Add().0.ids == t.ids && t.Add().0.pool == []
  {
  }

  class SessionGroup {
    var pool: seq<int>
    const slots: array<int>
    var nextNumber: nat

    ghost predicate Valid()
      reads this, slots
    {
      View().Valid()
    }

    ghost function View(): Table
      reads this, slots
    {
      Table(pool, slots[..], nextNumber)
    }

    constructor (maxSessions: nat, nextNumber: nat)
      requires 0 < maxSessions < 65535
      ensures Valid() && fresh(slots) && slots.Length == maxSessions && this.nextNumber == nextNumber
      ensures |pool| == maxSessions + 1
      ensures forall k :: 0 <= k <= maxSessions ==> pool[k] == maxSessions - k
    {
      slots := new int[maxSessions];
      this.nextNumber := nextNumber;
      pool := [];
      new;
      var index: int := maxSessions;
      while index >= 0
        invariant -1 <= index <= maxSessions
        invariant |pool| == maxSessions - index && this.nextNumber == nextNumber
        invariant forall k :: 0 <= k < |pool| ==> pool[k] == maxSessions - k
      {
        pool := pool + [index];
        index := index - 1;
      }
    }

    method AllocSession() returns (index: int)
      modifies this`pool
      ensures index == old(View()).AllocIndex()
      ensures pool == if old(pool) == [] then [] else old(pool)[..|old(pool)| - 1]
    {
      if pool == [] {
        return INVALID_INDEX;
      }
      index := pool[|pool| - 1];
      pool := pool[..|pool| - 1];
    }

    method FreeSession(index: int)
      modifies this`pool
      ensures pool == old(pool) + [index]
    {
      pool := pool + [index];
    }

    method AddSession() returns (r: Access<int>)
      requires Valid()
      modifies this`pool, this`nextNumber, slots
      ensures Valid() && (View(), r) == old(View()).Add()
    {
      var index := AllocSession();
      var number := nextNumber;
      nextNumber := nextNumber + 1;
      if !(0 <= index < slots.Length) {
        return OutOfRange(index);
      }
      var id := Pack(number, index);
      slots[index] := id;
      return Done(id);
    }

    method DeleteSession(id: int) returns (r: Access<bool>)
      requires Valid()
      modifies this`pool
      ensures Valid() && (View(), r) == old(View()).Delete(id)
    {
      var index := GetIndex(id);
      if index >= slots.Length {
        return OutOfRange(index);
      }
      if slots[index] != id {
        return Done(false);
      }
      FreeSession(index);
      return Done(true);
    }

    method GetSession(id: int) returns (r: Access<int>)
      requires Valid()
      ensures r == View().Get(id)
    {
      var index: int := GetIndex(id);
      if index >= slots.Length {
        return OutOfRange(index);
      }
      if slots[index] != id {
        return Done(-1);
      }
      return Done(index);
    }
  }
}
