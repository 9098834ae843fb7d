/** Whole runs of the session table. */
module SessionTableRuns {
  import opened SessionIds
  import opened SessionGroups

  datatype Event = Add | Delete(id: int)

  /** The table with its history: `issued[m]` is the index handed out by the m-th AddSession,
      `occupant[k]` the number of the AddSession that last built a session in slot k (-1
      before the first), `live` the slots in use with the IDs their users hold. */
  datatype History = History(table: Table, issued: seq<int>, occupant: seq<int>, live: map<int, int>)

  ghost predicate Start(h: History) {
    && 0 < |h.table.ids| < 65535 && h.table.nextNumber == 0
    && |h.table.pool| == |h.table.ids| + 1
    && (forall k :: 0 <= k < |h.table.pool| ==> h.table.pool[k] == |h.table.ids| - k)
    && h.issued == [] && |h.occupant| == |h.table.ids|
    && (forall k :: 0 <= k < |h.occupant| ==> h.occupant[k] == -1)
    && h.live == map[]
  }

  ghost predicate Shape(h: History) {
    && h.table.Valid() && |h.occupant| == |h.table.ids| && |h.issued| == h.table.nextNumber
  }

  function Step(h: History, e: Event): (h': History)
    requires Shape(h)
    ensures Shape(h')
  {
    match e
    case Add =>
      var (t, r) := h.table.Add();
      var index := h.table.AllocIndex();
      if r.OutOfRange? then h.(table := t, issued := h.issued + [index])
      else History(t, h.issued + [index], h.occupant[index := h.table.nextNumber],
                   h.live[index := r.value])
    case Delete(id) =>
      var (t, r) := h.table.Delete(id);
      if r == Done(true) then h.(table := t, live := h.live - {GetIndex(id)})
      else h.(table := t)
  }

  /** The caller's side of the bargain: a session is added while fewer than the maximum are
      live, and an ID is deleted only while it is live. */
  ghost predicate Legal(h: History, e: Event) {
    match e
    case Add => |h.live| < |h.table.ids|
    case Delete(id) => GetIndex(id) in h.live && h.live[GetIndex(id)] == id
  }

  ghost predicate LegalRun(h: History, es: seq<Event>)
    requires Shape(h)
    decreases |es|
  {
    es == [] || (Legal(h, es[0]) && LegalRun(Step(h, es[0]), es[1..]))
  }

  function Run(h: History, es: seq<Event>): (h': History)
    requires Shape(h)
    ensures Shape(h')
    decreases |es|
  {
    if es == [] then h else Run(Step(h, es[0]), es[1..])
  }

  ghost predicate NoDuplicates(s: seq<int>) {
    forall i, j :: 0 <= i < j < |s| ==> s[i] != s[j]
  }

  /** Free and live indices together are 0..max, each once, with the surplus index max lying
      at the bottom of the stack. */
  ghost predicate Partition(h: History)
    requires Shape(h)
  {
    var max := |h.table.ids|;
    && NoDuplicates(h.table.pool)
    && (forall x :: 0 <= x <= max <==> x in h.table.pool || x in h.live)
    && (forall x :: x in h.table.pool ==> x !in h.live)
    && (forall x :: x in h.live ==> 0 <= x < max)
    && |h.table.pool| + |h.live| == max + 1
    && h.table.pool != [] && h.table.pool[0] == max
  }

  /** Every live slot still holds the ID its user was given. */
  ghost predicate LiveIdsResolve(h: History)
    requires Shape(h)
  {
    forall x :: x in h.live ==>
      0 <= x < |h.table.ids| && h.table.ids[x] == h.live[x] && GetIndex(h.live[x]) == x
  }

  lemma StartIsPartitioned(h: History)
    requires Start(h)
    ensures Shape(h) && Partition(h) && LiveIdsResolve(h)
  {
    var max := |h.table.ids|;
    forall x | 0 <= x <= max ensures x in h.table.pool {
      assert h.table.pool[max - x] == x;
    }
  }

  /** With the surplus index at the bottom, an issued index is inside the vector exactly when
      the table is not full. */
  lemma AddIsInRangeIff(h: History)
    requires Shape(h) && Partition(h)
    ensures h.table.Add().1.Done? <==> |h.live| < |h.table.ids|
  {
    var pool := h.table.pool;
    assert pool[|pool| - 1] in pool;
  }

  lemma AddKeepsPartition(h: History)
    requires Shape(h) && Partition(h) && Legal(h, Add)
    ensures Partition(Step(h, Add)) && h.table.AllocIndex() !in h.live
  {
    AddIsInRangeIff(h);
    var h' := Step(h, Add);
    var pool, index := h.table.pool, h.table.AllocIndex();
    assert pool == h'.table.pool + [index];
    assert index in pool;
    assert h'.live.Keys == h.live.Keys + {index};
    assert index !in h'.table.pool;
    forall x ensures x in pool <==> x in h'.table.pool || x == index {
    }
  }

  lemma AddKeepsIds(h: History)
    requires Shape(h) && Partition(h) && LiveIdsResolve(h) && Legal(h, Add)
    ensures LiveIdsResolve(Step(h, Add))
  {
    AddIsInRangeIff(h);
    UnpackInvertsPack(h.table.nextNumber, h.table.AllocIndex());
  }

  lemma DeleteKeepsPartition(h: History, id: int)
    requires Shape(h) && Partition(h) && LiveIdsResolve(h) && Legal(h, Delete(id))
    ensures Partition(Step(h, Delete(id))) && LiveIdsResolve(Step(h, Delete(id)))
    ensures h.table.Delete(id).1 == Done(true)
  {
    var h', index := Step(h, Delete(id)), GetIndex(id);
    assert h'.table.pool == h.table.pool + [index];
    assert h'.live.Keys == h.live.Keys - {index};
    assert |h'.live| == |h'.live.Keys| == |h.live| - 1;
  }

  /** Over every run in which no ID is deleted twice and the table is never overfilled, free
      and live indices stay a partition of 0..max, and every live ID resolves to its slot. */
  lemma {:induction false} PartitionHolds(h: History, es: seq<Event>)
    requires Shape(h) && Partition(h) && LiveIdsResolve(h) && LegalRun(h, es)
    ensures Partition(Run(h, es)) && LiveIdsResolve(Run(h, es))
    decreases |es|
  {
    if es != [] {
      match es[0] {
        case Add =>
          AddKeepsPartition(h);
          AddKeepsIds(h);
        case Delete(id) => DeleteKeepsPartition(h, id);
      }
      PartitionHolds(Step(h, es[0]), es[1..]);
    }
  }

  /** The slot is not invalidated by a delete, so deleting keeps the partition exactly when
      the ID is live, its index is outside the vector, or its slot holds another ID. */
  lemma DeleteKeepsPartitionIff(h: History, id: int)
    requires Shape(h) && Partition(h) && LiveIdsResolve(h)
    ensures Partition(Step(h, Delete(id)))
            <==> Legal(h, Delete(id)) || GetIndex(id) >= |h.table.ids| || h.table.ids[GetIndex(id)] != id
  {
    if Legal(h, Delete(id)) {
      DeleteKeepsPartition(h, id);
    } else if h.table.Delete(id).1 == Done(true) {
      var h', index := Step(h, Delete(id)), GetIndex(id);
      assert h.table.ids[index] == id;
      assert index !in h.live;
      assert index in h.table.pool;
      var k :| 0 <= k < |h.table.pool| && h.table.pool[k] == index;
      var pool' := h'.table.pool;
      assert pool'[k] == pool'[|pool'| - 1] && k < |pool'| - 1;
    }
  }

  /** A new table for two sessions. */
  function TwoSlots(garbage: int): (h: History)
    ensures Start(h) && Shape(h)
  {
    History(Table([2, 1, 0], [garbage, garbage], 0), [], [-1, -1], map[])
  }

  /** Two deletes of one ID: the same index is free twice, and the next two sessions share
      a slot. */
  lemma DoubleDeleteSharesASlot(garbage: int)
    ensures var h := TwoSlots(garbage);
            && Start(h)
            && Run(h, [Add, Delete(0), Delete(0), Add, Add]).issued == [0, 0, 0]
  {
    var h := TwoSlots(garbage);
    FirstAdd(garbage);
    RunUnfolds(h, Add, [Delete(0), Delete(0), Add, Add]);
    SharedAfterTwoDeletes(Step(h, Add));
  }

  lemma SharedAfterTwoDeletes(h: History)
    requires Shape(h) && h.table.pool == [2, 1] && |h.table.ids| == 2 && h.table.ids[0] == 0
    requires h.live == map[0 := 0]
    ensures Run(h, [Delete(0), Delete(0), Add, Add]).issued == h.issued + [0, 0]
  {
    DeleteTwice(h);
    var h' := h.(table := h.table.(pool := [2, 1, 0, 0]), live := map[]);
    RunUnfolds(h, Delete(0), [Delete(0), Add, Add]);
    RunUnfolds(Step(h, Delete(0)), Delete(0), [Add, Add]);
    assert Run(h, [Delete(0), Delete(0), Add, Add]) == Run(h', [Add, Add]);
    TwoMore(h');
  }

  lemma FirstAdd(garbage: int)
    ensures Step(TwoSlots(garbage), Add)
            == History(Table([2, 1], [0, garbage], 1), [0], [0, -1], map[0 := 0])
  {
    assert [2, 1, 0][..2] == [2, 1] && Pack(0, 0) == 0;
  }

  lemma DeleteTwice(h: History)
    requires Shape(h) && h.table.pool == [2, 1] && |h.table.ids| == 2 && h.table.ids[0] == 0
    requires h.live == map[0 := 0]
    ensures Step(Step(h, Delete(0)), Delete(0)) == h.(table := h.table.(pool := [2, 1, 0, 0]), live := map[])
  {
    assert GetIndex(0) == 0;
  }

  lemma RunUnfolds(h: History, e: Event, es: seq<Event>)
    requires Shape(h)
    ensures Run(h, [e] + es) == Run(Step(h, e), es)
  {
    assert ([e] + es)[1..] == es;
  }

  lemma TwoMore(h: History)
    requires Shape(h) && |h.table.ids| == 2 && h.table.pool == [2, 1, 0, 0]
    ensures Run(h, [Add, Add]).issued == h.issued + [0, 0]
  {
    RunUnfolds(h, Add, [Add]);
    RunUnfolds(Step(h, Add), Add, []);
    assert h.table.pool[..3] == [2, 1, 0];
  }

  /** What every run, legal or not, keeps about the IDs lying in the slots. */
  ghost predicate Stamped(h: History)
    requires Shape(h)
  {
    && (forall k :: 0 <= k < |h.occupant| && h.occupant[k] >= 0 ==>
          h.occupant[k] < h.table.nextNumber && h.table.ids[k] == Pack(h.occupant[k], k))
    && (forall m :: 0 <= m < |h.issued| && 0 <= h.issued[m] < |h.occupant| ==>
          m <= h.occupant[h.issued[m]])
  }

  lemma {:induction false} StampedHolds(h: History, es: seq<Event>)
    requires Shape(h) && Stamped(h)
    ensures Stamped(Run(h, es)) && |Run(h, es).table.ids| == |h.table.ids|
    decreases |es|
  {
    if es != [] {
      StampedHolds(Step(h, es[0]), es[1..]);
    }
  }

  /** In every run whatever: the ID issued by the m-th AddSession in slot k is answered with
      that slot exactly when the n-th AddSession, which built what is there now, has n - m a
      multiple of 65536. */
  lemma StaleIdResolvesIff(h: History, es: seq<Event>, m: nat)
    requires Start(h)
    requires m < |Run(h, es).issued| && 0 <= Run(h, es).issued[m] < |h.table.ids|
    ensures var end := Run(h, es);
            var k := end.issued[m];
            && |end.occupant| == |h.table.ids| && m <= end.occupant[k]
            && (end.table.Get(Pack(m, k)) == Done(k) <==> (end.occupant[k] - m) % GENERATIONS == 0)
            && (end.table.Get(Pack(m, k)) == Done(-1) <==> (end.occupant[k] - m) % GENERATIONS != 0)
  {
    StartIsStamped(h);
    StampedHolds(h, es);
    var end := Run(h, es);
    assert Shape(end) && |end.table.ids| == |h.table.ids|;
    StampedAnswer(end, m);
  }

  lemma StartIsStamped(h: History)
    requires Start(h)
    ensures Shape(h) && Stamped(h)
  {
  }

  lemma StampedAnswer(h: History, m: nat)
    requires Shape(h) && Stamped(h) && |h.table.ids| < GENERATIONS
    requires m < |h.issued| && 0 <= h.issued[m] < |h.table.ids|
    ensures var k := h.issued[m];
            && m <= h.occupant[k]
            && (h.table.Get(Pack(m, k)) == Done(k) <==> (h.occupant[k] - m) % GENERATIONS == 0)
            && (h.table.Get(Pack(m, k)) == Done(-1) <==> (h.occupant[k] - m) % GENERATIONS != 0)
  {
    StaleAnswer(h.table, m, h.occupant[h.issued[m]], h.issued[m]);
  }

  lemma StaleAnswer(t: Table, m: nat, n: nat, k: int)
    requires 0 <= k < |t.ids| < GENERATIONS && t.ids[k] == Pack(n, k) && m <= n
    ensures t.Get(Pack(m, k)) == if (n - m) % GENERATIONS == 0 then Done(k) else Done(-1)
  {
    UnpackInvertsPack(m, k);
    PackIsInjectiveModuloGenerations(m, k, n, k);
    SameGenerationIff(m, n);
  }
}
