/** One thread of the worker pool that nobody interrupts: its steps have the effects of the
    methods of the pool object. */
module PoolAlone {
  import opened WorkerPool

  /** Exactly these labels lead from s to the end. */
  ghost predicate Leads(s: State, ls: seq<Label>, end: State) {
    LegalRun(s, ls) && Run(s, ls) == end
  }

  lemma Here(s: State)
    ensures Leads(s, [], s)
  {
  }

  lemma First(s: State, l: Label, ls: seq<Label>, end: State)
    requires Enabled(s, l) && Leads(Next(s, l), ls, end)
    ensures Leads(s, [l] + ls, end)
  {
    assert ([l] + ls)[1..] == ls;
  }

  function Times(l: Label, n: nat): seq<Label> {
    if n == 0 then [] else [l] + Times(l, n - 1)
  }

  lemma OneMoreTime(s: State, l: Label, n: nat, end: State)
    requires n > 0 && Enabled(s, l) && Leads(Next(s, l), Times(l, n - 1), end)
    ensures Leads(s, Times(l, n), end)
  {
    First(s, l, Times(l, n - 1), end);
  }

  predicate Sound(s: State) {
    !s.fault && |s.shared.counters| == |s.workers|
  }

  /** WakeOneThread, as the object does it. */
  function Woken(shared: Shared): Shared {
    if shared.idle == [] then shared else shared.PopIdle().Signal(shared.TopIdle())
  }

  /** How many steps a thread in AddJob takes after its push. */
  function WakeSteps(s: State): nat {
    if s.shared.idle == [] then if s.version == Atomic then 0 else 1
    else if s.version == Atomic then 1
    else 3
  }

  lemma WakesAlone(s: State, a: nat, end: State)
    requires a < |s.adders| && Sound(s) && s.adders[a].Wake?
    requires end == s.(shared := s.shared.Signal(s.adders[a].w)).Adder(a, Away)
    ensures Leads(s, Times(Adds(a), 1), end)
  {
    Here(end);
    OneMoreTime(s, Adds(a), 1, end);
  }

  lemma SeesAlone(s: State, a: nat, end: State)
    requires a < |s.adders| && Sound(s) && s.version != Atomic && s.adders[a] == SeeStack
    requires end == s.(shared := Woken(s.shared)).Adder(a, Away)
    ensures Leads(s, Times(Adds(a), WakeSteps(s)), end)
  {
    if s.shared.idle == [] {
      Here(end);
      OneMoreTime(s, Adds(a), 1, end);
    } else {
      var s1 := s.Adder(a, PopStack);
      var s2 := s.(shared := s.shared.PopIdle()).Adder(a, Wake(s.shared.TopIdle()));
      assert s2.adders[a := Away] == s.adders[a := Away];
      WakesAlone(s2, a, end);
      assert s1.adders[a := Wake(s.shared.TopIdle())] == s2.adders;
      assert Next(s1, Adds(a)) == s2;
      OneMoreTime(s1, Adds(a), 2, end);
      assert Next(s, Adds(a)) == s1;
      OneMoreTime(s, Adds(a), 3, end);
    }
  }

  /** Every version: AddJob, uninterrupted, queues the job last and wakes the worker on top of
      the stack, as WorkerThreadPool.AddJob does. */
  lemma UninterruptedAddJob(s: State, a: nat, job: Job)
    requires a < |s.adders| && Sound(s) && s.adders[a] == Away
    ensures Leads(s, [Add(a, job)] + Times(Adds(a), WakeSteps(s)),
                  s.(shared := Woken(s.shared.PushJob(job)), added := s.added + [job]))
  {
    var end := s.(shared := Woken(s.shared.PushJob(job)), added := s.added + [job]);
    var pushed := s.(shared := s.shared.PushJob(job), added := s.added + [job]);
    if s.version == Atomic {
      AtomicAddJob(s, a, job, end);
    } else {
      var s1 := pushed.Adder(a, SeeStack);
      assert s1.adders[a := Away] == s.adders;
      SeesAlone(s1, a, end);
      assert Next(s, Add(a, job)) == s1;
    }
    First(s, Add(a, job), Times(Adds(a), WakeSteps(s)), end);
  }

  lemma AtomicAddJob(s: State, a: nat, job: Job, end: State)
    requires a < |s.adders| && Sound(s) && s.adders[a] == Away && s.version == Atomic
    requires end == s.(shared := Woken(s.shared.PushJob(job)), added := s.added + [job])
    ensures Leads(Next(s, Add(a, job)), Times(Adds(a), WakeSteps(s)), end)
  {
    var pushed := s.(shared := s.shared.PushJob(job), added := s.added + [job]);
    if s.shared.idle == [] {
      assert Next(s, Add(a, job)) == pushed == end;
      Here(end);
    } else {
      var s1 := pushed.(shared := pushed.shared.PopIdle()).Adder(a, Wake(s.shared.TopIdle()));
      assert s1.adders[a := Away] == s.adders;
      WakesAlone(s1, a, end);
      assert Next(s, Add(a, job)) == s1;
    }
  }

  /** A worker that finds a job executes the oldest one and comes back for more. */
  lemma UninterruptedPass(s: State, w: nat)
    requires w < |s.workers| && Sound(s) && s.workers[w] == Check && s.shared.running && s.shared.queue != []
    ensures Leads(s, Times(Work(w), 3), s.(shared := s.shared.PopJob(), popped := s.popped + [s.shared.queue[0]]))
  {
    var job := s.shared.queue[0];
    var end := s.(shared := s.shared.PopJob(), popped := s.popped + [job]);
    var s1, s2 := s.Worker(w, Pop), end.Worker(w, Execute(job));
    Here(end);
    assert s2.workers[w := Check] == s.workers;
    assert Next(s2, Work(w)) == end;
    OneMoreTime(s2, Work(w), 1, end);
    assert s1.workers[w := Execute(job)] == s2.workers;
    assert Next(s1, Work(w)) == s2;
    OneMoreTime(s1, Work(w), 2, end);
    assert Next(s, Work(w)) == s1;
    OneMoreTime(s, Work(w), 3, end);
  }

  /** A worker that finds no job lies down on top of the stack and reads its eventfd. */
  lemma UninterruptedIdle(s: State, w: nat)
    requires w < |s.workers| && Sound(s) && s.workers[w] == Check && s.shared.running && s.shared.queue == []
    ensures Leads(s, Times(Work(w), if s.version == Atomic then 2 else 3),
                  s.(shared := s.shared.PushIdle(w)).Worker(w, Read))
  {
    var end := s.(shared := s.shared.PushIdle(w)).Worker(w, Read);
    var s1, s2 := s.Worker(w, Pop), s.Worker(w, IdlePush);
    Here(end);
    if s.version == Atomic {
      assert s1.workers[w := Read] == end.workers;
      assert Next(s1, Work(w)) == end;
      OneMoreTime(s1, Work(w), 1, end);
    } else {
      assert s2.workers[w := Read] == end.workers;
      assert Next(s2, Work(w)) == end;
      OneMoreTime(s2, Work(w), 1, end);
      assert s1.workers[w := IdlePush] == s2.workers;
      assert Next(s1, Work(w)) == s2;
      OneMoreTime(s1, Work(w), 2, end);
    }
    assert Next(s, Work(w)) == s1;
    OneMoreTime(s, Work(w), if s.version == Atomic then 2 else 3, end);
  }

  /** A worker that is woken takes its whole counter and comes back, or leaves if the pool
      was stopped. */
  lemma UninterruptedWakeUp(s: State, w: nat)
    requires w < |s.workers| && Sound(s) && s.workers[w] == Read && s.shared.counters[w] > 0
    ensures Leads(s, Times(Work(w), 2),
                  s.(shared := s.shared.Consume(w)).Worker(w, if s.shared.running then Pop else Exited))
  {
    var pc := if s.shared.running then Pop else Exited;
    var end, s1 := s.(shared := s.shared.Consume(w)).Worker(w, pc), s.(shared := s.shared.Consume(w)).Worker(w, Check);
    Here(end);
    assert s1.workers[w := pc] == end.workers;
    assert Next(s1, Work(w)) == end;
    OneMoreTime(s1, Work(w), 1, end);
    assert Next(s, Work(w)) == s1;
    OneMoreTime(s, Work(w), 2, end);
  }
}
