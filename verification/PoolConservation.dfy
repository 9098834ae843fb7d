/** Jobs against sleeping workers. */
module PoolConservation {
  import opened WorkerPool
  import opened PoolAccounting

  /** On its way to PopJob, or with a wake-up already taken off the stack for it. */
  predicate Awake(s: State, w: nat)
    requires w < |s.workers|
  {
    s.workers[w] == Check || s.workers[w] == Pop || (s.workers[w] == Read && w !in s.shared.idle)
  }

  function AwakeSet(s: State): set<nat> {
    set w | 0 <= w < |s.workers| && Awake(s, w)
  }

  /** The threads in AddJob that have pushed their job and not popped a worker yet. */
  function WakingSet(s: State): set<nat> {
    set a | 0 <= a < |s.adders| && (s.adders[a] == SeeStack || s.adders[a] == PopStack)
  }

  /** While a worker lies on the idle stack, there are no more jobs than workers and threads
      that will see to them. */
  ghost predicate Conserved(s: State) {
    s.shared.idle != [] ==> |s.shared.queue| <= |AwakeSet(s)| + |WakingSet(s)|
  }

  /** Asleep: blocked in read, with nobody who has taken it off the stack. */
  predicate Asleep(s: State, w: nat)
    requires w < |s.workers|
  {
    s.workers[w] == Read && w in s.shared.idle
  }

  ghost predicate Inv(s: State) {
    TokensFit(s) && s.shared.running && s.stop == NotStopping
    && (s.version == Atomic ==>
          (forall a :: 0 <= a < |s.adders| ==> s.adders[a] != SeeStack && s.adders[a] != PopStack)
          && forall w :: 0 <= w < |s.workers| ==> s.workers[w] != IdlePush)
  }

  lemma IdleIsBlocked(s: State, w: nat)
    requires TokensFit(s) && w in s.shared.idle
    ensures w < |s.workers| && s.workers[w] == Read && multiset(s.shared.idle)[w] == 1
  {
    assert Tokens(s, w) == if s.workers[w] == Read then 1 else 0;
  }

  /** A worker lies down while more jobs are queued than others will see to. */
  ghost predicate OverfullIdlePush(s: State, l: Label) {
    && l.Work? && l.w < |s.workers| && s.workers[l.w] == IdlePush
    && |s.shared.queue| > |AwakeSet(s)| + |WakingSet(s)|
  }

  /** The step of a worker that does not lie down: the queue and the workers awake shrink
      together. */
  lemma WorkKeepsConserved(s: State, w: nat)
    requires Inv(s) && Conserved(s) && Enabled(s, Work(w)) && s.workers[w] != IdlePush
    ensures Conserved(WorkStep(s, w))
  {
    if s.workers[w] == Pop {
      PopKeepsConserved(s, w);
    } else {
      var s' := WorkStep(s, w);
      if s.workers[w] == Read {
        ReaderIsAwake(s, w);
      }
      assert s'.shared.idle == s.shared.idle && s'.shared.queue == s.shared.queue;
      assert WakingSet(s') == WakingSet(s);
      assert AwakeSet(s') == if s.workers[w].Execute? then AwakeSet(s) + {w} else AwakeSet(s);
    }
  }

  /** A worker whose read can return has been taken off the stack. */
  lemma ReaderIsAwake(s: State, w: nat)
    requires TokensFit(s) && Enabled(s, Work(w)) && s.workers[w] == Read
    ensures w !in s.shared.idle
  {
    assert Tokens(s, w) == 1;
  }

  lemma PopKeepsConserved(s: State, w: nat)
    requires Inv(s) && Conserved(s) && Enabled(s, Work(w)) && s.workers[w] == Pop
    ensures Conserved(WorkStep(s, w))
  {
    var s' := WorkStep(s, w);
    assert WakingSet(s') == WakingSet(s);
    if s.shared.queue != [] {
      assert AwakeSet(s') == AwakeSet(s) - {w} && w in AwakeSet(s);
    }
  }

  lemma IdlePushConservesIff(s: State, w: nat)
    requires Inv(s) && Enabled(s, Work(w)) && s.workers[w] == IdlePush
    ensures Conserved(WorkStep(s, w)) <==> !OverfullIdlePush(s, Work(w))
  {
    var s' := WorkStep(s, w);
    assert s'.shared.idle == s.shared.idle + [w];
    assert WakingSet(s') == WakingSet(s) && AwakeSet(s') == AwakeSet(s);
  }

  lemma TakeOffStack(s: State, s': State)
    requires TokensFit(s) && s.shared.idle != []
    requires s'.shared.idle == s.shared.PopIdle().idle && s'.workers == s.workers
    ensures AwakeSet(s') == AwakeSet(s) + {s.shared.TopIdle()} && s.shared.TopIdle() !in AwakeSet(s)
    ensures |AwakeSet(s')| == |AwakeSet(s)| + 1
  {
    var top := s.shared.TopIdle();
    assert s.shared.idle == s'.shared.idle + [top];
    assert top in s.shared.idle;
    IdleIsBlocked(s, top);
    assert forall w :: w in s.shared.idle <==> w in s'.shared.idle || w == top;
  }

  lemma AddKeepsConserved(s: State, a: nat, job: Job)
    requires Inv(s) && Conserved(s) && Enabled(s, Add(a, job))
    ensures Conserved(AddStart(s, a, job))
  {
    var s' := AddStart(s, a, job);
    if s.version != Atomic {
      assert AwakeSet(s') == AwakeSet(s);
      assert WakingSet(s') == WakingSet(s) + {a};
    } else if s.shared.idle != [] {
      TakeOffStack(s, s');
      assert WakingSet(s') == WakingSet(s);
    }
  }

  lemma PopStackKeepsConserved(s: State, a: nat)
    requires Inv(s) && Conserved(s) && Enabled(s, Adds(a)) && s.adders[a] == PopStack
    ensures Conserved(AddStep(s, a))
  {
    if s.shared.idle != [] {
      var s' := AddStep(s, a);
      TakeOffStack(s, s');
      assert WakingSet(s') == WakingSet(s) - {a} && a in WakingSet(s);
    }
  }

  lemma WakingKeepsConserved(s: State, a: nat)
    requires Inv(s) && Conserved(s) && Enabled(s, Adds(a))
    ensures Conserved(AddStep(s, a))
  {
    if s.adders[a] == PopStack {
      PopStackKeepsConserved(s, a);
    } else {
      var s' := AddStep(s, a);
      if s.shared.idle != [] {
        assert AwakeSet(s') == AwakeSet(s) && WakingSet(s') == WakingSet(s);
      }
    }
  }

  lemma NextKeepsInv(s: State, l: Label)
    requires Inv(s) && Enabled(s, l) && !l.Stops?
    ensures Inv(Next(s, l))
  {
    NextKeepsTokens(s, l);
  }

  /** The bound is broken by exactly one kind of step. */
  lemma NextConservesIff(s: State, l: Label)
    requires Inv(s) && Conserved(s) && Enabled(s, l) && !l.Stops?
    ensures Conserved(Next(s, l)) <==> !OverfullIdlePush(s, l)
  {
    match l {
      case Work(w) => if s.workers[w] == IdlePush { IdlePushConservesIff(s, w); } else { WorkKeepsConserved(s, w); }
      case Add(a, job) => AddKeepsConserved(s, a, job);
      case Adds(a) => WakingKeepsConserved(s, a);
      case Stops =>
    }
  }

  ghost predicate NoOverfullIdlePush(s: State, ls: seq<Label>)
    requires LegalRun(s, ls)
    decreases |ls|
  {
    ls == [] || (!OverfullIdlePush(s, ls[0]) && NoOverfullIdlePush(Next(s, ls[0]), ls[1..]))
  }

  /** The bound holds in every state that the run passes through. */
  ghost predicate AlwaysConserved(s: State, ls: seq<Label>)
    requires LegalRun(s, ls)
    decreases |ls|
  {
    Conserved(s) && (ls == [] || AlwaysConserved(Next(s, ls[0]), ls[1..]))
  }

  lemma {:induction false} ConservedIff(s: State, ls: seq<Label>)
    requires Inv(s) && Conserved(s) && LegalRun(s, ls) && BeforeStop(ls)
    ensures AlwaysConserved(s, ls) <==> NoOverfullIdlePush(s, ls)
    ensures Inv(Run(s, ls)) && (AlwaysConserved(s, ls) ==> Conserved(Run(s, ls)))
    decreases |ls|
  {
    if ls != [] {
      NextKeepsInv(s, ls[0]);
      NextConservesIff(s, ls[0]);
      InvHolds(Next(s, ls[0]), ls[1..]);
      if Conserved(Next(s, ls[0])) {
        ConservedIff(Next(s, ls[0]), ls[1..]);
      }
    }
  }

  lemma {:induction false} InvHolds(s: State, ls: seq<Label>)
    requires Inv(s) && LegalRun(s, ls) && BeforeStop(ls)
    ensures Inv(Run(s, ls))
    decreases |ls|
  {
    if ls != [] {
      NextKeepsInv(s, ls[0]);
      InvHolds(Next(s, ls[0]), ls[1..]);
    }
  }

  /** In the atomic version the empty pop and the idle push are one step. */
  lemma {:induction false} AtomicHasNoIdlePush(s: State, ls: seq<Label>)
    requires Inv(s) && s.version == Atomic && LegalRun(s, ls) && BeforeStop(ls) && !s.fault
    ensures NoOverfullIdlePush(s, ls) && !Run(s, ls).fault
    decreases |ls|
  {
    if ls != [] {
      NextKeepsInv(s, ls[0]);
      assert !Next(s, ls[0]).fault;
      AtomicHasNoIdlePush(Next(s, ls[0]), ls[1..]);
    }
  }

  lemma InitialInv(s: State)
    requires Initial(s)
    ensures Inv(s) && Conserved(s)
  {
    InitialFits(s);
  }

  /** With push and wake, and the empty pop and the idle push, each one critical section: while
      a worker lies on the idle stack there are no more jobs than workers awake, and jobs are
      never queued with all workers asleep. */
  lemma AtomicConservesWork(s: State, ls: seq<Label>)
    requires Initial(s) && s.version == Atomic && LegalRun(s, ls) && BeforeStop(ls)
    ensures var now := Run(s, ls);
            && !now.fault
            && (now.shared.idle != [] ==> |now.shared.queue| <= |AwakeSet(now)|)
            && (now.shared.queue != [] && |now.workers| > 0 ==>
                  exists w :: 0 <= w < |now.workers| && !Asleep(now, w))
  {
    InitialInv(s);
    AtomicHasNoIdlePush(s, ls);
    ConservedIff(s, ls);
    SameWorkers(s, ls);
    var now := Run(s, ls);
    assert WakingSet(now) == {};
    if now.shared.queue != [] && |now.workers| > 0 {
      if now.shared.idle == [] {
        assert !Asleep(now, 0);
      } else {
        var w :| w in AwakeSet(now);
        assert !Asleep(now, w);
      }
    }
  }

  /** Every version: through a run there are never more jobs than workers awake and threads
      about to wake one, while a worker lies on the stack, exactly if no worker lies down
      while more jobs are queued than that. */
  lemma WrittenConservesIff(s: State, ls: seq<Label>)
    requires Initial(s) && LegalRun(s, ls) && BeforeStop(ls)
    ensures AlwaysConserved(s, ls) <==> NoOverfullIdlePush(s, ls)
  {
    InitialInv(s);
    ConservedIff(s, ls);
  }

  /** Jobs queued, every worker asleep, and no thread in AddJob that could wake one. */
  ghost predicate Stalled(s: State) {
    s.shared.queue != [] && |s.workers| > 0
    && (forall w :: 0 <= w < |s.workers| ==> Asleep(s, w))
    && forall a :: 0 <= a < |s.adders| ==> s.adders[a] == Away
  }

  /** The idle push of the last worker awake onto a queue that is not empty. */
  ghost predicate LastOneLiesDown(s: State, l: Label) {
    && l.Work? && l.w < |s.workers| && s.workers[l.w] == IdlePush && s.shared.queue != []
    && (forall w :: 0 <= w < |s.workers| && w != l.w ==> Asleep(s, w))
    && (forall a :: 0 <= a < |s.adders| ==> s.adders[a] == Away)
  }

  /** A step stalls the pool exactly when it is the idle push of the last worker awake onto a
      queue that is not empty, with nobody left in AddJob. */
  lemma StallsIff(s: State, l: Label)
    requires Inv(s) && !Stalled(s) && Enabled(s, l) && !l.Stops?
    ensures Stalled(Next(s, l)) <==> LastOneLiesDown(s, l)
  {
    var s' := Next(s, l);
    match l {
      case Work(w) =>
        if s.workers[w] == IdlePush {
          assert forall v :: v in s'.shared.idle <==> v in s.shared.idle || v == w;
          assert forall v :: 0 <= v < |s.workers| && v != w ==> (Asleep(s', v) <==> Asleep(s, v));
          assert Asleep(s', w);
        } else {
          assert s'.shared.queue == [] || !Asleep(s', w);
        }
      case Add(a, job) => AddNeverStalls(s, l);
      case Adds(a) => AddNeverStalls(s, l);
      case Stops =>
    }
  }

  lemma AddNeverStalls(s: State, l: Label)
    requires Inv(s) && !Stalled(s) && Enabled(s, l) && (l.Add? || l.Adds?)
    ensures !Stalled(Next(s, l))
  {
    var s' := Next(s, l);
    if l.Add? {
      assert s'.adders == s.adders || s'.adders[l.a] != Away;
      if s.version == Atomic && s.shared.idle == [] && |s.workers| > 0 {
        assert !Asleep(s', 0);
      }
    } else {
      match s.adders[l.a] {
        case Wake(w) =>
          assert Tokens(s, w) == if s.workers[w] == Read then 1 else 0;
          HeldAfterUpdate(s.adders, l.a, Away, w);
          assert !Asleep(s', w);
        case SeeStack => assert |s.workers| > 0 ==> s'.adders[l.a] != Away || !Asleep(s', 0);
        case PopStack => assert |s.workers| > 0 ==> s'.adders[l.a] != Away || !Asleep(s', 0);
        case Away =>
      }
    }
  }

  ghost predicate StallsInRun(s: State, ls: seq<Label>)
    requires LegalRun(s, ls)
    decreases |ls|
  {
    Stalled(s) || (ls != [] && StallsInRun(Next(s, ls[0]), ls[1..]))
  }

  ghost predicate LiesDownInRun(s: State, ls: seq<Label>)
    requires LegalRun(s, ls)
    decreases |ls|
  {
    ls != [] && (LastOneLiesDown(s, ls[0]) || LiesDownInRun(Next(s, ls[0]), ls[1..]))
  }

  lemma {:induction false} StallsInRunIff(s: State, ls: seq<Label>)
    requires Inv(s) && !Stalled(s) && LegalRun(s, ls) && BeforeStop(ls)
    ensures StallsInRun(s, ls) <==> LiesDownInRun(s, ls)
    decreases |ls|
  {
    if ls != [] {
      StallsIff(s, ls[0]);
      NextKeepsInv(s, ls[0]);
      if !Stalled(Next(s, ls[0])) {
        StallsInRunIff(Next(s, ls[0]), ls[1..]);
      }
    }
  }

  /** Every version: a run passes through a stalled pool exactly if in one of its steps the
      last worker awake lies down onto a queue that is not empty. */
  lemma RunStallsIff(s: State, ls: seq<Label>)
    requires Initial(s) && LegalRun(s, ls) && BeforeStop(ls)
    ensures StallsInRun(s, ls) <==> LiesDownInRun(s, ls)
  {
    InitialInv(s);
    StallsInRunIff(s, ls);
  }

  /** In a stalled pool nothing moves before the next AddJob or Stop. */
  lemma StalledIsStuck(s: State, l: Label)
    requires Inv(s) && Stalled(s) && Enabled(s, l)
    ensures !l.Work? && !l.Adds?
  {
    forall w | 0 <= w < |s.workers| ensures s.workers[w] == Read && s.shared.counters[w] == 0 {
      assert Asleep(s, w);
      assert Tokens(s, w) == 1;
    }
  }

  lemma OneMore(s: State, l: Label, ls: seq<Label>)
    requires Enabled(s, l) && LegalRun(Next(s, l), ls)
    ensures LegalRun(s, [l] + ls) && Run(s, [l] + ls) == Run(Next(s, l), ls)
  {
    assert ([l] + ls)[1..] == ls;
  }

  lemma FirstThenRest<T>(ls: seq<T>, ms: seq<T>)
    requires ls != []
    ensures [ls[0]] + (ls[1..] + ms) == ls + ms
  {
  }

  lemma {:induction false} RunOn(s: State, ls: seq<Label>, ms: seq<Label>)
    requires LegalRun(s, ls) && LegalRun(Run(s, ls), ms)
    ensures LegalRun(s, ls + ms) && Run(s, ls + ms) == Run(Run(s, ls), ms)
    decreases |ls|
  {
    if ls == [] {
      assert ls + ms == ms;
    } else {
      RunOn(Next(s, ls[0]), ls[1..], ms);
      OneMore(s, ls[0], ls[1..] + ms);
      FirstThenRest(ls, ms);
    }
  }

  /** A pool of one worker, as written, with `n` threads that may add jobs. */
  function OneWorker(n: nat): (s: State)
    ensures Initial(s) && s.workers == [Check] && |s.adders| == n
  {
    State(AsWritten, Shared(true, [], [], [0]), [Check], seq(n, i => Away), NotStopping, [], [], false)
  }

  lemma FindsNoJob(s: State)
    requires s.workers == [Check] && s.shared.running && s.shared.queue == [] && |s.shared.counters| == 1
    requires !s.fault && s.version == AsWritten
    ensures LegalRun(s, [Work(0)] + [Work(0)])
    ensures Run(s, [Work(0)] + [Work(0)]) == s.(workers := [IdlePush])
  {
    var s1 := s.(workers := [Pop]);
    assert Next(s, Work(0)) == s1;
    assert Next(s1, Work(0)) == s.(workers := [IdlePush]);
    OneMore(s1, Work(0), []);
    assert [Work(0)] + [] == [Work(0)];
    OneMore(s, Work(0), [Work(0)]);
  }

  lemma AddsInVain(s: State, job: Job)
    requires s.adders == [Away] && s.shared.idle == [] && |s.shared.counters| == |s.workers|
    requires !s.fault && s.version == AsWritten
    ensures LegalRun(s, [Add(0, job)] + [Adds(0)])
    ensures Run(s, [Add(0, job)] + [Adds(0)]) == s.(shared := s.shared.PushJob(job), added := s.added + [job])
  {
    var s1 := s.(shared := s.shared.PushJob(job), added := s.added + [job], adders := [SeeStack]);
    assert Next(s, Add(0, job)) == s1;
    assert Next(s1, Adds(0)) == s1.(adders := [Away]);
    OneMore(s1, Adds(0), []);
    assert [Adds(0)] + [] == [Adds(0)];
    OneMore(s, Add(0, job), [Adds(0)]);
  }

  lemma GoesToSleep(s: State)
    requires s.workers == [IdlePush] && |s.shared.counters| == 1 && !s.fault
    ensures LegalRun(s, [Work(0)])
    ensures Run(s, [Work(0)]) == s.(shared := s.shared.PushIdle(0), workers := [Read])
  {
    assert Next(s, Work(0)) == s.(shared := s.shared.PushIdle(0), workers := [Read]);
    assert [Work(0)][1..] == [];
  }

  /** One worker and one thread that adds a job, as written: the worker finds the queue empty,
      the job is pushed, the thread sees the stack empty, and the worker goes to sleep. */
  lemma LostWakeUp(job: Job)
    ensures var ls := [Work(0)] + [Work(0)] + ([Add(0, job)] + [Adds(0)]) + [Work(0)];
            LegalRun(OneWorker(1), ls) && Stalled(Run(OneWorker(1), ls))
  {
    var s := OneWorker(1);
    FindsNoJob(s);
    AddsInVain(s.(workers := [IdlePush]), job);
    RunOn(s, [Work(0)] + [Work(0)], [Add(0, job)] + [Adds(0)]);
    var s2 := s.(workers := [IdlePush], shared := s.shared.PushJob(job), added := s.added + [job]);
    GoesToSleep(s2);
    RunOn(s, [Work(0)] + [Work(0)] + ([Add(0, job)] + [Adds(0)]), [Work(0)]);
  }

  lemma BothSeeTheSleeper(s: State, job: Job)
    requires s.adders == [Away, Away] && s.shared.idle == [0] && |s.shared.counters| == |s.workers|
    requires !s.fault && s.version == AsWritten
    ensures LegalRun(s, [Add(0, job)] + ([Add(1, job)] + ([Adds(0)] + [Adds(1)])))
    ensures Run(s, [Add(0, job)] + ([Add(1, job)] + ([Adds(0)] + [Adds(1)])))
            == s.(shared := s.shared.PushJob(job).PushJob(job), added := s.added + [job] + [job],
                  adders := [PopStack, PopStack])
  {
    var s1 := s.(shared := s.shared.PushJob(job), added := s.added + [job], adders := [SeeStack, Away]);
    var s2 := s1.(shared := s1.shared.PushJob(job), added := s1.added + [job], adders := [SeeStack, SeeStack]);
    var s3 := s2.(adders := [PopStack, SeeStack]);
    assert Next(s, Add(0, job)) == s1 && Next(s1, Add(1, job)) == s2;
    assert Next(s2, Adds(0)) == s3 && Next(s3, Adds(1)) == s2.(adders := [PopStack, PopStack]);
    OneMore(s3, Adds(1), []);
    assert [Adds(1)] + [] == [Adds(1)];
    OneMore(s2, Adds(0), [Adds(1)]);
    OneMore(s1, Add(1, job), [Adds(0)] + [Adds(1)]);
    OneMore(s, Add(0, job), [Add(1, job)] + ([Adds(0)] + [Adds(1)]));
  }

  lemma BothPop(s: State)
    requires s.adders == [PopStack, PopStack] && s.shared.idle == [0] && |s.shared.counters| == |s.workers|
    requires !s.fault && s.version == AsWritten
    ensures LegalRun(s, [Adds(0)] + [Adds(1)]) && Run(s, [Adds(0)] + [Adds(1)]).fault
  {
    var s1 := s.(shared := s.shared.PopIdle(), adders := [Wake(0), PopStack]);
    assert Next(s, Adds(0)) == s1 && s1.shared.idle == [];
    OneMore(s1, Adds(1), []);
    assert [Adds(1)] + [] == [Adds(1)];
    OneMore(s, Adds(0), [Adds(1)]);
  }

  /** One sleeping worker and two threads that add a job, as written: both see the stack not
      empty, and the second one pops an empty stack. */
  lemma TwoWakersOneSleeper(job: Job)
    ensures var ls := [Work(0)] + [Work(0)] + [Work(0)]
                    + ([Add(0, job)] + ([Add(1, job)] + ([Adds(0)] + [Adds(1)])))
                    + ([Adds(0)] + [Adds(1)]);
            LegalRun(OneWorker(2), ls) && Run(OneWorker(2), ls).fault
  {
    var s := OneWorker(2);
    var asleep := [Work(0)] + [Work(0)] + [Work(0)];
    FindsNoJob(s);
    var s2 := s.(workers := [IdlePush]);
    GoesToSleep(s2);
    RunOn(s, [Work(0)] + [Work(0)], [Work(0)]);
    var s3 := s.(workers := [Read], shared := s.shared.PushIdle(0));
    var seen := [Add(0, job)] + ([Add(1, job)] + ([Adds(0)] + [Adds(1)]));
    BothSeeTheSleeper(s3, job);
    RunOn(s, asleep, seen);
    BothPop(Run(s, asleep + seen));
    RunOn(s, asleep + seen, [Adds(0)] + [Adds(1)]);
  }
}
