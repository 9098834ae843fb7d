/** When WakeOneThread can pop an empty stack: it reads the stack outside its mutex. */
module PoolFaults {
  import opened WorkerPool
  import opened PoolAccounting

  /** Some run before Stop pops an empty stack. */
  ghost predicate CanFault(s: State) {
    exists ls :: LegalRun(s, ls) && BeforeStop(ls) && Run(s, ls).fault
  }

  lemma OneStepEarlier(s: State, l: Label)
    requires Enabled(s, l) && !l.Stops? && CanFault(Next(s, l))
    ensures CanFault(s)
  {
    var ls :| LegalRun(Next(s, l), ls) && BeforeStop(ls) && Run(Next(s, l), ls).fault;
    assert ([l] + ls)[1..] == ls;
    assert LegalRun(s, [l] + ls) && BeforeStop([l] + ls) && Run(s, [l] + ls).fault;
  }

  predicate Written(s: State) {
    s.version == AsWritten && !s.fault && |s.shared.counters| == |s.workers|
  }

  lemma PopsAnEmptyStack(s: State, a: nat)
    requires Written(s) && s.shared.idle == [] && a < |s.adders| && s.adders[a] == PopStack
    ensures CanFault(s)
  {
    assert LegalRun(Next(s, Adds(a)), []) && Run(Next(s, Adds(a)), []).fault;
    OneStepEarlier(s, Adds(a));
  }

  /** Two threads that each saw the same sleeper. */
  lemma BothAboutToPop(s: State, a: nat, b: nat)
    requires Written(s) && |s.shared.idle| == 1 && a < |s.adders| && b < |s.adders| && a != b
    requires s.adders[a] == PopStack && s.adders[b] == PopStack
    ensures CanFault(s)
  {
    PopsAnEmptyStack(Next(s, Adds(a)), b);
    OneStepEarlier(s, Adds(a));
  }

  lemma BothAboutToSee(s: State, a: nat, b: nat)
    requires Written(s) && |s.shared.idle| == 1 && a < |s.adders| && b < |s.adders| && a != b
    requires s.adders[a] == SeeStack && s.adders[b] == SeeStack
    ensures CanFault(s)
  {
    var s1 := Next(s, Adds(a));
    BothAboutToPop(Next(s1, Adds(b)), a, b);
    OneStepEarlier(s1, Adds(b));
    OneStepEarlier(s, Adds(a));
  }

  /** One worker asleep and two threads free to add a job are enough, whatever else goes on. */
  lemma OneSleeperTwoAdders(s: State, a: nat, b: nat)
    requires Written(s) && |s.shared.idle| == 1 && a < |s.adders| && b < |s.adders| && a != b
    requires s.adders[a] == Away && s.adders[b] == Away
    ensures CanFault(s)
  {
    var job: Job := 0;
    var s1 := Next(s, Add(a, job));
    BothAboutToSee(Next(s1, Add(b, job)), a, b);
    OneStepEarlier(s1, Add(b, job));
    OneStepEarlier(s, Add(a, job));
  }

  lemma FirstWorkerFallsAsleep(s: State)
    requires Initial(s) && s.version == AsWritten && |s.workers| >= 1 && |s.adders| >= 2
    ensures CanFault(s)
  {
    var s1 := Next(s, Work(0));
    var s2 := Next(s1, Work(0));
    OneSleeperTwoAdders(Next(s2, Work(0)), 0, 1);
    OneStepEarlier(s2, Work(0));
    OneStepEarlier(s1, Work(0));
    OneStepEarlier(s, Work(0));
  }

  /** Nobody is there to pop it, or only one thread, or the pop is guarded. */
  predicate Harmless(s: State) {
    s.version != AsWritten || |s.workers| == 0 || |s.adders| < 2
  }

  ghost predicate Safe(s: State) {
    && !s.fault && Harmless(s)
    && (|s.workers| == 0 ==> s.shared.idle == [])
    && (s.version == AsWritten ==>
          forall a :: 0 <= a < |s.adders| && s.adders[a] == PopStack ==> s.shared.idle != [])
    && (s.version == Atomic ==> forall a :: 0 <= a < |s.adders| ==> s.adders[a] != PopStack && s.adders[a] != SeeStack)
  }

  lemma NextKeepsSafe(s: State, l: Label)
    requires Safe(s) && Enabled(s, l)
    ensures Safe(Next(s, l))
  {
  }

  lemma {:induction false} SafeHolds(s: State, ls: seq<Label>)
    requires Safe(s) && LegalRun(s, ls)
    ensures Safe(Run(s, ls))
    decreases |ls|
  {
    if ls != [] {
      NextKeepsSafe(s, ls[0]);
      SafeHolds(Next(s, ls[0]), ls[1..]);
    }
  }

  /** Guarded and atomic, and as written without a worker or with a single thread that adds
      jobs: no run pops an empty stack, Stop included. */
  lemma NeverPopsEmpty(s: State, ls: seq<Label>)
    requires Initial(s) && LegalRun(s, ls) && Harmless(s)
    ensures !Run(s, ls).fault
  {
    SafeHolds(s, ls);
  }

  /** Every version: some run from a started pool pops an empty stack exactly if it is the
      pool as written, with a worker and two threads that may be in AddJob. */
  lemma CanFaultIff(s: State)
    requires Initial(s)
    ensures CanFault(s) <==> s.version == AsWritten && |s.workers| >= 1 && |s.adders| >= 2
  {
    if Harmless(s) {
      forall ls | LegalRun(s, ls) && BeforeStop(ls) ensures !Run(s, ls).fault {
        NeverPopsEmpty(s, ls);
      }
    } else {
      FirstWorkerFallsAsleep(s);
    }
  }
}
