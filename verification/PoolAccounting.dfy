/** Wake tokens and jobs: a sleeping worker has exactly one wake-up coming, and jobs leave the
    queue in the order they came. */
module PoolAccounting {
  import opened WorkerPool

  /** How many threads in AddJob hold this worker, popped and not yet woken. */
  function HeldBy(adders: seq<AdderPc>, w: nat): nat {
    if adders == [] then 0 else (if adders[0] == Wake(w) then 1 else 0) + HeldBy(adders[1..], w)
  }

  lemma {:induction false} HeldAfterUpdate(adders: seq<AdderPc>, a: nat, pc: AdderPc, w: nat)
    requires a < |adders|
    ensures HeldBy(adders[a := pc], w) + (if adders[a] == Wake(w) then 1 else 0)
            == HeldBy(adders, w) + if pc == Wake(w) then 1 else 0
  {
    var updated := adders[a := pc];
    if a == 0 {
      assert updated[1..] == adders[1..];
    } else {
      assert updated[1..] == adders[1..][a - 1 := pc];
      HeldAfterUpdate(adders[1..], a - 1, pc, w);
    }
  }

  /** The wake-ups under way to one worker. */
  function Tokens(s: State, w: nat): nat
    requires w < |s.shared.counters|
  {
    multiset(s.shared.idle)[w] + HeldBy(s.adders, w) + s.shared.counters[w]
  }

  ghost predicate JobsInOrder(s: State) {
    s.popped + s.shared.queue == s.added
  }

  /** Between its idle push and the return of its read a worker has one wake-up coming, from
      the stack, a waker or its eventfd; at other times none. */
  ghost predicate TokensFit(s: State) {
    && |s.shared.counters| == |s.workers|
    && (forall w :: 0 <= w < |s.workers| ==> Tokens(s, w) == if s.workers[w] == Read then 1 else 0)
    && (forall w :: w in s.shared.idle ==> w < |s.workers|)
    && (forall a :: 0 <= a < |s.adders| && s.adders[a].Wake? ==> s.adders[a].w < |s.workers|)
  }

  lemma NextKeepsJobs(s: State, l: Label)
    requires JobsInOrder(s) && Enabled(s, l)
    ensures JobsInOrder(Next(s, l))
  {
    var s' := Next(s, l);
    match l {
      case Work(w) =>
        if s.workers[w] == Pop && s.shared.queue != [] {
          assert s.popped + [s.shared.queue[0]] + s.shared.queue[1..] == s.popped + s.shared.queue;
        }
      case Add(a, job) => assert s.popped + (s.shared.queue + [job]) == s.added + [job];
      case _ =>
    }
  }

  lemma WorkerSleeps(s: State, s': State, w: nat)
    requires TokensFit(s) && w < |s.workers| && s.workers[w] != Read && s'.workers == s.workers[w := Read]
    requires s'.shared.idle == s.shared.idle + [w]
    requires s'.shared.counters == s.shared.counters && s'.adders == s.adders
    ensures TokensFit(s')
  {
    forall v | 0 <= v < |s'.workers| ensures Tokens(s', v) == if s'.workers[v] == Read then 1 else 0 {
      assert Tokens(s, v) == if s.workers[v] == Read then 1 else 0;
    }
  }

  lemma WorkerMoves(s: State, s': State, w: nat, pc: WorkerPc)
    requires TokensFit(s) && w < |s.workers| && pc != Read && s'.workers == s.workers[w := pc]
    requires s'.shared.idle == s.shared.idle && s'.adders == s.adders
    requires s.workers[w] == Read ==> s.shared.counters[w] > 0
    requires s'.shared.counters == if s.workers[w] == Read then s.shared.Consume(w).counters else s.shared.counters
    ensures TokensFit(s')
  {
    forall v | 0 <= v < |s'.workers| ensures Tokens(s', v) == if s'.workers[v] == Read then 1 else 0 {
      assert Tokens(s, v) == if s.workers[v] == Read then 1 else 0;
    }
  }

  lemma WorkKeepsTokens(s: State, w: nat)
    requires TokensFit(s) && Enabled(s, Work(w))
    ensures TokensFit(WorkStep(s, w))
  {
    var s' := WorkStep(s, w);
    if s.workers[w] != Read && s'.workers[w] == Read {
      WorkerSleeps(s, s', w);
    } else {
      WorkerMoves(s, s', w, s'.workers[w]);
    }
  }

  lemma PopIdleMoves(s: State, s': State, a: nat)
    requires TokensFit(s) && s.shared.idle != [] && a < |s.adders| && !s.adders[a].Wake?
    requires s'.shared.idle == s.shared.PopIdle().idle && s'.shared.counters == s.shared.counters
    requires s'.adders == s.adders[a := Wake(s.shared.TopIdle())] && s'.workers == s.workers
    ensures TokensFit(s')
  {
    var top := s.shared.TopIdle();
    assert s.shared.idle == s'.shared.idle + [top];
    assert top in s.shared.idle && top < |s.workers|;
    assert forall w :: w in s'.shared.idle ==> w in s.shared.idle;
    forall v | 0 <= v < |s'.workers| ensures Tokens(s', v) == if s'.workers[v] == Read then 1 else 0 {
      HeldAfterUpdate(s.adders, a, Wake(top), v);
      assert Tokens(s, v) == if s.workers[v] == Read then 1 else 0;
    }
  }

  lemma AdderMoves(s: State, s': State, a: nat, pc: AdderPc)
    requires TokensFit(s) && a < |s.adders| && !pc.Wake? && s'.adders == s.adders[a := pc]
    requires s'.shared.idle == s.shared.idle && s'.workers == s.workers
    requires s'.shared.counters == if s.adders[a].Wake? then s.shared.Signal(s.adders[a].w).counters
                                   else s.shared.counters
    ensures TokensFit(s')
  {
    forall v | 0 <= v < |s'.workers| ensures Tokens(s', v) == if s'.workers[v] == Read then 1 else 0 {
      HeldAfterUpdate(s.adders, a, pc, v);
      assert Tokens(s, v) == if s.workers[v] == Read then 1 else 0;
    }
  }

  lemma AddKeepsTokens(s: State, l: Label)
    requires TokensFit(s) && Enabled(s, l) && (l.Add? || l.Adds?)
    ensures TokensFit(Next(s, l))
  {
    var s' := Next(s, l);
    if s'.adders[l.a].Wake? && s'.adders != s.adders {
      PopIdleMoves(s, s', l.a);
    } else if !s'.fault {
      assert s'.adders == s.adders[l.a := s'.adders[l.a]];
      AdderMoves(s, s', l.a, s'.adders[l.a]);
    } else {
      forall v | 0 <= v < |s'.workers| ensures Tokens(s', v) == if s'.workers[v] == Read then 1 else 0 {
        assert Tokens(s, v) == if s.workers[v] == Read then 1 else 0;
      }
    }
  }

  lemma NextKeepsTokens(s: State, l: Label)
    requires TokensFit(s) && Enabled(s, l) && !l.Stops?
    ensures TokensFit(Next(s, l))
  {
    match l {
      case Work(w) => WorkKeepsTokens(s, w);
      case Add(_, _) => AddKeepsTokens(s, l);
      case Adds(_) => AddKeepsTokens(s, l);
      case Stops =>
    }
  }

  lemma InitialFits(s: State)
    requires Initial(s)
    ensures TokensFit(s) && JobsInOrder(s)
  {
    forall w | 0 <= w < |s.workers| ensures Tokens(s, w) == 0 {
      NoneHeld(s.adders, w);
    }
  }

  lemma {:induction false} NoneHeld(adders: seq<AdderPc>, w: nat)
    requires forall a :: 0 <= a < |adders| ==> adders[a] == Away
    ensures HeldBy(adders, w) == 0
  {
    if adders != [] {
      NoneHeld(adders[1..], w);
    }
  }

  /** A run in which Stop has not been called. */
  ghost predicate BeforeStop(ls: seq<Label>) {
    forall k :: 0 <= k < |ls| ==> !ls[k].Stops?
  }

  lemma {:induction false} TokensHold(s: State, ls: seq<Label>)
    requires TokensFit(s) && LegalRun(s, ls) && BeforeStop(ls)
    ensures TokensFit(Run(s, ls))
    decreases |ls|
  {
    if ls != [] {
      NextKeepsTokens(s, ls[0]);
      TokensHold(Next(s, ls[0]), ls[1..]);
    }
  }

  lemma {:induction false} JobsHold(s: State, ls: seq<Label>)
    requires JobsInOrder(s) && LegalRun(s, ls)
    ensures JobsInOrder(Run(s, ls))
    decreases |ls|
  {
    if ls != [] {
      NextKeepsJobs(s, ls[0]);
      JobsHold(Next(s, ls[0]), ls[1..]);
    }
  }

  /** In every version, through every run before Stop: a worker between its idle push and the
      return of its read has exactly one wake-up coming, any other none. */
  lemma OneWakeUpPerSleeper(s: State, ls: seq<Label>, w: nat)
    requires Initial(s) && LegalRun(s, ls) && BeforeStop(ls) && w < |s.workers|
    ensures var now := Run(s, ls);
            && |now.shared.counters| == |now.workers| == |s.workers|
            && multiset(now.shared.idle)[w] + HeldBy(now.adders, w) + now.shared.counters[w]
               == if now.workers[w] == Read then 1 else 0
  {
    InitialFits(s);
    TokensHold(s, ls);
    SameWorkers(s, ls);
    assert Tokens(Run(s, ls), w) == if Run(s, ls).workers[w] == Read then 1 else 0;
  }

  lemma {:induction false} SameWorkers(s: State, ls: seq<Label>)
    requires LegalRun(s, ls)
    ensures |Run(s, ls).workers| == |s.workers| && |Run(s, ls).adders| == |s.adders|
    ensures Run(s, ls).version == s.version
    decreases |ls|
  {
    if ls != [] {
      SameWorkers(Next(s, ls[0]), ls[1..]);
    }
  }

  /** Through every run, Stop included: the jobs popped, then those queued, are the jobs added,
      in order. */
  lemma JobsLeaveInOrder(s: State, ls: seq<Label>)
    requires Initial(s) && LegalRun(s, ls)
    ensures Run(s, ls).popped + Run(s, ls).shared.queue == Run(s, ls).added
  {
    JobsHold(s, ls);
  }
}
