/** Exactly when the code as written leaves a packet behind: still queued, with no thread on
    its way to the packet list and nothing in the source that sends one there. */
module SessionStranding {
  import opened SessionProtocol
  import opened SessionWire

  /** Going to take the flag or to swap the list. */
  predicate WillLook(pc: Pc) {
    pc.InSend? && (pc.send.TestAndSet? || pc.send.Swap?)
  }

  ghost predicate NobodyLooks(pcs: seq<Pc>) {
    forall i :: 0 <= i < |pcs| ==> !WillLook(pcs[i])
  }

  ghost predicate Stranded(s: State) {
    s.tx.taken < |s.tx.pushed| && NobodyLooks(s.pcs)
  }

  /** A test-and-set that finds the flag taken, packets still queued, and no other thread on
      its way to them. */
  ghost predicate LastOneLoses(s: State, l: Label) {
    && l.Go? && l.t < |s.pcs| && s.pcs[l.t] == InSend(TestAndSet)
    && s.tx.flag && s.tx.taken < |s.tx.pushed|
    && forall i :: 0 <= i < |s.pcs| && i != l.t ==> !WillLook(s.pcs[i])
  }

  /** Sends a thread to the packet list. */
  predicate Revives(l: Label) {
    l.Starts? && (l.begin.Send? || l.begin.RunSendJob?)
  }

  /** Thread t goes on, and the list stays as it is. */
  lemma ListUntouched(s: State, s': State, t: nat)
    requires t < |s.pcs| == |s'.pcs| && s'.pcs == s.pcs[t := s'.pcs[t]]
    requires s'.tx.taken == s.tx.taken && s'.tx.pushed == s.tx.pushed
    requires !WillLook(s.pcs[t]) && !WillLook(s'.pcs[t])
    ensures Stranded(s') <==> Stranded(s)
  {
    if NobodyLooks(s'.pcs) {
      forall i | 0 <= i < |s.pcs| ensures !WillLook(s.pcs[i]) {
        assert i != t ==> s'.pcs[i] == s.pcs[i];
      }
    }
  }

  lemma SendStepStrandsIff(s: State, t: nat, x: SendPc)
    requires s.tx.taken <= |s.tx.pushed| && t < |s.pcs| && s.pcs[t] == InSend(x) && !x.Writev?
    ensures Stranded(GoSend(s, t, x)) <==> Stranded(s) || LastOneLoses(s, Go(t))
  {
    var s' := GoSend(s, t, x);
    if x.TestAndSet? {
      assert s'.pcs[t] == if s.tx.flag then Idle else InSend(Swap(FromSend));
      assert forall i :: 0 <= i < |s.pcs| && i != t ==> s'.pcs[i] == s.pcs[i];
      assert WillLook(s.pcs[t]);
    } else if x.Swap? {
      assert s'.tx.taken == |s'.tx.pushed| && WillLook(s.pcs[t]);
    } else {
      ListUntouched(s, s', t);
    }
  }

  lemma GoStrandsIff(s: State, t: nat)
    requires Enabled(s, Go(t))
    ensures Stranded(GoStep(s, t)) <==> Stranded(s) || LastOneLoses(s, Go(t))
  {
    match s.pcs[t] {
      case InSend(x) => SendStepStrandsIff(s, t, x);
      case InDisconnect(x, a) => ListUntouched(s, GoDisconnect(s, t, x, a), t);
      case InRecv(x) => ListUntouched(s, GoRecv(s, t, x), t);
      case Idle =>
    }
  }

  lemma StartStrandsIff(s: State, t: nat, b: Begin)
    requires Enabled(s, Starts(t, b))
    ensures Stranded(Start(s, t, b)) <==> Stranded(s) && !Revives(Starts(t, b))
  {
    var s' := Start(s, t, b);
    if Revives(Starts(t, b)) {
      assert WillLook(s'.pcs[t]);
    } else {
      ListUntouched(s, s', t);
    }
  }

  /** Every step: a packet is stranded by the last test-and-set that finds the flag taken,
      and stays stranded until a Send or a SendJob begins. */
  lemma StrandedAfterIff(s: State, l: Label)
    requires Enabled(s, l)
    ensures Stranded(Next(s, l)) <==> LastOneLoses(s, l) || (Stranded(s) && !Revives(l))
  {
    match l {
      case Starts(t, b) => StartStrandsIff(s, t, b);
      case Go(t) => GoStrandsIff(s, t);
      case Writes(t, w) => ListUntouched(s, Next(s, l), t);
      case Receives(t, a) => ListUntouched(s, Next(s, l), t);
      case SendFires =>
      case RecvFires =>
    }
  }

  /** Step number k of the run strands a packet, and no Send or SendJob begins after it. */
  ghost predicate StrandsAt(s: State, ls: seq<Label>, k: nat) {
    && k < |ls| && LegalRun(s, ls[..k]) && LastOneLoses(Run(s, ls[..k]), ls[k])
    && forall j :: k < j < |ls| ==> !Revives(ls[j])
  }

  lemma StrandsAtUnfolds(s: State, ls: seq<Label>, k: nat)
    requires LegalRun(s, ls) && k < |ls|
    ensures var init, last := ls[..|ls| - 1], ls[|ls| - 1];
            StrandsAt(s, ls, k)
            <==> if k == |init| then LastOneLoses(Run(s, init), last)
                 else StrandsAt(s, init, k) && !Revives(last)
  {
    var init := ls[..|ls| - 1];
    if k < |init| {
      assert init[..k] == ls[..k] && init[k] == ls[k];
      assert forall j :: 0 <= j < |init| ==> init[j] == ls[j];
    }
  }

  /** For every run as written: it ends with a stranded packet exactly if the last thread on
      its way lost a test-and-set and no Send or SendJob has begun since. */
  lemma {:induction false} RunStrandsIff(s: State, ls: seq<Label>)
    requires Initial(s) && LegalRun(s, ls)
    ensures Stranded(Run(s, ls)) <==> exists k :: 0 <= k < |ls| && StrandsAt(s, ls, k)
    decreases |ls|
  {
    if ls != [] {
      var init, last := ls[..|ls| - 1], ls[|ls| - 1];
      RunStrandsIff(s, init);
      StrandedAfterIff(Run(s, init), last);
      StrandsAtUnfolds(s, ls, |init|);
      if Stranded(Run(s, init)) {
        var k :| 0 <= k < |init| && StrandsAt(s, init, k);
        StrandsAtUnfolds(s, ls, k);
      }
      if k :| 0 <= k < |ls| && StrandsAt(s, ls, k) {
        StrandsAtUnfolds(s, ls, k);
        assert k < |init| ==> StrandsAt(s, init, k);
      }
    }
  }

  /** So when all threads have come to rest, packets are left over exactly then. */
  lemma LeftBehindIff(s: State, ls: seq<Label>)
    requires Initial(s) && LegalRun(s, ls)
    requires forall pc :: pc in Run(s, ls).pcs ==> pc.Idle?
    ensures Run(s, ls).tx.taken < |Run(s, ls).tx.pushed| <==> exists k :: 0 <= k < |ls| && StrandsAt(s, ls, k)
  {
    var now := Run(s, ls);
    RunStrandsIff(s, ls);
    assert NobodyLooks(now.pcs) by {
      forall i | 0 <= i < |now.pcs| ensures !WillLook(now.pcs[i]) {
        assert now.pcs[i] in now.pcs;
      }
    }
  }

  /** The flag is taken by a thread inside DoSend, or a short write left it so. */
  ghost predicate FlagIsTaken(s: State) {
    s.tx.flag && !s.tx.stuck ==> exists i :: 0 <= i < |s.pcs| && Holding(s.pcs[i])
  }

  lemma MoveKeepsTaken(s: State, s': State, t: nat)
    requires FlagIsTaken(s) && t < |s.pcs| == |s'.pcs| && s'.pcs == s.pcs[t := s'.pcs[t]]
    requires s.tx.stuck ==> s'.tx.stuck
    requires s'.tx.flag && !s'.tx.stuck ==> Holding(s'.pcs[t]) || (s.tx.flag && !Holding(s.pcs[t]))
    ensures FlagIsTaken(s')
  {
    if s.tx.flag && !s.tx.stuck {
      var i :| 0 <= i < |s.pcs| && Holding(s.pcs[i]);
      assert i != t ==> Holding(s'.pcs[i]);
    }
    assert Holding(s'.pcs[t]) ==> exists i :: 0 <= i < |s'.pcs| && Holding(s'.pcs[i]);
  }

  lemma SendStepKeepsTaken(s: State, t: nat, x: SendPc)
    requires FlagIsTaken(s) && s.tx.taken <= |s.tx.pushed| && t < |s.pcs| && s.pcs[t] == InSend(x) && !x.Writev?
    ensures FlagIsTaken(GoSend(s, t, x))
  {
    MoveKeepsTaken(s, GoSend(s, t, x), t);
  }

  lemma NextKeepsTaken(s: State, l: Label)
    requires FlagIsTaken(s) && Enabled(s, l)
    ensures FlagIsTaken(Next(s, l))
  {
    match l {
      case Starts(t, b) => MoveKeepsTaken(s, Start(s, t, b), t);
      case Go(t) =>
        match s.pcs[t] {
          case InSend(x) => SendStepKeepsTaken(s, t, x);
          case InDisconnect(x, a) => MoveKeepsTaken(s, GoDisconnect(s, t, x, a), t);
          case InRecv(x) => MoveKeepsTaken(s, GoRecv(s, t, x), t);
          case Idle =>
        }
      case Writes(t, w) => MoveKeepsTaken(s, Next(s, l), t);
      case Receives(t, a) => MoveKeepsTaken(s, Next(s, l), t);
      case SendFires => assert Next(s, l).pcs == s.pcs;
      case RecvFires => assert Next(s, l).pcs == s.pcs;
    }
  }

  lemma {:induction false} FlagIsTakenAlways(s: State, ls: seq<Label>)
    requires Initial(s) && LegalRun(s, ls)
    ensures FlagIsTaken(Run(s, ls))
    decreases |ls|
  {
    if ls != [] {
      FlagIsTakenAlways(s, ls[..|ls| - 1]);
      NextKeepsTaken(Run(s, ls[..|ls| - 1]), ls[|ls| - 1]);
    }
  }

  /** Who has the flag when a packet is stranded, in every run: a thread that is past its
      swap, unless a short write has left the flag set. */
  lemma StrandedPastTheSwap(s: State, ls: seq<Label>, l: Label)
    requires Initial(s) && LegalRun(s, ls) && LastOneLoses(Run(s, ls), l)
    ensures var now := Run(s, ls);
            now.tx.stuck
            || exists i :: 0 <= i < |now.pcs| && i != l.t && Holding(now.pcs[i]) && !now.pcs[i].send.Swap?
  {
    FlagIsTakenAlways(s, ls);
  }
}
