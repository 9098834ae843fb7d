/** When OnDisconnected is called, in every interleaving: exactly by a thread that has found
    both flags clear, one after the other. */
module SessionCallbacks {
  import opened SessionProtocol

  predicate At(pc: Pc, step: DisconnectPc) {
    pc.InDisconnect? && pc.step == step
  }

  /** Thread t is at this step of Disconnect, and takes it. */
  predicate Takes(s: State, l: Label, t: nat, step: DisconnectPc) {
    l == Go(t) && t < |s.pcs| && At(s.pcs[t], step)
  }

  /** Thread t finds that the session does not receive, or does not send. */
  predicate FindsNotRecving(s: State, l: Label, t: nat) {
    Takes(s, l, t, ReadRecving) && !s.rx.flag
  }

  predicate FindsNotSending(s: State, l: Label, t: nat) {
    Takes(s, l, t, ReadSending) && !s.tx.flag
  }

  lemma SendStepStaysOut(s: State, t: nat, x: SendPc)
    requires s.tx.taken <= |s.tx.pushed| && t < |s.pcs| && s.pcs[t] == InSend(x)
    ensures GoSend(s, t, x).rx.calls == s.rx.calls && |GoSend(s, t, x).pcs| == |s.pcs|
    ensures forall u :: 0 <= u < |s.pcs| && u != t ==> GoSend(s, t, x).pcs[u] == s.pcs[u]
    ensures !At(GoSend(s, t, x).pcs[t], ReadSending) && !At(GoSend(s, t, x).pcs[t], CallDisconnected)
  {
  }

  /** What one step does to the calls and to thread t's way to the next one. */
  ghost predicate Sound(s: State, l: Label, s': State, t: nat) {
    && t < |s.pcs| == |s'.pcs|
    && (At(s'.pcs[t], ReadSending) <==>
          FindsNotRecving(s, l, t) || (At(s.pcs[t], ReadSending) && l != Go(t)))
    && (At(s'.pcs[t], CallDisconnected) <==>
          FindsNotSending(s, l, t) || (At(s.pcs[t], CallDisconnected) && l != Go(t)))
  }

  lemma GoIsSound(s: State, u: nat, t: nat)
    requires Enabled(s, Go(u)) && t < |s.pcs|
    ensures Sound(s, Go(u), GoStep(s, u), t)
  {
    match s.pcs[u] {
      case InSend(x) => SendStepStaysOut(s, u, x);
      case InDisconnect(x, a) => assert GoStep(s, u) == GoDisconnect(s, u, x, a);
      case InRecv(x) => assert GoStep(s, u) == GoRecv(s, u, x);
      case Idle =>
    }
  }

  /** In every step a thread comes to CallDisconnected exactly by finding the sending flag
      clear, and to that reading exactly by finding the receiving flag clear. */
  lemma ReachesCallIff(s: State, l: Label, t: nat)
    requires Enabled(s, l) && t < |s.pcs|
    ensures Sound(s, l, Next(s, l), t)
  {
    match l {
      case Go(u) => GoIsSound(s, u, t);
      case _ =>
    }
  }

  /** A step calls OnDisconnected exactly if it is CallDisconnected, and OnRecv exactly if the
      worker shows the bytes; no call is ever taken back. */
  lemma CallsExactly(s: State, l: Label)
    requires Enabled(s, l)
    ensures Next(s, l).rx.calls
            == s.rx.calls
               + if l.Go? && Takes(s, l, l.t, CallDisconnected) then [OnDisconnected]
                 else if l.Receives? && l.answer == Shown then [OnRecv]
                 else []
  {
    match l {
      case Go(t) =>
        match s.pcs[t] {
          case InSend(x) => SendStepStaysOut(s, t, x);
          case InDisconnect(x, a) => assert Next(s, l) == GoDisconnect(s, t, x, a);
          case InRecv(x) => assert Next(s, l) == GoRecv(s, t, x);
          case Idle =>
        }
      case _ =>
    }
  }

  /** In step number j of the run thread t finds the receiving flag clear, in step number k the
      sending flag, and it takes no other step after j. */
  ghost predicate FoundBoth(s: State, ls: seq<Label>, t: nat, j: nat, k: nat) {
    && j < k < |ls| && LegalRun(s, ls[..j]) && LegalRun(s, ls[..k])
    && FindsNotRecving(Run(s, ls[..j]), ls[j], t) && FindsNotSending(Run(s, ls[..k]), ls[k], t)
    && forall i :: j < i < |ls| && i != k ==> ls[i] != Go(t)
  }

  ghost predicate FoundOne(s: State, ls: seq<Label>, t: nat, j: nat) {
    && j < |ls| && LegalRun(s, ls[..j]) && FindsNotRecving(Run(s, ls[..j]), ls[j], t)
    && forall i :: j < i < |ls| ==> ls[i] != Go(t)
  }

  lemma FoundOneUnfolds(s: State, ls: seq<Label>, t: nat, j: nat)
    requires LegalRun(s, ls) && j < |ls|
    ensures var init, last := ls[..|ls| - 1], ls[|ls| - 1];
            FoundOne(s, ls, t, j)
            <==> if j == |init| then FindsNotRecving(Run(s, init), last, t)
                 else FoundOne(s, init, t, j) && last != Go(t)
  {
    var init := ls[..|ls| - 1];
    if j < |init| {
      assert init[..j] == ls[..j];
      assert forall i :: 0 <= i < |init| ==> init[i] == ls[i];
    }
  }

  lemma FoundBothUnfolds(s: State, ls: seq<Label>, t: nat, j: nat, k: nat)
    requires LegalRun(s, ls) && j < k < |ls|
    ensures var init, last := ls[..|ls| - 1], ls[|ls| - 1];
            FoundBoth(s, ls, t, j, k)
            <==> if k == |init| then FoundOne(s, init, t, j) && FindsNotSending(Run(s, init), last, t)
                 else FoundBoth(s, init, t, j, k) && last != Go(t)
  {
    var init := ls[..|ls| - 1];
    assert init[..j] == ls[..j] && init[..k] == ls[..k];
    assert forall i :: 0 <= i < |init| ==> init[i] == ls[i];
  }

  lemma {:induction false} BeforeReadSending(s: State, ls: seq<Label>, t: nat)
    requires Initial(s) && LegalRun(s, ls) && t < |s.pcs|
    ensures |Run(s, ls).pcs| == |s.pcs|
    ensures At(Run(s, ls).pcs[t], ReadSending) <==> exists j :: 0 <= j < |ls| && FoundOne(s, ls, t, j)
    decreases |ls|
  {
    if ls != [] {
      var init, last := ls[..|ls| - 1], ls[|ls| - 1];
      BeforeReadSending(s, init, t);
      ReachesCallIff(Run(s, init), last, t);
      FoundOneUnfolds(s, ls, t, |init|);
      if At(Run(s, init).pcs[t], ReadSending) {
        var j :| 0 <= j < |init| && FoundOne(s, init, t, j);
        FoundOneUnfolds(s, ls, t, j);
      }
      if j :| 0 <= j < |ls| && FoundOne(s, ls, t, j) {
        FoundOneUnfolds(s, ls, t, j);
      }
    }
  }

  /** Through every run: a thread is about to call OnDisconnected exactly if it has found first
      the receiving and then the sending flag clear, and has done nothing else since. */
  lemma {:induction false} CallerFoundBothClear(s: State, ls: seq<Label>, t: nat)
    requires Initial(s) && LegalRun(s, ls) && t < |s.pcs|
    ensures |Run(s, ls).pcs| == |s.pcs|
    ensures At(Run(s, ls).pcs[t], CallDisconnected)
            <==> exists j, k :: 0 <= j < k < |ls| && FoundBoth(s, ls, t, j, k)
    decreases |ls|
  {
    if ls != [] {
      var init, last := ls[..|ls| - 1], ls[|ls| - 1];
      CallerFoundBothClear(s, init, t);
      BeforeReadSending(s, init, t);
      ReachesCallIff(Run(s, init), last, t);
      if At(Run(s, init).pcs[t], CallDisconnected) {
        var j, k :| 0 <= j < k < |init| && FoundBoth(s, init, t, j, k);
        FoundBothUnfolds(s, ls, t, j, k);
      }
      if At(Run(s, init).pcs[t], ReadSending) {
        var j :| 0 <= j < |init| && FoundOne(s, init, t, j);
        FoundBothUnfolds(s, ls, t, j, |init|);
      }
      if j, k :| 0 <= j < k < |ls| && FoundBoth(s, ls, t, j, k) {
        FoundBothUnfolds(s, ls, t, j, k);
      }
    }
  }
}
