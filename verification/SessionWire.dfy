/** The order of the bytes on the wire when packets are sent by Send alone, as in the source,
    where nothing delivers events to SendJob. */
module SessionWire {
  import opened Bytes
  import opened SessionProtocol

  /** Between winning the test-and-set on mIsSending and clearing it. */
  predicate Holding(pc: Pc) {
    pc.InSend? && !pc.send.TestAndSet? && !pc.send.Rearm? && !pc.send.SaveTail? && !pc.send.Arm?
  }

  predicate HasBatch(x: SendPc) {
    x.CheckFd? || x.FetchFd? || x.Writev?
  }

  /** The wire carries the bytes of the pushed stream from the first on, none left out. */
  ghost predicate InOrder(wire: seq<nat>) {
    forall i :: 0 <= i < |wire| ==> wire[i] == i
  }

  lemma OffsetGrows(tx: Sending, from: nat, to: nat)
    requires from < to <= |tx.pushed|
    ensures tx.Offset(from) < tx.Offset(to)
  {
    assert tx.pushed[..to] == tx.pushed[..from] + tx.pushed[from..to];
    ConcatAppend(tx.pushed[..from], tx.pushed[from..to]);
    assert Concat(tx.pushed[from..to]) == tx.pushed[from] + Concat(tx.pushed[from..to][1..]);
  }

  lemma OffsetGrowsWeakly(tx: Sending, from: nat, to: nat)
    requires from <= to <= |tx.pushed|
    ensures tx.Offset(from) <= tx.Offset(to)
  {
    if from < to {
      OffsetGrows(tx, from, to);
    }
  }

  lemma OffsetAfterPush(tx: Sending, p: Packet, k: nat)
    requires k <= |tx.pushed|
    ensures tx.(pushed := tx.pushed + [p]).Offset(k) == tx.Offset(k)
  {
    assert (tx.pushed + [p])[..k] == tx.pushed[..k];
  }

  /** Where the wire must end for the holder to go on from here. */
  ghost predicate Synced(tx: Sending, live: bool, x: SendPc)
    requires tx.taken <= |tx.pushed| && (HasBatch(x) ==> x.b.from <= |tx.pushed|)
  {
    match x
    case Swap(_) => live ==> |tx.wire| == tx.Offset(tx.taken)
    case ClearEmpty(_) => live ==> |tx.wire| == tx.Offset(tx.taken)
    case ClearFull(_) => live ==> |tx.wire| == tx.Offset(tx.taken)
    case CheckFd(_, b) => live ==> |tx.wire| == tx.Offset(b.from)
    case FetchFd(_, b) => live ==> |tx.wire| == tx.Offset(b.from)
    case Writev(_, b, fetched) =>
      (fetched ==> |tx.wire| == tx.Offset(b.from)) && (!fetched ==> !live)
    case ClearGone(_) => !live
    case ClearBlocked(_) => !live
    case ClearBroken(_) => !live
    case ClearHeld(_, _) => !live
    case _ => true
  }

  ghost predicate PcFits(tx: Sending, live: bool, pc: Pc)
    requires tx.taken <= |tx.pushed|
  {
    Holding(pc) ==>
      && (HasBatch(pc.send) ==> pc.send.b.from < pc.send.b.to == tx.taken)
      && (HasBatch(pc.send) && tx.lost ==> tx.lostTo <= pc.send.b.from)
      && (!tx.lost ==> Synced(tx, live, pc.send))
  }

  ghost predicate OneHolder(tx: Sending, pcs: seq<Pc>) {
    && (forall i, j :: 0 <= i < j < |pcs| ==> !(Holding(pcs[i]) && Holding(pcs[j])))
    && (!tx.flag || tx.stuck ==> forall i :: 0 <= i < |pcs| ==> !Holding(pcs[i]))
    && (tx.stuck ==> tx.flag)
  }

  ghost predicate WireFits(tx: Sending)
    requires tx.taken <= |tx.pushed|
  {
    && (tx.torn <==> !InOrder(tx.wire)) && (tx.torn ==> tx.lost)
    && (tx.lost ==> tx.lostTo <= tx.taken)
    && (tx.lost && !tx.torn ==> |tx.wire| < tx.Offset(tx.lostTo))
    && (forall i :: 0 <= i < |tx.wire| ==> tx.wire[i] < tx.Offset(tx.taken))
  }

  ghost predicate Inv(s: State) {
    && s.tx.taken <= |s.tx.pushed|
    && WireFits(s.tx) && OneHolder(s.tx, s.pcs)
    && (s.tx.lost ==> s.order == AsWritten)
    && (forall i :: 0 <= i < |s.pcs| ==> PcFits(s.tx, s.fd.live, s.pcs[i]))
    && (!s.tx.lost && !s.tx.flag && s.fd.live ==> |s.tx.wire| == s.tx.Offset(s.tx.taken))
  }

  /** A step that leaves the stream as it is. */
  lemma SameStream(s: State, s': State, t: nat, pc: Pc)
    requires Inv(s) && t < |s.pcs| && s'.pcs == s.pcs[t := pc] && s'.order == s.order
    requires s'.tx.pushed == s.tx.pushed && s'.tx.taken == s.tx.taken && s'.tx.wire == s.tx.wire
    requires s'.tx.stuck == s.tx.stuck && s'.tx.lost == s.tx.lost && s'.tx.lostTo == s.tx.lostTo
    requires s'.tx.torn == s.tx.torn && (s'.fd.live ==> s.fd.live)
    requires Holding(pc) ==> Holding(s.pcs[t]) && PcFits(s'.tx, s'.fd.live, pc)
    requires s'.tx.flag != s.tx.flag ==>
               Holding(s.pcs[t]) && !Holding(pc)
               && (!s.tx.lost && s'.fd.live ==> Synced(s.tx, s.fd.live, ClearFull(FromSend)))
    ensures Inv(s')
  {
    forall i | 0 <= i < |s'.pcs| ensures PcFits(s'.tx, s'.fd.live, s'.pcs[i]) {
      assert PcFits(s.tx, s.fd.live, s.pcs[i]);
    }
  }

  lemma TestAndSetKeepsInv(s: State, t: nat)
    requires Inv(s) && t < |s.pcs| && s.pcs[t] == InSend(TestAndSet)
    ensures Inv(GoSend(s, t, TestAndSet))
  {
    var s' := GoSend(s, t, TestAndSet);
    if s.tx.flag {
      SameStream(s, s', t, Idle);
    } else {
      forall i | 0 <= i < |s'.pcs|
        ensures PcFits(s'.tx, s'.fd.live, s'.pcs[i]) && (i != t ==> !Holding(s'.pcs[i]))
      {
        assert PcFits(s.tx, s.fd.live, s.pcs[i]);
      }
    }
  }

  lemma SwapKeepsInv(s: State, t: nat, c: Caller)
    requires Inv(s) && t < |s.pcs| && s.pcs[t] == InSend(Swap(c))
    ensures Inv(GoSend(s, t, Swap(c)))
  {
    var s' := GoSend(s, t, Swap(c));
    assert PcFits(s.tx, s.fd.live, s.pcs[t]) && Holding(s.pcs[t]);
    if s.tx.taken == |s.tx.pushed| {
      SameStream(s, s', t, InSend(ClearEmpty(c)));
    } else {
      OffsetGrows(s.tx, s.tx.taken, |s.tx.pushed|);
      forall i | 0 <= i < |s'.pcs| ensures PcFits(s'.tx, s'.fd.live, s'.pcs[i]) {
        assert i != t ==> !Holding(s.pcs[i]);
      }
    }
  }

  lemma SendStepKeepsInv(s: State, t: nat, x: SendPc)
    requires Inv(s) && t < |s.pcs| && s.pcs[t] == InSend(x)
    ensures Inv(GoSend(s, t, x)) && GoSend(s, t, x).tx.torn == s.tx.torn && GoSend(s, t, x).order == s.order
  {
    var s' := GoSend(s, t, x);
    assert PcFits(s.tx, s.fd.live, s.pcs[t]);
    if x.TestAndSet? {
      TestAndSetKeepsInv(s, t);
    } else if x.Swap? {
      SwapKeepsInv(s, t, x.c);
    } else {
      if Clears(x) { ClearKeepsInv(s, t, x); } else { LaterStepKeepsInv(s, t, x); }
    }
  }

  predicate Clears(x: SendPc) {
    x.ClearEmpty? || x.ClearFull? || x.ClearGone? || x.ClearBlocked? || x.ClearBroken? || x.ClearHeld?
  }

  lemma ClearKeepsInv(s: State, t: nat, x: SendPc)
    requires Inv(s) && t < |s.pcs| && s.pcs[t] == InSend(x) && Clears(x)
    ensures Inv(GoSend(s, t, x)) && GoSend(s, t, x).tx.torn == s.tx.torn
  {
    var s' := GoSend(s, t, x);
    assert PcFits(s.tx, s.fd.live, s.pcs[t]);
    SameStream(s, s', t, s'.pcs[t]);
  }

  lemma LaterStepKeepsInv(s: State, t: nat, x: SendPc)
    requires Inv(s) && t < |s.pcs| && s.pcs[t] == InSend(x) && !x.TestAndSet? && !x.Swap? && !Clears(x)
    ensures Inv(GoSend(s, t, x)) && GoSend(s, t, x).tx.torn == s.tx.torn
  {
    var s' := GoSend(s, t, x);
    assert PcFits(s.tx, s.fd.live, s.pcs[t]);
    SameStream(s, s', t, s'.pcs[t]);
  }

  lemma PushKeepsInv(s: State, t: nat, p: Packet)
    requires Inv(s) && t < |s.pcs| && s.pcs[t].Idle?
    ensures Inv(Start(s, t, Send(p))) && Start(s, t, Send(p)).tx.torn == s.tx.torn
  {
    var s' := Start(s, t, Send(p));
    OffsetAfterPush(s.tx, p, s.tx.taken);
    if s.tx.lost {
      OffsetAfterPush(s.tx, p, s.tx.lostTo);
    }
    forall i | 0 <= i < |s'.pcs| ensures PcFits(s'.tx, s'.fd.live, s'.pcs[i]) {
      assert PcFits(s.tx, s.fd.live, s.pcs[i]);
      if Holding(s.pcs[i]) && HasBatch(s.pcs[i].send) {
        OffsetAfterPush(s.tx, p, s.pcs[i].send.b.from);
      }
    }
  }

  /** Appending the next places keeps the wire in order; appending later ones never does. */
  lemma WireGrows(wire: seq<nat>, at: nat, n: nat)
    requires 0 < n
    ensures InOrder(wire + Places(at, n)) <==> InOrder(wire) && at == |wire|
  {
    var w := wire + Places(at, n);
    assert forall i :: 0 <= i < |wire| ==> w[i] == wire[i];
    assert forall i :: |wire| <= i < |w| ==> w[i] == at + (i - |wire|);
    if InOrder(w) {
      assert w[|wire|] == |wire|;
    }
    if InOrder(wire) && at == |wire| {
      forall i | 0 <= i < |w| ensures w[i] == i {
        assert i < |wire| ==> w[i] == wire[i];
      }
    }
  }

  lemma WroteKeepsInv(s: State, t: nat, x: SendPc, n: nat)
    requires Inv(s) && t < |s.pcs| && s.pcs[t] == InSend(x) && CanWrite(s, x, Wrote(n))
    ensures Inv(Write(s, t, x.c, x.b, x.fetched, Wrote(n)))
    ensures Write(s, t, x.c, x.b, x.fetched, Wrote(n)).tx.torn == (s.tx.torn || s.tx.lost)
  {
    var s' := Write(s, t, x.c, x.b, x.fetched, Wrote(n));
    assert PcFits(s.tx, s.fd.live, s.pcs[t]) && Holding(s.pcs[t]);
    var at := s.tx.Offset(x.b.from);
    WireGrows(s.tx.wire, at, n);
    assert s'.tx.wire == s.tx.wire + Places(at, n);
    if s.tx.lost {
      OffsetGrowsWeakly(s.tx, s.tx.lostTo, x.b.from);
    }
    forall i | 0 <= i < |s'.pcs|
      ensures PcFits(s'.tx, s'.fd.live, s'.pcs[i]) && (i != t ==> !Holding(s'.pcs[i]))
    {
      assert i != t ==> !Holding(s.pcs[i]);
    }
    forall i | 0 <= i < |s'.tx.wire| ensures s'.tx.wire[i] < s'.tx.Offset(s'.tx.taken) {
      if i >= |s.tx.wire| {
        assert s'.tx.wire[i] == at + (i - |s.tx.wire|);
      }
    }
  }

  lemma FailureKeepsInv(s: State, t: nat, x: SendPc, w: WriteAnswer)
    requires Inv(s) && t < |s.pcs| && s.pcs[t] == InSend(x) && CanWrite(s, x, w) && !w.Wrote?
    ensures Inv(Write(s, t, x.c, x.b, x.fetched, w))
    ensures Write(s, t, x.c, x.b, x.fetched, w).tx.torn == s.tx.torn
  {
    var s' := Write(s, t, x.c, x.b, x.fetched, w);
    assert PcFits(s.tx, s.fd.live, s.pcs[t]) && Holding(s.pcs[t]);
    if s'.tx.lost != s.tx.lost {
      OffsetGrows(s.tx, x.b.from, x.b.to);
      forall i | 0 <= i < |s'.pcs| ensures PcFits(s'.tx, s'.fd.live, s'.pcs[i]) {
        assert i != t ==> !Holding(s.pcs[i]);
      }
    } else {
      SameStream(s, s', t, s'.pcs[t]);
    }
  }

  /** Every run in which no SendJob is run. */
  ghost predicate SendOnly(ls: seq<Label>) {
    forall k :: 0 <= k < |ls| ==> !(ls[k].Starts? && ls[k].begin.RunSendJob?)
  }

  lemma GoElsewhere(s: State, t: nat)
    requires Inv(s) && Enabled(s, Go(t)) && !s.pcs[t].InSend?
    ensures Inv(GoStep(s, t)) && GoStep(s, t).tx.torn == s.tx.torn
  {
    var s' := GoStep(s, t);
    match s.pcs[t] {
      case InDisconnect(x, a) =>
        assert s' == GoDisconnect(s, t, x, a);
        SameStream(s, s', t, s'.pcs[t]);
      case InRecv(x) =>
        assert s' == GoRecv(s, t, x);
        SameStream(s, s', t, s'.pcs[t]);
      case Idle =>
    }
  }

  lemma FiringKeepsInv(s: State, l: Label)
    requires Inv(s) && Enabled(s, l) && (l.SendFires? || l.RecvFires?)
    ensures Inv(Next(s, l)) && Next(s, l).tx.torn == s.tx.torn
  {
    var s' := Next(s, l);
    forall i | 0 <= i < |s'.pcs| ensures PcFits(s'.tx, s'.fd.live, s'.pcs[i]) {
      assert PcFits(s.tx, s.fd.live, s.pcs[i]);
    }
  }

  lemma StartKeepsInv(s: State, t: nat, b: Begin)
    requires Inv(s) && t < |s.pcs| && s.pcs[t].Idle? && !b.RunSendJob?
    ensures Inv(Start(s, t, b)) && Start(s, t, b).tx.torn == s.tx.torn
  {
    match b {
      case Send(p) => PushKeepsInv(s, t, p);
      case Disconnect => SameStream(s, Start(s, t, b), t, InDisconnect(Retire, ToIdle));
      case RunRecvJob => SameStream(s, Start(s, t, b), t, InRecv(Check));
      case RunSendJob =>
    }
  }

  lemma ReceiveKeepsInv(s: State, t: nat, a: RecvAnswer)
    requires Inv(s) && t < |s.pcs| && s.pcs[t].InRecv? && CanReceive(s, s.pcs[t].recv, a)
    ensures Inv(Receive(s, t, a)) && Receive(s, t, a).tx.torn == s.tx.torn
  {
    SameStream(s, Receive(s, t, a), t, Receive(s, t, a).pcs[t]);
  }

  lemma NextKeepsInv(s: State, l: Label)
    requires Inv(s) && Enabled(s, l) && !(l.Starts? && l.begin.RunSendJob?)
    ensures Inv(Next(s, l)) && Next(s, l).order == s.order
    ensures Next(s, l).tx.torn
            == (s.tx.torn || (s.tx.lost && l.Writes? && l.write.Wrote?))
  {
    match l {
      case Starts(t, b) => StartKeepsInv(s, t, b);
      case Go(t) => if s.pcs[t].InSend? { SendStepKeepsInv(s, t, s.pcs[t].send); } else { GoElsewhere(s, t); }
      case Writes(t, w) =>
        if w.Wrote? { WroteKeepsInv(s, t, s.pcs[t].send, w.n); } else { FailureKeepsInv(s, t, s.pcs[t].send, w); }
      case Receives(t, a) => ReceiveKeepsInv(s, t, a);
      case SendFires => FiringKeepsInv(s, l);
      case RecvFires => FiringKeepsInv(s, l);
    }
  }

  lemma {:induction false} InvHolds(s: State, ls: seq<Label>)
    requires Initial(s) && LegalRun(s, ls) && SendOnly(ls)
    ensures Inv(Run(s, ls)) && Run(s, ls).order == s.order
    decreases |ls|
  {
    if ls == [] {
      assert s.tx.pushed[..0] == [];
    } else {
      InvHolds(s, ls[..|ls| - 1]);
      NextKeepsInv(Run(s, ls[..|ls| - 1]), ls[|ls| - 1]);
    }
  }

  /** At most one thread at a time is between winning the test-and-set on mIsSending and
      clearing it, and the flag is set while there is one. */
  lemma SendIsExclusive(s: State, ls: seq<Label>)
    requires Initial(s) && LegalRun(s, ls) && SendOnly(ls)
    ensures var now := Run(s, ls);
            && (forall i, j :: 0 <= i < j < |now.pcs| ==> !(Holding(now.pcs[i]) && Holding(now.pcs[j])))
            && ((exists i :: 0 <= i < |now.pcs| && Holding(now.pcs[i])) ==> now.tx.flag)
  {
    InvHolds(s, ls);
  }

  /** With the fd retired before the flag is cleared, the wire is in order through every run:
      full, short, interrupted, blocked and failed writes in any interleaving. */
  lemma RepairedWireInOrder(s: State, ls: seq<Label>)
    requires Initial(s) && LegalRun(s, ls) && SendOnly(ls) && s.order == RetireFirst
    ensures InOrder(Run(s, ls).tx.wire)
  {
    InvHolds(s, ls);
  }

  predicate IsFailure(l: Label) {
    l.Writes? && (l.write.WouldBlock? || l.write.Failed?)
  }

  /** Some writev of the run failed. */
  ghost predicate AnyFailure(ls: seq<Label>) {
    exists k :: 0 <= k < |ls| && IsFailure(ls[k])
  }

  /** Some writev of the run wrote after an earlier one had failed. */
  ghost predicate WriteAfterFailure(ls: seq<Label>) {
    exists j, k :: 0 <= j < k < |ls| && IsFailure(ls[j]) && ls[k].Writes? && ls[k].write.Wrote?
  }

  lemma AnyFailureUnfolds(ls: seq<Label>)
    requires ls != []
    ensures var init, last := ls[..|ls| - 1], ls[|ls| - 1];
            && (AnyFailure(ls) <==> AnyFailure(init) || IsFailure(last))
            && (WriteAfterFailure(ls)
                <==> WriteAfterFailure(init) || (AnyFailure(init) && last.Writes? && last.write.Wrote?))
  {
    var init, last := ls[..|ls| - 1], ls[|ls| - 1];
    if AnyFailure(init) {
      var j :| 0 <= j < |init| && IsFailure(init[j]);
      assert IsFailure(ls[j]);
    }
    if IsFailure(last) {
      assert IsFailure(ls[|ls| - 1]);
    }
    if WriteAfterFailure(init) {
      var j, k :| 0 <= j < k < |init| && IsFailure(init[j]) && init[k].Writes? && init[k].write.Wrote?;
      assert IsFailure(ls[j]) && ls[k] == init[k];
    }
    if AnyFailure(init) && last.Writes? && last.write.Wrote? {
      var j :| 0 <= j < |init| && IsFailure(init[j]);
      assert IsFailure(ls[j]) && ls[|ls| - 1] == last;
    }
    if WriteAfterFailure(ls) {
      var j, k :| 0 <= j < k < |ls| && IsFailure(ls[j]) && ls[k].Writes? && ls[k].write.Wrote?;
      assert IsFailure(init[j]);
      assert k < |init| ==> init[k] == ls[k];
    }
  }

  /** After a failed writev either a batch is lost with the fd in place, or no thread can
      write any more. */
  ghost predicate FailureSeen(s: State) {
    s.tx.lost
    || (!s.fd.live && forall i :: 0 <= i < |s.pcs| && s.pcs[i].InSend? && s.pcs[i].send.Writev? ==>
                                    !s.pcs[i].send.fetched)
  }

  lemma SendStepKeepsFailureSeen(s: State, t: nat, x: SendPc)
    requires FailureSeen(s) && t < |s.pcs| && s.pcs[t] == InSend(x) && s.tx.taken <= |s.tx.pushed|
    ensures FailureSeen(GoSend(s, t, x))
  {
    var s' := GoSend(s, t, x);
    assert s'.pcs == s.pcs[t := s'.pcs[t]];
  }

  lemma NextKeepsFailureSeen(s: State, l: Label)
    requires FailureSeen(s) && Enabled(s, l)
    ensures FailureSeen(Next(s, l))
  {
    var s' := Next(s, l);
    match l {
      case Go(t) =>
        match s.pcs[t] {
          case InSend(x) => SendStepKeepsFailureSeen(s, t, x);
          case InDisconnect(x, a) => assert s' == GoDisconnect(s, t, x, a);
          case InRecv(x) => assert s' == GoRecv(s, t, x);
          case Idle =>
        }
      case _ =>
    }
  }

  lemma FailureIsSeen(s: State, l: Label)
    requires Inv(s) && s.order == AsWritten && Enabled(s, l) && IsFailure(l)
    ensures FailureSeen(Next(s, l))
  {
    var x := s.pcs[l.t].send;
    assert PcFits(s.tx, s.fd.live, s.pcs[l.t]);
    assert forall i :: 0 <= i < |s.pcs| && i != l.t ==> !Holding(s.pcs[i]);
  }

  lemma NoWriteOnceSeen(s: State, l: Label)
    requires FailureSeen(s) && Enabled(s, l) && l.Writes? && l.write.Wrote?
    ensures s.tx.lost
  {
  }

  lemma {:induction false} TornIffWriteAfterFailure(s: State, ls: seq<Label>)
    requires Initial(s) && LegalRun(s, ls) && SendOnly(ls) && s.order == AsWritten
    ensures Inv(Run(s, ls)) && Run(s, ls).order == AsWritten
    ensures AnyFailure(ls) ==> FailureSeen(Run(s, ls))
    ensures Run(s, ls).tx.lost ==> AnyFailure(ls)
    ensures Run(s, ls).tx.torn <==> WriteAfterFailure(ls)
    decreases |ls|
  {
    InvHolds(s, ls);
    if ls != [] {
      var init, last := ls[..|ls| - 1], ls[|ls| - 1];
      var now := Run(s, init);
      TornIffWriteAfterFailure(s, init);
      AnyFailureUnfolds(ls);
      NextKeepsInv(now, last);
      LossOnlyByFailure(now, last);
      if AnyFailure(init) {
        NextKeepsFailureSeen(now, last);
        if last.Writes? && last.write.Wrote? {
          NoWriteOnceSeen(now, last);
        }
      }
      if IsFailure(last) {
        FailureIsSeen(now, last);
      }
    }
  }

  lemma SendStepLosesNothing(s: State, t: nat, x: SendPc)
    requires t < |s.pcs| && s.tx.taken <= |s.tx.pushed|
    ensures GoSend(s, t, x).tx.lost == s.tx.lost
  {
  }

  lemma GoLosesNothing(s: State, t: nat)
    requires Enabled(s, Go(t))
    ensures GoStep(s, t).tx.lost == s.tx.lost
  {
    match s.pcs[t] {
      case InSend(x) => SendStepLosesNothing(s, t, x);
      case InDisconnect(x, a) => assert GoDisconnect(s, t, x, a).tx == s.tx;
      case InRecv(x) => assert GoRecv(s, t, x).tx == s.tx;
      case Idle =>
    }
  }

  lemma LossOnlyByFailure(s: State, l: Label)
    requires Enabled(s, l)
    ensures Next(s, l).tx.lost ==> s.tx.lost || IsFailure(l)
  {
    match l {
      case Go(t) => GoLosesNothing(s, t);
      case _ =>
    }
  }

  /** As written, the wire is in order after exactly those runs in which nothing is written
      after a failed writev. */
  lemma WireInOrderIff(s: State, ls: seq<Label>)
    requires Initial(s) && LegalRun(s, ls) && SendOnly(ls) && s.order == AsWritten
    ensures InOrder(Run(s, ls).tx.wire) <==> !WriteAfterFailure(ls)
  {
    TornIffWriteAfterFailure(s, ls);
  }

  /** The bytes themselves. */
  ghost function WireBytes(tx: Sending): seq<Byte>
    requires tx.taken <= |tx.pushed| && WireFits(tx)
  {
    OffsetGrowsWeakly(tx, tx.taken, |tx.pushed|);
    assert tx.pushed[..|tx.pushed|] == tx.pushed;
    seq(|tx.wire|, i requires 0 <= i < |tx.wire| => Concat(tx.pushed)[tx.wire[i]])
  }

  /** A wire in order is a prefix of all pushed packets, concatenated in lock order. */
  lemma InOrderIsPrefix(s: State, ls: seq<Label>)
    requires Initial(s) && LegalRun(s, ls) && SendOnly(ls)
    ensures Inv(Run(s, ls))
    ensures InOrder(Run(s, ls).tx.wire) ==> WireBytes(Run(s, ls).tx) <= Concat(Run(s, ls).tx.pushed)
  {
    InvHolds(s, ls);
    var tx := Run(s, ls).tx;
    OffsetGrowsWeakly(tx, tx.taken, |tx.pushed|);
    assert tx.pushed[..|tx.pushed|] == tx.pushed;
    if InOrder(tx.wire) && tx.wire != [] {
      assert tx.wire[|tx.wire| - 1] == |tx.wire| - 1;
    }
  }

  lemma SendStepKeepsStuck(s: State, t: nat, x: SendPc)
    requires Inv(s) && s.tx.stuck && t < |s.pcs| && s.pcs[t] == InSend(x)
    ensures GoSend(s, t, x).tx.stuck && GoSend(s, t, x).tx.wire == s.tx.wire
  {
  }

  lemma StepKeepsStuck(s: State, l: Label)
    requires Inv(s) && s.tx.stuck && Enabled(s, l)
    ensures Next(s, l).tx.stuck && Next(s, l).tx.wire == s.tx.wire
  {
    match l {
      case Go(t) =>
        match s.pcs[t] {
          case InSend(x) => SendStepKeepsStuck(s, t, x);
          case InDisconnect(x, a) => assert GoDisconnect(s, t, x, a).tx == s.tx;
          case InRecv(x) => assert GoRecv(s, t, x).tx == s.tx;
          case Idle =>
        }
      case _ =>
    }
  }

  /** A short write is the last one: the flag stays set for good, and not one more byte reaches
      the wire, neither of the saved packets nor of any packet pushed later. */
  lemma {:induction false} ShortWriteIsTheLast(s: State, ls: seq<Label>, more: seq<Label>)
    requires Initial(s) && LegalRun(s, ls) && SendOnly(ls) && Run(s, ls).tx.stuck
    requires LegalRun(s, ls + more) && SendOnly(ls + more)
    ensures Run(s, ls + more).tx.stuck && Run(s, ls + more).tx.flag
    ensures Run(s, ls + more).tx.wire == Run(s, ls).tx.wire
    decreases |more|
  {
    InvHolds(s, ls + more);
    if more == [] {
      assert ls + more == ls;
    } else {
      var init := more[..|more| - 1];
      assert (ls + more)[..|ls + more| - 1] == ls + init;
      ShortWriteIsTheLast(s, ls, init);
      InvHolds(s, ls + init);
      StepKeepsStuck(Run(s, ls + init), (ls + more)[|ls + more| - 1]);
    }
  }
}
