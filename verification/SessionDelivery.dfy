/** Packets are not left behind, if the send events were delivered to SendJob (which nothing
    in the source does), the fd lives and every write takes the whole batch. */
module SessionDelivery {
  import opened SessionProtocol

  /** The size of the batch a thread is about to write. */
  function BatchSize(tx: Sending, x: SendPc): int
    requires x.Writev? && x.b.from <= |tx.pushed| && x.b.to <= |tx.pushed|
  {
    tx.Offset(x.b.to) - tx.Offset(x.b.from)
  }

  /** Only whole batches are written; writev is at most interrupted. */
  predicate Whole(s: State, l: Label)
    requires Enabled(s, l)
  {
    l.Writes? ==>
      l.write.Interrupted? || (l.write.Wrote? && l.write.n == BatchSize(s.tx, s.pcs[l.t].send))
  }

  ghost predicate WholeRun(s: State, ls: seq<Label>)
    requires LegalRun(s, ls)
    decreases |ls|
  {
    ls == [] || (WholeRun(s, ls[..|ls| - 1]) && Whole(Run(s, ls[..|ls| - 1]), ls[|ls| - 1]))
  }

  /** Won the test-and-set and has not cleared the flag. */
  predicate Owner(pc: Pc) {
    pc.InSend? && (pc.send.Swap? || pc.send.ClearEmpty? || pc.send.CheckFd? || pc.send.FetchFd? || pc.send.Writev?
                   || pc.send.ClearFull?)
    && pc.send.c == FromSend
  }

  /** A thread that will still look at the packet list, or arm the event for it. */
  predicate Caring(pc: Pc) {
    Owner(pc) || pc == InSend(TestAndSet) || pc == InSend(Rearm) || pc == InSend(Swap(FromSendJob))
  }

  /** The pcs of runs with a live fd and whole writes. */
  predicate Expected(pc: Pc) {
    match pc
    case InSend(x) =>
      x.TestAndSet? || x.Rearm? || x.Swap? || x.ClearEmpty? || x.CheckFd? || x.FetchFd? || x.Writev? || x.ClearFull?
    case InDisconnect(step, a) => step == Retire && a == ToIdle
    case _ => true
  }

  /** Someone takes care of queued packets. */
  ghost predicate CaredFor(s: State) {
    s.tx.armed || s.tx.ready > 0 || exists i :: 0 <= i < |s.pcs| && Caring(s.pcs[i])
  }

  ghost predicate FlagHasOwner(s: State) {
    s.tx.flag ==> exists i :: 0 <= i < |s.pcs| && Owner(s.pcs[i])
  }

  ghost predicate Inv(s: State) {
    && s.tx.taken <= |s.tx.pushed|
    && (forall i :: 0 <= i < |s.pcs| ==> Expected(s.pcs[i]))
    && FlagHasOwner(s)
    && (s.tx.taken < |s.tx.pushed| ==> CaredFor(s))
  }

  /** One thread moves; another that owned the flag or cared still does. */
  lemma MoveKeepsInv(s: State, s': State, t: nat, pc: Pc)
    requires Inv(s) && t < |s.pcs| && s'.pcs == s.pcs[t := pc] && Expected(pc)
    requires s'.tx.taken <= |s'.tx.pushed|
    requires s'.tx.flag ==> Owner(pc) || (s.tx.flag && !Owner(s.pcs[t]))
    requires s'.tx.taken < |s'.tx.pushed| ==>
               Caring(pc) || s'.tx.armed || s'.tx.ready > 0 || (s.tx.flag && !Owner(s.pcs[t]))
               || (s.tx.taken < |s.tx.pushed| && !s.tx.armed && s.tx.ready == 0 && !Caring(s.pcs[t]))
    ensures Inv(s')
  {
    if s.tx.flag {
      var i :| 0 <= i < |s.pcs| && Owner(s.pcs[i]);
      if i != t {
        assert Owner(s'.pcs[i]) && Caring(s'.pcs[i]);
      }
    }
    if s.tx.taken < |s.tx.pushed| && !s.tx.armed && s.tx.ready == 0 {
      var i :| 0 <= i < |s.pcs| && Caring(s.pcs[i]);
      if i != t {
        assert Caring(s'.pcs[i]);
      }
    }
    assert s'.pcs[t] == pc;
  }

  lemma SendStepKeepsInv(s: State, t: nat, x: SendPc)
    requires Inv(s) && t < |s.pcs| && s.pcs[t] == InSend(x) && s.fd.live && !x.Writev?
    ensures Inv(GoSend(s, t, x))
  {
    var s' := GoSend(s, t, x);
    assert Expected(s.pcs[t]);
    MoveKeepsInv(s, s', t, s'.pcs[t]);
  }

  lemma WriteKeepsInv(s: State, t: nat, x: SendPc, w: WriteAnswer)
    requires Inv(s) && t < |s.pcs| && s.pcs[t] == InSend(x) && CanWrite(s, x, w)
    requires w.Interrupted? || (w.Wrote? && w.n == BatchSize(s.tx, x))
    ensures Inv(Write(s, t, x.c, x.b, x.fetched, w))
  {
    var s' := Write(s, t, x.c, x.b, x.fetched, w);
    MoveKeepsInv(s, s', t, s'.pcs[t]);
  }

  lemma StartKeepsInv(s: State, t: nat, b: Begin)
    requires Inv(s) && t < |s.pcs| && s.pcs[t].Idle? && CanStart(s, b)
    ensures Inv(Start(s, t, b))
  {
    MoveKeepsInv(s, Start(s, t, b), t, Start(s, t, b).pcs[t]);
  }

  lemma ReceiveKeepsInv(s: State, t: nat, a: RecvAnswer)
    requires Inv(s) && t < |s.pcs| && s.pcs[t].InRecv?
    ensures Inv(Receive(s, t, a))
  {
    MoveKeepsInv(s, Receive(s, t, a), t, Receive(s, t, a).pcs[t]);
  }

  lemma RecvStepKeepsInv(s: State, t: nat, x: RecvPc)
    requires Inv(s) && t < |s.pcs| && s.pcs[t] == InRecv(x)
    ensures Inv(GoRecv(s, t, x))
  {
    var s' := GoRecv(s, t, x);
    if s' != s {
      MoveKeepsInv(s, s', t, s'.pcs[t]);
    }
  }

  lemma FiringKeepsInv(s: State, l: Label)
    requires Inv(s) && Enabled(s, l) && (l.SendFires? || l.RecvFires?)
    ensures Inv(Next(s, l))
  {
    var s' := Next(s, l);
    assert s'.pcs == s.pcs;
    if s.tx.flag {
      var i :| 0 <= i < |s.pcs| && Owner(s.pcs[i]);
      assert Owner(s'.pcs[i]);
    }
    if l.RecvFires? && s.tx.taken < |s.tx.pushed| && !s.tx.armed && s.tx.ready == 0 {
      var i :| 0 <= i < |s.pcs| && Caring(s.pcs[i]);
      assert Caring(s'.pcs[i]);
    }
  }

  lemma NextKeepsInv(s: State, l: Label)
    requires Inv(s) && Enabled(s, l) && Whole(s, l) && s.fd.live && Next(s, l).fd.live
    ensures Inv(Next(s, l))
  {
    match l {
      case Starts(t, b) => StartKeepsInv(s, t, b);
      case Go(t) =>
        assert Expected(s.pcs[t]);
        match s.pcs[t] {
          case InSend(x) => SendStepKeepsInv(s, t, x);
          case InRecv(x) => RecvStepKeepsInv(s, t, x);
          case InDisconnect(x, a) =>
          case Idle =>
        }
      case Writes(t, w) => WriteKeepsInv(s, t, s.pcs[t].send, w);
      case Receives(t, a) => ReceiveKeepsInv(s, t, a);
      case SendFires => FiringKeepsInv(s, l);
      case RecvFires => FiringKeepsInv(s, l);
    }
  }

  lemma LiveBefore(s: State, l: Label)
    requires Enabled(s, l) && Next(s, l).fd.live
    ensures s.fd.live
  {
    if l.Go? {
      match s.pcs[l.t] {
        case InSend(x) => assert GoSend(s, l.t, x).fd.live ==> s.fd.live;
        case InDisconnect(x, a) => assert GoDisconnect(s, l.t, x, a).fd.live ==> s.fd.live;
        case InRecv(x) => assert GoRecv(s, l.t, x).fd == s.fd;
        case Idle =>
      }
    }
  }

  lemma {:induction false} InvHolds(s: State, ls: seq<Label>)
    requires Initial(s) && LegalRun(s, ls) && WholeRun(s, ls) && Run(s, ls).fd.live
    ensures Inv(Run(s, ls))
    decreases |ls|
  {
    if ls != [] {
      LiveBefore(Run(s, ls[..|ls| - 1]), ls[|ls| - 1]);
      InvHolds(s, ls[..|ls| - 1]);
      NextKeepsInv(Run(s, ls[..|ls| - 1]), ls[|ls| - 1]);
    }
  }

  /** Whenever a packet is queued, a thread is between push and test-and-set or between winning
      it and arming the event, or the event is armed, or it has fired and no SendJob has
      swapped the list since; and the flag is never set without an owner. */
  lemma NoStrandedPacket(s: State, ls: seq<Label>)
    requires Initial(s) && LegalRun(s, ls) && WholeRun(s, ls) && Run(s, ls).fd.live
    ensures var now := Run(s, ls);
            && now.tx.taken <= |now.tx.pushed|
            && (now.tx.taken < |now.tx.pushed| ==>
                  now.tx.armed || now.tx.ready > 0 || exists i :: 0 <= i < |now.pcs| && Caring(now.pcs[i]))
            && (now.tx.flag ==> exists i :: 0 <= i < |now.pcs| && Owner(now.pcs[i]))
  {
    InvHolds(s, ls);
  }
}
