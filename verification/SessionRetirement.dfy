/** What every interleaving keeps about the socket and the callbacks: the fd is retired once,
    deleted from epoll before it is closed, and no OnRecv comes after an OnDisconnected. */
module SessionRetirement {
  import opened SessionProtocol

  /** Won the test-and-set on the fd, and has not closed it yet. */
  predicate Retirer(pc: Pc) {
    (pc.InDisconnect? && (pc.step == DeleteEpoll || pc.step == CloseFd))
    || (pc.InSend? && pc.send.ClearHeld? && pc.send.won)
  }

  /** Past the test-and-set of its Disconnect. */
  predicate PastRetire(pc: Pc) {
    (pc.InDisconnect? && pc.step != Retire) || (pc.InSend? && pc.send.ClearHeld?)
  }

  ghost predicate PcFits(fd: Socket, rx: Receiving, pc: Pc) {
    && (PastRetire(pc) ==> !fd.live)
    && (Retirer(pc) ==> fd.log == if pc.InDisconnect? && pc.step == CloseFd then [Deleted] else [])
    && (pc.InDisconnect? && (pc.step == ReadSending || pc.step == CallDisconnected) ==> !rx.flag)
    && (pc.InRecv? ==> rx.token == Running)
  }

  /** The thread, if any, between winning the fd and closing it. */
  ghost predicate OneRetirer(fd: Socket, pcs: seq<Pc>) {
    && (forall i, j :: 0 <= i < j < |pcs| ==> !(Retirer(pcs[i]) && Retirer(pcs[j])))
    && (fd.live ==> fd.log == [])
    && (!fd.live ==> fd.log == [Deleted, Closed] || exists i :: 0 <= i < |pcs| && Retirer(pcs[i]))
    && (fd.log == [] || fd.log == [Deleted] || fd.log == [Deleted, Closed])
    && (fd.log == [Deleted, Closed] ==> forall i :: 0 <= i < |pcs| ==> !Retirer(pcs[i]))
  }

  ghost predicate OneReceiver(pcs: seq<Pc>) {
    forall i, j :: 0 <= i < j < |pcs| ==> !(pcs[i].InRecv? && pcs[j].InRecv?)
  }

  ghost predicate CallsFit(fd: Socket, rx: Receiving) {
    && (!rx.flag ==> rx.token == Gone)
    && (OnDisconnected in rx.calls ==> !rx.flag && !fd.live)
    && forall i, j :: 0 <= i < j < |rx.calls| ==> !(rx.calls[i] == OnDisconnected && rx.calls[j] == OnRecv)
  }

  ghost predicate AllFit(s: State) {
    forall i :: 0 <= i < |s.pcs| ==> PcFits(s.fd, s.rx, s.pcs[i])
  }

  ghost predicate Inv(s: State) {
    AllFit(s) && OneRetirer(s.fd, s.pcs) && OneReceiver(s.pcs) && CallsFit(s.fd, s.rx)
  }

  /** A thread moves on without touching the fd. */
  lemma RetirerStays(fd: Socket, pcs: seq<Pc>, t: nat, pc: Pc)
    requires OneRetirer(fd, pcs) && t < |pcs| && Retirer(pc) == Retirer(pcs[t])
    ensures OneRetirer(fd, pcs[t := pc])
  {
    var pcs' := pcs[t := pc];
    if !fd.live && fd.log != [Deleted, Closed] {
      var i :| 0 <= i < |pcs| && Retirer(pcs[i]);
      assert Retirer(pcs'[i]);
    }
  }

  lemma ReceiverStays(pcs: seq<Pc>, t: nat, pc: Pc)
    requires OneReceiver(pcs) && t < |pcs| && (pc.InRecv? ==> pcs[t].InRecv?)
    ensures OneReceiver(pcs[t := pc])
  {
  }

  /** A step that touches neither the fd, nor the receiving half. */
  lemma QuietStep(s: State, s': State, t: nat, pc: Pc)
    requires Inv(s) && t < |s.pcs| && s'.pcs == s.pcs[t := pc] && s'.fd == s.fd && s'.rx == s.rx
    requires PcFits(s.fd, s.rx, pc) && Retirer(pc) == Retirer(s.pcs[t]) && (pc.InRecv? ==> s.pcs[t].InRecv?)
    ensures Inv(s')
  {
    RetirerStays(s.fd, s.pcs, t, pc);
    ReceiverStays(s.pcs, t, pc);
  }

  /** The test-and-set on the fd. */
  lemma RetireStep(s: State, s': State, t: nat, pc: Pc)
    requires Inv(s) && t < |s.pcs| && !Retirer(s.pcs[t])
    requires s'.pcs == s.pcs[t := pc] && s'.fd == s.fd.(live := false) && s'.rx == s.rx
    requires (Retirer(pc) <==> s.fd.live) && !pc.InRecv?
    requires pc.InDisconnect? ==> pc.step == DeleteEpoll || pc.step == ReadRecving
    ensures Inv(s')
  {
    ReceiverStays(s.pcs, t, pc);
    if s.fd.live {
      assert forall i :: 0 <= i < |s.pcs| ==> PcFits(s.fd, s.rx, s.pcs[i]) && !Retirer(s.pcs[i]);
      assert Retirer(s'.pcs[t]);
    } else {
      RetirerStays(s.fd, s.pcs, t, pc);
    }
    forall i | 0 <= i < |s'.pcs| ensures PcFits(s'.fd, s'.rx, s'.pcs[i]) {
      assert PcFits(s.fd, s.rx, s.pcs[i]);
    }
  }

  lemma DeleteStep(s: State, t: nat, a: After)
    requires Inv(s) && t < |s.pcs| && s.pcs[t] == InDisconnect(DeleteEpoll, a)
    ensures Inv(GoDisconnect(s, t, DeleteEpoll, a))
  {
    var s' := GoDisconnect(s, t, DeleteEpoll, a);
    assert PcFits(s.fd, s.rx, s.pcs[t]) && Retirer(s.pcs[t]);
    ReceiverStays(s.pcs, t, s'.pcs[t]);
    forall i | 0 <= i < |s'.pcs| ensures PcFits(s'.fd, s'.rx, s'.pcs[i]) {
      assert PcFits(s.fd, s.rx, s.pcs[i]);
    }
    assert Retirer(s'.pcs[t]);
  }

  lemma CloseStep(s: State, t: nat, a: After)
    requires Inv(s) && t < |s.pcs| && s.pcs[t] == InDisconnect(CloseFd, a)
    ensures Inv(GoDisconnect(s, t, CloseFd, a))
  {
    var s' := GoDisconnect(s, t, CloseFd, a);
    assert PcFits(s.fd, s.rx, s.pcs[t]) && Retirer(s.pcs[t]);
    ReceiverStays(s.pcs, t, s'.pcs[t]);
    forall i | 0 <= i < |s'.pcs| ensures PcFits(s'.fd, s'.rx, s'.pcs[i]) && !Retirer(s'.pcs[i]) {
      assert PcFits(s.fd, s.rx, s.pcs[i]);
    }
  }

  /** The thread running RecvJob leaves it, with the event armed or the session given up. */
  lemma LeaveRecvStep(s: State, s': State, t: nat, pc: Pc)
    requires Inv(s) && t < |s.pcs| && s.pcs[t].InRecv? && (pc == Idle || pc == InDisconnect(Retire, ToIdle))
    requires s'.pcs == s.pcs[t := pc] && s'.fd == s.fd && s'.rx.calls == s.rx.calls
    requires s'.rx.flag == s.rx.flag || (!s'.rx.flag && s'.rx.token == Gone)
    ensures Inv(s')
  {
    assert PcFits(s.fd, s.rx, s.pcs[t]);
    RetirerStays(s.fd, s.pcs, t, pc);
    forall i | 0 <= i < |s'.pcs| ensures PcFits(s'.fd, s'.rx, s'.pcs[i]) {
      assert PcFits(s.fd, s.rx, s.pcs[i]);
    }
  }

  lemma CallStep(s: State, s': State, t: nat, pc: Pc, call: Callback)
    requires Inv(s) && t < |s.pcs| && s'.pcs == s.pcs[t := pc] && s'.fd == s.fd
    requires s'.rx == s.rx.(calls := s.rx.calls + [call])
    requires !Retirer(pc) && !Retirer(s.pcs[t]) && !PastRetire(pc) && (pc.InRecv? ==> s.pcs[t].InRecv?)
    requires if call == OnRecv then s.pcs[t].InRecv?
             else s.pcs[t].InDisconnect? && s.pcs[t].step == CallDisconnected
    ensures Inv(s')
  {
    assert PcFits(s.fd, s.rx, s.pcs[t]);
    RetirerStays(s.fd, s.pcs, t, pc);
    ReceiverStays(s.pcs, t, pc);
    forall i | 0 <= i < |s'.pcs| ensures PcFits(s'.fd, s'.rx, s'.pcs[i]) {
      assert PcFits(s.fd, s.rx, s.pcs[i]);
    }
  }

  lemma SendStepIsQuiet(s: State, t: nat, x: SendPc)
    requires t < |s.pcs| && s.pcs[t] == InSend(x) && s.tx.taken <= |s.tx.pushed|
    requires !x.RetireHeld? && PcFits(s.fd, s.rx, s.pcs[t])
    ensures var s' := GoSend(s, t, x);
            && |s'.pcs| == |s.pcs| && s'.pcs == s.pcs[t := s'.pcs[t]] && s'.fd == s.fd && s'.rx == s.rx
            && PcFits(s.fd, s.rx, s'.pcs[t]) && Retirer(s'.pcs[t]) == Retirer(s.pcs[t]) && !s'.pcs[t].InRecv?
  {
  }

  lemma SendStepKeepsInv(s: State, t: nat, x: SendPc)
    requires Inv(s) && t < |s.pcs| && s.pcs[t] == InSend(x) && s.tx.taken <= |s.tx.pushed|
    ensures Inv(GoSend(s, t, x))
  {
    var s' := GoSend(s, t, x);
    if x.RetireHeld? {
      RetireStep(s, s', t, InSend(ClearHeld(x.c, s.fd.live)));
    } else {
      SendStepIsQuiet(s, t, x);
      QuietStep(s, s', t, s'.pcs[t]);
    }
  }

  lemma DisconnectStepKeepsInv(s: State, t: nat, x: DisconnectPc, a: After)
    requires Inv(s) && t < |s.pcs| && s.pcs[t] == InDisconnect(x, a)
    ensures Inv(GoDisconnect(s, t, x, a))
  {
    var s' := GoDisconnect(s, t, x, a);
    assert PcFits(s.fd, s.rx, s.pcs[t]);
    match x {
      case Retire => RetireStep(s, s', t, s'.pcs[t]);
      case DeleteEpoll => DeleteStep(s, t, a);
      case CloseFd => CloseStep(s, t, a);
      case ReadRecving => QuietStep(s, s', t, s'.pcs[t]);
      case ReadSending => QuietStep(s, s', t, s'.pcs[t]);
      case CallDisconnected => CallStep(s, s', t, Resumed(a), OnDisconnected);
    }
  }

  lemma RecvStepKeepsInv(s: State, t: nat, x: RecvPc)
    requires Inv(s) && t < |s.pcs| && s.pcs[t] == InRecv(x)
    ensures Inv(GoRecv(s, t, x))
  {
    var s' := GoRecv(s, t, x);
    assert PcFits(s.fd, s.rx, s.pcs[t]);
    match x {
      case Check => QuietStep(s, s', t, s'.pcs[t]);
      case Recheck =>
        if s.fd.live { LeaveRecvStep(s, s', t, Idle); } else { QuietStep(s, s', t, InRecv(Stop)); }
      case Stop => LeaveRecvStep(s, s', t, InDisconnect(Retire, ToIdle));
      case _ =>
    }
  }

  lemma StartKeepsInv(s: State, t: nat, b: Begin)
    requires Inv(s) && t < |s.pcs| && s.pcs[t].Idle? && CanStart(s, b)
    ensures Inv(Start(s, t, b))
  {
    var s' := Start(s, t, b);
    if b.RunRecvJob? {
      RetirerStays(s.fd, s.pcs, t, InRecv(Check));
      forall i | 0 <= i < |s'.pcs|
        ensures PcFits(s'.fd, s'.rx, s'.pcs[i]) && (i != t ==> !s'.pcs[i].InRecv?)
      {
        assert PcFits(s.fd, s.rx, s.pcs[i]);
      }
    } else {
      QuietStep(s, s', t, s'.pcs[t]);
    }
  }

  lemma WriteKeepsInv(s: State, t: nat, x: SendPc, w: WriteAnswer)
    requires Inv(s) && t < |s.pcs| && s.pcs[t] == InSend(x) && CanWrite(s, x, w)
    ensures Inv(Write(s, t, x.c, x.b, x.fetched, w))
  {
    var s' := Write(s, t, x.c, x.b, x.fetched, w);
    QuietStep(s, s', t, s'.pcs[t]);
  }

  lemma ReceiveKeepsInv(s: State, t: nat, a: RecvAnswer)
    requires Inv(s) && t < |s.pcs| && s.pcs[t].InRecv? && CanReceive(s, s.pcs[t].recv, a)
    ensures Inv(Receive(s, t, a))
  {
    var s' := Receive(s, t, a);
    assert PcFits(s.fd, s.rx, s.pcs[t]);
    match a {
      case Shown => CallStep(s, s', t, InRecv(Arming), OnRecv);
      case Rearmed => LeaveRecvStep(s, s', t, Idle);
      case _ => QuietStep(s, s', t, s'.pcs[t]);
    }
  }

  lemma RecvFiresKeepsInv(s: State)
    requires Inv(s) && s.rx.token == Token.Armed
    ensures Inv(s.(rx := s.rx.(token := Ready)))
  {
    forall i | 0 <= i < |s.pcs| ensures PcFits(s.fd, s.rx.(token := Ready), s.pcs[i]) {
      assert PcFits(s.fd, s.rx, s.pcs[i]);
    }
  }

  lemma NextKeepsInv(s: State, l: Label)
    requires Inv(s) && Enabled(s, l)
    ensures Inv(Next(s, l))
  {
    match l {
      case Starts(t, b) => StartKeepsInv(s, t, b);
      case Go(t) =>
        match s.pcs[t] {
          case InSend(x) => SendStepKeepsInv(s, t, x);
          case InDisconnect(x, a) => DisconnectStepKeepsInv(s, t, x, a);
          case InRecv(x) => RecvStepKeepsInv(s, t, x);
          case Idle =>
        }
      case Writes(t, w) => WriteKeepsInv(s, t, s.pcs[t].send, w);
      case Receives(t, a) => ReceiveKeepsInv(s, t, a);
      case RecvFires => RecvFiresKeepsInv(s);
      case SendFires =>
    }
  }

  lemma {:induction false} InvHolds(s: State, ls: seq<Label>)
    requires Initial(s) && LegalRun(s, ls)
    ensures Inv(Run(s, ls))
    decreases |ls|
  {
    if ls != [] {
      InvHolds(s, ls[..|ls| - 1]);
      NextKeepsInv(Run(s, ls[..|ls| - 1]), ls[|ls| - 1]);
    }
  }

  /** Through every run, with any number of threads: the fd is deleted from epoll at most once
      and closed at most once, in that order, and only when it is retired. */
  lemma FdRetiredOnce(s: State, ls: seq<Label>)
    requires Initial(s) && LegalRun(s, ls)
    ensures var now := Run(s, ls);
            && (now.fd.log == [] || now.fd.log == [Deleted] || now.fd.log == [Deleted, Closed])
            && (now.fd.live ==> now.fd.log == [])
            && (OnDisconnected in now.rx.calls ==> !now.fd.live)
  {
    InvHolds(s, ls);
  }

  /** A retired fd is never valid again, and a session that has stopped receiving never
      receives again. */
  lemma RetiredForGood(s: State, l: Label)
    requires Enabled(s, l)
    ensures !s.fd.live ==> !Next(s, l).fd.live
    ensures !s.rx.flag ==> !Next(s, l).rx.flag
  {
    match l {
      case Go(t) =>
        match s.pcs[t] {
          case InSend(x) => assert GoSend(s, t, x).fd.live ==> s.fd.live;
          case _ =>
        }
      case _ =>
    }
  }

  /** Through every run no OnRecv starts after an OnDisconnected, at most one thread runs the
      session's RecvJob, and none does once the session has stopped receiving. */
  lemma NoRecvAfterDisconnected(s: State, ls: seq<Label>)
    requires Initial(s) && LegalRun(s, ls)
    ensures var now := Run(s, ls);
            && (forall i, j :: 0 <= i < j < |now.rx.calls| ==>
                  !(now.rx.calls[i] == OnDisconnected && now.rx.calls[j] == OnRecv))
            && (forall i, j :: 0 <= i < j < |now.pcs| ==> !(now.pcs[i].InRecv? && now.pcs[j].InRecv?))
            && (!now.rx.flag ==> now.rx.token == Gone)
            && (!now.rx.flag ==> forall i :: 0 <= i < |now.pcs| ==> !now.pcs[i].InRecv?)
  {
    InvHolds(s, ls);
    var now := Run(s, ls);
    forall i | 0 <= i < |now.pcs| && now.pcs[i].InRecv? ensures now.rx.flag {
      assert PcFits(now.fd, now.rx, now.pcs[i]);
    }
  }
}
