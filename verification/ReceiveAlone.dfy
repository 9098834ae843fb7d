/** A worker that runs a RecvJob and is not interrupted: the steps of SessionProtocol have
    the effects of RecvJob's Execute and Complete. */
module ReceiveAlone {
  import opened SessionProtocol
  import opened SessionAlone
  import Sessions
  import ReceiveJob

  /** What recv answers in Execute, attempt by attempt. */
  function Heard(t: nat, live: bool, script: seq<ReceiveJob.Attempt>): seq<Label> {
    if !live || script == [] then []
    else match script[0]
         case Recv(bytes) =>
           if bytes == [] then [Receives(t, Ended)] else [Receives(t, More)] + Heard(t, live, script[1..])
         case Interrupted => [Receives(t, More)] + Heard(t, live, script[1..])
         case WouldBlock => [Receives(t, RecvAnswer.Drained)]
         case OtherError => [Receives(t, RecvAnswer.Drained)]
         case ConnectionLost => [Receives(t, Ended)]
         case Retired => []
  }

  /** Nobody takes the fd away, and with a valid fd the loop ends. */
  ghost predicate Undisturbed(live: bool, script: seq<ReceiveJob.Attempt>) {
    live ==> ReceiveJob.PassesOn(script) < |script| && forall k :: 0 <= k < |script| ==> !script[k].Retired?
  }

  /** The flag cleared, the job dropped, and a Disconnect. */
  function GivenUp(s: State, fd: int): (s': State)
    ensures s'.pcs == s.pcs
  {
    Disconnected(s.(rx := s.rx.(flag := false, token := Gone)), fd)
  }

  /** Where Execute leads: on to Complete, or out. */
  function AfterExecute(s: State, t: nat, fd: int, script: seq<ReceiveJob.Attempt>): State
    requires t < |s.pcs|
  {
    if s.fd.live && (ReceiveJob.Last(script).WouldBlock? || ReceiveJob.Last(script).OtherError?)
    then s.To(t, InRecv(Completing))
    else GivenUp(s, fd).To(t, Idle)
  }

  lemma ReceiveGoes(s: State, t: nat, x: RecvPc, choices: seq<Label>, end: State)
    requires s.tx.taken <= |s.tx.pushed| && t < |s.pcs| && s.pcs[t] == InRecv(x)
    requires x == RecvPc.Check || x == Recheck || x == RecvPc.Stop
    requires Alone(GoRecv(s, t, x), t, choices, end)
    ensures Alone(s, t, choices, end)
  {
    GoesOn(s, t, choices, end);
  }

  lemma Hears(s: State, t: nat, x: RecvPc, a: RecvAnswer, choices: seq<Label>, end: State)
    requires s.tx.taken <= |s.tx.pushed| && t < |s.pcs| && s.pcs[t] == InRecv(x) && CanReceive(s, x, a)
    requires Alone(Receive(s, t, a), t, choices, end)
    ensures Alone(s, t, [Receives(t, a)] + choices, end)
  {
    Chooses(s, t, Receives(t, a), choices, end);
  }

  lemma GivesUp(s: State, t: nat, fd: int, end: State)
    requires s.tx.taken <= |s.tx.pushed| && t < |s.pcs| && s.pcs[t] == InRecv(RecvPc.Stop) && SameFd(s, fd)
    requires Alone(GivenUp(s, fd).To(t, Idle), t, [], end)
    ensures Alone(s, t, [], end)
  {
    var s1 := s.(rx := s.rx.(flag := false, token := Gone));
    var s2 := s1.To(t, InDisconnect(Retire, ToIdle));
    DisconnectedMeans(s1, fd);
    DisconnectedMeans(s2, fd);
    ToTwice(Disconnected(s1, fd), t, InDisconnect(Retire, ToIdle), Idle);
    assert Disconnected(s2, fd) == Disconnected(s1, fd).To(t, InDisconnect(Retire, ToIdle));
    DisconnectAlone(s2, t, ToIdle, fd, [], end);
    ReceiveGoes(s, t, RecvPc.Stop, [], end);
  }

  lemma GivenUpElsewhere(s: State, t: nat, pc: Pc, fd: int)
    requires t < |s.pcs| && SameFd(s, fd)
    ensures GivenUp(s.To(t, pc), fd) == GivenUp(s, fd).To(t, pc)
  {
    var dropped := s.(rx := s.rx.(flag := false, token := Gone));
    DisconnectedMeans(dropped, fd);
    DisconnectedMeans(dropped.To(t, pc), fd);
  }

  lemma StopsAlone(s: State, t: nat, fd: int, end: State)
    requires s.tx.taken <= |s.tx.pushed| && t < |s.pcs| && SameFd(s, fd)
    requires Alone(GivenUp(s, fd).To(t, Idle), t, [], end)
    ensures Alone(s.To(t, InRecv(RecvPc.Stop)), t, [], end)
  {
    GivenUpElsewhere(s, t, InRecv(RecvPc.Stop), fd);
    ToTwice(GivenUp(s, fd), t, InRecv(RecvPc.Stop), Idle);
    GivesUp(s.To(t, InRecv(RecvPc.Stop)), t, fd, end);
  }

  lemma OneAnswer(s: State, t: nat, fd: int, a: RecvAnswer, end: State)
    requires s.tx.taken <= |s.tx.pushed| && t < |s.pcs| && SameFd(s, fd) && (a == Ended || a == RecvAnswer.Drained)
    requires Alone(if a == Ended then GivenUp(s, fd).To(t, Idle) else s.To(t, InRecv(Completing)), t, [], end)
    ensures Alone(s.To(t, InRecv(RecvPc.Recv)), t, [Receives(t, a)], end)
  {
    var s1, pc := s.To(t, InRecv(RecvPc.Recv)), InRecv(if a == Ended then RecvPc.Stop else Completing);
    if a == Ended {
      StopsAlone(s, t, fd, end);
    }
    ToTwice(s, t, InRecv(RecvPc.Recv), pc);
    assert Receive(s1, t, a) == s.To(t, pc);
    Hears(s1, t, RecvPc.Recv, a, [], end);
    assert [Receives(t, a)] + [] == [Receives(t, a)];
  }

  /** Execute, uninterrupted, is RecvJob.Execute: it goes on, or gives the session up. */
  lemma {:induction false} ExecuteAlone(s: State, t: nat, fd: int, script: seq<ReceiveJob.Attempt>, end: State)
    requires s.tx.taken <= |s.tx.pushed| && t < |s.pcs| && s.pcs[t] == InRecv(RecvPc.Check) && SameFd(s, fd)
    requires Undisturbed(s.fd.live, script) && Alone(AfterExecute(s, t, fd, script), t, [], end)
    ensures Alone(s, t, Heard(t, s.fd.live, script), end)
    decreases |script|
  {
    if !s.fd.live {
      StopsAlone(s, t, fd, end);
    } else {
      var s1 := s.To(t, InRecv(RecvPc.Recv));
      if ReceiveJob.GoesRound(script[0]) {
        assert Undisturbed(true, script[1..]);
        ExecuteAlone(s, t, fd, script[1..], end);
        ToTwice(s, t, InRecv(RecvPc.Recv), InRecv(RecvPc.Check));
        assert s.To(t, InRecv(RecvPc.Check)) == s;
        Hears(s1, t, RecvPc.Recv, More, Heard(t, true, script[1..]), end);
      } else {
        OneAnswer(s, t, fd, if script[0].WouldBlock? || script[0].OtherError? then RecvAnswer.Drained else Ended, end);
      }
    }
    ReceiveGoes(s, t, RecvPc.Check, Heard(t, s.fd.live, script), end);
  }

  /** A worker that takes a ready RecvJob and is not interrupted in Execute. */
  lemma UninterruptedExecute(s: State, t: nat, fd: int, script: seq<ReceiveJob.Attempt>)
    requires s.tx.taken <= |s.tx.pushed| && t < |s.pcs| && s.pcs[t] == Idle && s.rx.token == Ready && SameFd(s, fd)
    requires Undisturbed(s.fd.live, script)
    ensures Alone(s, t, [Starts(t, RunRecvJob)] + Heard(t, s.fd.live, script),
                  AfterExecute(s.(rx := s.rx.(token := Running)), t, fd, script))
  {
    var running := s.(rx := s.rx.(token := Running));
    var s1 := running.To(t, InRecv(RecvPc.Check));
    var end := AfterExecute(running, t, fd, script);
    GivenUpElsewhere(running, t, InRecv(RecvPc.Check), fd);
    ToTwice(GivenUp(running, fd), t, InRecv(RecvPc.Check), Idle);
    ToTwice(running, t, InRecv(RecvPc.Check), InRecv(Completing));
    assert AfterExecute(s1, t, fd, script) == end;
    Arrived(end, t);
    ExecuteAlone(s1, t, fd, script, end);
    Chooses(s, t, Starts(t, RunRecvJob), Heard(t, s.fd.live, script), end);
  }

  /** Where Complete leads: the event armed again, or the job dropped, and with an invalid fd
      the session given up. */
  function AfterComplete(s: State, fd: int, shown: bool, rearmed: bool): (s': State)
    ensures s'.pcs == s.pcs
  {
    var told := if shown then s.(rx := s.rx.(calls := s.rx.calls + [OnRecv])) else s;
    if rearmed then told.(rx := told.rx.(token := Token.Armed))
    else if s.fd.live then told.(rx := told.rx.(token := Gone))
    else GivenUp(told, fd)
  }

  lemma ArmsAlone(s: State, t: nat, fd: int, rearmed: bool, end: State)
    requires s.tx.taken <= |s.tx.pushed| && t < |s.pcs| && SameFd(s, fd) && (rearmed ==> s.fd.log == [])
    requires Alone(AfterComplete(s, fd, false, rearmed).To(t, Idle), t, [], end)
    ensures Alone(s.To(t, InRecv(Arming)), t, [Receives(t, if rearmed then Rearmed else NotRearmed)], end)
  {
    var s1, s2 := s.To(t, InRecv(Arming)), s.To(t, InRecv(Recheck));
    var a := if rearmed then Rearmed else NotRearmed;
    if rearmed {
      ToTwice(AfterComplete(s, fd, false, true), t, InRecv(Arming), Idle);
      assert Receive(s1, t, Rearmed) == AfterComplete(s, fd, false, true).To(t, Idle);
    } else {
      if s.fd.live {
        ToTwice(AfterComplete(s, fd, false, false), t, InRecv(Recheck), Idle);
        assert GoRecv(s2, t, Recheck) == AfterComplete(s, fd, false, false).To(t, Idle);
      } else {
        StopsAlone(s, t, fd, end);
        ToTwice(s, t, InRecv(Recheck), InRecv(RecvPc.Stop));
        assert GoRecv(s2, t, Recheck) == s.To(t, InRecv(RecvPc.Stop));
      }
      ReceiveGoes(s2, t, Recheck, [], end);
      ToTwice(s, t, InRecv(Arming), InRecv(Recheck));
      assert Receive(s1, t, NotRearmed) == s2;
    }
    Hears(s1, t, Arming, a, [], end);
    assert [Receives(t, a)] + [] == [Receives(t, a)];
  }

  /** Complete, uninterrupted, is RecvJob.Complete. */
  lemma UninterruptedComplete(s: State, t: nat, fd: int, shown: bool, rearmed: bool)
    requires s.tx.taken <= |s.tx.pushed| && t < |s.pcs| && s.pcs[t] == InRecv(Completing) && SameFd(s, fd)
    requires rearmed ==> s.fd.log == []
    ensures Alone(s, t, [Receives(t, if shown then Shown else NothingUnread)]
                        + [Receives(t, if rearmed then Rearmed else NotRearmed)],
                  AfterComplete(s, fd, shown, rearmed).To(t, Idle))
  {
    var told := if shown then s.(rx := s.rx.(calls := s.rx.calls + [OnRecv])) else s;
    var a := if shown then Shown else NothingUnread;
    var end := AfterComplete(s, fd, shown, rearmed).To(t, Idle);
    assert AfterComplete(told, fd, false, rearmed) == AfterComplete(s, fd, shown, rearmed);
    Arrived(end, t);
    ArmsAlone(told, t, fd, rearmed, end);
    assert Receive(s, t, a) == told.To(t, InRecv(Arming));
    Hears(s, t, Completing, a, [Receives(t, if rearmed then Rearmed else NotRearmed)], end);
  }
}
