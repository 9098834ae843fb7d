/** One thread that nobody interrupts: the steps of SessionProtocol, taken one after the
    other, have the effects of the methods of the session object and of RecvJob. */
module SessionAlone {
  import opened Bytes
  import opened SessionProtocol
  import Sessions

  /** The labels that are a thread's own. */
  predicate Of(l: Label, t: nat) {
    match l
    case Starts(u, _) => u == t
    case Go(u) => u == t
    case Writes(u, _) => u == t
    case Receives(u, _) => u == t
    case _ => false
  }

  datatype Reached = To(state: State) | Nowhere

  /** Thread t takes `n` steps alone. Where the code leaves a choice, the next of the given
      labels is taken, and all of them are used up. */
  function AloneIn(s: State, t: nat, choices: seq<Label>, n: nat): Reached
    requires t < |s.pcs|
    decreases n
  {
    if n == 0 then if choices == [] then To(s) else Nowhere
    else if CanGo(s.pcs[t]) then
      if Enabled(s, Go(t)) && t < |Next(s, Go(t)).pcs| then AloneIn(Next(s, Go(t)), t, choices, n - 1) else Nowhere
    else if choices != [] && Of(choices[0], t) && Enabled(s, choices[0]) && t < |Next(s, choices[0]).pcs|
    then AloneIn(Next(s, choices[0]), t, choices[1..], n - 1)
    else Nowhere
  }

  ghost predicate Alone(s: State, t: nat, choices: seq<Label>, end: State) {
    t < |s.pcs| && exists n: nat :: AloneIn(s, t, choices, n) == To(end)
  }

  lemma Arrived(s: State, t: nat)
    requires t < |s.pcs|
    ensures Alone(s, t, [], s)
  {
    assert AloneIn(s, t, [], 0) == To(s);
  }

  lemma GoesOn(s: State, t: nat, choices: seq<Label>, end: State)
    requires Enabled(s, Go(t)) && Alone(Next(s, Go(t)), t, choices, end)
    ensures Alone(s, t, choices, end)
  {
    var n: nat :| AloneIn(Next(s, Go(t)), t, choices, n) == To(end);
    assert AloneIn(s, t, choices, n + 1) == To(end);
  }

  lemma Chooses(s: State, t: nat, l: Label, choices: seq<Label>, end: State)
    requires t < |s.pcs| && !CanGo(s.pcs[t]) && Of(l, t) && Enabled(s, l) && Alone(Next(s, l), t, choices, end)
    ensures Alone(s, t, [l] + choices, end)
  {
    var n: nat :| AloneIn(Next(s, l), t, choices, n) == To(end);
    assert ([l] + choices)[1..] == choices;
    assert AloneIn(s, t, [l] + choices, n + 1) == To(end);
  }

  lemma SendGoes(s: State, t: nat, x: SendPc, choices: seq<Label>, end: State)
    requires s.tx.taken <= |s.tx.pushed| && t < |s.pcs| && s.pcs[t] == InSend(x) && !x.Writev?
    requires Alone(GoSend(s, t, x), t, choices, end)
    ensures Alone(s, t, choices, end)
  {
    GoesOn(s, t, choices, end);
  }

  lemma DisconnectGoes(s: State, t: nat, x: DisconnectPc, a: After, choices: seq<Label>, end: State)
    requires s.tx.taken <= |s.tx.pushed| && t < |s.pcs| && s.pcs[t] == InDisconnect(x, a)
    requires Alone(GoDisconnect(s, t, x, a), t, choices, end)
    ensures Alone(s, t, choices, end)
  {
    GoesOn(s, t, choices, end);
  }

  /** An effect of the session object, done to the state of the protocol. Written bytes are
      those from place `at` on. */
  function Apply(s: State, e: Sessions.Effect, at: nat): (s': State)
    ensures s'.pcs == s.pcs
  {
    match e
    case DeletedFromEpoll(_) =>
      s.(fd := s.fd.(log := s.fd.log + [Deleted]),
         rx := if s.rx.token == Token.Armed then s.rx.(token := Gone) else s.rx)
    case ClosedFd(_) => s.(fd := s.fd.(log := s.fd.log + [Closed]))
    case ToldDisconnected => s.(rx := s.rx.(calls := s.rx.calls + [OnDisconnected]))
    case Wrote(bytes) => s.(tx := s.tx.(wire := s.tx.wire + Places(at, |bytes|)))
    case ArmedSend(fd) => s.(tx := s.tx.(armed := s.tx.armed || fd != Sessions.INVALID_FD))
  }

  function ApplyAll(s: State, effects: seq<Sessions.Effect>, at: nat): (s': State)
    ensures s'.pcs == s.pcs
    decreases |effects|
  {
    if effects == [] then s else ApplyAll(Apply(s, effects[0], at), effects[1..], at)
  }

  /** The fd of the object, seen from the protocol. */
  predicate SameFd(s: State, fd: int) {
    s.fd.live <==> fd != Sessions.INVALID_FD
  }

  function Retired(s: State): State {
    s.(fd := s.fd.(live := false))
  }

  /** A Disconnect: the fd retired, and the effects of Session.Disconnect. */
  function Disconnected(s: State, fd: int): (s': State)
    ensures s'.pcs == s.pcs
  {
    ApplyAll(Retired(s), Sessions.DisconnectEffects(fd, s.rx.flag || s.tx.flag), 0)
  }

  lemma ToTwice(s: State, t: nat, p: Pc, q: Pc)
    requires t < |s.pcs|
    ensures s.To(t, p).To(t, q) == s.To(t, q)
  {
  }

  lemma {:induction false} AppliesInOrder(s: State, es: seq<Sessions.Effect>, fs: seq<Sessions.Effect>, at: nat)
    ensures ApplyAll(s, es + fs, at) == ApplyAll(ApplyAll(s, es, at), fs, at)
    decreases |es|
  {
    if es == [] {
      assert es + fs == fs;
    } else {
      assert (es + fs)[1..] == es[1..] + fs;
      AppliesInOrder(Apply(s, es[0], at), es[1..], fs, at);
    }
  }

  /** What CallDisconnected leaves, if it is reached. */
  function Told(s: State): (s': State)
    ensures s'.pcs == s.pcs
  {
    if s.rx.flag || s.tx.flag then s else Apply(s, Sessions.ToldDisconnected, 0)
  }

  lemma ToldOrNot(s: State, t: nat, a: After, choices: seq<Label>, end: State)
    requires s.tx.taken <= |s.tx.pushed| && t < |s.pcs| && s.pcs[t] == InDisconnect(ReadRecving, a)
    requires Alone(Told(s).To(t, Resumed(a)), t, choices, end)
    ensures Alone(s, t, choices, end)
  {
    if !s.rx.flag {
      var s1 := s.To(t, InDisconnect(ReadSending, a));
      if !s.tx.flag {
        var s2 := s.To(t, InDisconnect(CallDisconnected, a));
        ToTwice(s, t, InDisconnect(ReadSending, a), InDisconnect(CallDisconnected, a));
        ToTwice(Told(s), t, InDisconnect(CallDisconnected, a), Resumed(a));
        assert GoDisconnect(s2, t, CallDisconnected, a) == Told(s).To(t, Resumed(a));
        DisconnectGoes(s2, t, CallDisconnected, a, choices, end);
        assert GoDisconnect(s1, t, ReadSending, a) == s2;
      } else {
        ToTwice(s, t, InDisconnect(ReadSending, a), Resumed(a));
        assert GoDisconnect(s1, t, ReadSending, a) == s.To(t, Resumed(a));
      }
      DisconnectGoes(s1, t, ReadSending, a, choices, end);
      assert GoDisconnect(s, t, ReadRecving, a) == s1;
    }
    DisconnectGoes(s, t, ReadRecving, a, choices, end);
  }

  /** The fd deleted from epoll and closed. */
  function Closing(s: State, fd: int): (s': State)
    ensures s'.pcs == s.pcs
  {
    Apply(Apply(Retired(s), Sessions.DeletedFromEpoll(fd), 0), Sessions.ClosedFd(fd), 0)
  }

  lemma DisconnectedMeans(s: State, fd: int)
    requires SameFd(s, fd)
    ensures Disconnected(s, fd) == Told(if s.fd.live then Closing(s, fd) else Retired(s))
  {
    var telling := if s.rx.flag || s.tx.flag then [] else [Sessions.ToldDisconnected];
    var gone := if s.fd.live then Closing(s, fd) else Retired(s);
    assert ApplyAll(gone, telling, 0) == Told(gone) by {
      AppliesOne(gone, Sessions.ToldDisconnected, 0);
    }
    if s.fd.live {
      var deleted, closed := Sessions.DeletedFromEpoll(fd), Sessions.ClosedFd(fd);
      AppliesInOrder(Retired(s), [deleted, closed], telling, 0);
      AppliesInOrder(Retired(s), [deleted], [closed], 0);
      AppliesOne(Retired(s), deleted, 0);
      AppliesOne(Apply(Retired(s), deleted, 0), closed, 0);
      assert [deleted] + [closed] == [deleted, closed];
    } else {
      assert [] + telling == telling;
    }
  }

  lemma AppliesOne(s: State, e: Sessions.Effect, at: nat)
    ensures ApplyAll(s, [e], at) == Apply(s, e, at)
  {
    assert [e][1..] == [];
  }

  /** Disconnect, uninterrupted, is Session.Disconnect. */
  lemma DisconnectAlone(s: State, t: nat, a: After, fd: int, choices: seq<Label>, end: State)
    requires s.tx.taken <= |s.tx.pushed| && t < |s.pcs| && s.pcs[t] == InDisconnect(Retire, a) && SameFd(s, fd)
    requires Alone(Disconnected(s, fd).To(t, Resumed(a)), t, choices, end)
    ensures Alone(s, t, choices, end)
  {
    DisconnectedMeans(s, fd);
    if s.fd.live {
      ClosesAlone(s, t, a, fd, choices, end);
    } else {
      var r := Retired(s).To(t, InDisconnect(ReadRecving, a));
      ToTwice(Told(Retired(s)), t, InDisconnect(ReadRecving, a), Resumed(a));
      assert Told(r) == Told(Retired(s)).To(t, InDisconnect(ReadRecving, a));
      ToldOrNot(r, t, a, choices, end);
      assert GoDisconnect(s, t, Retire, a) == r;
      DisconnectGoes(s, t, Retire, a, choices, end);
    }
  }

  lemma ClosesAlone(s: State, t: nat, a: After, fd: int, choices: seq<Label>, end: State)
    requires s.tx.taken <= |s.tx.pushed| && t < |s.pcs| && s.pcs[t] == InDisconnect(Retire, a) && s.fd.live
    requires Alone(Told(Closing(s, fd)).To(t, Resumed(a)), t, choices, end)
    ensures Alone(s, t, choices, end)
  {
    var s1 := Retired(s).To(t, InDisconnect(DeleteEpoll, a));
    var s2 := Apply(Retired(s), Sessions.DeletedFromEpoll(fd), 0).To(t, InDisconnect(CloseFd, a));
    var s3 := Closing(s, fd).To(t, InDisconnect(ReadRecving, a));
    ToTwice(Told(Closing(s, fd)), t, InDisconnect(ReadRecving, a), Resumed(a));
    assert Told(s3) == Told(Closing(s, fd)).To(t, InDisconnect(ReadRecving, a));
    ToldOrNot(s3, t, a, choices, end);
    ToTwice(Closing(s, fd), t, InDisconnect(CloseFd, a), InDisconnect(ReadRecving, a));
    assert GoDisconnect(s2, t, CloseFd, a) == s3;
    DisconnectGoes(s2, t, CloseFd, a, choices, end);
    ToTwice(Apply(Retired(s), Sessions.DeletedFromEpoll(fd), 0), t, InDisconnect(DeleteEpoll, a),
            InDisconnect(CloseFd, a));
    assert GoDisconnect(s1, t, DeleteEpoll, a) == s2;
    DisconnectGoes(s1, t, DeleteEpoll, a, choices, end);
    assert GoDisconnect(s, t, Retire, a) == s1;
    DisconnectGoes(s, t, Retire, a, choices, end);
  }

  /** A thread that begins a Disconnect and is not interrupted. */
  lemma UninterruptedDisconnect(s: State, t: nat, fd: int)
    requires s.tx.taken <= |s.tx.pushed| && t < |s.pcs| && s.pcs[t] == Idle && SameFd(s, fd)
    ensures Alone(s, t, [Starts(t, Begin.Disconnect)], Disconnected(s, fd))
  {
    var s1 := s.To(t, InDisconnect(Retire, ToIdle));
    var end := Disconnected(s, fd);
    DisconnectedMeans(s, fd);
    DisconnectedMeans(s1, fd);
    assert Disconnected(s1, fd).To(t, Idle) == end by {
      assert s.pcs[t := InDisconnect(Retire, ToIdle)][t := Idle] == s.pcs;
    }
    Arrived(end, t);
    DisconnectAlone(s1, t, ToIdle, fd, [], end);
    assert Next(s, Starts(t, Begin.Disconnect)) == s1;
    Chooses(s, t, Starts(t, Begin.Disconnect), [], end);
    assert [Starts(t, Begin.Disconnect)] + [] == [Starts(t, Begin.Disconnect)];
  }

  /** What the protocol notes about an ending of DoSend's loop over a batch up to `to`. */
  function Marked(tx: Sending, ending: Sessions.Ending, to: nat): Sending {
    match ending
    case Full => tx.(torn := tx.torn || tx.lost)
    case Short(_) => tx.(torn := tx.torn || tx.lost, stuck := true)
    case Gone => tx
    case _ => if tx.lost then tx else tx.(lost := true, lostTo := to)
  }

  /** The state after DoSend took the batch `b`: flag, fd and effects of Session.DoSend. */
  function Sent(s: State, ending: Sessions.Ending, b: Batch, fd: int): (s': State)
    requires b.from <= b.to <= |s.tx.pushed|
    ensures s'.pcs == s.pcs
  {
    var tx := Marked(s.tx, ending, b.to).(flag := ending.Short? && s.tx.flag);
    var live := s.fd.live && (ending.Full? || ending.Short?);
    ApplyAll(s.(tx := tx, fd := s.fd.(live := live)),
             Sessions.EffectsOf(ending, s.tx.pushed[b.from..b.to], fd, s.rx.flag), s.tx.Offset(b.from))
  }

  /** Where DoSend's loop begins, uninterrupted and with this fd. */
  ghost predicate AtLoop(s: State, t: nat, c: Caller, b: Batch, fd: int) {
    && s.tx.taken <= |s.tx.pushed| && t < |s.pcs| && s.pcs[t] == InSend(CheckFd(c, b))
    && b.from <= b.to <= |s.tx.pushed| && s.order == AsWritten
    && SameFd(s, fd) && (s.fd.live ==> Closed !in s.fd.log)
  }

  lemma PlaceDoesNotMatter(s: State, fd: int, busy: bool, at: nat)
    ensures ApplyAll(s, Sessions.DisconnectEffects(fd, busy), at)
            == ApplyAll(s, Sessions.DisconnectEffects(fd, busy), 0)
  {
    NothingWritten(s, Sessions.DisconnectEffects(fd, busy), at);
  }

  lemma {:induction false} NothingWritten(s: State, es: seq<Sessions.Effect>, at: nat)
    requires forall k :: 0 <= k < |es| ==> !es[k].Wrote?
    ensures ApplyAll(s, es, at) == ApplyAll(s, es, 0)
    decreases |es|
  {
    if es != [] {
      NothingWritten(Apply(s, es[0], at), es[1..], at);
    }
  }

  lemma GoneAlone(s: State, t: nat, c: Caller, b: Batch, fd: int, end: State)
    requires AtLoop(s, t, c, b, fd) && !s.fd.live
    requires Alone(Sent(s, Sessions.Gone, b, fd).To(t, Returned(c)), t, [], end)
    ensures Alone(s, t, [], end)
  {
    var s1 := s.To(t, InSend(ClearGone(c)));
    var s2 := Cleared(s).To(t, InDisconnect(Retire, AfterFor(c)));
    PlaceDoesNotMatter(Cleared(s), fd, s.rx.flag, s.tx.Offset(b.from));
    assert Retired(Cleared(s)) == Cleared(s);
    DisconnectsAfterClear(Cleared(s), t, AfterFor(c), fd, end);
    ToTwice(Cleared(s), t, InSend(ClearGone(c)), InDisconnect(Retire, AfterFor(c)));
    assert GoSend(s1, t, ClearGone(c)) == s2;
    SendGoes(s1, t, ClearGone(c), [], end);
    assert GoSend(s, t, CheckFd(c, b)) == s1;
    SendGoes(s, t, CheckFd(c, b), [], end);
  }

  /** Disconnect after the flag was cleared: only the receiving flag counts. */
  lemma DisconnectsAfterClear(s: State, t: nat, a: After, fd: int, end: State)
    requires s.tx.taken <= |s.tx.pushed| && t < |s.pcs| && !s.tx.flag && SameFd(s, fd)
    requires Alone(ApplyAll(Retired(s), Sessions.DisconnectEffects(fd, s.rx.flag), 0).To(t, Resumed(a)), t, [], end)
    ensures Alone(s.To(t, InDisconnect(Retire, a)), t, [], end)
  {
    var s1 := s.To(t, InDisconnect(Retire, a));
    DisconnectedMeans(s, fd);
    DisconnectedMeans(s1, fd);
    ToTwice(Disconnected(s, fd), t, InDisconnect(Retire, a), Resumed(a));
    assert Disconnected(s1, fd) == Disconnected(s, fd).To(t, InDisconnect(Retire, a));
    DisconnectAlone(s1, t, a, fd, [], end);
  }

  /** A thread at writev with a valid fd, on its way round the loop. */
  ghost predicate AtWritev(s: State, t: nat, c: Caller, b: Batch, fd: int) {
    && s.tx.taken <= |s.tx.pushed| && t < |s.pcs| && s.pcs[t] == InSend(Writev(c, b, true))
    && b.from <= b.to <= |s.tx.pushed| && s.order == AsWritten
    && SameFd(s, fd) && s.fd.live && Closed !in s.fd.log
  }

  lemma ReachesWritev(s: State, t: nat, c: Caller, b: Batch, fd: int, choices: seq<Label>, end: State)
    requires AtLoop(s, t, c, b, fd) && s.fd.live
    requires Alone(s.To(t, InSend(Writev(c, b, true))), t, choices, end)
    ensures Alone(s, t, choices, end)
  {
    var s1 := s.To(t, InSend(FetchFd(c, b)));
    ToTwice(s, t, InSend(FetchFd(c, b)), InSend(Writev(c, b, true)));
    assert GoSend(s1, t, FetchFd(c, b)) == s.To(t, InSend(Writev(c, b, true)));
    SendGoes(s1, t, FetchFd(c, b), choices, end);
    assert GoSend(s, t, CheckFd(c, b)) == s1;
    SendGoes(s, t, CheckFd(c, b), choices, end);
  }

  lemma Answered(s: State, t: nat, x: SendPc, w: WriteAnswer, choices: seq<Label>, end: State)
    requires s.tx.taken <= |s.tx.pushed| && t < |s.pcs| && s.pcs[t] == InSend(x) && CanWrite(s, x, w)
    requires Alone(Write(s, t, x.c, x.b, x.fetched, w), t, choices, end)
    ensures Alone(s, t, [Writes(t, w)] + choices, end)
  {
    Chooses(s, t, Writes(t, w), choices, end);
  }

  lemma BatchSize(tx: Sending, b: Batch)
    requires b.from <= b.to <= |tx.pushed|
    ensures tx.Offset(b.to) - tx.Offset(b.from) == |Concat(tx.pushed[b.from..b.to])|
  {
    assert tx.pushed[..b.to] == tx.pushed[..b.from] + tx.pushed[b.from..b.to];
    ConcatAppend(tx.pushed[..b.from], tx.pushed[b.from..b.to]);
  }

  lemma FullAlone(s: State, t: nat, c: Caller, b: Batch, fd: int, n: nat, end: State)
    requires AtWritev(s, t, c, b, fd) && 0 < n == |Concat(s.tx.pushed[b.from..b.to])|
    requires Alone(Sent(s, Sessions.Full, b, fd).To(t, Returned(c)), t, [], end)
    ensures Alone(s, t, [Writes(t, Wrote(n))], end)
  {
    BatchSize(s.tx, b);
    var batch, at := s.tx.pushed[b.from..b.to], s.tx.Offset(b.from);
    var tx := Marked(s.tx, Sessions.Full, b.to);
    var s1 := s.(tx := tx.(wire := tx.wire + Places(at, n)));
    AppliesOne(Cleared(s.(tx := tx)), Sessions.Wrote(Concat(batch)), at);
    assert Sent(s, Sessions.Full, b, fd) == Cleared(s1);
    var s2 := s1.To(t, InSend(ClearFull(c)));
    ToTwice(Cleared(s1), t, InSend(ClearFull(c)), Returned(c));
    assert GoSend(s2, t, ClearFull(c)) == Cleared(s1).To(t, Returned(c));
    SendGoes(s2, t, ClearFull(c), [], end);
    assert Write(s, t, c, b, true, Wrote(n)) == s2;
    Answered(s, t, Writev(c, b, true), Wrote(n), [], end);
    assert [Writes(t, Wrote(n))] + [] == [Writes(t, Wrote(n))];
  }

  /** Saving the tail and arming the event. */
  lemma SavesAndArms(s: State, t: nat, c: Caller, fd: int, end: State)
    requires s.tx.taken <= |s.tx.pushed| && t < |s.pcs| && SameFd(s, fd)
    requires Alone(Apply(s, Sessions.ArmedSend(fd), 0).To(t, Returned(c)), t, [], end)
    ensures Alone(s.To(t, InSend(SaveTail(c))), t, [], end)
  {
    var s0, s1 := s.To(t, InSend(SaveTail(c))), s.To(t, InSend(Arm(c)));
    var armed := Apply(s, Sessions.ArmedSend(fd), 0);
    ToTwice(s, t, InSend(SaveTail(c)), InSend(Arm(c)));
    ToTwice(armed, t, InSend(Arm(c)), Returned(c));
    assert GoSend(s1, t, Arm(c)) == armed.To(t, Returned(c));
    SendGoes(s1, t, Arm(c), [], end);
    assert GoSend(s0, t, SaveTail(c)) == s1;
    SendGoes(s0, t, SaveTail(c), [], end);
  }

  lemma ShortAlone(s: State, t: nat, c: Caller, b: Batch, fd: int, n: nat, end: State)
    requires AtWritev(s, t, c, b, fd) && 0 < n < |Concat(s.tx.pushed[b.from..b.to])|
    requires Alone(Sent(s, Sessions.Short(n), b, fd).To(t, Returned(c)), t, [], end)
    ensures Alone(s, t, [Writes(t, Wrote(n))], end)
  {
    BatchSize(s.tx, b);
    var bytes, at := Concat(s.tx.pushed[b.from..b.to])[..n], s.tx.Offset(b.from);
    var s0 := s.(tx := Marked(s.tx, Sessions.Short(n), b.to));
    var s1 := Apply(s0, Sessions.Wrote(bytes), at);
    AppliesInOrder(s0, [Sessions.Wrote(bytes)], [Sessions.ArmedSend(fd)], at);
    AppliesOne(s0, Sessions.Wrote(bytes), at);
    AppliesOne(s1, Sessions.ArmedSend(fd), at);
    assert [Sessions.Wrote(bytes)] + [Sessions.ArmedSend(fd)] == [Sessions.Wrote(bytes), Sessions.ArmedSend(fd)];
    assert Sent(s, Sessions.Short(n), b, fd) == Apply(s1, Sessions.ArmedSend(fd), 0);
    SavesAndArms(s1, t, c, fd, end);
    assert Write(s, t, c, b, true, Wrote(n)) == s1.To(t, InSend(SaveTail(c)));
    Answered(s, t, Writev(c, b, true), Wrote(n), [], end);
    assert [Writes(t, Wrote(n))] + [] == [Writes(t, Wrote(n))];
  }

  /** writev fails, and the flag is cleared. */
  lemma FailsAndClears(s: State, t: nat, c: Caller, b: Batch, fd: int, w: WriteAnswer, end: State)
    requires AtWritev(s, t, c, b, fd) && (w == WouldBlock || w == WriteAnswer.Failed)
    requires var marked := Cleared(s.(tx := Marked(s.tx, Sessions.Broken, b.to)));
             var a := if w == WouldBlock then AfterFor(c) else ToSave(c);
             Alone(marked.To(t, InDisconnect(Retire, a)), t, [], end)
    ensures Alone(s, t, [Writes(t, w)], end)
  {
    var s0 := s.(tx := Marked(s.tx, Sessions.Broken, b.to));
    var x := if w == WouldBlock then ClearBlocked(c) else ClearBroken(c);
    var a := if w == WouldBlock then AfterFor(c) else ToSave(c);
    ToTwice(Cleared(s0), t, InSend(x), InDisconnect(Retire, a));
    assert GoSend(s0.To(t, InSend(x)), t, x) == Cleared(s0).To(t, InDisconnect(Retire, a));
    SendGoes(s0.To(t, InSend(x)), t, x, [], end);
    assert Write(s, t, c, b, true, w) == s0.To(t, InSend(x));
    Answered(s, t, Writev(c, b, true), w, [], end);
    assert [Writes(t, w)] + [] == [Writes(t, w)];
  }

  lemma BlockedAlone(s: State, t: nat, c: Caller, b: Batch, fd: int, end: State)
    requires AtWritev(s, t, c, b, fd)
    requires Alone(Sent(s, Sessions.Blocked, b, fd).To(t, Returned(c)), t, [], end)
    ensures Alone(s, t, [Writes(t, WouldBlock)], end)
  {
    var s0 := Cleared(s.(tx := Marked(s.tx, Sessions.Blocked, b.to)));
    PlaceDoesNotMatter(Retired(s0), fd, s.rx.flag, s.tx.Offset(b.from));
    DisconnectsAfterClear(s0, t, AfterFor(c), fd, end);
    FailsAndClears(s, t, c, b, fd, WouldBlock, end);
  }

  lemma SentBroken(s: State, b: Batch, fd: int)
    requires b.from <= b.to <= |s.tx.pushed|
    ensures var s0 := Cleared(s.(tx := Marked(s.tx, Sessions.Broken, b.to)));
            Sent(s, Sessions.Broken, b, fd)
            == Apply(ApplyAll(Retired(s0), Sessions.DisconnectEffects(fd, s.rx.flag), 0),
                     Sessions.ArmedSend(Sessions.INVALID_FD), 0)
  {
    var s0, at := Cleared(s.(tx := Marked(s.tx, Sessions.Broken, b.to))), s.tx.Offset(b.from);
    var effects := Sessions.DisconnectEffects(fd, s.rx.flag);
    PlaceDoesNotMatter(Retired(s0), fd, s.rx.flag, at);
    AppliesInOrder(Retired(s0), effects, [Sessions.ArmedSend(Sessions.INVALID_FD)], at);
    AppliesOne(ApplyAll(Retired(s0), effects, 0), Sessions.ArmedSend(Sessions.INVALID_FD), at);
  }

  lemma BrokenAlone(s: State, t: nat, c: Caller, b: Batch, fd: int, end: State)
    requires AtWritev(s, t, c, b, fd)
    requires Alone(Sent(s, Sessions.Broken, b, fd).To(t, Returned(c)), t, [], end)
    ensures Alone(s, t, [Writes(t, WriteAnswer.Failed)], end)
  {
    var s0 := Cleared(s.(tx := Marked(s.tx, Sessions.Broken, b.to)));
    var effects := Sessions.DisconnectEffects(fd, s.rx.flag);
    SentBroken(s, b, fd);
    StaysAsItWas(Retired(s0), effects, 0);
    SavesAndArms(ApplyAll(Retired(s0), effects, 0), t, c, Sessions.INVALID_FD, end);
    DisconnectsAfterClear(s0, t, ToSave(c), fd, end);
    FailsAndClears(s, t, c, b, fd, WriteAnswer.Failed, end);
  }

  /** No effect touches the packets, the flag or whether the fd is valid. */
  lemma {:induction false} StaysAsItWas(s: State, es: seq<Sessions.Effect>, at: nat)
    ensures var s' := ApplyAll(s, es, at);
            && s'.fd.live == s.fd.live && s'.tx.flag == s.tx.flag && s'.rx.flag == s.rx.flag
            && s'.tx.taken == s.tx.taken && s'.tx.pushed == s.tx.pushed && s'.order == s.order
    decreases |es|
  {
    if es != [] {
      StaysAsItWas(Apply(s, es[0], at), es[1..], at);
    }
  }

  /** What writev answers, for attempts that no other thread comes between. */
  function Answers(t: nat, live: bool, script: seq<Sessions.Attempt>): seq<Label> {
    if !live || script == [] then []
    else match script[0]
         case Written(n) => [Writes(t, Wrote(n))]
         case WouldBlock => [Writes(t, WouldBlock)]
         case Failed => [Writes(t, WriteAnswer.Failed)]
         case Interrupted => [Writes(t, Interrupted)] + Answers(t, live, script[1..])
         case Retired => []
  }

  /** Nobody takes the fd away, and writev writes something or fails. */
  ghost predicate Undisturbed(script: seq<Sessions.Attempt>) {
    forall k :: 0 <= k < |script| ==> !script[k].Retired? && (script[k].Written? ==> script[k].count > 0)
  }

  lemma {:induction false} LoopAlone(s: State, t: nat, c: Caller, b: Batch, fd: int, script: seq<Sessions.Attempt>,
                                     end: State)
    requires AtLoop(s, t, c, b, fd) && Undisturbed(script)
    requires Sessions.LegalScript(|Concat(s.tx.pushed[b.from..b.to])|, s.fd.live, script)
    requires var ending := Sessions.EndingOf(|Concat(s.tx.pushed[b.from..b.to])|, s.fd.live, script);
             Alone(Sent(s, ending, b, fd).To(t, Returned(c)), t, [], end)
    ensures Alone(s, t, Answers(t, s.fd.live, script), end)
    decreases |script|
  {
    if !s.fd.live {
      GoneAlone(s, t, c, b, fd, end);
    } else {
      var s1 := s.To(t, InSend(Writev(c, b, true)));
      SentFromWritev(s, t, c, b, fd);
      match script[0] {
        case Written(n) =>
          if n == |Concat(s.tx.pushed[b.from..b.to])| {
            FullAlone(s1, t, c, b, fd, n, end);
          } else {
            ShortAlone(s1, t, c, b, fd, n, end);
          }
        case WouldBlock => BlockedAlone(s1, t, c, b, fd, end);
        case Failed => BrokenAlone(s1, t, c, b, fd, end);
        case Interrupted =>
          LoopAlone(s, t, c, b, fd, script[1..], end);
          ToTwice(s, t, InSend(Writev(c, b, true)), InSend(CheckFd(c, b)));
          assert s.To(t, InSend(CheckFd(c, b))) == s;
          BatchSize(s.tx, b);
          Answered(s1, t, Writev(c, b, true), WriteAnswer.Interrupted, Answers(t, true, script[1..]), end);
        case Retired =>
      }
      ReachesWritev(s, t, c, b, fd, Answers(t, true, script), end);
    }
  }

  lemma SentFromWritev(s: State, t: nat, c: Caller, b: Batch, fd: int)
    requires t < |s.pcs| && b.from <= b.to <= |s.tx.pushed|
    ensures forall ending :: Sent(s.To(t, InSend(Writev(c, b, true))), ending, b, fd).To(t, Returned(c))
                             == Sent(s, ending, b, fd).To(t, Returned(c))
  {
    forall ending ensures Sent(s.To(t, InSend(Writev(c, b, true))), ending, b, fd).To(t, Returned(c))
                          == Sent(s, ending, b, fd).To(t, Returned(c)) {
      PcsDoNotMatter(s, t, InSend(Writev(c, b, true)), ending, b, fd);
      ToTwice(Sent(s, ending, b, fd), t, InSend(Writev(c, b, true)), Returned(c));
    }
  }

  lemma PcsDoNotMatter(s: State, t: nat, pc: Pc, ending: Sessions.Ending, b: Batch, fd: int)
    requires t < |s.pcs| && b.from <= b.to <= |s.tx.pushed|
    ensures Sent(s.To(t, pc), ending, b, fd) == Sent(s, ending, b, fd).To(t, pc)
  {
    var tx := Marked(s.tx, ending, b.to).(flag := ending.Short? && s.tx.flag);
    var live := s.fd.live && (ending.Full? || ending.Short?);
    AppliesElsewhere(s.(tx := tx, fd := s.fd.(live := live)), t, pc,
                     Sessions.EffectsOf(ending, s.tx.pushed[b.from..b.to], fd, s.rx.flag), s.tx.Offset(b.from));
  }

  lemma {:induction false} AppliesElsewhere(s: State, t: nat, pc: Pc, es: seq<Sessions.Effect>, at: nat)
    requires t < |s.pcs|
    ensures ApplyAll(s.To(t, pc), es, at) == ApplyAll(s, es, at).To(t, pc)
    decreases |es|
  {
    if es != [] {
      assert Apply(s.To(t, pc), es[0], at) == Apply(s, es[0], at).To(t, pc);
      AppliesElsewhere(Apply(s, es[0], at), t, pc, es[1..], at);
    }
  }

  /** DoSend, uninterrupted, is Session.DoSend. */
  lemma DoSendAlone(s: State, t: nat, c: Caller, fd: int, script: seq<Sessions.Attempt>, end: State)
    requires s.tx.taken < |s.tx.pushed| && t < |s.pcs| && s.pcs[t] == InSend(Swap(c)) && s.order == AsWritten
    requires SameFd(s, fd) && (s.fd.live ==> Closed !in s.fd.log) && Undisturbed(script)
    requires Sessions.LegalScript(|Concat(s.tx.pushed[s.tx.taken..])|, s.fd.live, script)
    requires var ending := Sessions.EndingOf(|Concat(s.tx.pushed[s.tx.taken..])|, s.fd.live, script);
             Alone(Sent(Swapped(s), ending, Batch(s.tx.taken, |s.tx.pushed|), fd).To(t, Returned(c)), t, [], end)
    ensures Alone(s, t, Answers(t, s.fd.live, script), end)
  {
    var b := Batch(s.tx.taken, |s.tx.pushed|);
    var s1 := Swapped(s).To(t, InSend(CheckFd(c, b)));
    var ending := Sessions.EndingOf(|Concat(s.tx.pushed[s.tx.taken..])|, s.fd.live, script);
    assert s.tx.pushed[b.from..b.to] == s.tx.pushed[s.tx.taken..];
    PcsDoNotMatter(Swapped(s), t, InSend(CheckFd(c, b)), ending, b, fd);
    ToTwice(Sent(Swapped(s), ending, b, fd), t, InSend(CheckFd(c, b)), Returned(c));
    LoopAlone(s1, t, c, b, fd, script, end);
    assert GoSend(s, t, Swap(c)) == s1;
    SendGoes(s, t, Swap(c), Answers(t, s.fd.live, script), end);
  }

  function Swapped(s: State): State {
    s.(tx := s.tx.(taken := |s.tx.pushed|))
  }

  function Pushed(s: State, p: Packet): State {
    s.(tx := s.tx.(pushed := s.tx.pushed + [p]))
  }

  /** The send event is one-shot: an armed event can fire, and when a thread has taken the
      SendJob it is not armed, no firing is left over, and the thread is about to swap. */
  lemma SendJobTakesItsEvent(s: State, t: nat)
    requires s.tx.taken <= |s.tx.pushed| && s.tx.armed && t < |s.pcs| && s.pcs[t] == Idle
    ensures Enabled(s, SendFires) && !Enabled(Next(s, SendFires), SendFires)
    ensures var fired := Next(s, SendFires);
            && Enabled(fired, Starts(t, RunSendJob))
            && Next(fired, Starts(t, RunSendJob))
               == s.(tx := s.tx.(armed := false)).To(t, InSend(Swap(FromSendJob)))
  {
  }

  /** So is the receive event: armed, it can fire once, and a thread that takes the RecvJob
      begins Execute. */
  lemma RecvJobTakesItsEvent(s: State, t: nat)
    requires s.tx.taken <= |s.tx.pushed| && s.rx.token == Token.Armed && t < |s.pcs| && s.pcs[t] == Idle
    ensures Enabled(s, RecvFires) && !Enabled(Next(s, RecvFires), RecvFires)
    ensures var fired := Next(s, RecvFires);
            && Enabled(fired, Starts(t, RunRecvJob))
            && Next(fired, Starts(t, RunRecvJob))
               == s.(rx := s.rx.(token := Running)).To(t, InRecv(RecvPc.Check))
  {
  }

  /** A Send that finds the flag taken only queues its packet. */
  lemma UninterruptedSendQueues(s: State, t: nat, p: Packet)
    requires s.tx.taken <= |s.tx.pushed| && t < |s.pcs| && s.pcs[t] == Idle && s.tx.flag
    ensures Alone(s, t, [Starts(t, Send(p))], Pushed(s, p))
  {
    var s1 := Pushed(s, p).To(t, InSend(TestAndSet));
    Arrived(Pushed(s, p), t);
    ToTwice(Pushed(s, p), t, InSend(TestAndSet), Idle);
    assert Pushed(s, p).To(t, Idle) == Pushed(s, p);
    assert GoSend(s1, t, TestAndSet) == Pushed(s, p);
    SendGoes(s1, t, TestAndSet, [], Pushed(s, p));
    Chooses(s, t, Starts(t, Send(p)), [], Pushed(s, p));
    assert [Starts(t, Send(p))] + [] == [Starts(t, Send(p))];
  }

  /** A Send that wins the flag sends everything queued, as Session.Send does, and arms the
      event with the fd it then finds. */
  lemma UninterruptedSend(s: State, t: nat, p: Packet, fd: int, script: seq<Sessions.Attempt>)
    requires s.tx.taken <= |s.tx.pushed| && t < |s.pcs| && s.pcs[t] == Idle && s.order == AsWritten && !s.tx.flag
    requires SameFd(s, fd) && (s.fd.live ==> Closed !in s.fd.log) && Undisturbed(script)
    requires Sessions.LegalScript(|Concat(Pushed(s, p).tx.pushed[s.tx.taken..])|, s.fd.live, script)
    ensures Alone(s, t, [Starts(t, Send(p))] + Answers(t, s.fd.live, script), AfterSend(s, p, fd, script))
  {
    var end := AfterSend(s, p, fd, script);
    var won := Won(s, p);
    var s1, s2 := Pushed(s, p).To(t, InSend(TestAndSet)), won.To(t, InSend(Swap(FromSend)));
    var b := Batch(s.tx.taken, |s.tx.pushed| + 1);
    var ending := Sessions.EndingOf(|Concat(won.tx.pushed[s.tx.taken..])|, s.fd.live, script);
    var sent := Sent(Swapped(won), ending, b, fd);
    SentKeeps(Swapped(won), ending, b, fd);
    RearmsAlone(sent, t, FdAfter(ending, fd), end);
    PcsDoNotMatter(Swapped(won), t, InSend(Swap(FromSend)), ending, b, fd);
    ToTwice(sent, t, InSend(Swap(FromSend)), InSend(Rearm));
    assert Swapped(s2) == Swapped(won).To(t, InSend(Swap(FromSend)));
    DoSendAlone(s2, t, FromSend, fd, script, end);
    ToTwice(won, t, InSend(TestAndSet), InSend(Swap(FromSend)));
    assert GoSend(s1, t, TestAndSet) == s2;
    SendGoes(s1, t, TestAndSet, Answers(t, s.fd.live, script), end);
    Chooses(s, t, Starts(t, Send(p)), Answers(t, s.fd.live, script), end);
  }

  function Won(s: State, p: Packet): State {
    s.(tx := s.tx.(pushed := s.tx.pushed + [p], flag := true))
  }

  function FdAfter(ending: Sessions.Ending, fd: int): int {
    if ending.Full? || ending.Short? then fd else Sessions.INVALID_FD
  }

  function AfterSend(s: State, p: Packet, fd: int, script: seq<Sessions.Attempt>): State
    requires s.tx.taken <= |s.tx.pushed|
    requires Sessions.LegalScript(|Concat(Pushed(s, p).tx.pushed[s.tx.taken..])|, s.fd.live, script)
  {
    var ending := Sessions.EndingOf(|Concat(Pushed(s, p).tx.pushed[s.tx.taken..])|, s.fd.live, script);
    Apply(Sent(Swapped(Won(s, p)), ending, Batch(s.tx.taken, |s.tx.pushed| + 1), fd),
          Sessions.ArmedSend(FdAfter(ending, fd)), 0)
  }

  lemma SentKeeps(s: State, ending: Sessions.Ending, b: Batch, fd: int)
    requires b.from <= b.to <= |s.tx.pushed|
    ensures var s' := Sent(s, ending, b, fd);
            && s'.fd.live == (s.fd.live && (ending.Full? || ending.Short?))
            && s'.tx.taken == s.tx.taken && s'.tx.pushed == s.tx.pushed
            && s'.tx.flag == (ending.Short? && s.tx.flag)
  {
    var tx := Marked(s.tx, ending, b.to).(flag := ending.Short? && s.tx.flag);
    var live := s.fd.live && (ending.Full? || ending.Short?);
    StaysAsItWas(s.(tx := tx, fd := s.fd.(live := live)),
                 Sessions.EffectsOf(ending, s.tx.pushed[b.from..b.to], fd, s.rx.flag), s.tx.Offset(b.from));
  }

  lemma RearmsAlone(s: State, t: nat, fd: int, end: State)
    requires s.tx.taken <= |s.tx.pushed| && t < |s.pcs| && s.pcs[t] == Idle && SameFd(s, fd)
    requires end == Apply(s, Sessions.ArmedSend(fd), 0)
    ensures Alone(s.To(t, InSend(Rearm)), t, [], end)
  {
    Arrived(end, t);
    ToTwice(end, t, InSend(Rearm), Idle);
    assert end.To(t, Idle) == end;
    assert GoSend(s.To(t, InSend(Rearm)), t, Rearm) == end;
    SendGoes(s.To(t, InSend(Rearm)), t, Rearm, [], end);
  }
}
