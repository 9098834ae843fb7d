/** Two runs of the written protocol that go wrong. */
module SessionWitness {
  import opened Bytes
  import opened SessionProtocol
  import opened SessionWire

  /** A fresh session and `n` idle threads. */
  function Fresh(n: nat): (s: State)
    ensures Initial(s) && |s.pcs| == n && s.order == AsWritten
  {
    State(AsWritten, Sending([], 0, false, [], false, false, 0, false, false, 0), Socket(true, []),
          Receiving(true, Token.Armed, []), seq(n, i => Idle))
  }

  datatype Reached = To(state: State) | Nowhere

  /** Where a list of labels leads, taken one after the other. */
  function Follow(now: State, ls: seq<Label>): Reached
    decreases |ls|
  {
    if ls == [] then To(now)
    else if Enabled(now, ls[0]) then Follow(Next(now, ls[0]), ls[1..])
    else Nowhere
  }

  lemma Extend(s: State, ls: seq<Label>, l: Label)
    requires LegalRun(s, ls) && Enabled(Run(s, ls), l)
    ensures LegalRun(s, ls + [l]) && Run(s, ls + [l]) == Next(Run(s, ls), l)
  {
    assert (ls + [l])[..|ls + [l]| - 1] == ls;
  }

  /** The first label of a path, as one more label of a run. */
  lemma FollowFirst(s: State, ls: seq<Label>, now: State, ms: seq<Label>, end: State) returns (next: State)
    requires LegalRun(s, ls) && Run(s, ls) == now && Follow(now, ms) == To(end) && ms != []
    ensures LegalRun(s, ls + [ms[0]]) && Run(s, ls + [ms[0]]) == next && Follow(next, ms[1..]) == To(end)
  {
    next := Next(now, ms[0]);
    Extend(s, ls, ms[0]);
  }

  lemma {:induction false} FollowIsRun(s: State, ls: seq<Label>, now: State, ms: seq<Label>, end: State)
    requires LegalRun(s, ls) && Run(s, ls) == now && Follow(now, ms) == To(end)
    ensures LegalRun(s, ls + ms) && Run(s, ls + ms) == end
    decreases |ms|
  {
    if ms == [] {
      assert ls + ms == ls;
    } else {
      var next := FollowFirst(s, ls, now, ms, end);
      FollowIsRun(s, ls + [ms[0]], next, ms[1..], end);
      OneMore(ls, ms);
    }
  }

  lemma OneMore<T>(ls: seq<T>, ms: seq<T>)
    requires ms != []
    ensures ls + [ms[0]] + ms[1..] == ls + ms
  {
  }

  lemma OneLess<T>(ls: seq<T>, ms: seq<T>)
    requires ls != []
    ensures ls + ms != [] && (ls + ms)[0] == ls[0] && (ls + ms)[1..] == ls[1..] + ms
  {
  }

  lemma {:induction false} FollowOn(now: State, ls: seq<Label>, mid: State, ms: seq<Label>, end: State)
    requires Follow(now, ls) == To(mid) && Follow(mid, ms) == To(end)
    ensures Follow(now, ls + ms) == To(end)
    decreases |ls|
  {
    if ls == [] {
      assert ls + ms == ms;
    } else {
      FollowOn(Next(now, ls[0]), ls[1..], mid, ms, end);
      OneLess(ls, ms);
    }
  }

  lemma FollowOne(now: State, l: Label)
    requires Enabled(now, l)
    ensures Follow(now, [l]) == To(Next(now, l))
  {
    assert [l][1..] == [];
  }

  /** Send's way from a push to writev, with nothing in between. */
  function ToWritev(t: nat, p: Packet): seq<Label> {
    [Starts(t, Send(p))] + [Go(t)] + [Go(t)] + [Go(t)] + [Go(t)]
  }

  function AtWritev(now: State, t: nat, p: Packet): State
    requires t < |now.pcs|
  {
    var k := |now.tx.pushed|;
    now.(tx := now.tx.(pushed := now.tx.pushed + [p], taken := k + 1, flag := true),
         pcs := now.pcs[t := InSend(Writev(FromSend, Batch(k, k + 1), true))])
  }

  predicate QuietAndEmpty(now: State, t: nat) {
    t < |now.pcs| && now.pcs[t] == Idle && !now.tx.flag && now.fd.live && now.tx.taken == |now.tx.pushed|
  }

  lemma PushAndWin(now: State, t: nat, p: Packet)
    requires QuietAndEmpty(now, t)
    ensures var k := |now.tx.pushed|;
            Follow(now, [Starts(t, Send(p))] + [Go(t)])
              == To(now.(tx := now.tx.(pushed := now.tx.pushed + [p], flag := true),
                       pcs := now.pcs[t := InSend(Swap(FromSend))]))
  {
    var a := Next(now, Starts(t, Send(p)));
    FollowOne(now, Starts(t, Send(p)));
    FollowOne(a, Go(t));
    FollowOn(now, [Starts(t, Send(p))], a, [Go(t)], Next(a, Go(t)));
    assert Next(a, Go(t)) == GoSend(a, t, TestAndSet);
    assert a.pcs[t := InSend(Swap(FromSend))] == now.pcs[t := InSend(Swap(FromSend))];
  }

  lemma SwapAndCheck(now: State, t: nat)
    requires t < |now.pcs| && now.pcs[t] == InSend(Swap(FromSend)) && now.fd.live
    requires now.tx.taken < |now.tx.pushed|
    ensures var b := Batch(now.tx.taken, |now.tx.pushed|);
            Follow(now, [Go(t)] + [Go(t)] + [Go(t)])
              == To(now.(tx := now.tx.(taken := b.to), pcs := now.pcs[t := InSend(Writev(FromSend, b, true))]))
  {
    var b := Batch(now.tx.taken, |now.tx.pushed|);
    var a := now.(tx := now.tx.(taken := b.to), pcs := now.pcs[t := InSend(CheckFd(FromSend, b))]);
    assert Next(now, Go(t)) == GoSend(now, t, Swap(FromSend)) == a;
    var c := a.To(t, InSend(FetchFd(FromSend, b)));
    assert Next(a, Go(t)) == GoSend(a, t, CheckFd(FromSend, b)) == c;
    var d := c.To(t, InSend(Writev(FromSend, b, true)));
    assert Next(c, Go(t)) == GoSend(c, t, FetchFd(FromSend, b)) == d;
    FollowOne(now, Go(t));
    FollowOne(a, Go(t));
    FollowOne(c, Go(t));
    FollowOn(now, [Go(t)], a, [Go(t)], c);
    FollowOn(now, [Go(t)] + [Go(t)], c, [Go(t)], d);
    assert d.pcs == now.pcs[t := InSend(Writev(FromSend, b, true))];
  }

  lemma ReachesWritev(now: State, t: nat, p: Packet)
    requires QuietAndEmpty(now, t)
    ensures Follow(now, ToWritev(t, p)) == To(AtWritev(now, t, p))
  {
    var mid := now.(tx := now.tx.(pushed := now.tx.pushed + [p], flag := true),
                    pcs := now.pcs[t := InSend(Swap(FromSend))]);
    PushAndWin(now, t, p);
    SwapAndCheck(mid, t);
    assert mid.pcs[t := AtWritev(now, t, p).pcs[t]] == AtWritev(now, t, p).pcs;
    FollowOn(now, [Starts(t, Send(p))] + [Go(t)], mid, [Go(t)] + [Go(t)] + [Go(t)], AtWritev(now, t, p));
    assert ToWritev(t, p) == ([Starts(t, Send(p))] + [Go(t)]) + ([Go(t)] + [Go(t)] + [Go(t)]);
  }

  lemma SizeOfOne(tx: Sending, k: nat, p: Packet)
    requires k < |tx.pushed| && tx.pushed[k] == p
    ensures tx.Offset(k + 1) - tx.Offset(k) == |p|
  {
    assert tx.pushed[..k + 1] == tx.pushed[..k] + [p];
    ConcatSnoc(tx.pushed[..k], p);
  }

  /** A writev blocks, and the flag is cleared. */
  lemma BlocksAndClears(now: State, t: nat, b: Batch)
    requires t < |now.pcs| && now.pcs[t] == InSend(Writev(FromSend, b, true)) && now.order == AsWritten
    requires now.tx.taken <= |now.tx.pushed| && b.from <= b.to <= |now.tx.pushed| && !now.tx.lost
    ensures Follow(now, [Writes(t, WouldBlock)] + [Go(t)])
      == To(now.(tx := now.tx.(lost := true, lostTo := b.to, flag := false),
                       pcs := now.pcs[t := InDisconnect(Retire, ToRearm)]))
  {
    var a := now.(tx := now.tx.(lost := true, lostTo := b.to), pcs := now.pcs[t := InSend(ClearBlocked(FromSend))]);
    assert Next(now, Writes(t, WouldBlock)) == Write(now, t, FromSend, b, true, WouldBlock) == a;
    assert Next(a, Go(t)) == GoSend(a, t, ClearBlocked(FromSend));
    FollowOne(now, Writes(t, WouldBlock));
    FollowOne(a, Go(t));
    FollowOn(now, [Writes(t, WouldBlock)], a, [Go(t)], Next(a, Go(t)));
    assert a.pcs[t := InDisconnect(Retire, ToRearm)] == now.pcs[t := InDisconnect(Retire, ToRearm)];
  }

  function GapRun(p: Packet, q: Packet): seq<Label> {
    ToWritev(0, p) + ([Writes(0, WouldBlock)] + [Go(0)]) + ToWritev(1, q) + [Writes(1, Wrote(|q|))]
  }

  lemma GapRunIsLegal(p: Packet, q: Packet)
    ensures LegalRun(Fresh(2), GapRun(p, q))
  {
    var s := Fresh(2);
    var s1 := AtWritev(s, 0, p);
    ReachesWritev(s, 0, p);
    BlocksAndClears(s1, 0, Batch(0, 1));
    var s2 := s1.(tx := s1.tx.(lost := true, lostTo := 1, flag := false),
                  pcs := s1.pcs[0 := InDisconnect(Retire, ToRearm)]);
    ReachesWritev(s2, 1, q);
    var s3 := AtWritev(s2, 1, q);
    SizeOfOne(s3.tx, 1, q);
    FollowOne(s3, Writes(1, Wrote(|q|)));
    FollowOn(s, ToWritev(0, p), s1, [Writes(0, WouldBlock)] + [Go(0)], s2);
    FollowOn(s, ToWritev(0, p) + ([Writes(0, WouldBlock)] + [Go(0)]), s2, ToWritev(1, q), s3);
    FollowOn(s, ToWritev(0, p) + ([Writes(0, WouldBlock)] + [Go(0)]) + ToWritev(1, q), s3,
            [Writes(1, Wrote(|q|))], Next(s3, Writes(1, Wrote(|q|))));
    FollowIsRun(s, [], s, GapRun(p, q), Next(s3, Writes(1, Wrote(|q|))));
    assert [] + GapRun(p, q) == GapRun(p, q);
  }

  /** EAGAIN as written: the first thread clears the flag with the fd still in place, the
      second one sends its packet, and the first packet is missing on the wire. */
  lemma BlockedWriteLeavesAGap(p: Packet, q: Packet)
    ensures LegalRun(Fresh(2), GapRun(p, q)) && SendOnly(GapRun(p, q))
    ensures !InOrder(Run(Fresh(2), GapRun(p, q)).tx.wire)
  {
    GapRunIsLegal(p, q);
    var ls := GapRun(p, q);
    assert ls[5] == Writes(0, WouldBlock) && ls[12] == Writes(1, Wrote(|q|));
    assert IsFailure(ls[5]);
    assert WriteAfterFailure(ls);
    WireInOrderIff(Fresh(2), ls);
  }

  /** The second thread pushes while the first one holds the flag, and goes away. */
  lemma PushAndLose(now: State, t: nat, q: Packet)
    requires t < |now.pcs| && now.pcs[t] == Idle && now.tx.flag && now.tx.taken <= |now.tx.pushed|
    ensures Follow(now, [Starts(t, Send(q))] + [Go(t)]) == To(now.(tx := now.tx.(pushed := now.tx.pushed + [q])))
  {
    var a := Next(now, Starts(t, Send(q)));
    FollowOne(now, Starts(t, Send(q)));
    FollowOne(a, Go(t));
    FollowOn(now, [Starts(t, Send(q))], a, [Go(t)], Next(a, Go(t)));
    assert Next(a, Go(t)) == GoSend(a, t, TestAndSet);
    assert a.pcs[t := Idle] == now.pcs;
  }

  /** The whole batch is written, the flag cleared and the event armed. */
  lemma WritesAndReturns(now: State, t: nat, b: Batch, n: nat)
    requires t < |now.pcs| && now.pcs[t] == InSend(Writev(FromSend, b, true)) && now.fd == Socket(true, [])
    requires now.tx.taken <= |now.tx.pushed| && b.from <= b.to <= |now.tx.pushed|
    requires 0 < n == now.tx.Offset(b.to) - now.tx.Offset(b.from)
    ensures Follow(now, [Writes(t, Wrote(n))] + [Go(t)] + [Go(t)])
      == To(now.(tx := now.tx.(wire := now.tx.wire + Places(now.tx.Offset(b.from), n),
                                     torn := now.tx.torn || now.tx.lost, flag := false, armed := true),
                       pcs := now.pcs[t := Idle]))
  {
    var tx := now.tx.(wire := now.tx.wire + Places(now.tx.Offset(b.from), n), torn := now.tx.torn || now.tx.lost);
    var a := now.(tx := tx, pcs := now.pcs[t := InSend(ClearFull(FromSend))]);
    assert Next(now, Writes(t, Wrote(n))) == Write(now, t, FromSend, b, true, Wrote(n)) == a;
    FollowOne(now, Writes(t, Wrote(n)));
    ClearsAndArms(a, t);
    var c := a.(tx := tx.(flag := false, armed := true), pcs := a.pcs[t := Idle]);
    FollowOn(now, [Writes(t, Wrote(n))], a, [Go(t)] + [Go(t)], c);
    assert c.pcs == now.pcs[t := Idle];
    assert [Writes(t, Wrote(n))] + ([Go(t)] + [Go(t)]) == [Writes(t, Wrote(n))] + [Go(t)] + [Go(t)];
  }

  lemma ClearsAndArms(now: State, t: nat)
    requires t < |now.pcs| && now.pcs[t] == InSend(ClearFull(FromSend)) && now.fd.live
    requires now.tx.taken <= |now.tx.pushed|
    ensures Follow(now, [Go(t)] + [Go(t)])
      == To(now.(tx := now.tx.(flag := false, armed := true), pcs := now.pcs[t := Idle]))
  {
    var c := now.(tx := now.tx.(flag := false), pcs := now.pcs[t := InSend(Rearm)]);
    assert Next(now, Go(t)) == GoSend(now, t, ClearFull(FromSend)) == c;
    assert Next(c, Go(t)) == GoSend(c, t, Rearm);
    FollowOne(now, Go(t));
    FollowOne(c, Go(t));
    FollowOn(now, [Go(t)], c, [Go(t)], Next(c, Go(t)));
    assert c.pcs[t := Idle] == now.pcs[t := Idle];
  }

  function LeftBehindRun(p: Packet, q: Packet): seq<Label> {
    ToWritev(0, p) + ([Starts(1, Send(q))] + [Go(1)]) + ([Writes(0, Wrote(|p|))] + [Go(0)] + [Go(0)])
  }

  /** Both threads are back from Send, all they could do is done, and one packet is still
      queued: the second thread pushed it after the swap and lost the test-and-set. Only the
      event on the second epoll, which nothing waits on, could get it sent. */
  lemma PacketLeftBehind(p: Packet, q: Packet)
    ensures LegalRun(Fresh(2), LeftBehindRun(p, q))
    ensures var end := Run(Fresh(2), LeftBehindRun(p, q));
            && end.pcs == [Idle, Idle] && end.fd.live
            && end.tx.pushed == [p, q] && end.tx.taken == 1 && !end.tx.flag && end.tx.armed
  {
    var s := Fresh(2);
    var s1 := AtWritev(s, 0, p);
    ReachesWritev(s, 0, p);
    PushAndLose(s1, 1, q);
    var s2 := s1.(tx := s1.tx.(pushed := s1.tx.pushed + [q]));
    SizeOfOne(s2.tx, 0, p);
    WritesAndReturns(s2, 0, Batch(0, 1), |p|);
    var s3 := s2.(tx := s2.tx.(wire := s2.tx.wire + Places(s2.tx.Offset(0), |p|), flag := false, armed := true),
                  pcs := s2.pcs[0 := Idle]);
    FollowOn(s, ToWritev(0, p), s1, [Starts(1, Send(q))] + [Go(1)], s2);
    FollowOn(s, ToWritev(0, p) + ([Starts(1, Send(q))] + [Go(1)]), s2,
            [Writes(0, Wrote(|p|))] + [Go(0)] + [Go(0)], s3);
    FollowIsRun(s, [], s, LeftBehindRun(p, q), s3);
    assert [] + LeftBehindRun(p, q) == LeftBehindRun(p, q);
    assert s3.pcs == [Idle, Idle];
  }
}
