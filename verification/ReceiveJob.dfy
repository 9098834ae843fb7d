/** The server's RecvJob: Execute drains the socket into the session's buffer, Complete
    hands the unread bytes to OnRecv and arms the event again. */
module ReceiveJob {
  import opened Bytes
  import opened ByteRing
  import opened RecvBuffers
  import Sessions

  /** What one pass of Execute's loop meets. `Retired`: some thread has taken the fd away
      before the check. `Recv`: recv answers that many bytes; none at all is its answer 0. */
  datatype Attempt = Retired | Recv(bytes: seq<Byte>) | WouldBlock | Interrupted | ConnectionLost | OtherError

  datatype Drained = Drained(ring: Ring, got: seq<Byte>, keepsGoing: bool)

  /** recv never answers more than it is asked for, and the loop goes on until it leaves. */
  ghost predicate LegalScript(r: Ring, live: bool, script: seq<Attempt>)
    requires r.Valid()
    decreases |script|
  {
    !live
    || (script != []
        && match script[0]
           case Recv(bytes) =>
             |bytes| <= r.DirectWriteSize()
             && (bytes == [] || LegalScript(r.Receive(bytes), live, script[1..]))
           case Interrupted => LegalScript(r, live, script[1..])
           case _ => true)
  }

  /** Execute: `keepsGoing` is its answer, whether Complete is to run. */
  function Drain(r: Ring, live: bool, script: seq<Attempt>): (d: Drained)
    requires r.Valid() && LegalScript(r, live, script)
    ensures d.ring.Valid()
    decreases |script|
  {
    if !live then Drained(r, [], false)
    else match script[0]
         case Retired => Drained(r, [], false)
         case Recv(bytes) =>
           if bytes == [] then Drained(r, [], false)
           else
             var d := Drain(r.Receive(bytes), live, script[1..]);
             d.(got := bytes + d.got)
         case WouldBlock => Drained(r, [], true)
         case Interrupted => Drain(r, live, script[1..])
         case ConnectionLost => Drained(r, [], false)
         case OtherError => Drained(r, [], true)
  }

  /** The buffer after OnRecv answered: only a positive answer moves anything. */
  function Consume(r: Ring, answer: int): (c: Ring)
    requires r.Valid() && answer <= |r.Contents()|
    ensures c.Valid()
  {
    if answer <= 0 then r
    else if answer == |r.Contents()| then r.Reset()
    else r.MoveRead(answer)
  }

  /** Draining appends what was received and stays below the end of the array. */
  lemma {:induction false} DrainAppends(r: Ring, live: bool, script: seq<Attempt>)
    requires r.Valid() && LegalScript(r, live, script)
    ensures var d := Drain(r, live, script);
            && d.ring.Contents() == r.Contents() + d.got
            && |d.ring.buf| == |r.buf| && d.ring.front == r.front
            && d.ring.rear == r.rear + |d.got|
    decreases |script|
  {
    if live {
      match script[0]
      case Recv(bytes) =>
        if bytes != [] {
          ReceiveAppends(r, bytes);
          DrainAppends(r.Receive(bytes), live, script[1..]);
        }
      case Interrupted => DrainAppends(r, live, script[1..]);
      case _ =>
    }
  }

  /** The attempts after which the loop goes round again. */
  predicate GoesRound(a: Attempt) {
    a.Interrupted? || (a.Recv? && a.bytes != [])
  }

  /** How many attempts come before the one that ends the loop. */
  function PassesOn(script: seq<Attempt>): (n: nat)
    ensures n <= |script| && (n < |script| ==> !GoesRound(script[n]))
    ensures forall k :: 0 <= k < n ==> GoesRound(script[k])
  {
    if script == [] || !GoesRound(script[0]) then 0 else 1 + PassesOn(script[1..])
  }

  /** All bytes that recv gave. */
  function BytesIn(script: seq<Attempt>): seq<Byte> {
    if script == [] then []
    else (if script[0].Recv? then script[0].bytes else []) + BytesIn(script[1..])
  }

  /** The attempt that ends the loop. */
  function Last(script: seq<Attempt>): Attempt {
    if PassesOn(script) < |script| then script[PassesOn(script)] else Retired
  }

  /** The fd that Disconnect finds when Execute gives the session up. */
  function FdAtLast(fd: int, script: seq<Attempt>): int {
    if Last(script).Retired? then Sessions.INVALID_FD else fd
  }

  /** What Execute takes in and answers: all bytes up to the first attempt that ends the loop,
      and true exactly if that one is EAGAIN or an error it does not know. */
  lemma {:induction false} DrainMeans(r: Ring, live: bool, script: seq<Attempt>)
    requires r.Valid() && LegalScript(r, live, script)
    ensures var d := Drain(r, live, script);
            && d.ring.Contents() == r.Contents() + d.got
            && (!live ==> !d.keepsGoing && d.got == [])
            && (live ==>
                  var n := PassesOn(script);
                  && n < |script| && d.got == BytesIn(script[..n])
                  && (d.keepsGoing <==> Last(script).WouldBlock? || Last(script).OtherError?))
    decreases |script|
  {
    DrainAppends(r, live, script);
    if live && GoesRound(script[0]) {
      var n := PassesOn(script);
      assert script[..n][0] == script[0] && script[..n][1..] == script[1..][..n - 1];
      if script[0].Recv? {
        DrainMeans(r.Receive(script[0].bytes), live, script[1..]);
      } else {
        DrainMeans(r, live, script[1..]);
      }
    }
  }

  /** When the rear offset is at the end of the array, or right before the front offset, recv
      is asked for nothing, whatever it answers without an error is 0, and the session is
      given up. */
  lemma FullBufferDisconnects(r: Ring, script: seq<Attempt>)
    requires r.Valid() && LegalScript(r, true, script)
    requires script[0].Recv? && (r.rear == |r.buf| - 1 || r.rear + 1 == r.front)
    ensures r.DirectWriteSize() == 0 && Drain(r, true, script) == Drained(r, [], false)
  {
  }

  class RecvJob {
    const session: Sessions.Session
    const recvBuffer: RecvBuffer

    ghost predicate Valid()
      reads this, recvBuffer
    {
      recvBuffer.Valid()
    }

    constructor (session: Sessions.Session, recvBuffer: RecvBuffer)
      requires recvBuffer.Valid()
      ensures Valid() && this.session == session && this.recvBuffer == recvBuffer
    {
      this.session, this.recvBuffer := session, recvBuffer;
    }

    /** The three places where Execute and Complete give the session up. */
    method GiveUp()
      modifies session`isRecving, session`sessionFD, session`effects
      ensures !session.isRecving && session.sessionFD == Sessions.INVALID_FD
      ensures session.effects == old(session.effects)
                + Sessions.DisconnectEffects(old(session.sessionFD), session.isSending)
    {
      session.isRecving := false;
      session.Disconnect();
    }

    /** What Execute receives is all bytes up to the first attempt that ends the loop; it goes on
        to Complete exactly if that one is EAGAIN or an error it does not know, and else gives
        the session up. */
    method Execute(script: seq<Attempt>) returns (complete: bool)
      requires Valid()
      requires LegalScript(recvBuffer.View(), session.sessionFD != Sessions.INVALID_FD, script)
      modifies session`isRecving, session`sessionFD, session`effects, recvBuffer`rear, recvBuffer.data
      ensures Valid()
      ensures recvBuffer.View() == Drain(old(recvBuffer.View()), old(session.sessionFD) != Sessions.INVALID_FD,
                                         script).ring
      ensures complete <==> old(session.sessionFD) != Sessions.INVALID_FD
                            && (Last(script).WouldBlock? || Last(script).OtherError?)
      ensures recvBuffer.Contents() == old(recvBuffer.Contents())
                + if old(session.sessionFD) == Sessions.INVALID_FD then [] else BytesIn(script[..PassesOn(script)])
      ensures complete ==>
                session.isRecving == old(session.isRecving) && session.effects == old(session.effects)
                && session.sessionFD == old(session.sessionFD)
      ensures !complete ==>
                !session.isRecving && session.sessionFD == Sessions.INVALID_FD
                && session.effects == old(session.effects)
                     + Sessions.DisconnectEffects(FdAtLast(old(session.sessionFD), script), session.isSending)
    {
      DrainMeans(recvBuffer.View(), session.sessionFD != Sessions.INVALID_FD, script);
      complete := ReceiveLoop(script);
    }

    /** The loop of Execute. */
    method ReceiveLoop(script: seq<Attempt>) returns (complete: bool)
      requires Valid()
      requires LegalScript(recvBuffer.View(), session.sessionFD != Sessions.INVALID_FD, script)
      modifies session`isRecving, session`sessionFD, session`effects, recvBuffer`rear, recvBuffer.data
      ensures Valid()
      ensures var d := Drain(old(recvBuffer.View()), old(session.sessionFD) != Sessions.INVALID_FD, script);
              recvBuffer.View() == d.ring && complete == d.keepsGoing
      ensures complete ==>
                session.isRecving == old(session.isRecving) && session.effects == old(session.effects)
                && session.sessionFD == old(session.sessionFD)
      ensures !complete ==>
                !session.isRecving && session.sessionFD == Sessions.INVALID_FD
                && session.effects == old(session.effects)
                     + Sessions.DisconnectEffects(FdAtLast(old(session.sessionFD), script), session.isSending)
    {
      var i := 0;
      ghost var outcome := Drain(recvBuffer.View(), session.sessionFD != Sessions.INVALID_FD, script);
      while true
        invariant Valid() && 0 <= i <= |script| && Last(script[i..]) == Last(script)
        invariant session.isRecving == old(session.isRecving) && session.effects == old(session.effects)
        invariant session.sessionFD == old(session.sessionFD)
        invariant LegalScript(recvBuffer.View(), session.sessionFD != Sessions.INVALID_FD, script[i..])
        invariant
          var d := Drain(recvBuffer.View(), session.sessionFD != Sessions.INVALID_FD, script[i..]);
          d.ring == outcome.ring && d.keepsGoing == outcome.keepsGoing
        decreases |script| - i
      {
        ghost var before := recvBuffer.View();
        if session.sessionFD != Sessions.INVALID_FD && script[i] == Retired {
          var _ := session.RetireFd();
          GiveUp();
          return false;
        }
        if session.sessionFD == Sessions.INVALID_FD {
          GiveUp();
          return false;
        }
        match script[i] {
          case Recv(bytes) =>
            if bytes == [] {
              GiveUp();
              return false;
            }
            ReceiveAppends(before, bytes);
            recvBuffer.Accept(bytes);
          case WouldBlock => return true;
          case Interrupted =>
          case ConnectionLost =>
            GiveUp();
            return false;
          case OtherError => return true;
        }
        assert script[i..][1..] == script[i + 1..];
        i := i + 1;
      }
    }

    /** `answer` is what OnRecv returns if it is called, `rearmed` whether the event could be
        armed again; `shown` is what OnRecv was given to read. */
    method Complete(answer: int, rearmed: bool) returns (shown: seq<Byte>)
      requires Valid() && answer <= recvBuffer.GetDirectReadSize()
      requires rearmed ==> session.sessionFD != Sessions.INVALID_FD
      modifies session`isRecving, session`sessionFD, session`effects, recvBuffer
      ensures Valid() && shown == old(recvBuffer.Contents()[..recvBuffer.GetDirectReadSize()])
      ensures recvBuffer.View() == Consume(old(recvBuffer.View()), answer)
      ensures recvBuffer.Contents() == old(recvBuffer.Contents())[if answer > 0 then answer else 0..]
      ensures 0 < answer == |old(recvBuffer.Contents())| ==> recvBuffer.front == 0 == recvBuffer.rear
      ensures rearmed || old(session.sessionFD) != Sessions.INVALID_FD ==>
                session.isRecving == old(session.isRecving) && session.effects == old(session.effects)
                && session.sessionFD == old(session.sessionFD)
      ensures !rearmed && old(session.sessionFD) == Sessions.INVALID_FD ==>
                !session.isRecving && session.sessionFD == Sessions.INVALID_FD
                && session.effects == old(session.effects)
                     + Sessions.DisconnectEffects(Sessions.INVALID_FD, session.isSending)
    {
      if answer > 0 {
        ConsumeDrops(recvBuffer.View(), answer);
      }
      shown := [];
      var used := recvBuffer.GetUsedSize();
      if used > 0 {
        var size := recvBuffer.GetDirectReadSize();
        shown := recvBuffer.data[recvBuffer.front..recvBuffer.front + size];
        if answer > 0 {
          recvBuffer.MoveReadOffset(answer);
          if answer == used {
            recvBuffer.Reset();
          }
        }
      }
      if !rearmed {
        if session.sessionFD != Sessions.INVALID_FD {
          return;
        }
        GiveUp();
      }
    }
  }

  /** One turn of the job: Execute, and when it says so, Complete. */
  datatype Turn = Turn(live: bool, script: seq<Attempt>, answer: int)

  /** The stream of a session so far. `sinceReset` are the bytes taken in since the offsets
      were last set to 0, or since the start; `base` is the rear offset of that moment. */
  datatype Flow = Flow(ring: Ring, received: seq<Byte>, consumed: seq<Byte>, sinceReset: nat, base: nat)

  /** Nothing in the source resets the buffer before its first recv. */
  function FlowFrom(r: Ring): Flow {
    Flow(r, [], [], 0, r.rear)
  }

  function TurnStep(f: Flow, t: Turn): (f': Flow)
    requires f.ring.Valid() && LegalScript(f.ring, t.live, t.script)
    requires t.answer <= Drain(f.ring, t.live, t.script).ring.DirectReadSize()
    ensures f'.ring.Valid()
  {
    var d := Drain(f.ring, t.live, t.script);
    var unread := d.ring.Contents();
    var received := f.received + d.got;
    if !d.keepsGoing then Flow(d.ring, received, f.consumed, f.sinceReset + |d.got|, f.base)
    else
      var consumed := f.consumed + if t.answer > 0 then unread[..t.answer] else [];
      if 0 < t.answer == |unread| then Flow(Consume(d.ring, t.answer), received, consumed, 0, 0)
      else Flow(Consume(d.ring, t.answer), received, consumed, f.sinceReset + |d.got|, f.base)
  }

  /** What a worker does with a RecvJob is one turn of the flow: Execute and, when that says so,
      Complete, in which OnRecv consumes the first bytes of what it is shown. */
  method RunTurn(job: RecvJob, ghost f: Flow, script: seq<Attempt>, answer: int, rearmed: bool)
    returns (complete: bool, shown: seq<Byte>)
    requires job.Valid() && job.recvBuffer.View() == f.ring
    requires LegalScript(f.ring, job.session.sessionFD != Sessions.INVALID_FD, script)
    requires answer <= Drain(f.ring, job.session.sessionFD != Sessions.INVALID_FD, script).ring.DirectReadSize()
    modifies job.session`isRecving, job.session`sessionFD, job.session`effects, job.recvBuffer, job.recvBuffer.data
    ensures var live := old(job.session.sessionFD) != Sessions.INVALID_FD;
            var f' := TurnStep(f, Turn(live, script, answer));
            && job.Valid() && job.recvBuffer.View() == f'.ring
            && f'.received == f.received + (if live then BytesIn(script[..PassesOn(script)]) else [])
            && (complete ==> answer <= |shown|)
            && f'.consumed == f.consumed + (if complete && answer > 0 then shown[..answer] else [])
            && (complete <==> live && (Last(script).WouldBlock? || Last(script).OtherError?))
  {
    DrainMeans(f.ring, job.session.sessionFD != Sessions.INVALID_FD, script);
    complete := job.Execute(script);
    shown := [];
    if complete {
      shown := job.Complete(answer, rearmed);
    }
  }

  /** OnRecv never claims more bytes than it was shown. */
  ghost predicate LegalTurns(f: Flow, turns: seq<Turn>)
    requires f.ring.Valid()
    decreases |turns|
  {
    turns == []
    || (LegalScript(f.ring, turns[0].live, turns[0].script)
        && turns[0].answer <= Drain(f.ring, turns[0].live, turns[0].script).ring.DirectReadSize()
        && LegalTurns(TurnStep(f, turns[0]), turns[1..]))
  }

  function RunTurns(f: Flow, turns: seq<Turn>): Flow
    requires f.ring.Valid() && LegalTurns(f, turns)
    decreases |turns|
  {
    if turns == [] then f else RunTurns(TurnStep(f, turns[0]), turns[1..])
  }

  /** `before` is what the buffer held at the start. */
  ghost predicate FlowInv(f: Flow, before: seq<Byte>) {
    && f.ring.Valid()
    && f.consumed + f.ring.Contents() == before + f.received
    && f.ring.rear == f.base + f.sinceReset
  }

  lemma TurnKeepsFlow(f: Flow, t: Turn, before: seq<Byte>)
    requires FlowInv(f, before) && LegalScript(f.ring, t.live, t.script)
    requires t.answer <= Drain(f.ring, t.live, t.script).ring.DirectReadSize()
    ensures FlowInv(TurnStep(f, t), before) && |TurnStep(f, t).ring.buf| == |f.ring.buf|
    ensures f.ring.front <= f.ring.rear ==> TurnStep(f, t).ring.front <= TurnStep(f, t).ring.rear
  {
    var d := Drain(f.ring, t.live, t.script);
    DrainAppends(f.ring, t.live, t.script);
    GotIsUnread(f.consumed, f.ring.Contents(), d.got, before, f.received);
    if d.keepsGoing && t.answer > 0 {
      ReadIsConsumed(f.consumed, d.ring.Contents(), t.answer);
      ConsumeDrops(d.ring, t.answer);
    }
  }

  lemma ConsumeDrops(r: Ring, n: nat)
    requires r.Valid() && 0 < n <= r.DirectReadSize()
    ensures var c := Consume(r, n);
            && c.Contents() == r.Contents()[n..] && |c.buf| == |r.buf|
            && c.rear == (if n == |r.Contents()| then 0 else r.rear)
            && (r.front <= r.rear ==> c.front <= c.rear)
  {
    MoveReadDrops(r, n);
  }

  lemma GotIsUnread(consumed: seq<Byte>, unread: seq<Byte>, got: seq<Byte>, before: seq<Byte>, received: seq<Byte>)
    requires consumed + unread == before + received
    ensures consumed + (unread + got) == before + (received + got)
  {
    assert consumed + (unread + got) == (consumed + unread) + got;
    assert before + (received + got) == (before + received) + got;
  }

  lemma ReadIsConsumed(consumed: seq<Byte>, unread: seq<Byte>, n: nat)
    requires n <= |unread|
    ensures (consumed + unread[..n]) + unread[n..] == consumed + unread
    ensures n == |unread| ==> consumed + unread[..n] + [] == consumed + unread
  {
  }

  lemma {:induction false} FlowHolds(f: Flow, turns: seq<Turn>, before: seq<Byte>)
    requires FlowInv(f, before) && LegalTurns(f, turns)
    ensures var e := RunTurns(f, turns);
            && FlowInv(e, before) && |e.ring.buf| == |f.ring.buf|
            && (f.ring.front <= f.ring.rear ==> e.ring.front <= e.ring.rear)
    decreases |turns|
  {
    if turns != [] {
      TurnKeepsFlow(f, turns[0], before);
      FlowHolds(TurnStep(f, turns[0]), turns[1..], before);
    }
  }

  /** From any valid offsets, through every run: what OnRecv consumed and what is still unread
      are what the buffer held at the start and then the bytes received, in order. So they are
      the received bytes exactly if the buffer was empty at the start. At most B - 1 bytes are
      taken in between two resets. From offsets in order the used part never wraps, so OnRecv
      always sees all of it in one piece. */
  lemma ReceivedIsConsumedThenUnread(r: Ring, turns: seq<Turn>)
    requires r.Valid() && LegalTurns(FlowFrom(r), turns)
    ensures var e := RunTurns(FlowFrom(r), turns);
            && e.ring.Valid()
            && e.consumed + e.ring.Contents() == r.Contents() + e.received
            && (e.consumed + e.ring.Contents() == e.received <==> r.Contents() == [])
            && e.ring.rear == e.base + e.sinceReset <= |r.buf| - 1
            && (r.front <= r.rear ==>
                  e.ring.front <= e.ring.rear && e.ring.DirectReadSize() == |e.ring.Contents()|)
  {
    assert [] + r.Contents() == r.Contents() + [];
    FlowHolds(FlowFrom(r), turns, r.Contents());
    SameWithoutIff(r.Contents(), RunTurns(FlowFrom(r), turns).received);
  }

  lemma SameWithoutIff(before: seq<Byte>, received: seq<Byte>)
    ensures before + received == received <==> before == []
  {
    assert |before + received| == |before| + |received|;
  }
}
