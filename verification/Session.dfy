/** The session object, one thread at a time. What several threads do to it at once is the
    matter of SessionProtocol. */
module Sessions {
  import opened Bytes
  import opened ShortWrite

  const INVALID_FD := -1

  /** What a session does to the world, in order. */
  datatype Effect =
    | DeletedFromEpoll(fd: int)
    | ClosedFd(fd: int)
    | ToldDisconnected
    | Wrote(bytes: seq<Byte>)
    | ArmedSend(fd: int)

  /** What Disconnect does to a session whose fd it finds to be `fd`. */
  function DisconnectEffects(fd: int, busy: bool): seq<Effect> {
    (if fd == INVALID_FD then [] else [DeletedFromEpoll(fd), ClosedFd(fd)])
    + (if busy then [] else [ToldDisconnected])
  }

  /** A valid fd is deleted from epoll and closed, once each and in that order, an invalid one
      neither; OnDisconnected comes last, and only if the session neither receives nor sends. */
  lemma DisconnectEffectsMean(fd: int, busy: bool)
    ensures var e := DisconnectEffects(fd, busy);
            && (ToldDisconnected in e <==> !busy)
            && (forall k :: 0 <= k < |e| ==> (e[k].ToldDisconnected? <==> !busy && k == |e| - 1))
            && (forall k :: 0 <= k < |e| ==> (e[k].DeletedFromEpoll? <==> fd != INVALID_FD && k == 0))
            && (forall k :: 0 <= k < |e| ==> (e[k].ClosedFd? <==> fd != INVALID_FD && k == 1))
            && (fd >= 0 ==> |e| >= 2 && e[0] == DeletedFromEpoll(fd) && e[1] == ClosedFd(fd))
  {
  }

  /** What one pass of DoSend's loop meets: some thread has taken the fd away before the
      check, or an answer of writev. */
  datatype Attempt = Retired | Written(count: nat) | WouldBlock | Interrupted | Failed

  /** The passes that end the loop differently. */
  datatype Ending = Full | Short(count: nat) | Gone | Blocked | Broken

  /** The loop goes on until it leaves, and writev takes no more than it is given. */
  ghost predicate LegalScript(total: nat, live: bool, script: seq<Attempt>) {
    !live
    || (script != []
        && match script[0]
           case Written(n) => n <= total
           case Interrupted => LegalScript(total, live, script[1..])
           case _ => true)
  }

  function EndingOf(total: nat, live: bool, script: seq<Attempt>): Ending
    requires LegalScript(total, live, script)
  {
    if !live then Gone
    else match script[0]
         case Retired => Gone
         case Written(n) => if n == total then Full else Short(n)
         case WouldBlock => Blocked
         case Interrupted => EndingOf(total, live, script[1..])
         case Failed => Broken
  }

  /** The first attempt that is not an interrupted writev. */
  function FirstAnswer(script: seq<Attempt>): (n: nat)
    ensures n <= |script| && (n < |script| ==> !script[n].Interrupted?)
    ensures forall k :: 0 <= k < n ==> script[k].Interrupted?
  {
    if script == [] || !script[0].Interrupted? then 0 else 1 + FirstAnswer(script[1..])
  }

  /** Interruptions only make the loop go round: the first other answer decides how it ends,
      and with an fd that is invalid from the start writev is never called. */
  lemma {:induction false} FirstAnswerDecides(total: nat, live: bool, script: seq<Attempt>)
    requires LegalScript(total, live, script)
    ensures !live ==> EndingOf(total, live, script) == Gone
    ensures live ==>
              var n := FirstAnswer(script);
              && n < |script|
              && (EndingOf(total, live, script) == Full <==> script[n] == Written(total))
              && (forall m: nat :: EndingOf(total, live, script) == Short(m) <==> script[n] == Written(m) && m < total)
              && (EndingOf(total, live, script) == Gone <==> script[n] == Retired)
              && (EndingOf(total, live, script) == Blocked <==> script[n] == WouldBlock)
              && (EndingOf(total, live, script) == Broken <==> script[n] == Failed)
    decreases |script|
  {
    if live && script[0].Interrupted? {
      FirstAnswerDecides(total, live, script[1..]);
    }
  }

  class Session {
    var sessionFD: int
    var isRecving: bool
    var isSending: bool
    var packets: seq<seq<Byte>>
    var sendJobPackets: seq<seq<Byte>>
    ghost var effects: seq<Effect>

    constructor (fd: int)
      ensures sessionFD == fd && isRecving && !isSending
      ensures packets == [] == sendJobPackets && effects == []
    {
      sessionFD, isRecving, isSending := fd, true, false;
      packets, sendJobPackets, effects := [], [], [];
    }

    /** __sync_lock_test_and_set on the fd. */
    method RetireFd() returns (oldFD: int)
      modifies this`sessionFD
      ensures sessionFD == INVALID_FD && oldFD == old(sessionFD)
    {
      oldFD := sessionFD;
      sessionFD := INVALID_FD;
    }

    /** __sync_lock_test_and_set on the sending flag. */
    method TestAndSetSending() returns (was: bool)
      modifies this`isSending
      ensures isSending && was == old(isSending)
    {
      was := isSending;
      isSending := true;
    }

    method Disconnect()
      modifies this`sessionFD, this`effects
      ensures sessionFD == INVALID_FD
      ensures effects == old(effects) + DisconnectEffects(old(sessionFD), isRecving || isSending)
    {
      var oldFD := RetireFd();
      if oldFD == INVALID_FD {
        if !isRecving && !isSending {
          effects := effects + [ToldDisconnected];
        }
        return;
      }
      effects := effects + [DeletedFromEpoll(oldFD)];
      effects := effects + [ClosedFd(oldFD)];
      if !isRecving && !isSending {
        effects := effects + [ToldDisconnected];
      }
    }

    /** The batch swap, under the packet mutex. */
    method SwapPackets() returns (batch: seq<seq<Byte>>)
      modifies this`packets
      ensures batch == old(packets) && packets == []
    {
      batch := packets;
      packets := [];
    }

    /** The two loops after a short or failed write, as written: `result` is what writev
        answered. */
    method SaveTail(batch: seq<seq<Byte>>, result: int)
      requires -1 <= result
      requires forall k :: 0 <= k < |batch| ==> |batch[k]| <= 0xFFFF_FFFF_FFFF_FFFF
      modifies this`sendJobPackets
      ensures sendJobPackets == SavedAsWritten(batch, result)
    {
      var startOffset, index := 0, 0;
      ghost var first := FirstLonger(batch, AsSize(result));
      while index < |batch|
        invariant 0 <= index <= first && startOffset == 0
        decreases |batch| - index
      {
        if AsSize(result) < |batch[index]| {
          startOffset := |batch[index]| - result;
          break;
        }
        FirstLongerIsLater(batch, AsSize(result), index);
        index := index + 1;
      }
      SaveFrom(batch, index, startOffset);
    }

    /** The second loop: keep the packets from `start` on, the first without `offset` bytes. */
    method SaveFrom(batch: seq<seq<Byte>>, start: nat, offset: nat)
      requires start <= |batch| && (start < |batch| ==> offset <= |batch[start]|)
      modifies this`sendJobPackets
      ensures sendJobPackets == From(batch, start, offset)
    {
      var startOffset, index := offset, start;
      ghost var whole := From(batch, start, offset);
      sendJobPackets := [];
      assert sendJobPackets + whole == whole;
      while index < |batch|
        invariant start <= index <= |batch|
        invariant 0 <= startOffset && (index < |batch| ==> startOffset <= |batch[index]|)
        invariant sendJobPackets + From(batch, index, startOffset) == whole
      {
        FromUnfolds(sendJobPackets, batch, index, startOffset);
        sendJobPackets := sendJobPackets + [batch[index][startOffset..]];
        startOffset := 0;
        index := index + 1;
      }
      assert sendJobPackets + [] == sendJobPackets;
    }

    /** DoSend's loop. `script` is what it meets, pass by pass; `result` goes to the loops
        after it unless `done`. */
    method WriteBatch(batch: seq<seq<Byte>>, script: seq<Attempt>)
      returns (result: int, done: bool, ghost ending: Ending)
      requires LegalScript(|Concat(batch)|, sessionFD != INVALID_FD, script)
      modifies this`isSending, this`sessionFD, this`effects
      ensures ending == EndingOf(|Concat(batch)|, old(sessionFD) != INVALID_FD, script)
      ensures done <==> ending.Full? || ending.Gone? || ending.Blocked?
      ensures isSending == (ending.Short? && old(isSending))
      ensures match ending
              case Full => sessionFD == old(sessionFD) && effects == old(effects) + [Wrote(Concat(batch))]
              case Short(n) =>
                result == n < |Concat(batch)| && sessionFD == old(sessionFD)
                && effects == old(effects) + [Wrote(Concat(batch)[..n])]
              case Gone =>
                sessionFD == INVALID_FD && effects == old(effects) + DisconnectEffects(INVALID_FD, isRecving)
              case Blocked =>
                sessionFD == INVALID_FD && effects == old(effects) + DisconnectEffects(old(sessionFD), isRecving)
              case Broken =>
                result == -1 && sessionFD == INVALID_FD
                && effects == old(effects) + DisconnectEffects(old(sessionFD), isRecving)
    {
      ghost var total := |Concat(batch)|;
      var i := 0;
      result, done := 0, true;
      while true
        invariant 0 <= i <= |script| && done
        invariant unchanged(`isSending, `sessionFD, `effects)
        invariant LegalScript(total, sessionFD != INVALID_FD, script[i..])
        invariant EndingOf(total, sessionFD != INVALID_FD, script[i..])
               == EndingOf(total, old(sessionFD) != INVALID_FD, script)
        decreases |script| - i
      {
        if sessionFD == INVALID_FD || script[i] == Retired {
          var _ := RetireFd();
          ending := Gone;
          isSending := false;
          Disconnect();
          return;
        }
        match script[i] {
          case Interrupted =>
            assert script[i..][1..] == script[i + 1..];
            i := i + 1;
          case WouldBlock =>
            ending := Blocked;
            isSending := false;
            Disconnect();
            return;
          case Failed =>
            ending := Broken;
            isSending := false;
            Disconnect();
            return -1, false, ending;
          case Written(n) =>
            effects := effects + [Wrote(Concat(batch)[..n])];
            if n == |Concat(batch)| {
              assert Concat(batch)[..n] == Concat(batch);
              ending := Full;
              isSending := false;
              return;
            }
            ending := Short(n);
            return n, false, ending;
        }
      }
    }

    method DoSend(script: seq<Attempt>) returns (ghost ending: Ending)
      requires packets != [] ==> LegalScript(|Concat(packets)|, sessionFD != INVALID_FD, script)
      requires forall k :: 0 <= k < |packets| ==> 0 < |packets[k]| <= 0xFFFF_FFFF_FFFF_FFFF
      modifies this`packets, this`isSending, this`sendJobPackets, this`sessionFD, this`effects
      ensures packets == []
      ensures old(packets) == [] ==>
                !isSending && effects == old(effects) && sessionFD == old(sessionFD)
                && sendJobPackets == old(sendJobPackets)
      ensures old(packets) != [] ==>
                ending == EndingOf(|Concat(old(packets))|, old(sessionFD) != INVALID_FD, script)
                && SendEffects(ending, old(packets), old(effects), old(sessionFD), old(isSending),
                               old(sendJobPackets), [])
    {
      var batch := SwapPackets();
      if batch == [] {
        isSending := false;
        ending := Full;
        return;
      }
      var result, done;
      result, done, ending := WriteBatch(batch, script);
      if done {
        return;
      }
      SaveTail(batch, result);
      effects := effects + [ArmedSend(sessionFD)];
    }

    /** The state after DoSend took a batch that was not empty; `later` is what was done since. */
    ghost predicate SendEffects(ending: Ending, batch: seq<seq<Byte>>, effectsBefore: seq<Effect>, fdBefore: int,
                                sendingBefore: bool, savedBefore: seq<seq<Byte>>, later: seq<Effect>)
      reads this
    {
      && effects == effectsBefore + EffectsOf(ending, batch, fdBefore, isRecving) + later
      && sessionFD == (if ending.Full? || ending.Short? then fdBefore else INVALID_FD)
      && isSending == (ending.Short? && sendingBefore)
      && match ending
         case Short(n) => n < |Concat(batch)| && sendJobPackets == SavedAsWritten(batch, n)
         case Broken => sendJobPackets == []
         case _ => sendJobPackets == savedBefore
    }

    /** `buffer` empty stands for a null pointer or a size of 0. */
    method Send(buffer: seq<Byte>, script: seq<Attempt>) returns (sent: bool, ghost ending: Ending)
      requires LegalScript(|Concat(packets + [buffer])|, sessionFD != INVALID_FD, script)
      requires |buffer| <= 0xFFFF_FFFF_FFFF_FFFF
      requires forall k :: 0 <= k < |packets| ==> 0 < |packets[k]| <= 0xFFFF_FFFF_FFFF_FFFF
      modifies this
      ensures sent <==> buffer != [] && !old(isSending)
      ensures buffer == [] ==> unchanged(this)
      ensures buffer != [] && old(isSending) ==>
                packets == old(packets) + [buffer] && isSending && effects == old(effects)
                && sessionFD == old(sessionFD)
      ensures sent ==> isRecving == old(isRecving) && packets == []
      ensures sent ==>
                ending == EndingOf(|Concat(old(packets) + [buffer])|, old(sessionFD) != INVALID_FD, script)
                && SendEffects(ending, old(packets) + [buffer], old(effects), old(sessionFD), true,
                               old(sendJobPackets), [ArmedSend(sessionFD)])
    {
      ending := Full;
      if buffer == [] {
        return false, ending;
      }
      packets := packets + [buffer];
      var was := TestAndSetSending();
      if was {
        return false, ending;
      }
      ghost var batch := packets;
      ending := DoSend(script);
      assert effects == old(effects) + EffectsOf(ending, batch, old(sessionFD), isRecving);
      effects := effects + [ArmedSend(sessionFD)];
      return true, ending;
    }
  }

  /** What DoSend does to the outside, in order. */
  function EffectsOf(ending: Ending, batch: seq<seq<Byte>>, fd: int, receiving: bool): seq<Effect> {
    match ending
    case Full => [Wrote(Concat(batch))]
    case Short(n) => [Wrote(if n <= |Concat(batch)| then Concat(batch)[..n] else []), ArmedSend(fd)]
    case Gone => DisconnectEffects(INVALID_FD, receiving)
    case Blocked => DisconnectEffects(fd, receiving)
    case Broken => DisconnectEffects(fd, receiving) + [ArmedSend(INVALID_FD)]
  }

  /** Bytes go out first, and only in a full or short write; the event is armed last, after
      every short or failed write and after no other. */
  lemma EffectsMean(ending: Ending, batch: seq<seq<Byte>>, fd: int, receiving: bool)
    requires ending.Short? ==> ending.count < |Concat(batch)|
    ensures var e := EffectsOf(ending, batch, fd, receiving);
            && (forall k :: 0 <= k < |e| ==> (e[k].Wrote? <==> (ending.Full? || ending.Short?) && k == 0))
            && (forall k :: 0 <= k < |e| ==> (e[k].ArmedSend? <==> (ending.Short? || ending.Broken?) && k == |e| - 1))
            && (ending.Full? ==> e == [Wrote(Concat(batch))])
            && (ending.Short? ==> |e| == 2 && |e[0].bytes| == ending.count && e[0].bytes <= Concat(batch))
            && (ending.Short? || ending.Broken? ==>
                  |e| > 0 && e[|e| - 1] == ArmedSend(if ending.Short? then fd else INVALID_FD))
            && (ending.Gone? ==> e == if receiving then [] else [ToldDisconnected])
            && (ending.Blocked? ==> e == DisconnectEffects(fd, receiving))
            && (ending.Broken? ==> e[..|e| - 1] == DisconnectEffects(fd, receiving))
  {
    DisconnectEffectsMean(fd, receiving);
    DisconnectEffectsMean(INVALID_FD, receiving);
  }

  lemma {:induction false} FirstLongerIsLater(packets: seq<seq<Byte>>, bytes: int, index: nat)
    requires index < |packets| && index <= FirstLonger(packets, bytes) && |packets[index]| <= bytes
    ensures index < FirstLonger(packets, bytes)
  {
    var i := FirstLonger(packets, bytes);
    if i < |packets| {
      assert bytes < |packets[i]|;
    }
  }

  lemma FromUnfolds(saved: seq<seq<Byte>>, packets: seq<seq<Byte>>, index: nat, offset: nat)
    requires index < |packets| && offset <= |packets[index]|
    ensures (saved + [packets[index][offset..]]) + From(packets, index + 1, 0)
            == saved + From(packets, index, offset)
  {
    var rest := packets[index + 1..];
    assert From(packets, index + 1, 0) == rest by {
      if index + 1 < |packets| {
        assert rest == [packets[index + 1][0..]] + packets[index + 2..];
      }
    }
  }
}
