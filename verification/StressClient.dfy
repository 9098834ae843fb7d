/** The stress client's session: it parses pings out of its receive buffer and writes each
    one back, with a new tick, into its send buffer. */
module StressClient {
  import opened Bytes
  import opened ByteRing
  import opened RecvBuffers
  import opened Framing

  /** What recv and send can answer. */
  datatype RecvResult = Received(chunk: seq<Byte>) | PeerClosed | RecvFailed
  datatype SendResult = Sent(count: nat) | SentNothing | SendFailed

  /** `AssertionFailed`: one of the asserts on a header stops the program. */
  datatype Outcome = Alive | Closed | AssertionFailed

  /** How one pass of the parsing loop ends. */
  datatype Pass = Break | Abort | Again

  /** The send buffer after `n` pings were written into it, the k-th with clock(k). The
      answers of Write are not looked at, so a refused write is simply lost. */
  function EchoAll(send: Ring, n: nat, clock: nat -> Tick): (r: Ring)
    requires send.Valid()
    ensures r.Valid() && |r.buf| == |send.buf|
  {
    if n == 0 then send else EchoAll(send, n - 1, clock).Write(PING_HEADER).Write(clock(n - 1))
  }

  function Pings(n: nat, clock: nat -> Tick): seq<seq<Byte>> {
    if n == 0 then [] else Pings(n - 1, clock) + [PING_HEADER + clock(n - 1)]
  }

  lemma OnePingFits(send: Ring, tick: Tick)
    requires send.Valid() && send.front <= send.rear && send.rear + PING_SIZE < |send.buf|
    ensures var r := send.Write(PING_HEADER).Write(tick);
            && r.Contents() == send.Contents() + (PING_HEADER + tick)
            && r.front == send.front && r.rear == send.rear + PING_SIZE
  {
    UnsplitWriteAppends(send, PING_HEADER);
    var half := send.Write(PING_HEADER);
    UnsplitWriteAppends(half, tick);
    assert send.Contents() + PING_HEADER + tick == send.Contents() + (PING_HEADER + tick);
  }

  lemma Regrouped(a: seq<Byte>, b: seq<Byte>, c: seq<Byte>)
    ensures (a + b) + c == a + (b + c)
  {
  }

  /** While the pings fit before the last slot of the array they are queued whole, in order. */
  lemma {:induction false} EchoFits(send: Ring, n: nat, clock: nat -> Tick)
    requires send.Valid() && send.front <= send.rear && send.rear + PING_SIZE * n < |send.buf|
    ensures var r := EchoAll(send, n, clock);
            && r.Contents() == send.Contents() + Concat(Pings(n, clock))
            && r.front == send.front && r.rear == send.rear + PING_SIZE * n
  {
    if n > 0 {
      EchoFits(send, n - 1, clock);
      OnePingFits(EchoAll(send, n - 1, clock), clock(n - 1));
      ConcatSnoc(Pings(n - 1, clock), PING_HEADER + clock(n - 1));
      Regrouped(send.Contents(), Concat(Pings(n - 1, clock)), PING_HEADER + clock(n - 1));
    } else {
      assert send.Contents() + [] == send.Contents();
    }
  }

  /** The receive buffer after `n` frames were taken out and, when nothing is left, Reset. */
  function Settle(recv: Ring, n: nat): (r: Ring)
    requires recv.Valid() && recv.front <= recv.rear && recv.front + PING_SIZE * n <= recv.rear
    ensures r.Valid() && r.front <= r.rear && r.Contents() == recv.Contents()[PING_SIZE * n..]
  {
    if recv.front + PING_SIZE * n == recv.rear then recv.Reset()
    else recv.(front := recv.front + PING_SIZE * n)
  }

  lemma SettleMeans(filled: Ring, n: nat)
    requires filled.Valid() && filled.front <= filled.rear && filled.front + PING_SIZE * n <= filled.rear
    ensures var r := Settle(filled, n);
            |r.buf| == |filled.buf| && r.rear == if r.Contents() == [] then 0 else filled.rear
  {
  }

  lemma {:induction false} FrameCount(s: seq<Byte>)
    requires ParseStream(s).Parsed?
    ensures var p := ParseStream(s);
            PING_SIZE * |p.frames| <= |s| && p.rest == s[PING_SIZE * |p.frames|..] && IsRemnant(p.rest)
    decreases |s|
  {
    if |s| >= PING_SIZE {
      FrameCount(s[PING_SIZE..]);
    }
  }

  method DecodeHeader(header: array<Byte>) returns (size: int, packetId: int)
    requires header.Length == 4
    ensures packetId == 0 && size == PING_SIZE <==> header[..] == PING_HEADER
  {
    size := LittleEndian(header[0], header[1]);
    packetId := LittleEndian(header[2], header[3]);
    GoodHeaderIff(header[..]);
    GoodHeaderBytes(header[..]);
    assert header[..HEADER_SIZE] == header[..];
  }

  class Session {
    const recvBuffer: RecvBuffer
    const sendBuffer: RecvBuffer

    ghost predicate Valid()
      reads this, recvBuffer, sendBuffer
    {
      recvBuffer != sendBuffer && recvBuffer.data != sendBuffer.data
      && recvBuffer.Valid() && sendBuffer.Valid() && recvBuffer.front <= recvBuffer.rear
    }

    /** A new session holds one ping, ready to be sent. */
    constructor (size: nat, tick: Tick)
      requires PING_SIZE < size
      ensures Valid() && fresh(recvBuffer) && fresh(sendBuffer)
      ensures fresh(recvBuffer.data) && fresh(sendBuffer.data)
      ensures recvBuffer.View() == Ring(recvBuffer.data[..], 0, 0)
      ensures recvBuffer.data.Length == sendBuffer.data.Length == size
      ensures sendBuffer.front == 0 && sendBuffer.rear == PING_SIZE
      ensures sendBuffer.Contents() == PING_HEADER + tick
    {
      recvBuffer := new RecvBuffer(size);
      sendBuffer := new RecvBuffer(size);
      new;
      var header := new Byte[4][12, 0, 0, 0];
      var packet := new Byte[8](i requires 0 <= i < 8 => tick[i]);
      assert header[..] == PING_HEADER && packet[..] == tick;
      ghost var start := sendBuffer.View();
      var _ := sendBuffer.Write(header, 4);
      var _ := sendBuffer.Write(packet, 8);
      assert header[..4] == PING_HEADER && packet[..8] == tick;
      OnePingFits(start, tick);
    }

    /** One pass of DoRecv's loop, after its checks: a whole ping is taken out of the receive
        buffer and sent back with a new tick. */
    method Reply(header: array<Byte>, packet: array<Byte>, now: Tick)
      requires Valid() && PING_SIZE <= |recvBuffer.Contents()|
      requires header.Length == 4 && header[..] == PING_HEADER && packet.Length == 8
      requires header != packet && recvBuffer.data != packet && sendBuffer.data !in {header, packet}
      modifies recvBuffer`front, packet, sendBuffer`rear, sendBuffer.data
      ensures Valid() && recvBuffer.Contents() == old(recvBuffer.Contents())[PING_SIZE..]
      ensures sendBuffer.View() == old(sendBuffer.View()).Write(PING_HEADER).Write(now)
    {
      recvBuffer.MoveReadOffset(HEADER_SIZE);
      var read := recvBuffer.Read(packet, 8);
      forall i | 0 <= i < 8 {
        packet[i] := now[i];
      }
      assert packet[..8] == now && header[..4] == PING_HEADER;
      assert recvBuffer.front <= recvBuffer.rear;
      var _ := sendBuffer.Write(header, HEADER_SIZE);
      var _ := sendBuffer.Write(packet, 8);
    }

    method PeekHeader(header: array<Byte>)
      requires Valid() && header.Length == 4 && recvBuffer.data != header
      requires HEADER_SIZE <= |recvBuffer.Contents()|
      modifies header
      ensures header[..] == recvBuffer.Contents()[..HEADER_SIZE]
    {
      ghost var before, oldest := header[..], recvBuffer.Contents()[..HEADER_SIZE];
      var peeked := recvBuffer.Peek(header, HEADER_SIZE);
      assert peeked == HEADER_SIZE;
      SpliceWhole(before, oldest);
    }

    /** The checks at the start of a pass of DoRecv's loop. */
    method CheckHeader(header: array<Byte>) returns (pass: Pass)
      requires Valid() && header.Length == 4 && recvBuffer.data != header
      modifies header
      ensures pass == Verdict(recvBuffer.Contents())
      ensures pass == Again ==> header[..] == PING_HEADER
    {
      var used := recvBuffer.GetUsedSize();
      if used < HEADER_SIZE {
        return Break;
      }
      PeekHeader(header);
      GoodHeaderBytes(recvBuffer.Contents());
      var size, packetId := DecodeHeader(header);
      if packetId != 0 || size != PING_SIZE {
        return Abort;
      }
      if used < size {
        return Break;
      }
      return Again;
    }

    /** The body of DoRecv's loop. */
    method ParseOne(header: array<Byte>, packet: array<Byte>, now: Tick) returns (pass: Pass)
      requires Valid() && header.Length == 4 && packet.Length == 8 && header != packet
      requires {recvBuffer.data, sendBuffer.data} !! {header, packet}
      modifies recvBuffer`front, header, packet, sendBuffer`rear, sendBuffer.data
      ensures Valid() && pass == Verdict(old(recvBuffer.Contents()))
      ensures pass == Again ==> PING_SIZE <= |old(recvBuffer.Contents())|
      ensures recvBuffer.Contents() == old(recvBuffer.Contents())[if pass == Again then PING_SIZE else 0..]
      ensures sendBuffer.View() == if pass == Again then old(sendBuffer.View()).Write(PING_HEADER).Write(now)
                                   else old(sendBuffer.View())
    {
      pass := CheckHeader(header);
      if pass == Again {
        Reply(header, packet, now);
      }
    }

    /** In the middle of DoRecv's loop: these frames were taken out and answered so far. */
    ghost predicate Parsing(start: seq<Byte>, send: Ring, taken: seq<seq<Byte>>, clock: nat -> Tick)
      requires send.Valid()
      reads this, recvBuffer, sendBuffer, recvBuffer.data, sendBuffer.data
    {
      Valid() && Taken(start, recvBuffer.Contents(), taken)
      && sendBuffer.View() == EchoAll(send, |taken|, clock)
    }

    /** The body of DoRecv's loop, in a loop that is under way. */
    method ParseNext(header: array<Byte>, packet: array<Byte>, clock: nat -> Tick,
                     ghost start: seq<Byte>, ghost send: Ring, ghost taken: seq<seq<Byte>>, pings: nat)
      returns (pass: Pass)
      requires send.Valid() && Parsing(start, send, taken, clock) && pings == |taken|
      requires header.Length == 4 && packet.Length == 8 && header != packet
      requires {recvBuffer.data, sendBuffer.data} !! {header, packet}
      modifies recvBuffer`front, header, packet, sendBuffer`rear, sendBuffer.data
      ensures Valid() && pass == Verdict(old(recvBuffer.Contents()))
      ensures pass == Again ==>
                |recvBuffer.Contents()| < |old(recvBuffer.Contents())|
                && Parsing(start, send, taken + [old(recvBuffer.Contents())[..PING_SIZE]], clock)
      ensures pass != Again ==>
                recvBuffer.Contents() == old(recvBuffer.Contents()) && Parsing(start, send, taken, clock)
    {
      ghost var pending := recvBuffer.Contents();
      pass := ParseOne(header, packet, clock(pings));
      if pass == Again {
        TakesOne(start, pending, taken);
      }
    }

    /** DoRecv's loop. */
    method ParseAll(clock: nat -> Tick) returns (aborted: bool)
      requires Valid()
      modifies recvBuffer`front, sendBuffer`rear, sendBuffer.data
      ensures Valid()
      ensures var parse := ParseStream(old(recvBuffer.Contents()));
              if parse.Malformed? then aborted
              else !aborted && recvBuffer.Contents() == parse.rest
                   && sendBuffer.View() == EchoAll(old(sendBuffer.View()), |parse.frames|, clock)
    {
      ghost var start, send := recvBuffer.Contents(), sendBuffer.View();
      ghost var taken: seq<seq<Byte>> := [];
      AfterNothing(ParseStream(start));
      var header, packet, pings := new Byte[4], new Byte[8], 0;
      var pass := Again;
      while pass == Again
        invariant fresh(header) && fresh(packet) && header.Length == 4 && packet.Length == 8
        invariant Parsing(start, send, taken, clock) && pings == |taken|
        invariant pass != Again ==> pass == Verdict(recvBuffer.Contents())
        decreases pass == Again, |recvBuffer.Contents()|
      {
        ghost var pending := recvBuffer.Contents();
        pass := ParseNext(header, packet, clock, start, send, taken, pings);
        if pass == Again {
          taken, pings := taken + [pending[..PING_SIZE]], pings + 1;
        }
      }
      TakenAll(start, recvBuffer.Contents(), taken);
      aborted := pass == Abort;
    }

    method DoRecv(result: RecvResult, clock: nat -> Tick) returns (outcome: Outcome)
      requires Valid()
      requires result.Received? ==> 0 < |result.chunk| <= recvBuffer.GetDirectWriteSize()
      modifies recvBuffer, recvBuffer.data, sendBuffer, sendBuffer.data
      ensures Valid()
      ensures !result.Received? ==>
                outcome == Closed
                && recvBuffer.View() == old(recvBuffer.View())
                && sendBuffer.View() == old(sendBuffer.View())
      ensures result.Received? ==>
                var parse := ParseStream(old(recvBuffer.Contents()) + result.chunk);
                if parse.Malformed? then outcome == AssertionFailed
                else outcome == Alive
                     && recvBuffer.Contents() == parse.rest
                     && sendBuffer.View() == EchoAll(old(sendBuffer.View()), |parse.frames|, clock)
      ensures outcome == Alive ==>
                recvBuffer.rear == if recvBuffer.Contents() == [] then 0
                                   else old(recvBuffer.rear) + |result.chunk|
    {
      if !result.Received? {
        return Closed;
      }
      ReceiveAppends(recvBuffer.View(), result.chunk);
      recvBuffer.Accept(result.chunk);
      var aborted := ParseAll(clock);
      if aborted {
        return AssertionFailed;
      }
      if recvBuffer.GetUsedSize() == 0 {
        recvBuffer.Reset();
      }
      return Alive;
    }

    method DoSend(result: SendResult) returns (outcome: Outcome, wire: seq<Byte>)
      requires Valid()
      requires result.Sent? ==> 0 < result.count <= sendBuffer.GetDirectReadSize()
      modifies sendBuffer
      ensures Valid()
      ensures outcome == Alive <==> result.Sent? && old(sendBuffer.Contents()) != []
      ensures outcome == Alive ==>
                wire == old(sendBuffer.Contents())[..result.count]
                && sendBuffer.Contents() == old(sendBuffer.Contents())[result.count..]
      ensures outcome == Alive && sendBuffer.Contents() == [] ==> sendBuffer.front == 0 == sendBuffer.rear
      ensures outcome == Alive && sendBuffer.Contents() != [] ==>
                sendBuffer.View() == old(sendBuffer.View()).MoveRead(result.count)
      ensures outcome != Alive ==> wire == [] && sendBuffer.View() == old(sendBuffer.View())
    {
      wire := [];
      if sendBuffer.GetUsedSize() == 0 {
        return Closed, wire;
      }
      if !result.Sent? {
        return Closed, wire;
      }
      wire := sendBuffer.data[sendBuffer.front..sendBuffer.front + result.count];
      assert sendBuffer.Contents()[..sendBuffer.GetDirectReadSize()][..result.count] == wire;
      sendBuffer.MoveReadOffset(result.count);
      if sendBuffer.GetUsedSize() == 0 {
        sendBuffer.Reset();
      }
      outcome := Alive;
    }
  }

  lemma SpliceWhole(dst: seq<Byte>, src: seq<Byte>)
    requires |src| == |dst|
    ensures Splice(dst, 0, src) == src
  {
  }

  ghost function Verdict(pending: seq<Byte>): Pass {
    if |pending| < HEADER_SIZE then Break
    else if !GoodHeader(pending) then Abort
    else if |pending| < PING_SIZE then Break
    else Again
  }

  lemma VerdictMeans(pending: seq<Byte>, taken: seq<seq<Byte>>)
    ensures match Verdict(pending)
            case Break => ParseStream(pending).After(taken) == Parsed(taken, pending)
            case Abort => ParseStream(pending).Malformed?
            case Again =>
              ParseStream(pending).After(taken)
              == ParseStream(pending[PING_SIZE..]).After(taken + [pending[..PING_SIZE]])
  {
    if Verdict(pending) == Again {
      AfterTwice(ParseStream(pending[PING_SIZE..]), [pending[..PING_SIZE]], taken);
    }
  }

  /** These frames were taken out so far, and the parse of the rest is still to come. */
  ghost predicate Taken(start: seq<Byte>, pending: seq<Byte>, taken: seq<seq<Byte>>) {
    ParseStream(start) == ParseStream(pending).After(taken)
  }

  lemma TakesOne(start: seq<Byte>, pending: seq<Byte>, taken: seq<seq<Byte>>)
    requires Taken(start, pending, taken) && Verdict(pending) == Again
    ensures Taken(start, pending[PING_SIZE..], taken + [pending[..PING_SIZE]])
  {
    VerdictMeans(pending, taken);
  }

  lemma TakenAll(start: seq<Byte>, pending: seq<Byte>, taken: seq<seq<Byte>>)
    requires Taken(start, pending, taken) && Verdict(pending) != Again
    ensures ParseStream(start) == if Verdict(pending) == Abort then Malformed else Parsed(taken, pending)
  {
    VerdictMeans(pending, taken);
  }
}
