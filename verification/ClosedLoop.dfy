/** One stress client against an echoing peer. The bytes of the single ping travel round:
    client send buffer, forward channel, peer, return channel, client receive buffer. Every
    channel is a queue, and every hop moves any number of bytes. */
module ClosedLoop {
  import opened Bytes
  import opened ByteRing
  import opened Framing
  import opened StressClient

  /** Where PollThread::Loop is: it asks for POLLOUT only if there was something to send. */
  datatype Phase = Building | Polled(wantSend: bool) | ReadDone(wantSend: bool)

  datatype World = World(
    recv: Ring, send: Ring,
    forward: seq<Byte>, peer: seq<Byte>, back: seq<Byte>,
    phase: Phase, pings: nat)

  datatype Hop =
    | BuildPoll
    | Readable(count: nat)    // revents has POLLRDNORM and recv answers this many bytes
    | NotReadable
    | Writable(count: nat)    // revents has POLLWRNORM and send answers this many bytes
    | NotWritable
    | Deliver(count: nat)     // forward channel to peer
    | Echo(count: nat)        // peer to return channel

  predicate Enabled(w: World, hop: Hop)
    requires w.recv.Valid() && w.send.Valid()
  {
    match hop
    case BuildPoll => w.phase.Building?
    case Readable(n) => w.phase.Polled? && 0 < n <= |w.back| && n <= w.recv.DirectWriteSize()
    case NotReadable => w.phase.Polled?
    case Writable(n) =>
      w.phase.ReadDone? && w.phase.wantSend && 0 < n && (w.send.Contents() != [] ==> n <= w.send.DirectReadSize())
    case NotWritable => w.phase.ReadDone?
    case Deliver(n) => n <= |w.forward|
    case Echo(n) => n <= |w.peer|
  }

  /** What stops the client, besides the environment. */
  datatype Fault = AssertFails | WriteRefused | SendOnEmpty | Overread

  datatype Next = Fine(world: World) | Broken(fault: Fault)

  /** The clock as it goes on after `n` answers. */
  function Later(clock: nat -> Tick, n: nat): nat -> Tick {
    (k: nat) => clock(n + k)
  }

  function Step(w: World, hop: Hop, clock: nat -> Tick): Next
    requires w.recv.Valid() && w.send.Valid() && Enabled(w, hop)
  {
    match hop
    case BuildPoll => Fine(w.(phase := Polled(w.send.Contents() != [])))
    case NotReadable => Fine(w.(phase := ReadDone(w.phase.wantSend)))
    case NotWritable => Fine(w.(phase := Building))
    case Deliver(n) => Fine(w.(forward := w.forward[n..], peer := w.peer + w.forward[..n]))
    case Echo(n) => Fine(w.(peer := w.peer[n..], back := w.back + w.peer[..n]))
    case Readable(n) =>
      var filled := w.recv.Receive(w.back[..n]);
      var parse := ParseStream(filled.Contents());
      if parse.Malformed? then Broken(AssertFails)
      else if filled.front > filled.rear || PING_SIZE * |parse.frames| > filled.rear - filled.front
      then Broken(Overread)
      else if PING_SIZE * |parse.frames| > w.send.Room() then Broken(WriteRefused)
      else Fine(w.(recv := Settle(filled, |parse.frames|),
                   send := EchoAll(w.send, |parse.frames|, Later(clock, w.pings)),
                   back := w.back[n..],
                   pings := w.pings + |parse.frames|,
                   phase := ReadDone(w.phase.wantSend)))
    case Writable(n) =>
      if w.send.Contents() == [] then Broken(SendOnEmpty)
      else
        var sent := w.send.MoveRead(n);
        Fine(w.(send := if sent.Contents() == [] then sent.Reset() else sent,
                forward := w.forward + w.send.Contents()[..n],
                phase := Building))
  }

  /** The client has just connected; its constructor queued the first ping. */
  ghost predicate Initial(w: World) {
    w.recv.Valid() && w.recv.front == 0 == w.recv.rear && PING_SIZE < |w.recv.buf|
    && w.send.Valid() && w.send.front == 0 && w.send.rear == PING_SIZE && PING_SIZE < |w.send.buf|
    && IsFrame(w.send.Contents())
    && w.forward == w.peer == w.back == [] && w.phase == Building
  }

  /** All bytes under way, oldest first. */
  function UnderWay(w: World): seq<Byte>
    requires w.recv.Valid() && w.send.Valid()
  {
    w.recv.Contents() + w.back + w.peer + w.forward + w.send.Contents()
  }

  ghost predicate Inv(w: World) {
    && w.recv.Valid() && w.send.Valid() && PING_SIZE < |w.recv.buf| && PING_SIZE < |w.send.buf|
    && w.recv.front == 0 && w.recv.rear < PING_SIZE
    && (w.send.front == 0 == w.send.rear || (w.send.front < w.send.rear && w.send.rear == PING_SIZE))
    && IsFrame(UnderWay(w))
    && (!w.phase.Building? && w.phase.wantSend ==> w.send.Contents() != [])
  }

  ghost predicate LegalRun(w: World, hops: seq<Hop>, clock: nat -> Tick)
    requires w.recv.Valid() && w.send.Valid()
    decreases |hops|
  {
    hops == []
    || (Enabled(w, hops[0])
        && (Step(w, hops[0], clock).Fine? ==>
              var w' := Step(w, hops[0], clock).world;
              w'.recv.Valid() && w'.send.Valid() && LegalRun(w', hops[1..], clock)))
  }

  function Run(w: World, hops: seq<Hop>, clock: nat -> Tick): Next
    requires w.recv.Valid() && w.send.Valid() && LegalRun(w, hops, clock)
    decreases |hops|
  {
    if hops == [] then Fine(w)
    else match Step(w, hops[0], clock)
         case Broken(fault) => Broken(fault)
         case Fine(w') => Run(w', hops[1..], clock)
  }

  /** Moving bytes from the front of one queue to the end of the next moves nothing in line. */
  lemma Moved(front: seq<Byte>, a: seq<Byte>, b: seq<Byte>, n: nat)
    requires n <= |b|
    ensures (front + a) + b == (front + (a + b[..n])) + b[n..]
  {
  }

  /** A read that does not complete the ping only moves its bytes into the receive buffer. */
  ghost predicate ReadSome(w: World, n: nat, w': World)
    requires w.recv.Valid() && n <= |w.back| && w'.recv.Valid()
  {
    && w'.recv.Contents() == w.recv.Contents() + w.back[..n]
    && w' == w.(recv := w'.recv, back := w.back[n..], phase := w'.phase)
    && w'.phase.ReadDone? && (!w.phase.Building? ==> w'.phase.wantSend == w.phase.wantSend)
  }

  /** A read that completes the ping empties the receive buffer and queues the next ping. */
  ghost predicate ReadAll(w: World, n: nat, w': World, clock: nat -> Tick)
    requires n <= |w.back| && w'.recv.Valid() && w'.send.Valid()
  {
    && w'.recv.Contents() == [] && w'.send.Contents() == PING_HEADER + clock(w.pings)
    && w' == w.(recv := w'.recv, send := w'.send, back := [], pings := w.pings + 1, phase := w'.phase)
    && w'.phase.ReadDone? && (!w.phase.Building? ==> w'.phase.wantSend == w.phase.wantSend)
  }

  lemma PartialReadKeepsInv(w: World, n: nat, clock: nat -> Tick)
    requires Inv(w) && Enabled(w, Readable(n)) && |w.recv.Contents()| + n < PING_SIZE
    ensures var next := Step(w, Readable(n), clock);
            next.Fine? && Inv(next.world) && ReadSome(w, n, next.world)
  {
    var filled := w.recv.Receive(w.back[..n]);
    ReceiveAppends(w.recv, w.back[..n]);
    PartOfTheFrame(w, n);
    var w' := w.(recv := filled, back := w.back[n..], phase := ReadDone(w.phase.wantSend));
    assert Step(w, Readable(n), clock) == Fine(w');
  }

  lemma PartOfTheFrame(w: World, n: nat)
    requires Inv(w) && n <= |w.back| && |w.recv.Contents()| + n < PING_SIZE
    ensures var got := w.recv.Contents() + w.back[..n];
            ParseStream(got) == Parsed([], got)
            && got + w.back[n..] + w.peer + w.forward + w.send.Contents() == UnderWay(w)
  {
    var got := w.recv.Contents() + w.back[..n];
    Moved([], w.recv.Contents(), w.back, n);
    assert got + w.back[n..] == w.recv.Contents() + w.back;
    assert UnderWay(w)[..|got|] == got;
    assert got + UnderWay(w)[|got|..] == UnderWay(w);
    PrefixOfFrame(got, UnderWay(w)[|got|..]);
  }

  lemma OneFrame(f: seq<Byte>)
    requires IsFrame(f)
    ensures ParseStream(f) == Parsed([f], [])
  {
    assert f[..PING_SIZE] == f && f[PING_SIZE..] == [];
  }

  /** The next ping, in an empty send buffer. */
  lemma EchoOnce(send: Ring, now: nat -> Tick)
    requires send.Valid() && send.front == 0 == send.rear && PING_SIZE < |send.buf|
    ensures var r := EchoAll(send, 1, now);
            && r.Valid() && r.Contents() == PING_HEADER + now(0)
            && r.front == 0 && r.rear == PING_SIZE && |r.buf| == |send.buf|
  {
    OnePingFits(send, now(0));
    assert EchoAll(send, 0, now) == send;
    assert send.Contents() + (PING_HEADER + now(0)) == PING_HEADER + now(0);
  }

  /** The client after a read that completes the ping. */
  function Answered(w: World, n: nat, clock: nat -> Tick): World
    requires w.recv.Valid() && w.send.Valid() && n <= |w.back| && n <= w.recv.DirectWriteSize()
  {
    w.(recv := w.recv.Receive(w.back[..n]).Reset(), send := EchoAll(w.send, 1, Later(clock, w.pings)),
       back := [], pings := w.pings + 1,
       phase := ReadDone(w.phase.Polled? && w.phase.wantSend))
  }

  lemma WholeReadKeepsInv(w: World, n: nat, clock: nat -> Tick)
    requires Inv(w) && Enabled(w, Readable(n)) && PING_SIZE <= |w.recv.Contents()| + n
    ensures var next := Step(w, Readable(n), clock);
            next.Fine? && Inv(next.world) && ReadAll(w, n, next.world, clock)
  {
    WholeReadAnswers(w, n, clock);
    AnsweredKeepsInv(w, n, clock);
  }

  lemma WholeReadAnswers(w: World, n: nat, clock: nat -> Tick)
    requires Inv(w) && Enabled(w, Readable(n)) && PING_SIZE <= |w.recv.Contents()| + n
    ensures Step(w, Readable(n), clock) == Fine(Answered(w, n, clock))
  {
    AllArrived(w, n);
    ReceiveAppends(w.recv, w.back[..n]);
    OneFrame(w.recv.Receive(w.back[..n]).Contents());
  }

  lemma AnsweredKeepsInv(w: World, n: nat, clock: nat -> Tick)
    requires Inv(w) && Enabled(w, Readable(n)) && PING_SIZE <= |w.recv.Contents()| + n
    ensures var w' := Answered(w, n, clock); Inv(w') && ReadAll(w, n, w', clock)
  {
    AllArrived(w, n);
    NextPing(w, n, clock);
    AllInSend(Answered(w, n, clock));
  }

  lemma NextPing(w: World, n: nat, clock: nat -> Tick)
    requires Inv(w) && Enabled(w, Readable(n)) && w.send.front == 0 == w.send.rear
    ensures var w' := Answered(w, n, clock);
            && w'.recv.Valid() && w'.recv.front == 0 == w'.recv.rear && PING_SIZE < |w'.recv.buf|
            && w'.send.Valid() && w'.send.front == 0 && w'.send.rear == PING_SIZE && PING_SIZE < |w'.send.buf|
            && w'.recv.Contents() == []
            && w'.send.Contents() == PING_HEADER + clock(w.pings) && IsFrame(w'.send.Contents())
  {
    EchoOnce(w.send, Later(clock, w.pings));
    FrameMade(clock(w.pings));
  }

  /** The whole ping lies in the send buffer. */
  lemma AllInSend(w: World)
    requires w.recv.Valid() && w.recv.front == 0 == w.recv.rear && PING_SIZE < |w.recv.buf|
    requires w.send.Valid() && w.send.front == 0 && w.send.rear == PING_SIZE && PING_SIZE < |w.send.buf|
    requires w.back == w.peer == w.forward == [] && IsFrame(w.send.Contents())
    ensures Inv(w)
  {
    OnlySendLeft(w);
  }

  lemma OnlySendLeft(w: World)
    requires w.recv.Valid() && w.send.Valid()
    requires w.recv.Contents() == w.back == w.peer == w.forward == []
    ensures UnderWay(w) == w.send.Contents()
  {
  }

  /** When twelve bytes have arrived, nothing is left anywhere else. */
  lemma AllArrived(w: World, n: nat)
    requires Inv(w) && n <= |w.back| && PING_SIZE <= |w.recv.Contents()| + n
    ensures w.back[n..] == w.peer == w.forward == w.send.Contents() == []
    ensures IsFrame(w.recv.Contents() + w.back[..n])
    ensures w.send.front == 0 == w.send.rear
  {
    assert |UnderWay(w)| == |w.recv.Contents()| + |w.back| + |w.peer| + |w.forward| + |w.send.Contents()|;
    assert w.recv.Contents() + w.back[..n] == UnderWay(w);
  }

  lemma ReadKeepsInv(w: World, n: nat, clock: nat -> Tick)
    requires Inv(w) && Enabled(w, Readable(n))
    ensures var next := Step(w, Readable(n), clock);
            && next.Fine? && Inv(next.world)
            && if |w.recv.Contents()| + n < PING_SIZE then ReadSome(w, n, next.world)
               else ReadAll(w, n, next.world, clock)
  {
    if |w.recv.Contents()| + n < PING_SIZE {
      PartialReadKeepsInv(w, n, clock);
    } else {
      WholeReadKeepsInv(w, n, clock);
    }
  }

  lemma PrefixOfFrame(a: seq<Byte>, b: seq<Byte>)
    requires IsFrame(a + b) && |a| < PING_SIZE
    ensures ParseStream(a) == Parsed([], a)
  {
    if HEADER_SIZE <= |a| {
      var s := a + b;
      assert s[0] == a[0] && s[1] == a[1] && s[2] == a[2] && s[3] == a[3];
    }
  }

  lemma FrameMade(tick: Tick)
    ensures IsFrame(PING_HEADER + tick)
  {
  }

  /** A send moves the first bytes of the send buffer to the end of the forward channel. */
  ghost predicate SentSome(w: World, n: nat, w': World)
    requires w.send.Valid() && n <= |w.send.Contents()| && w'.send.Valid()
  {
    && w'.send.Contents() == w.send.Contents()[n..]
    && w' == w.(send := w'.send, forward := w.forward + w.send.Contents()[..n], phase := Building)
  }

  lemma SendKeepsInv(w: World, n: nat, clock: nat -> Tick)
    requires Inv(w) && Enabled(w, Writable(n))
    ensures var next := Step(w, Writable(n), clock); next.Fine? && Inv(next.world) && SentSome(w, n, next.world)
  {
    MoveReadDrops(w.send, n);
    Moved(w.recv.Contents() + w.back + w.peer, w.forward, w.send.Contents(), n);
  }

  lemma DeliverKeepsInv(w: World, n: nat, clock: nat -> Tick)
    requires Inv(w) && Enabled(w, Deliver(n))
    ensures var next := Step(w, Deliver(n), clock);
            && next.Fine? && Inv(next.world)
            && next.world == w.(forward := w.forward[n..], peer := w.peer + w.forward[..n])
  {
    Moved(w.recv.Contents() + w.back, w.peer, w.forward, n);
  }

  lemma EchoKeepsInv(w: World, n: nat, clock: nat -> Tick)
    requires Inv(w) && Enabled(w, Echo(n))
    ensures var next := Step(w, Echo(n), clock);
            && next.Fine? && Inv(next.world)
            && next.world == w.(peer := w.peer[n..], back := w.back + w.peer[..n])
  {
    Moved(w.recv.Contents(), w.back, w.peer, n);
  }

  lemma StepKeepsInv(w: World, hop: Hop, clock: nat -> Tick)
    requires Inv(w) && Enabled(w, hop)
    ensures var next := Step(w, hop, clock); next.Fine? && Inv(next.world)
  {
    match hop
    case Readable(n) => ReadKeepsInv(w, n, clock);
    case Writable(n) => SendKeepsInv(w, n, clock);
    case Deliver(n) => DeliverKeepsInv(w, n, clock);
    case Echo(n) => EchoKeepsInv(w, n, clock);
    case _ =>
  }

  /** Through every run the bytes under way, in order, are exactly one well-formed ping. No
      assert of DoRecv fails, no Write is refused, DoSend never finds an empty buffer, and
      no offset goes past 12. */
  lemma {:induction false} OnePingForever(w: World, hops: seq<Hop>, clock: nat -> Tick)
    requires Inv(w) && LegalRun(w, hops, clock)
    ensures var end := Run(w, hops, clock);
            end.Fine? && Inv(end.world)
    decreases |hops|
  {
    if hops != [] {
      StepKeepsInv(w, hops[0], clock);
      OnePingForever(Step(w, hops[0], clock).world, hops[1..], clock);
    }
  }

  lemma ClosedLoopConserves(w: World, hops: seq<Hop>, clock: nat -> Tick)
    requires Initial(w) && LegalRun(w, hops, clock)
    ensures var end := Run(w, hops, clock);
            && end.Fine?
            && end.world.recv.Valid() && end.world.send.Valid()
            && IsFrame(UnderWay(end.world))
            && end.world.recv.front <= end.world.recv.rear <= PING_SIZE
            && end.world.send.front <= end.world.send.rear <= PING_SIZE
  {
    assert UnderWay(w) == w.send.Contents();
    OnePingForever(w, hops, clock);
  }

  /** Some legal run from here makes the client answer this many pings. */
  ghost predicate CanAnswer(w: World, pings: nat, clock: nat -> Tick)
    requires w.recv.Valid() && w.send.Valid()
  {
    exists hops ::
      LegalRun(w, hops, clock) && Run(w, hops, clock).Fine? && Run(w, hops, clock).world.pings == pings
  }

  lemma OneHopEarlier(w: World, hop: Hop, pings: nat, clock: nat -> Tick)
    requires Inv(w) && Enabled(w, hop) && Step(w, hop, clock).Fine?
    requires var w' := Step(w, hop, clock).world;
             w'.recv.Valid() && w'.send.Valid() && CanAnswer(w', pings, clock)
    ensures CanAnswer(w, pings, clock)
  {
    var w' := Step(w, hop, clock).world;
    var hops :| LegalRun(w', hops, clock) && Run(w', hops, clock).Fine? && Run(w', hops, clock).world.pings == pings;
    assert ([hop] + hops)[1..] == hops;
    assert LegalRun(w, [hop] + hops, clock) && Run(w, [hop] + hops, clock) == Run(w', hops, clock);
  }

  /** All of the ping has arrived: the next read completes it. */
  lemma AnswersAtOnce(w: World, clock: nat -> Tick)
    requires Inv(w) && w.phase.Building? && w.peer == w.forward == w.send.Contents() == []
    ensures CanAnswer(w, w.pings + 1, clock)
  {
    var polled := Step(w, BuildPoll, clock).world;
    var n := |w.back|;
    assert |UnderWay(w)| == |w.recv.Contents()| + n;
    StepKeepsInv(w, BuildPoll, clock);
    ReadKeepsInv(polled, n, clock);
    var answered := Step(polled, Readable(n), clock).world;
    assert LegalRun(answered, [], clock) && Run(answered, [], clock) == Fine(answered);
    OneHopEarlier(polled, Readable(n), w.pings + 1, clock);
    OneHopEarlier(w, BuildPoll, w.pings + 1, clock);
  }

  /** The client has nothing left to send: the peer gets its bytes and echoes them. */
  lemma AnswersOnceSent(w: World, clock: nat -> Tick)
    requires Inv(w) && w.phase.Building? && w.send.Contents() == []
    ensures CanAnswer(w, w.pings + 1, clock)
  {
    DeliverKeepsInv(w, |w.forward|, clock);
    var delivered := Step(w, Deliver(|w.forward|), clock).world;
    EchoKeepsInv(delivered, |delivered.peer|, clock);
    var echoed := Step(delivered, Echo(|delivered.peer|), clock).world;
    AnswersAtOnce(echoed, clock);
    OneHopEarlier(delivered, Echo(|delivered.peer|), w.pings + 1, clock);
    OneHopEarlier(w, Deliver(|w.forward|), w.pings + 1, clock);
  }

  lemma AnswersFromBuilding(w: World, clock: nat -> Tick)
    requires Inv(w) && w.phase.Building?
    ensures CanAnswer(w, w.pings + 1, clock)
  {
    if w.send.Contents() == [] {
      AnswersOnceSent(w, clock);
    } else {
      var polled := Step(w, BuildPoll, clock).world;
      StepKeepsInv(w, BuildPoll, clock);
      var unread := Step(polled, NotReadable, clock).world;
      StepKeepsInv(polled, NotReadable, clock);
      var n := |w.send.Contents()|;
      SendKeepsInv(unread, n, clock);
      AnswersOnceSent(Step(unread, Writable(n), clock).world, clock);
      OneHopEarlier(unread, Writable(n), w.pings + 1, clock);
      OneHopEarlier(polled, NotReadable, w.pings + 1, clock);
      OneHopEarlier(w, BuildPoll, w.pings + 1, clock);
    }
  }

  lemma AnswersAfterRead(w: World, clock: nat -> Tick)
    requires Inv(w) && w.phase.ReadDone?
    ensures CanAnswer(w, w.pings + 1, clock)
  {
    StepKeepsInv(w, NotWritable, clock);
    AnswersFromBuilding(Step(w, NotWritable, clock).world, clock);
    OneHopEarlier(w, NotWritable, w.pings + 1, clock);
  }

  /** The ping always can go round: from wherever a run has led, some run goes on to the
      next answer of the client. */
  lemma NextPingIsReachable(w: World, clock: nat -> Tick)
    requires Inv(w)
    ensures CanAnswer(w, w.pings + 1, clock)
  {
    match w.phase
    case Building => AnswersFromBuilding(w, clock);
    case ReadDone(_) => AnswersAfterRead(w, clock);
    case Polled(_) =>
      StepKeepsInv(w, NotReadable, clock);
      AnswersAfterRead(Step(w, NotReadable, clock).world, clock);
      OneHopEarlier(w, NotReadable, w.pings + 1, clock);
  }

  /** What each hop moves, and that it moves nothing else. */
  lemma HopMovesBytes(w: World, hop: Hop, clock: nat -> Tick)
    requires Inv(w) && Enabled(w, hop)
    ensures var next := Step(w, hop, clock);
            && next.Fine? && Inv(next.world)
            && match hop
               case BuildPoll => next.world == w.(phase := Polled(w.send.Contents() != []))
               case NotReadable => next.world == w.(phase := ReadDone(w.phase.wantSend))
               case NotWritable => next.world == w.(phase := Building)
               case Readable(n) =>
                 if |w.recv.Contents()| + n < PING_SIZE then ReadSome(w, n, next.world)
                 else ReadAll(w, n, next.world, clock)
               case Writable(n) => SentSome(w, n, next.world)
               case Deliver(n) => next.world == w.(forward := w.forward[n..], peer := w.peer + w.forward[..n])
               case Echo(n) => next.world == w.(peer := w.peer[n..], back := w.back + w.peer[..n])
  {
    match hop
    case Readable(n) => ReadKeepsInv(w, n, clock);
    case Writable(n) => SendKeepsInv(w, n, clock);
    case Deliver(n) => DeliverKeepsInv(w, n, clock);
    case Echo(n) => EchoKeepsInv(w, n, clock);
    case _ => StepKeepsInv(w, hop, clock);
  }

  /** The client object holds what the client of this world holds. */
  ghost predicate Matches(client: Session, w: World)
    requires w.recv.Valid()
    reads client, client.recvBuffer, client.sendBuffer, client.recvBuffer.data, client.sendBuffer.data
  {
    && client.Valid() && client.recvBuffer.data.Length == |w.recv.buf|
    && client.recvBuffer.Contents() == w.recv.Contents() && client.recvBuffer.rear == w.recv.rear
    && client.sendBuffer.View() == w.send
  }

  /** The client's part of the hop Readable, in the terms of DoRecv. */
  lemma ReadableMeans(w: World, n: nat, clock: nat -> Tick)
    requires Inv(w) && Enabled(w, Readable(n))
    ensures var next, parse := Step(w, Readable(n), clock), ParseStream(w.recv.Contents() + w.back[..n]);
            && next.Fine? && parse.Parsed? && next.world.recv.Valid() && |next.world.recv.buf| == |w.recv.buf|
            && next.world.recv.Contents() == parse.rest
            && next.world.recv.rear == (if parse.rest == [] then 0 else w.recv.rear + n)
            && next.world.send == EchoAll(w.send, |parse.frames|, Later(clock, w.pings))
  {
    ReadKeepsInv(w, n, clock);
    var filled, pending := w.recv.Receive(w.back[..n]), w.recv.Contents() + w.back[..n];
    ReceiveAppends(w.recv, w.back[..n]);
    assert filled.Contents() == pending;
    FrameCount(pending);
    SettleMeans(filled, |ParseStream(pending).frames|);
  }

  /** The hop Readable is a call of the client's DoRecv. */
  method ReadableIsDoRecv(client: Session, ghost w: World, chunk: seq<Byte>, pings: nat, clock: nat -> Tick)
    returns (outcome: Outcome)
    requires Inv(w) && Matches(client, w) && Enabled(w, Readable(|chunk|))
    requires chunk == w.back[..|chunk|] && pings == w.pings
    modifies client.recvBuffer, client.recvBuffer.data, client.sendBuffer, client.sendBuffer.data
    ensures outcome == Alive
    ensures var next := Step(w, Readable(|chunk|), clock);
            next.Fine? && next.world.recv.Valid() && Matches(client, next.world)
  {
    ReadableMeans(w, |chunk|, clock);
    outcome := client.DoRecv(Received(chunk), Later(clock, pings));
  }

  /** The hop Writable is a call of the client's DoSend. */
  method WritableIsDoSend(client: Session, ghost w: World, count: nat, clock: nat -> Tick)
    returns (outcome: Outcome, wire: seq<Byte>)
    requires Inv(w) && Matches(client, w) && Enabled(w, Writable(count))
    modifies client.sendBuffer
    ensures outcome == Alive && wire == w.send.Contents()[..count]
    ensures var next := Step(w, Writable(count), clock);
            next.Fine? && next.world.recv.Valid() && Matches(client, next.world)
  {
    SendKeepsInv(w, count, clock);
    outcome, wire := client.DoSend(Sent(count));
  }
}
