/** Whole runs of the stress client's DoRecv over a stream cut up by the network. */
module ClientRuns {
  import opened Bytes
  import opened ByteRing
  import opened Framing
  import opened StressClient

  /** The receive buffer and the frames found so far, or the failed assert. */
  datatype Progress = Going(recv: Ring, frames: seq<seq<Byte>>) | Aborted

  ghost predicate Sound(recv: Ring) {
    recv.Valid() && recv.front <= recv.rear && IsRemnant(recv.Contents())
  }

  /** One DoRecv that got `chunk`. */
  function Receive(recv: Ring, chunk: seq<Byte>): (p: Progress)
    requires Sound(recv) && |chunk| <= recv.DirectWriteSize()
    ensures p.Going? ==> Sound(p.recv) && |p.recv.buf| == |recv.buf|
  {
    ReceiveAppends(recv, chunk);
    var filled := recv.Receive(chunk);
    var parse := ParseStream(filled.Contents());
    if parse.Malformed? then Aborted
    else
      FrameCount(filled.Contents());
      Going(Settle(filled, |parse.frames|), parse.frames)
  }

  /** recv answers at least one byte and no more than it was asked for. */
  ghost predicate Legal(recv: Ring, chunks: seq<seq<Byte>>)
    requires Sound(recv)
    decreases |chunks|
  {
    chunks == []
    || (0 < |chunks[0]| <= recv.DirectWriteSize()
        && (Receive(recv, chunks[0]).Going? ==> Legal(Receive(recv, chunks[0]).recv, chunks[1..])))
  }

  function Run(recv: Ring, chunks: seq<seq<Byte>>): (p: Progress)
    requires Sound(recv) && Legal(recv, chunks)
    ensures p.Going? ==> Sound(p.recv)
    decreases |chunks|
  {
    if chunks == [] then Going(recv, [])
    else match Receive(recv, chunks[0])
         case Aborted => Aborted
         case Going(r, fs) =>
           match Run(r, chunks[1..])
           case Aborted => Aborted
           case Going(r', gs) => Going(r', fs + gs)
  }

  /** The frames of a run are the frames of the whole stream, and the buffer ends with its
      unparsed rest; the run is stopped by an assert exactly when the stream is malformed. */
  lemma {:induction false} RunIsWholeStreamParse(recv: Ring, chunks: seq<seq<Byte>>)
    requires Sound(recv) && Legal(recv, chunks)
    ensures match ParseStream(recv.Contents() + Concat(chunks))
            case Malformed => Run(recv, chunks) == Aborted
            case Parsed(frames, rest) =>
              && Run(recv, chunks).Going? && Run(recv, chunks).frames == frames
              && Run(recv, chunks).recv.Contents() == rest && |rest| < PING_SIZE
    decreases |chunks|
  {
    if chunks == [] {
      assert recv.Contents() + [] == recv.Contents();
    } else {
      var pending, later := recv.Contents() + chunks[0], Concat(chunks[1..]);
      assert recv.Contents() + Concat(chunks) == pending + later;
      ParseContinues(pending, later);
      ReceiveAppends(recv, chunks[0]);
      match Receive(recv, chunks[0])
      case Aborted =>
      case Going(r, fs) =>
        FrameCount(pending);
        RunIsWholeStreamParse(r, chunks[1..]);
    }
  }

  /** Some bytes are left over after every DoRecv of the run. */
  ghost predicate NeverEmptied(recv: Ring, chunks: seq<seq<Byte>>)
    requires Sound(recv) && Legal(recv, chunks)
    decreases |chunks|
  {
    chunks == []
    || (Receive(recv, chunks[0]).Going?
        && Receive(recv, chunks[0]).recv.Contents() != []
        && NeverEmptied(Receive(recv, chunks[0]).recv, chunks[1..]))
  }

  /** While the buffer is never emptied, the rear offset only grows, so at most B - 1 bytes
      come in; recv is asked for no bytes, and the peer taken for gone, exactly at B - 1. */
  lemma {:induction false} RearOnlyGrows(recv: Ring, chunks: seq<seq<Byte>>)
    requires Sound(recv) && Legal(recv, chunks) && NeverEmptied(recv, chunks)
    ensures var end := Run(recv, chunks);
            && end.Going?
            && end.recv.rear == recv.rear + |Concat(chunks)|
            && |Concat(chunks)| <= |recv.buf| - 1 - recv.rear
            && (end.recv.DirectWriteSize() == 0 <==> end.recv.rear == |recv.buf| - 1)
    decreases |chunks|
  {
    if chunks != [] {
      ReceiveAppends(recv, chunks[0]);
      var r := Receive(recv, chunks[0]).recv;
      RearOnlyGrows(r, chunks[1..]);
    }
  }

  /** Receive is a call of the client's DoRecv. */
  method ReceiveIsDoRecv(client: Session, ghost recv: Ring, chunk: seq<Byte>, clock: nat -> Tick)
    returns (outcome: Outcome)
    requires client.Valid() && Sound(recv) && 0 < |chunk| <= recv.DirectWriteSize()
    requires client.recvBuffer.data.Length == |recv.buf| && client.recvBuffer.rear == recv.rear
    requires client.recvBuffer.Contents() == recv.Contents()
    modifies client.recvBuffer, client.recvBuffer.data, client.sendBuffer, client.sendBuffer.data
    ensures var p := Receive(recv, chunk);
            && (outcome == AssertionFailed <==> p.Aborted?) && (outcome == Alive <==> p.Going?)
            && (p.Going? ==>
                  client.Valid() && client.recvBuffer.Contents() == p.recv.Contents()
                  && client.recvBuffer.rear == p.recv.rear && |p.recv.buf| == client.recvBuffer.data.Length
                  && client.sendBuffer.View() == EchoAll(old(client.sendBuffer.View()), |p.frames|, clock))
  {
    ReceiveAppends(recv, chunk);
    ghost var filled := recv.Receive(chunk);
    ghost var parse := ParseStream(filled.Contents());
    if parse.Parsed? {
      FrameCount(filled.Contents());
      SettleMeans(filled, |parse.frames|);
    }
    outcome := client.DoRecv(Received(chunk), clock);
  }
}
