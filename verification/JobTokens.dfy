/** One session's RecvJob seen from both models: where OneShotJobs has it, armed, on its way
    through PollJob and the queue, or run by a worker, is the token of SessionProtocol. */
module JobTokens {
  import OneShotJobs
  import SessionProtocol
  import SessionRetirement

  type Token = SessionProtocol.Token

  /** What can happen to the RecvJob of one session. */
  datatype Move = Stays | Fires | Begins | Rearms | Drops

  predicate Permitted(at: Token, move: Move) {
    match move
    case Stays => true
    case Fires => at.Armed?
    case Begins => at.Ready?
    case Rearms => at.Running?
    case Drops => at.Armed? || at.Running?
  }

  function Moved(at: Token, move: Move): Token {
    match move
    case Stays => at
    case Fires => SessionProtocol.Token.Ready
    case Begins => SessionProtocol.Token.Running
    case Rearms => SessionProtocol.Token.Armed
    case Drops => SessionProtocol.Token.Gone
  }

  ghost predicate SomeoneRuns(workers: seq<OneShotJobs.Worker>, job: OneShotJobs.Job) {
    exists w :: 0 <= w < |workers| && OneShotJobs.Runs(workers[w], job)
  }

  ghost function TokenOf(s: OneShotJobs.State, session: nat): Token {
    var job := OneShotJobs.Recv(session);
    if job in s.armed then SessionProtocol.Token.Armed
    else if SomeoneRuns(s.workers, job) then SessionProtocol.Token.Running
    else if OneShotJobs.Tokens(s, job) > 0 then SessionProtocol.Token.Ready
    else SessionProtocol.Token.Gone
  }

  function MoveOf(s: OneShotJobs.State, l: OneShotJobs.Label, session: nat): Move
    requires OneShotJobs.Enabled(s, l)
  {
    var job := OneShotJobs.Recv(session);
    match l
    case Wait(_, events) => if job in events then Fires else Stays
    case Take(_) => if s.queue[0] == job then Begins else Stays
    case Rearm(w) => if s.workers[w].job == job then Rearms else Stays
    case RearmFails(w) => if s.workers[w].job == job then Drops else Stays
    case Executed(w, complete) => if !complete && s.workers[w].job == job then Drops else Stays
    case Unregister(j) => if j == job && j in s.armed then Drops else Stays
    case _ => Stays
  }

  /** A worker that runs a job is the only one. */
  lemma RunsAlone(s: OneShotJobs.State, v: nat, w: nat, job: OneShotJobs.Job)
    requires OneShotJobs.SingleOwner(s) && v < w < |s.workers|
    ensures !(OneShotJobs.Runs(s.workers[v], job) && OneShotJobs.Runs(s.workers[w], job))
  {
    TwoOwners(s.workers, v, w, job);
    assert OneShotJobs.Tokens(s, job) <= 1;
  }

  lemma {:induction false} TwoOwners(workers: seq<OneShotJobs.Worker>, v: nat, w: nat, job: OneShotJobs.Job)
    requires v < w < |workers|
    ensures OneShotJobs.Owned(workers[v], job) + OneShotJobs.Owned(workers[w], job)
            <= OneShotJobs.OwnedByAll(workers, job)
  {
    if v == 0 {
      OneShotJobs.OwnedIncludes(workers[1..], w - 1, job);
    } else {
      TwoOwners(workers[1..], v - 1, w - 1, job);
    }
  }

  /** A worker takes up something else. */
  lemma RunnerMoves(s: OneShotJobs.State, w: nat, work: OneShotJobs.Worker, job: OneShotJobs.Job)
    requires OneShotJobs.SingleOwner(s) && w < |s.workers|
    ensures SomeoneRuns(s.workers[w := work], job)
            <==> OneShotJobs.Runs(work, job)
                 || (SomeoneRuns(s.workers, job) && !OneShotJobs.Runs(s.workers[w], job))
  {
    var after := s.workers[w := work];
    if v :| 0 <= v < |s.workers| && v != w && OneShotJobs.Runs(s.workers[v], job) {
      assert OneShotJobs.Runs(after[v], job);
      RunsAlone(s, if v < w then v else w, if v < w then w else v, job);
    }
    if OneShotJobs.Runs(work, job) {
      assert OneShotJobs.Runs(after[w], job);
    }
    if v :| 0 <= v < |after| && v != w && OneShotJobs.Runs(after[v], job) {
      assert OneShotJobs.Runs(s.workers[v], job);
    }
  }

  lemma RunnerIsNotArmed(s: OneShotJobs.State, job: OneShotJobs.Job)
    requires OneShotJobs.SingleOwner(s) && SomeoneRuns(s.workers, job)
    ensures job !in s.armed && job !in s.queue && OneShotJobs.Tokens(s, job) == 1
  {
    var w :| 0 <= w < |s.workers| && OneShotJobs.Runs(s.workers[w], job);
    OneShotJobs.RunningIsNowhereElse(s, w, job);
    OneShotJobs.OwnedIncludes(s.workers, w, job);
    assert OneShotJobs.Tokens(s, job) <= 1;
  }

  /** Every step of the workers, the poller and epoll moves the token of an accepted session
      as the token automaton permits, and by exactly the move its label says. */
  lemma TokenMoves(s: OneShotJobs.State, l: OneShotJobs.Label, session: nat)
    requires OneShotJobs.SingleOwner(s) && OneShotJobs.Enabled(s, l) && session < s.accepted
    ensures Permitted(TokenOf(s, session), MoveOf(s, l, session))
    ensures TokenOf(OneShotJobs.Next(s, l), session) == Moved(TokenOf(s, session), MoveOf(s, l, session))
  {
    var s', job := OneShotJobs.Next(s, l), OneShotJobs.Recv(session);
    OneShotJobs.NextKeepsSingleOwner(s, l);
    OneShotJobs.TokensMove(s, l, job);
    if !l.Unregister? {
      RunnerMoves(s, l.w, s'.workers[l.w], job);
    }
    if SomeoneRuns(s.workers, job) {
      RunnerIsNotArmed(s, job);
    }
    if SomeoneRuns(s'.workers, job) {
      RunnerIsNotArmed(s', job);
    }
  }

  function MovesOf(s: OneShotJobs.State, ls: seq<OneShotJobs.Label>, session: nat): seq<Move>
    requires OneShotJobs.LegalRun(s, ls)
    decreases |ls|
  {
    if ls == [] then []
    else [MoveOf(s, ls[0], session)] + MovesOf(OneShotJobs.Next(s, ls[0]), ls[1..], session)
  }

  /** A life of the token automaton, and where it ends. */
  predicate Life(at: Token, moves: seq<Move>, end: Token)
    decreases |moves|
  {
    if moves == [] then at == end
    else Permitted(at, moves[0]) && Life(Moved(at, moves[0]), moves[1..], end)
  }

  /** Every run, seen from one accepted session, is a life of its token. */
  lemma {:induction false} RunIsTokenLife(s: OneShotJobs.State, ls: seq<OneShotJobs.Label>, session: nat)
    requires OneShotJobs.SingleOwner(s) && OneShotJobs.LegalRun(s, ls) && session < s.accepted
    ensures Life(TokenOf(s, session), MovesOf(s, ls, session), TokenOf(OneShotJobs.Run(s, ls), session))
    decreases |ls|
  {
    if ls != [] {
      OneShotJobs.NextKeepsSingleOwner(s, ls[0]);
      TokenMoves(s, ls[0], session);
      RunIsTokenLife(OneShotJobs.Next(s, ls[0]), ls[1..], session);
    }
  }

  lemma {:induction false} GoneStaysGone(moves: seq<Move>, end: Token)
    requires Life(SessionProtocol.Token.Gone, moves, end)
    ensures end == SessionProtocol.Token.Gone
    decreases |moves|
  {
    if moves != [] {
      GoneStaysGone(moves[1..], end);
    }
  }

  /** A session's RecvJob that was dropped is never in any place again. */
  lemma DroppedForGood(s: OneShotJobs.State, ls: seq<OneShotJobs.Label>, session: nat)
    requires OneShotJobs.SingleOwner(s) && OneShotJobs.LegalRun(s, ls) && session < s.accepted
    requires OneShotJobs.Tokens(s, OneShotJobs.Recv(session)) == 0
    ensures OneShotJobs.Tokens(OneShotJobs.Run(s, ls), OneShotJobs.Recv(session)) == 0
  {
    var end := OneShotJobs.Run(s, ls);
    if SomeoneRuns(s.workers, OneShotJobs.Recv(session)) {
      RunnerIsNotArmed(s, OneShotJobs.Recv(session));
    }
    RunIsTokenLife(s, ls, session);
    GoneStaysGone(MovesOf(s, ls, session), TokenOf(end, session));
  }

  /** What a step of the session's own protocol does to its token. */
  function ProtocolMove(s: SessionProtocol.State, l: SessionProtocol.Label): Move
    requires SessionProtocol.Enabled(s, l)
  {
    match l
    case RecvFires => Fires
    case Starts(_, b) => if b.RunRecvJob? then Begins else Stays
    case Receives(_, a) => if a.Rearmed? then Rearms else Stays
    case Go(t) =>
      (match s.pcs[t]
       case InRecv(x) => if x.Stop? || (x.Recheck? && s.fd.live) then Drops else Stays
       case InDisconnect(x, _) => if x.DeleteEpoll? && s.rx.token.Armed? then Drops else Stays
       case _ => Stays)
    case _ => Stays
  }

  /** The session's protocol moves its token in the same ways. */
  lemma ProtocolTokenMoves(s: SessionProtocol.State, l: SessionProtocol.Label)
    requires SessionRetirement.Inv(s) && SessionProtocol.Enabled(s, l)
    ensures Permitted(s.rx.token, ProtocolMove(s, l))
    ensures SessionProtocol.Next(s, l).rx.token == Moved(s.rx.token, ProtocolMove(s, l))
  {
    match l {
      case Go(t) => GoMovesToken(s, t);
      case Receives(t, _) => assert SessionRetirement.PcFits(s.fd, s.rx, s.pcs[t]);
      case _ =>
    }
  }

  lemma GoMovesToken(s: SessionProtocol.State, t: nat)
    requires SessionRetirement.Inv(s) && SessionProtocol.Enabled(s, SessionProtocol.Go(t))
    ensures var move := ProtocolMove(s, SessionProtocol.Go(t));
            Permitted(s.rx.token, move) && SessionProtocol.GoStep(s, t).rx.token == Moved(s.rx.token, move)
  {
    assert SessionRetirement.PcFits(s.fd, s.rx, s.pcs[t]);
    match s.pcs[t] {
      case InSend(x) => assert SessionProtocol.GoSend(s, t, x).rx == s.rx;
      case _ =>
    }
  }
}
