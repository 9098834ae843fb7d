/** Who owns a job: the epoll set while its event is armed, the array PollJob got from
    epoll_wait, the job queue, or the worker that runs it until it is armed again. */
module OneShotJobs {

  /** The server's jobs: one PollJob, one AcceptJob, and a RecvJob for each session. */
  datatype Job = Poll | Accept | Recv(session: nat)

  /** What a worker does. `Adding`: it runs PollJob and has these events still to add. */
  datatype Worker = Free | Executing(job: Job) | Adding(events: seq<Job>) | Completing(job: Job)

  datatype Event =
    | ExecuteBegins(job: Job, worker: nat)
    | CompleteBegins(job: Job, worker: nat)
    | Leaves(job: Job, worker: nat)

  const MAX_EVENTS := 126

  /** `accepted` sessions have had their RecvJob registered. */
  datatype State = State(armed: set<Job>, queue: seq<Job>, workers: seq<Worker>, accepted: nat, log: seq<Event>) {
    function To(w: nat, work: Worker): State
      requires w < |workers|
    {
      this.(workers := workers[w := work])
    }

    function Logged(e: Event): State {
      this.(log := log + [e])
    }
  }

  datatype Label =
    | Take(w: nat)                          // PopJob, Execute begins
    | Wait(w: nat, events: seq<Job>)        // epoll_wait disarms what it reports; an error reports nothing
    | AddEvent(w: nat)                      // AddJob of the next event
    | ReAdd(w: nat)                         // AddJob(this)
    | Register(w: nat)                      // AcceptJob adds a new session's event
    | Executed(w: nat, complete: bool)
    | Rearm(w: nat)                         // EPOLL_CTL_MOD in Complete
    | RearmFails(w: nat)
    | Unregister(job: Job)                  // EPOLL_CTL_DEL in some Disconnect

  predicate NoRepeats(s: seq<Job>) {
    forall i, j :: 0 <= i < j < |s| ==> s[i] != s[j]
  }

  predicate Enabled(s: State, l: Label) {
    (l.Unregister? || l.w < |s.workers|)
    && match l
       case Take(w) => s.workers[w].Free? && s.queue != []
       case Wait(w, events) =>
         s.workers[w] == Executing(Poll) && |events| <= MAX_EVENTS && NoRepeats(events)
         && forall k :: 0 <= k < |events| ==> events[k] in s.armed
       case AddEvent(w) => s.workers[w].Adding? && s.workers[w].events != []
       case ReAdd(w) => s.workers[w] == Adding([])
       case Register(w) => s.workers[w] == Executing(Accept)
       case Executed(w, complete) =>
         s.workers[w].Executing? && s.workers[w].job != Poll && (s.workers[w].job == Accept ==> complete)
       case Rearm(w) => s.workers[w].Completing?
       case RearmFails(w) => s.workers[w].Completing?
       case Unregister(job) => job.Recv?
  }

  function Next(s: State, l: Label): State
    requires Enabled(s, l)
  {
    match l
    case Take(w) =>
      s.(queue := s.queue[1..]).To(w, Executing(s.queue[0])).Logged(ExecuteBegins(s.queue[0], w))
    case Wait(w, events) => s.(armed := s.armed - (set e | e in events)).To(w, Adding(events))
    case AddEvent(w) =>
      var events := s.workers[w].events;
      s.(queue := s.queue + [events[0]]).To(w, Adding(events[1..]))
    case ReAdd(w) => s.(queue := s.queue + [Poll]).To(w, Free).Logged(Leaves(Poll, w))
    case Register(w) => s.(armed := s.armed + {Recv(s.accepted)}, accepted := s.accepted + 1)
    case Executed(w, complete) =>
      var job := s.workers[w].job;
      if complete then s.To(w, Completing(job)).Logged(CompleteBegins(job, w))
      else s.To(w, Free).Logged(Leaves(job, w))
    case Rearm(w) =>
      var job := s.workers[w].job;
      s.(armed := s.armed + {job}).To(w, Free).Logged(Leaves(job, w))
    case RearmFails(w) => s.To(w, Free).Logged(Leaves(s.workers[w].job, w))
    case Unregister(job) => s.(armed := s.armed - {job})
  }

  /** Server::Start: PollJob queued, the listening socket armed. */
  ghost predicate Initial(s: State) {
    s.armed == {Accept} && s.queue == [Poll] && s.accepted == 0 && s.log == []
    && forall w :: 0 <= w < |s.workers| ==> s.workers[w] == Free
  }

  ghost predicate LegalRun(s: State, ls: seq<Label>)
    decreases |ls|
  {
    ls == [] || (Enabled(s, ls[0]) && LegalRun(Next(s, ls[0]), ls[1..]))
  }

  function Run(s: State, ls: seq<Label>): State
    requires LegalRun(s, ls)
    decreases |ls|
  {
    if ls == [] then s else Run(Next(s, ls[0]), ls[1..])
  }

  /** Whether a worker runs this job. */
  predicate Runs(work: Worker, job: Job) {
    match work
    case Free => false
    case Executing(j) => j == job
    case Adding(_) => job == Poll
    case Completing(j) => j == job
  }

  /** The job a worker runs, and the events it still has to add. */
  function Owned(work: Worker, job: Job): nat {
    (if Runs(work, job) then 1 else 0) + if work.Adding? then multiset(work.events)[job] else 0
  }

  function OwnedByAll(workers: seq<Worker>, job: Job): nat {
    if workers == [] then 0 else Owned(workers[0], job) + OwnedByAll(workers[1..], job)
  }

  /** How many places a job is in: armed, queued, running before it is armed again, or in the
      events that PollJob has to add. */
  function Tokens(s: State, job: Job): nat {
    (if job in s.armed then 1 else 0) + multiset(s.queue)[job] + OwnedByAll(s.workers, job)
  }

  lemma {:induction false} OwnedAfterUpdate(workers: seq<Worker>, w: nat, work: Worker, job: Job)
    requires w < |workers|
    ensures OwnedByAll(workers[w := work], job) + Owned(workers[w], job) == OwnedByAll(workers, job) + Owned(work, job)
  {
    var updated := workers[w := work];
    if w == 0 {
      assert updated[1..] == workers[1..];
    } else {
      assert updated[1..] == workers[1..][w - 1 := work];
      OwnedAfterUpdate(workers[1..], w - 1, work, job);
    }
  }

  lemma {:induction false} OwnedIncludes(workers: seq<Worker>, w: nat, job: Job)
    requires w < |workers|
    ensures Owned(workers[w], job) <= OwnedByAll(workers, job)
  {
    if w > 0 {
      OwnedIncludes(workers[1..], w - 1, job);
    }
  }

  /** No job is in two places, PollJob is in exactly one, and a session's RecvJob is nowhere
      before the session is accepted. PollJob is never in the epoll set. */
  ghost predicate SingleOwner(s: State) {
    && (forall j :: Tokens(s, j) <= 1)
    && Tokens(s, Poll) == 1
    && (forall k :: s.accepted <= k ==> Tokens(s, Recv(k)) == 0)
    && Poll !in s.armed
    && forall w :: 0 <= w < |s.workers| ==> s.workers[w] != Completing(Poll)
  }

  /** A job that a worker runs is nowhere else. */
  lemma RunningIsNowhereElse(s: State, w: nat, job: Job)
    requires SingleOwner(s) && w < |s.workers| && Runs(s.workers[w], job)
    ensures job !in s.armed && job !in s.queue
  {
    OwnedIncludes(s.workers, w, job);
    assert Tokens(s, job) <= 1;
  }

  /** How many places a step takes from a job, or gives it. */
  function Change(s: State, l: Label, job: Job): int
    requires Enabled(s, l)
  {
    match l
    case Register(_) => if job == Recv(s.accepted) then 1 else 0
    case Executed(w, complete) => if !complete && job == s.workers[w].job then -1 else 0
    case RearmFails(w) => if job == s.workers[w].job then -1 else 0
    case Unregister(j) => if j == job && j in s.armed then -1 else 0
    case _ => 0
  }

  lemma {:induction false} NoRepeatsOnce(jobs: seq<Job>, job: Job)
    requires NoRepeats(jobs)
    ensures multiset(jobs)[job] == if job in jobs then 1 else 0
  {
    if jobs != [] {
      assert jobs == [jobs[0]] + jobs[1..];
      NoRepeatsOnce(jobs[1..], job);
    }
  }

  lemma FirstAndRest(jobs: seq<Job>, job: Job)
    requires jobs != []
    ensures multiset(jobs)[job] == (if jobs[0] == job then 1 else 0) + multiset(jobs[1..])[job]
  {
    assert jobs == [jobs[0]] + jobs[1..];
  }

  lemma TakeMoves(s: State, w: nat, job: Job)
    requires Enabled(s, Take(w))
    ensures Tokens(Next(s, Take(w)), job) == Tokens(s, job)
  {
    OwnedAfterUpdate(s.workers, w, Executing(s.queue[0]), job);
    FirstAndRest(s.queue, job);
  }

  lemma OneEventLess(events: seq<Job>, job: Job)
    requires events != []
    ensures Owned(Adding(events), job) == Owned(Adding(events[1..]), job) + if events[0] == job then 1 else 0
  {
    FirstAndRest(events, job);
  }

  lemma AddEventMoves(s: State, w: nat, job: Job)
    requires Enabled(s, AddEvent(w))
    ensures Tokens(Next(s, AddEvent(w)), job) == Tokens(s, job)
  {
    var events := s.workers[w].events;
    OneEventLess(events, job);
    OwnedAfterUpdate(s.workers, w, Adding(events[1..]), job);
  }

  lemma ReAddMoves(s: State, w: nat, job: Job)
    requires Enabled(s, ReAdd(w))
    ensures Tokens(Next(s, ReAdd(w)), job) == Tokens(s, job)
  {
    OwnedAfterUpdate(s.workers, w, Free, job);
  }

  lemma WaitMoves(s: State, w: nat, events: seq<Job>, job: Job)
    requires Enabled(s, Wait(w, events))
    ensures Tokens(Next(s, Wait(w, events)), job) == Tokens(s, job)
  {
    OwnedAfterUpdate(s.workers, w, Adding(events), job);
    NoRepeatsOnce(events, job);
  }

  lemma WorkerStepMoves(s: State, l: Label, job: Job)
    requires SingleOwner(s) && Enabled(s, l) && (l.Executed? || l.Rearm? || l.RearmFails?)
    ensures Tokens(Next(s, l), job) == Tokens(s, job) + Change(s, l, job)
  {
    OwnedAfterUpdate(s.workers, l.w, Next(s, l).workers[l.w], job);
    RunningIsNowhereElse(s, l.w, s.workers[l.w].job);
  }

  /** A step moves jobs from one place to another; only giving up, failing to arm and
      deleting from epoll drop one, and only a new session makes one. */
  lemma TokensMove(s: State, l: Label, job: Job)
    requires SingleOwner(s) && Enabled(s, l)
    ensures Tokens(Next(s, l), job) == Tokens(s, job) + Change(s, l, job)
  {
    match l {
      case Take(w) => TakeMoves(s, w, job);
      case AddEvent(w) => AddEventMoves(s, w, job);
      case ReAdd(w) => ReAddMoves(s, w, job);
      case Wait(w, events) => WaitMoves(s, w, events, job);
      case Register(w) => assert Tokens(s, Recv(s.accepted)) == 0;
      case Executed(_, _) => WorkerStepMoves(s, l, job);
      case Rearm(_) => WorkerStepMoves(s, l, job);
      case RearmFails(_) => WorkerStepMoves(s, l, job);
      case Unregister(_) =>
    }
  }

  lemma NextKeepsSingleOwner(s: State, l: Label)
    requires SingleOwner(s) && Enabled(s, l)
    ensures SingleOwner(Next(s, l))
  {
    var s' := Next(s, l);
    forall j ensures Tokens(s', j) <= 1 {
      TokensMove(s, l, j);
      assert Tokens(s, j) <= 1;
      assert l.Register? ==> Tokens(s, Recv(s.accepted)) == 0;
    }
    TokensMove(s, l, Poll);
    assert Change(s, l, Poll) == 0 by {
      assert l.RearmFails? ==> s.workers[l.w] != Completing(Poll);
    }
    forall k | s'.accepted <= k ensures Tokens(s', Recv(k)) == 0 {
      TokensMove(s, l, Recv(k));
      assert Tokens(s, Recv(k)) == 0;
    }
  }

  lemma InitialIsSingle(s: State)
    requires Initial(s)
    ensures SingleOwner(s)
  {
    forall job ensures Tokens(s, job) == if job == Poll || job == Accept then 1 else 0 {
      FreeOwnNothing(s.workers, job);
    }
  }

  lemma {:induction false} FreeOwnNothing(workers: seq<Worker>, job: Job)
    requires forall w :: 0 <= w < |workers| ==> workers[w] == Free
    ensures OwnedByAll(workers, job) == 0
  {
    if workers != [] {
      FreeOwnNothing(workers[1..], job);
    }
  }

  lemma {:induction false} SingleOwnerHolds(s: State, ls: seq<Label>)
    requires SingleOwner(s) && LegalRun(s, ls)
    ensures SingleOwner(Run(s, ls))
    decreases |ls|
  {
    if ls != [] {
      NextKeepsSingleOwner(s, ls[0]);
      SingleOwnerHolds(Next(s, ls[0]), ls[1..]);
    }
  }

  /** In every interleaving of any number of workers: armed, polled, queued or running, a
      session's RecvJob is in at most one place, and PollJob is in exactly one. */
  lemma OneOwnerAlways(s: State, ls: seq<Label>)
    requires Initial(s) && LegalRun(s, ls)
    ensures var now := Run(s, ls);
            && (forall j :: Tokens(now, j) <= 1)
            && Tokens(now, Poll) == 1
  {
    InitialIsSingle(s);
    SingleOwnerHolds(s, ls);
  }

  /** How far a job has come. */
  datatype Stage = Out | InExecute(worker: nat) | InComplete(worker: nat) | Overlapping

  /** The sequential life of a job: one worker at a time, Execute, then perhaps Complete, then
      out. Anything else is an overlap. */
  function Advance(stage: Stage, e: Event): Stage {
    match e
    case ExecuteBegins(_, w) => if stage.Out? then InExecute(w) else Overlapping
    case CompleteBegins(_, w) => if stage == InExecute(w) then InComplete(w) else Overlapping
    case Leaves(_, w) => if stage == InExecute(w) || stage == InComplete(w) then Out else Overlapping
  }

  /** The stage after the events of one job, picked out of the log. */
  function StageOf(log: seq<Event>, job: Job): Stage {
    if log == [] then Out
    else
      var before := StageOf(log[..|log| - 1], job);
      var e := log[|log| - 1];
      if e.job == job then Advance(before, e) else before
  }

  lemma StageAfter(log: seq<Event>, e: Event, job: Job)
    ensures StageOf(log + [e], job)
            == if e.job == job then Advance(StageOf(log, job), e) else StageOf(log, job)
  {
    assert (log + [e])[..|log + [e]| - 1] == log;
  }

  /** What a worker does for a job, seen from its stage. */
  ghost predicate StageFits(workers: seq<Worker>, job: Job, stage: Stage) {
    match stage
    case Out => forall w :: 0 <= w < |workers| ==> !Runs(workers[w], job)
    case InExecute(v) =>
      v < |workers| && Runs(workers[v], job) && !workers[v].Completing?
      && forall w :: 0 <= w < |workers| && w != v ==> !Runs(workers[w], job)
    case InComplete(v) =>
      v < |workers| && workers[v] == Completing(job)
      && forall w :: 0 <= w < |workers| && w != v ==> !Runs(workers[w], job)
    case Overlapping => false
  }

  ghost predicate StagesFit(s: State) {
    forall job :: StageFits(s.workers, job, StageOf(s.log, job))
  }

  lemma QueuedIsNotRun(s: State, job: Job)
    requires SingleOwner(s) && job in s.queue
    ensures forall v :: 0 <= v < |s.workers| ==> !Runs(s.workers[v], job)
  {
    forall v | 0 <= v < |s.workers| ensures !Runs(s.workers[v], job) {
      if Runs(s.workers[v], job) {
        RunningIsNowhereElse(s, v, job);
      }
    }
  }

  /** A free worker begins a job that nobody runs. */
  lemma BeginKeepsStage(workers: seq<Worker>, w: nat, first: Job, job: Job, stage: Stage)
    requires w < |workers| && workers[w].Free? && StageFits(workers, job, stage)
    requires job == first ==> forall v :: 0 <= v < |workers| ==> !Runs(workers[v], first)
    ensures StageFits(workers[w := Executing(first)], job,
                      if job == first then Advance(stage, ExecuteBegins(first, w)) else stage)
  {
    assert job == first ==> stage == Out;
  }

  lemma TakeKeepsStages(s: State, w: nat)
    requires SingleOwner(s) && StagesFit(s) && Enabled(s, Take(w))
    ensures StagesFit(Next(s, Take(w)))
  {
    var s', first := Next(s, Take(w)), s.queue[0];
    QueuedIsNotRun(s, first);
    forall job ensures StageFits(s'.workers, job, StageOf(s'.log, job)) {
      assert StageFits(s.workers, job, StageOf(s.log, job));
      StageAfter(s.log, ExecuteBegins(first, w), job);
      BeginKeepsStage(s.workers, w, first, job, StageOf(s.log, job));
    }
  }

  /** A worker leaves its job, or goes on to Complete. */
  lemma MoveKeepsStages(s: State, s': State, w: nat, job: Job, e: Event)
    requires StagesFit(s) && w < |s.workers| && Runs(s.workers[w], job) && s'.log == s.log + [e]
    requires (e == Leaves(job, w) && s'.workers == s.workers[w := Free])
             || (e == CompleteBegins(job, w) && s'.workers == s.workers[w := Completing(job)]
                 && s.workers[w] == Executing(job))
    requires e.Leaves? ==> !s.workers[w].Adding? || job == Poll
    ensures StagesFit(s')
  {
    forall j ensures StageFits(s'.workers, j, StageOf(s'.log, j)) {
      StageAfter(s.log, e, j);
      assert StageFits(s.workers, j, StageOf(s.log, j));
    }
  }

  lemma QuietKeepsStages(s: State, l: Label)
    requires StagesFit(s) && Enabled(s, l)
    requires l.Wait? || l.AddEvent? || l.Register? || l.Unregister?
    ensures StagesFit(Next(s, l))
  {
    var s' := Next(s, l);
    forall j ensures StageFits(s'.workers, j, StageOf(s'.log, j)) {
      assert StageFits(s.workers, j, StageOf(s.log, j));
    }
  }

  lemma NextKeepsStages(s: State, l: Label)
    requires SingleOwner(s) && StagesFit(s) && Enabled(s, l)
    ensures StagesFit(Next(s, l))
  {
    match l {
      case Take(w) => TakeKeepsStages(s, w);
      case ReAdd(w) => MoveKeepsStages(s, Next(s, l), w, Poll, Leaves(Poll, w));
      case Executed(w, complete) =>
        var job := s.workers[w].job;
        MoveKeepsStages(s, Next(s, l), w, job, if complete then CompleteBegins(job, w) else Leaves(job, w));
      case Rearm(w) => MoveKeepsStages(s, Next(s, l), w, s.workers[w].job, Leaves(s.workers[w].job, w));
      case RearmFails(w) => MoveKeepsStages(s, Next(s, l), w, s.workers[w].job, Leaves(s.workers[w].job, w));
      case Wait(_, _) => QuietKeepsStages(s, l);
      case AddEvent(_) => QuietKeepsStages(s, l);
      case Register(_) => QuietKeepsStages(s, l);
      case Unregister(_) => QuietKeepsStages(s, l);
    }
  }

  lemma {:induction false} StagesHold(s: State, ls: seq<Label>)
    requires SingleOwner(s) && StagesFit(s) && LegalRun(s, ls)
    ensures StagesFit(Run(s, ls))
    decreases |ls|
  {
    if ls != [] {
      NextKeepsSingleOwner(s, ls[0]);
      NextKeepsStages(s, ls[0]);
      StagesHold(Next(s, ls[0]), ls[1..]);
    }
  }

  /** The events of each job, picked out of any concurrent run, are those of a sequential one:
      whole turns of Execute and perhaps Complete, each by one worker, never overlapping. A
      turn of PollJob ends where it adds itself to the queue again: from there on another
      worker may begin it, while the first one is still on its way out of Execute. */
  lemma EachJobRunsSequentially(s: State, ls: seq<Label>, job: Job)
    requires Initial(s) && LegalRun(s, ls)
    ensures var now := Run(s, ls);
            && !StageOf(now.log, job).Overlapping?
            && (forall w :: 0 <= w < |now.workers| && Runs(now.workers[w], job) ==>
                  StageOf(now.log, job) == InExecute(w) || StageOf(now.log, job) == InComplete(w))
            && (StageOf(now.log, job) == Out <==> forall w :: 0 <= w < |now.workers| ==> !Runs(now.workers[w], job))
  {
    InitialIsSingle(s);
    StagesHold(s, ls);
    var now := Run(s, ls);
    assert StageFits(now.workers, job, StageOf(now.log, job));
  }
}
