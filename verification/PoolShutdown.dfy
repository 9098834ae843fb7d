/** Stop: no worker stays blocked, and every join returns. */
module PoolShutdown {
  import opened WorkerPool

  /** Stop has written this worker's eventfd. */
  predicate Signalled(stop: StopPc, w: nat) {
    match stop
    case NotStopping => false
    case Writing(i) => w < i
    case Joining(i) => w <= i
    case Stopped => true
  }

  /** A worker that was written to has the write still coming, or is on its way out. Workers
      that were joined have left. */
  ghost predicate Inv(s: State) {
    && |s.shared.counters| == |s.workers|
    && (s.stop != NotStopping ==> !s.shared.running)
    && (forall w :: 0 <= w < |s.workers| && Signalled(s.stop, w) ==>
          s.shared.counters[w] > 0 || s.workers[w] == Check || s.workers[w] == Exited)
    && (s.stop.Joining? ==> s.stop.i < |s.workers|)
  }

  lemma NextKeepsInv(s: State, l: Label)
    requires Inv(s) && Enabled(s, l)
    ensures Inv(Next(s, l))
  {
  }

  /** Steps a worker has left once mIsRunning is false. */
  function Rank(pc: WorkerPc): nat {
    match pc
    case Exited => 0
    case Check => 1
    case Execute(_) => 2
    case Read => 2
    case IdlePush => 3
    case Pop => 4
  }

  function RankOfAll(workers: seq<WorkerPc>): nat {
    if workers == [] then 0 else Rank(workers[0]) + RankOfAll(workers[1..])
  }

  function StopRank(stop: StopPc, workers: nat): int {
    match stop
    case NotStopping => 2 * workers + 2
    case Writing(i) => 2 * (workers - i) + 1
    case Joining(i) => 2 * (workers - i)
    case Stopped => 0
  }

  /** What is left to do of the shutdown. */
  function Measure(s: State): int {
    RankOfAll(s.workers) + StopRank(s.stop, |s.workers|)
  }

  lemma {:induction false} RankAfterUpdate(workers: seq<WorkerPc>, w: nat, pc: WorkerPc)
    requires w < |workers|
    ensures RankOfAll(workers[w := pc]) + Rank(workers[w]) == RankOfAll(workers) + Rank(pc)
  {
    var updated := workers[w := pc];
    if w == 0 {
      assert updated[1..] == workers[1..];
    } else {
      assert updated[1..] == workers[1..][w - 1 := pc];
      RankAfterUpdate(workers[1..], w - 1, pc);
    }
  }

  /** Once mIsRunning is false every step of a worker or of Stop brings the end nearer, and
      the threads in AddJob, whatever they do, do not put it off. */
  lemma EveryStepCounts(s: State, l: Label)
    requires Inv(s) && Enabled(s, l) && !s.shared.running && s.stop != NotStopping
    requires s.stop.Writing? ==> s.stop.i <= |s.workers|
    ensures if l.Work? || l.Stops? then Measure(Next(s, l)) < Measure(s) else Measure(Next(s, l)) == Measure(s)
    ensures !Next(s, l).shared.running && Next(s, l).stop != NotStopping
    ensures Next(s, l).stop.Writing? ==> Next(s, l).stop.i <= |Next(s, l).workers|
  {
    if l.Work? {
      RankAfterUpdate(s.workers, l.w, Next(s, l).workers[l.w]);
    }
  }

  /** Until Stop returns, some worker or Stop itself can take a step: no worker that is still
      to be joined stays blocked in read. */
  lemma NeverBlocked(s: State)
    requires Inv(s) && s.stop != NotStopping && s.stop != Stopped && !s.fault
    ensures Enabled(s, Stops) || (s.stop.Joining? && Enabled(s, Work(s.stop.i)))
  {
    if s.stop.Joining? {
      assert Signalled(s.stop, s.stop.i);
    }
  }

  /** Steps of workers and of Stop in a run. */
  function Progress(ls: seq<Label>): nat {
    if ls == [] then 0 else (if ls[0].Work? || ls[0].Stops? then 1 else 0) + Progress(ls[1..])
  }

  lemma {:induction false} MeasureBoundsProgress(s: State, ls: seq<Label>)
    requires Inv(s) && s.stop != NotStopping && LegalRun(s, ls)
    requires s.stop.Writing? ==> s.stop.i <= |s.workers|
    ensures var end := Run(s, ls);
            && Inv(end) && end.stop != NotStopping
            && Progress(ls) + Measure(end) <= Measure(s) && 0 <= Measure(end)
    decreases |ls|
  {
    if ls != [] {
      NextKeepsInv(s, ls[0]);
      EveryStepCounts(s, ls[0]);
      MeasureBoundsProgress(Next(s, ls[0]), ls[1..]);
    }
  }

  lemma {:induction false} InvHolds(s: State, ls: seq<Label>)
    requires Inv(s) && LegalRun(s, ls)
    ensures Inv(Run(s, ls)) && |Run(s, ls).workers| == |s.workers|
    decreases |ls|
  {
    if ls != [] {
      NextKeepsInv(s, ls[0]);
      InvHolds(Next(s, ls[0]), ls[1..]);
    }
  }

  lemma {:induction false} RankIsSmall(workers: seq<WorkerPc>)
    ensures RankOfAll(workers) <= 4 * |workers|
  {
    if workers != [] {
      RankIsSmall(workers[1..]);
    }
  }

  /** From the call of Stop on, in every version and whatever AddJob is called meanwhile: the
      workers and Stop take at most 6 * workers + 1 steps, and as long as Stop has not returned one of
      them can take the next, unless an empty idle stack was popped. */
  lemma EveryJoinReturns(s: State, before: seq<Label>, after: seq<Label>)
    requires Initial(s) && LegalRun(s, before) && Run(s, before).stop == NotStopping
    requires Enabled(Run(s, before), Stops) && LegalRun(Next(Run(s, before), Stops), after)
    ensures var end := Run(Next(Run(s, before), Stops), after);
            && Progress(after) <= 6 * |s.workers| + 1
            && (end.stop != Stopped && !end.fault ==>
                  Enabled(end, Stops) || (end.stop.Joining? && Enabled(end, Work(end.stop.i))))
  {
    InvHolds(s, before);
    var stopping := Next(Run(s, before), Stops);
    NextKeepsInv(Run(s, before), Stops);
    MeasureBoundsProgress(stopping, after);
    RankIsSmall(stopping.workers);
    var end := Run(stopping, after);
    if end.stop != Stopped && !end.fault {
      NeverBlocked(end);
    }
  }

  /** The jobs a worker may still take, and the reads it may still return from. */
  function JobsLeft(pc: WorkerPc): nat {
    if pc == Pop then 1 else 0
  }

  function ReadsLeft(pc: WorkerPc): nat {
    if pc == Pop || pc == IdlePush || pc == Read then 1 else 0
  }

  /** How often this worker takes a job, or returns from read, in a run. */
  function JobsTaken(s: State, ls: seq<Label>, w: nat): nat
    requires LegalRun(s, ls) && w < |s.workers|
    decreases |ls|
  {
    if ls == [] then 0
    else (if ls[0] == Work(w) && s.workers[w] == Pop && s.shared.queue != [] then 1 else 0)
         + JobsTaken(Next(s, ls[0]), ls[1..], w)
  }

  function ReadsDone(s: State, ls: seq<Label>, w: nat): nat
    requires LegalRun(s, ls) && w < |s.workers|
    decreases |ls|
  {
    if ls == [] then 0
    else (if ls[0] == Work(w) && s.workers[w] == Read then 1 else 0) + ReadsDone(Next(s, ls[0]), ls[1..], w)
  }

  lemma StaysStopped(s: State, l: Label)
    requires Enabled(s, l) && !s.shared.running
    ensures !Next(s, l).shared.running
  {
  }

  /** Once mIsRunning is false a worker takes at most one more job and returns from at most one
      more read. */
  lemma {:induction false} OneMoreJobAndRead(s: State, ls: seq<Label>, w: nat)
    requires LegalRun(s, ls) && w < |s.workers| && !s.shared.running
    ensures JobsTaken(s, ls, w) <= JobsLeft(s.workers[w]) <= 1
    ensures ReadsDone(s, ls, w) <= ReadsLeft(s.workers[w]) <= 1
    ensures JobsTaken(s, ls, w) + ReadsDone(s, ls, w) <= 1
    decreases |ls|
  {
    if ls != [] {
      StaysStopped(s, ls[0]);
      OneMoreJobAndRead(Next(s, ls[0]), ls[1..], w);
    }
  }
}
