/** The worker pool object, and its life cut into atomic steps: any number of workers in
    PollEvents, any number of threads in AddJob, and one in Stop. */
module WorkerPool {

  /** A pointer to a job. */
  type Job = int

  /** What the mutexes and the eventfds protect. The idle stack's top is its last element. */
  datatype Shared = Shared(running: bool, queue: seq<Job>, idle: seq<nat>, counters: seq<nat>) {
    function PushJob(job: Job): Shared {
      this.(queue := queue + [job])
    }

    function PopJob(): Shared {
      if queue == [] then this else this.(queue := queue[1..])
    }

    function PushIdle(w: nat): Shared {
      this.(idle := idle + [w])
    }

    function TopIdle(): nat
      requires idle != []
    {
      idle[|idle| - 1]
    }

    function PopIdle(): Shared
      requires idle != []
    {
      this.(idle := idle[..|idle| - 1])
    }

    /** write(eventFD, 1) */
    function Signal(w: nat): Shared {
      if w < |counters| then this.(counters := counters[w := counters[w] + 1]) else this
    }

    /** read(eventFD) takes the whole counter. */
    function Consume(w: nat): Shared {
      if w < |counters| then this.(counters := counters[w := 0]) else this
    }
  }

  /** The stack is last in, first out. */
  lemma PopUndoesPush(s: Shared, w: nat)
    ensures s.PushIdle(w).TopIdle() == w && s.PushIdle(w).PopIdle() == s
  {
    assert (s.idle + [w])[..|s.idle|] == s.idle;
  }

  /** The queue is first in, first out. */
  lemma PopTakesOldest(s: Shared, job: Job)
    ensures s.queue == [] ==> s.PushJob(job).PopJob() == s
    ensures s.queue != [] ==> s.PushJob(job).PopJob() == s.PopJob().PushJob(job)
  {
    if s.queue == [] {
      assert ([] + [job])[1..] == [];
    } else {
      assert (s.queue + [job])[1..] == s.queue[1..] + [job];
    }
  }

  datatype Popped = Null | Popped(job: Job)

  class WorkerThreadPool {
    var isRunning: bool
    var jobQueue: seq<Job>
    var idleThreads: seq<nat>
    var counters: seq<nat>

    ghost function View(): Shared
      reads this
    {
      Shared(isRunning, jobQueue, idleThreads, counters)
    }

    constructor ()
      ensures View() == Shared(false, [], [], [])
    {
      isRunning, jobQueue, idleThreads, counters := false, [], [], [];
    }

    method Start(workerThreadCount: nat)
      modifies this
      ensures isRunning && jobQueue == old(jobQueue) && idleThreads == old(idleThreads)
      ensures |counters| == workerThreadCount && forall w :: 0 <= w < workerThreadCount ==> counters[w] == 0
    {
      isRunning := true;
      counters := [];
      for i := 0 to workerThreadCount
        invariant isRunning && jobQueue == old(jobQueue) && idleThreads == old(idleThreads)
        invariant |counters| == i && forall w :: 0 <= w < i ==> counters[w] == 0
      {
        counters := counters + [0];
      }
    }

    method PopJob() returns (job: Popped)
      modifies this`jobQueue
      ensures View() == old(View()).PopJob()
      ensures job == if old(jobQueue) == [] then Null else Popped(old(jobQueue)[0])
    {
      if jobQueue == [] {
        return Null;
      }
      job := Popped(jobQueue[0]);
      jobQueue := jobQueue[1..];
    }

    /** WakeOneThread, not interrupted. */
    method WakeOneThread()
      requires forall k :: 0 <= k < |idleThreads| ==> idleThreads[k] < |counters|
      modifies this`idleThreads, this`counters
      ensures View() == if old(idleThreads) == [] then old(View())
                        else old(View()).PopIdle().Signal(old(View()).TopIdle())
    {
      if idleThreads == [] {
        return;
      }
      var context := idleThreads[|idleThreads| - 1];
      idleThreads := idleThreads[..|idleThreads| - 1];
      counters := counters[context := counters[context] + 1];
    }

    /** AddJob, not interrupted: what the repaired protocol makes one critical section. */
    method AddJob(job: Job)
      requires forall k :: 0 <= k < |idleThreads| ==> idleThreads[k] < |counters|
      modifies this`jobQueue, this`idleThreads, this`counters
      ensures View() == if old(idleThreads) == [] then old(View()).PushJob(job)
                        else old(View()).PushJob(job).PopIdle().Signal(old(View()).TopIdle())
    {
      jobQueue := jobQueue + [job];
      WakeOneThread();
    }

    /** The first half of Idle. */
    method PushIdle(w: nat)
      modifies this`idleThreads
      ensures View() == old(View()).PushIdle(w)
    {
      idleThreads := idleThreads + [w];
    }

    /** The second half of Idle: read returns once the counter is positive. */
    method ReadEvent(w: nat) returns (value: nat)
      requires w < |counters| && counters[w] > 0
      modifies this`counters
      ensures value == old(counters)[w] && View() == old(View()).Consume(w)
    {
      value := counters[w];
      counters := counters[w := 0];
    }

    /** Idle of a worker that some other thread takes off the stack and wakes. */
    method Idle(w: nat)
      requires w < |counters|
      modifies this`idleThreads, this`counters
      ensures idleThreads == old(idleThreads) && counters == old(counters)[w := 0]
    {
      PushIdle(w);
      idleThreads := idleThreads[..|idleThreads| - 1];
      counters := counters[w := counters[w] + 1];
      var _ := ReadEvent(w);
    }

    /** One pass of PollEvents' loop, after other threads pushed jobs and perhaps stopped the
        pool. */
    method OnePass(w: nat, pass: Pass) returns (job: Popped)
      requires w < |counters|
      modifies this
      ensures isRunning == !pass.stopped && idleThreads == old(idleThreads)
      ensures var queue := old(jobQueue) + pass.pushed;
              && job == (if queue == [] then Null else Popped(queue[0]))
              && jobQueue == (if queue == [] then [] else queue[1..])
              && counters == if queue == [] then old(counters)[w := 0] else old(counters)
    {
      jobQueue := jobQueue + pass.pushed;
      isRunning := !pass.stopped;
      job := PopJob();
      if job == Null {
        Idle(w);
      }
    }

    /** PollEvents of one worker. Before each pass other threads push some jobs, and perhaps
        stop the pool; a worker that goes to sleep is taken off the stack and woken. Every pass
        that finds a job executes the oldest one, and a worker sleeps only on an empty queue. */
    method PollEvents(w: nat, passes: seq<Pass>) returns (executed: seq<Job>, used: nat)
      requires w < |counters|
      modifies this
      ensures used <= |passes| && executed + jobQueue == old(jobQueue) + AllPushed(passes[..used])
      ensures |executed| == Found(|old(jobQueue)|, passes[..used])
      ensures executed <= old(jobQueue) + AllPushed(passes[..used])
      ensures isRunning ==> used == |passes|
      ensures isRunning == (old(isRunning) && (used > 0 ==> !passes[used - 1].stopped))
      ensures !old(isRunning) ==> used == 0
      ensures forall k :: 0 <= k < used - 1 ==> !passes[k].stopped
      ensures idleThreads == old(idleThreads) && |counters| == |old(counters)|
      ensures forall v :: 0 <= v < |counters| && v != w ==> counters[v] == old(counters)[v]
    {
      executed, used := [], 0;
      assert passes[..0] == [];
      while isRunning && used < |passes|
        invariant 0 <= used <= |passes| && idleThreads == old(idleThreads) && |counters| == |old(counters)|
        invariant forall v :: 0 <= v < |counters| && v != w ==> counters[v] == old(counters)[v]
        invariant isRunning == (old(isRunning) && (used > 0 ==> !passes[used - 1].stopped))
        invariant used > 0 ==> old(isRunning)
        invariant forall k :: 0 <= k < used - 1 ==> !passes[k].stopped
        invariant After(executed, jobQueue, old(jobQueue), passes, used)
        decreases |passes| - used
      {
        OnePassMore(executed, jobQueue, old(jobQueue), passes, used);
        var job := OnePass(w, passes[used]);
        used := used + 1;
        if job == Null {
          continue;
        }
        executed := executed + [job.job];
      }
      ExecutedAreOldest(executed, jobQueue, old(jobQueue) + AllPushed(passes[..used]));
    }
  }

  datatype Pass = Pass(pushed: seq<Job>, stopped: bool)

  function AllPushed(passes: seq<Pass>): seq<Job> {
    if passes == [] then [] else AllPushed(passes[..|passes| - 1]) + passes[|passes| - 1].pushed
  }

  /** How many passes find the queue not empty: those for which more jobs have come, those of
      the pass included, than were taken before. */
  function Found(queued: nat, passes: seq<Pass>): nat {
    if passes == [] then 0
    else
      var before := Found(queued, passes[..|passes| - 1]);
      before + if queued + |AllPushed(passes)| > before then 1 else 0
  }

  lemma FoundUnfolds(queued: nat, passes: seq<Pass>, n: nat)
    requires n < |passes|
    ensures var before := Found(queued, passes[..n]);
            Found(queued, passes[..n + 1])
            == before + if queued + |AllPushed(passes[..n + 1])| > before then 1 else 0
  {
    assert passes[..n + 1][..n] == passes[..n];
  }

  /** While there is always a job, every pass finds one: the first jobs of all that were
      queued and pushed are then the ones executed. */
  lemma {:induction false} BusyAllTheTime(queued: nat, passes: seq<Pass>)
    requires forall k :: 0 <= k <= |passes| ==> EnoughFor(queued, passes[..k])
    ensures Found(queued, passes) == |passes|
    decreases |passes|
  {
    if passes != [] {
      var init := passes[..|passes| - 1];
      forall k | 0 <= k <= |init| ensures EnoughFor(queued, init[..k]) {
        assert init[..k] == passes[..k];
      }
      BusyAllTheTime(queued, init);
      assert passes[..|passes|] == passes;
    }
  }

  predicate EnoughFor(queued: nat, passes: seq<Pass>) {
    queued + |AllPushed(passes)| >= |passes|
  }

  lemma SameLength(a: seq<Job>, b: seq<Job>, c: seq<Job>, d: seq<Job>)
    requires a + b == c + d
    ensures |a| + |b| == |c| + |d|
  {
    assert |a + b| == |c + d|;
  }

  /** The jobs executed are the oldest, as many as there were passes that found one. */
  lemma ExecutedAreOldest(executed: seq<Job>, left: seq<Job>, all: seq<Job>)
    requires executed + left == all
    ensures executed <= all && left == all[|executed|..]
  {
  }

  lemma QueuedLast(done: seq<Job>, queue: seq<Job>, first: seq<Job>, before: seq<Job>, more: seq<Job>)
    requires done + queue == first + before
    ensures done + (queue + more) == first + (before + more)
  {
    assert done + (queue + more) == (done + queue) + more;
    assert first + (before + more) == (first + before) + more;
  }

  lemma TakesFirst(done: seq<Job>, queue: seq<Job>)
    ensures queue != [] ==> done + [queue[0]] + queue[1..] == done + queue
  {
  }

  /** The jobs executed and left after the first n passes. */
  ghost predicate After(executed: seq<Job>, left: seq<Job>, first: seq<Job>, passes: seq<Pass>, n: nat) {
    && n <= |passes| && executed + left == first + AllPushed(passes[..n])
    && |executed| == Found(|first|, passes[..n])
  }

  /** One more pass takes the oldest job, if there is one. */
  lemma OnePassMore(executed: seq<Job>, left: seq<Job>, first: seq<Job>, passes: seq<Pass>, n: nat)
    requires n < |passes| && After(executed, left, first, passes, n)
    ensures var queue := left + passes[n].pushed;
            if queue == [] then After(executed, [], first, passes, n + 1)
            else After(executed + [queue[0]], queue[1..], first, passes, n + 1)
  {
    var queue := left + passes[n].pushed;
    AllPushedUnfolds(passes, n);
    FoundUnfolds(|first|, passes, n);
    QueuedLast(executed, left, first, AllPushed(passes[..n]), passes[n].pushed);
    SameLength(executed, queue, first, AllPushed(passes[..n + 1]));
    TakesFirst(executed, queue);
  }

  lemma AllPushedUnfolds(passes: seq<Pass>, n: nat)
    requires n < |passes|
    ensures AllPushed(passes[..n + 1]) == AllPushed(passes[..n]) + passes[n].pushed
  {
    assert passes[..n + 1][..n] == passes[..n];
  }

  /** The next step of a worker in PollEvents. `Execute` stands for Execute and Complete. */
  datatype WorkerPc = Check | Pop | Execute(job: Job) | IdlePush | Read | Exited

  /** The next step of a thread in AddJob, after the push. `Wake` holds the popped worker. */
  datatype AdderPc = Away | SeeStack | PopStack | Wake(w: nat)

  /** The thread in Stop: it writes the i-th eventfd, then joins the i-th worker. */
  datatype StopPc = NotStopping | Writing(i: nat) | Joining(i: nat) | Stopped

  /** As written; with the pop guarded by another look at the stack under its mutex; and with
      push and wake, and the empty pop and the idle push, each one critical section. */
  datatype Version = AsWritten | Guarded | Atomic

  /** `added` and `popped` record the jobs; `fault` that an empty stack was popped. */
  datatype State = State(
    version: Version, shared: Shared,
    workers: seq<WorkerPc>, adders: seq<AdderPc>, stop: StopPc,
    added: seq<Job>, popped: seq<Job>, fault: bool)
  {
    function Worker(w: nat, pc: WorkerPc): State
      requires w < |workers|
    {
      this.(workers := workers[w := pc])
    }

    function Adder(a: nat, pc: AdderPc): State
      requires a < |adders|
    {
      this.(adders := adders[a := pc])
    }
  }

  datatype Label = Work(w: nat) | Add(a: nat, job: Job) | Adds(a: nat) | Stops

  predicate Enabled(s: State, l: Label) {
    !s.fault && |s.shared.counters| == |s.workers|
    && match l
       case Work(w) =>
         w < |s.workers| && s.workers[w] != Exited && (s.workers[w] == Read ==> s.shared.counters[w] > 0)
       case Add(a, _) => a < |s.adders| && s.adders[a] == Away
       case Adds(a) => a < |s.adders| && s.adders[a] != Away
       case Stops =>
         s.stop != Stopped
         && (s.stop.Joining? && s.stop.i < |s.workers| ==> s.workers[s.stop.i] == Exited)
  }

  function WorkStep(s: State, w: nat): State
    requires w < |s.workers|
  {
    match s.workers[w]
    case Check => s.Worker(w, if s.shared.running then Pop else Exited)
    case Pop =>
      if s.shared.queue != [] then
        var job := s.shared.queue[0];
        s.(shared := s.shared.PopJob(), popped := s.popped + [job]).Worker(w, Execute(job))
      else if s.version == Atomic then s.(shared := s.shared.PushIdle(w)).Worker(w, Read)
      else s.Worker(w, IdlePush)
    case Execute(_) => s.Worker(w, Check)
    case IdlePush => s.(shared := s.shared.PushIdle(w)).Worker(w, Read)
    case Read => s.(shared := s.shared.Consume(w)).Worker(w, Check)
    case Exited => s
  }

  function AddStart(s: State, a: nat, job: Job): State
    requires a < |s.adders|
  {
    var pushed := s.(shared := s.shared.PushJob(job), added := s.added + [job]);
    if s.version != Atomic then pushed.Adder(a, SeeStack)
    else if s.shared.idle == [] then pushed
    else pushed.(shared := pushed.shared.PopIdle()).Adder(a, Wake(s.shared.TopIdle()))
  }

  function AddStep(s: State, a: nat): State
    requires a < |s.adders|
  {
    match s.adders[a]
    case Away => s
    case SeeStack => s.Adder(a, if s.shared.idle == [] then Away else PopStack)
    case PopStack =>
      if s.shared.idle != [] then s.(shared := s.shared.PopIdle()).Adder(a, Wake(s.shared.TopIdle()))
      else if s.version == Guarded then s.Adder(a, Away)
      else s.(fault := true)
    case Wake(w) => s.(shared := s.shared.Signal(w)).Adder(a, Away)
  }

  function StopStep(s: State): State {
    match s.stop
    case NotStopping => s.(shared := s.shared.(running := false), stop := Writing(0))
    case Writing(i) =>
      if i < |s.workers| then s.(shared := s.shared.Signal(i), stop := Joining(i)) else s.(stop := Stopped)
    case Joining(i) => s.(stop := Writing(i + 1))
    case Stopped => s
  }

  function Next(s: State, l: Label): State
    requires Enabled(s, l)
  {
    match l
    case Work(w) => WorkStep(s, w)
    case Add(a, job) => AddStart(s, a, job)
    case Adds(a) => AddStep(s, a)
    case Stops => StopStep(s)
  }

  /** The pool just started, nothing queued. */
  ghost predicate Initial(s: State) {
    && s.shared.running && s.shared.queue == [] && s.shared.idle == []
    && |s.shared.counters| == |s.workers| && (forall w :: 0 <= w < |s.workers| ==> s.shared.counters[w] == 0)
    && (forall w :: 0 <= w < |s.workers| ==> s.workers[w] == Check)
    && (forall a :: 0 <= a < |s.adders| ==> s.adders[a] == Away)
    && s.stop == NotStopping && s.added == [] == s.popped && !s.fault
  }

  ghost predicate LegalRun(s: State, ls: seq<Label>)
    decreases |ls|
  {
    ls == [] || (Enabled(s, ls[0]) && LegalRun(Next(s, ls[0]), ls[1..]))
  }

  function Run(s: State, ls: seq<Label>): State
    requires LegalRun(s, ls)
    decreases |ls|
  {
    if ls == [] then s else Run(Next(s, ls[0]), ls[1..])
  }
}
