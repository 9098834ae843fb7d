/** One job goes all the way round: armed, reported to PollJob, queued, run by a worker, and
    armed again. */
module JobRounds {
  import opened OneShotJobs

  /** Exactly these labels lead from s to the end. */
  ghost predicate Leads(s: State, ls: seq<Label>, end: State) {
    LegalRun(s, ls) && Run(s, ls) == end
  }

  lemma Here(s: State)
    ensures Leads(s, [], s)
  {
  }

  lemma First(s: State, l: Label, ls: seq<Label>, end: State)
    requires Enabled(s, l) && Leads(Next(s, l), ls, end)
    ensures Leads(s, [l] + ls, end)
  {
    assert ([l] + ls)[1..] == ls;
  }

  /** The worker runs PollJob, which gets this one event. */
  function Polling(w: nat, job: Job): seq<Label> {
    [Take(w)] + ([Wait(w, [job])] + ([AddEvent(w)] + [ReAdd(w)]))
  }

  /** Then it takes the job and runs it to its re-arming. */
  function Serving(w: nat): seq<Label> {
    [Take(w)] + ([Executed(w, true)] + [Rearm(w)])
  }

  function Polled(s: State, w: nat, job: Job): State {
    s.(armed := s.armed - {job}, queue := [job, Poll], log := s.log + [ExecuteBegins(Poll, w)] + [Leaves(Poll, w)])
  }

  lemma PollsAlone(s: State, w: nat, job: Job)
    requires w < |s.workers| && s.workers[w] == Free && s.queue == [Poll] && job in s.armed && job != Poll
    ensures Leads(s, Polling(w, job), Polled(s, w, job))
  {
    var end := Polled(s, w, job);
    var s1 := s.(queue := [], log := s.log + [ExecuteBegins(Poll, w)]).To(w, Executing(Poll));
    var s2 := s1.(armed := s.armed - {job}).To(w, Adding([job]));
    var s3 := s2.(queue := [job]).To(w, Adding([]));
    assert s3.workers[w := Free] == s.workers;
    assert Next(s3, ReAdd(w)) == end;
    Here(end);
    First(s3, ReAdd(w), [], end);
    assert [ReAdd(w)] + [] == [ReAdd(w)];
    assert [job][1..] == [] && [] + [job] == [job];
    assert Next(s2, AddEvent(w)) == s3;
    First(s2, AddEvent(w), [ReAdd(w)], end);
    assert (set e | e in [job]) == {job};
    assert Next(s1, Wait(w, [job])) == s2;
    First(s1, Wait(w, [job]), [AddEvent(w)] + [ReAdd(w)], end);
    assert [Poll][1..] == [];
    assert Next(s, Take(w)) == s1;
    First(s, Take(w), [Wait(w, [job])] + ([AddEvent(w)] + [ReAdd(w)]), end);
  }

  function Served(s: State, w: nat, job: Job): State {
    s.(armed := s.armed + {job}, queue := [Poll],
       log := s.log + [ExecuteBegins(job, w)] + [CompleteBegins(job, w)] + [Leaves(job, w)])
  }

  lemma ServesAlone(s: State, w: nat, job: Job)
    requires w < |s.workers| && s.workers[w] == Free && s.queue == [job, Poll] && job != Poll
    ensures Leads(s, Serving(w), Served(s, w, job))
  {
    var end := Served(s, w, job);
    var s1 := s.(queue := [Poll], log := s.log + [ExecuteBegins(job, w)]).To(w, Executing(job));
    var s2 := s1.(log := s1.log + [CompleteBegins(job, w)]).To(w, Completing(job));
    assert s2.workers[w := Free] == s.workers;
    assert Next(s2, Rearm(w)) == end;
    Here(end);
    First(s2, Rearm(w), [], end);
    assert [Rearm(w)] + [] == [Rearm(w)];
    assert s1.workers[w := Completing(job)] == s2.workers;
    assert Next(s1, Executed(w, true)) == s2;
    First(s1, Executed(w, true), [Rearm(w)], end);
    assert [job, Poll][1..] == [Poll];
    assert Next(s, Take(w)) == s1;
    First(s, Take(w), [Executed(w, true)] + [Rearm(w)], end);
  }

  lemma {:induction false} ThenOn(s: State, ls: seq<Label>, mid: State, ms: seq<Label>, end: State)
    requires Leads(s, ls, mid) && Leads(mid, ms, end)
    ensures Leads(s, ls + ms, end)
    decreases |ls|
  {
    if ls == [] {
      assert ls + ms == ms;
    } else {
      ThenOn(Next(s, ls[0]), ls[1..], mid, ms, end);
      First(s, ls[0], ls[1..] + ms, end);
      assert [ls[0]] + (ls[1..] + ms) == ls + ms;
    }
  }

  /** A worker and PollJob bring an armed job all the way round: everything is as before, but
      the job had its turn, Execute and Complete, and PollJob its own. */
  lemma RoundOfOneJob(s: State, w: nat, job: Job)
    requires w < |s.workers| && s.workers[w] == Free && s.queue == [Poll] && job in s.armed && job != Poll
    ensures Leads(s, Polling(w, job) + Serving(w),
                  s.(log := s.log + [ExecuteBegins(Poll, w)] + [Leaves(Poll, w)]
                            + [ExecuteBegins(job, w)] + [CompleteBegins(job, w)] + [Leaves(job, w)]))
  {
    PollsAlone(s, w, job);
    ServesAlone(Polled(s, w, job), w, job);
    assert s.armed - {job} + {job} == s.armed;
    ThenOn(s, Polling(w, job), Polled(s, w, job), Serving(w), Served(Polled(s, w, job), w, job));
  }

  /** While a worker runs AcceptJob, every client it accepts gets its event armed. */
  lemma AcceptedIsArmed(s: State, w: nat)
    requires w < |s.workers| && s.workers[w] == Executing(Accept)
    ensures Enabled(s, Register(w))
    ensures Next(s, Register(w)) == s.(armed := s.armed + {Recv(s.accepted)}, accepted := s.accepted + 1)
    ensures Enabled(Next(s, Register(w)), Executed(w, true))
  {
  }
}
