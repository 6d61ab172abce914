/** The worker as it is written: one tick, one job after another, each in place. */
module CompensationTick {
  import opened Prelude
  import opened Backoff
  import opened Compensation
  import ClaimSpacing

  type Draw = r: real | 0.0 <= r < 1.0 witness 0.0

  /** What the world answers while one job is processed, and when the retry is written. */
  datatype Outcome = Outcome(deletes: bool, writes: bool, at: int, draw: Draw)

  /** The job's meeting is deleted and the success written down. */
  predicate Succeeds(job: Job, o: Outcome) { job.meeting.Some? && o.deletes && o.writes }

  /** One job, from the claim to its last write. */
  function RunJob(jobs: Jobs, id: JobId, o: Outcome): Jobs {
    if id !in jobs || !jobs[id].status.Pending? then jobs
    else if Succeeds(jobs[id], o) then MarkDone(jobs, id)
    else MarkError(jobs, id, jobs[id].attempts + 1, o.at, o.draw)
  }

  function RunAll(jobs: Jobs, list: seq<JobId>, outcomes: seq<Outcome>): Jobs
    requires |outcomes| == |list|
  {
    if list == [] then jobs else RunAll(RunJob(jobs, list[0], outcomes[0]), list[1..], outcomes[1..])
  }

  class CompensationWorker {
    var running: bool
    /** The compensation_jobs table. */
    var jobs: Jobs

    constructor (table: Jobs)
      ensures !running && jobs == table
    {
      running := false;
      jobs := table;
    }

    method OnModuleDestroy()
      modifies `running
      ensures !running
    {
      running := false;
    }

    /** `list` is the answer to the SELECT, should the tick come to it. */
    method Tick(enabled: bool, now: int, list: seq<JobId>, outcomes: seq<Outcome>)
      requires enabled && !running ==> Selection(jobs, list, now)
      requires |outcomes| == |list|
      modifies this
      ensures !enabled || old(running) ==> jobs == old(jobs) && running == old(running)
      ensures enabled && !old(running) ==> jobs == RunAll(old(jobs), list, outcomes) && !running
    {
      if !enabled || running { return; }
      running := true;
      for i := 0 to |list|
        invariant RunAll(jobs, list[i..], outcomes[i..]) == RunAll(old(jobs), list, outcomes)
      {
        assert list[i..][1..] == list[i + 1..] && outcomes[i..][1..] == outcomes[i + 1..];
        ProcessJob(list[i], outcomes[i]);
      }
      running := false;
    }

    method ProcessJob(id: JobId, o: Outcome)
      modifies `jobs
      ensures jobs == RunJob(old(jobs), id, o)
    {
      if id !in jobs || !jobs[id].status.Pending? { return; }
      jobs := MarkProcessing(jobs, id);
      if jobs[id].meeting.Some? && o.deletes && o.writes {
        if StillMine(jobs, id) { jobs := MarkDone(jobs, id); }
        return;
      }
      RetryOrFail(id, o);
    }

    method RetryOrFail(id: JobId, o: Outcome)
      modifies `jobs
      ensures jobs == if StillMine(old(jobs), id) then MarkError(old(jobs), id, old(jobs)[id].attempts + 1, o.at, o.draw)
                      else old(jobs)
    {
      if id !in jobs || !jobs[id].status.Processing? { return; }
      var seen := jobs[id].attempts;
      if StillMine(jobs, id) && jobs[id].attempts == seen {
        jobs := MarkError(jobs, id, seen + 1, o.at, o.draw);
      }
    }
  }

  // ---- what a tick achieves ----

  /** The record a batch leaves behind for one of its jobs. */
  predicate Settled(before: Job, after: Job, o: Outcome) {
    if Succeeds(before, o) then after == before.(status := Done, nextRun := None)
    else
      && after.attempts == before.attempts + 1 && after.meeting == before.meeting && after.created == before.created
      && if after.attempts >= 10 then after.status.Failed? && after.nextRun.None?
         else after.status.Pending? && after.nextRun == Some(o.at + Delay(after.attempts, o.draw))
  }

  lemma JobSettles(jobs: Jobs, id: JobId, o: Outcome)
    requires id in jobs && jobs[id].status.Pending?
    ensures RunJob(jobs, id, o).Keys == jobs.Keys && Settled(jobs[id], RunJob(jobs, id, o)[id], o)
    ensures forall other :: other in jobs && other != id ==> RunJob(jobs, id, o)[other] == jobs[other]
  {
    hide Delay;
  }

  /** Every selected job is settled once, by its own outcome, and no other job changes. */
  lemma {:induction false} TickSettlesItsBatch(jobs: Jobs, list: seq<JobId>, outcomes: seq<Outcome>)
    requires |outcomes| == |list| && ClaimSpacing.Distinct(list)
    requires forall i :: 0 <= i < |list| ==> list[i] in jobs && jobs[list[i]].status.Pending?
    ensures RunAll(jobs, list, outcomes).Keys == jobs.Keys
    ensures forall i :: 0 <= i < |list| ==> Settled(jobs[list[i]], RunAll(jobs, list, outcomes)[list[i]], outcomes[i])
    ensures forall id :: id in jobs && id !in list ==> RunAll(jobs, list, outcomes)[id] == jobs[id]
    decreases |list|
  {
    hide RunJob, Settled;
    if list != [] {
      var after := RunJob(jobs, list[0], outcomes[0]);
      JobSettles(jobs, list[0], outcomes[0]);
      TickSettlesItsBatch(after, list[1..], outcomes[1..]);
      assert list[0] !in list[1..];
      forall i | 0 <= i < |list|
        ensures Settled(jobs[list[i]], RunAll(jobs, list, outcomes)[list[i]], outcomes[i])
      {
        if i > 0 { assert list[i] == list[1..][i - 1]; }
      }
    }
  }

  // ---- a tick is one of the machine's runs ----

  /** The statements of one job, nobody in between; those that do not apply do nothing. */
  function JobRun(w: WorkerId, o: Outcome): seq<Event> {
    [Event(o.at, Claim(w)), Event(o.at, TryDelete(w, o.deletes)), Event(o.at, WriteDone(w, o.writes)),
     Event(o.at, ReadBack(w)), Event(o.at, WriteError(w, o.draw))]
  }

  /** One job after another, and the end of the tick. */
  function BatchRun(w: WorkerId, outcomes: seq<Outcome>, end: int): seq<Event> {
    if outcomes == [] then [Event(end, Claim(w))] else JobRun(w, outcomes[0]) + BatchRun(w, outcomes[1..], end)
  }

  lemma ClaimAndDelete(s: State, w: WorkerId, o: Outcome)
    requires At(s, w).Queue? && At(s, w).list != []
    ensures var id := At(s, w).list[0];
            var rest := At(s, w).list[1..];
            var t := Next(Next(s, o.at, Claim(w)), o.at, TryDelete(w, o.deletes));
      if id in s.jobs && s.jobs[id].status.Pending? then
        t.jobs == MarkProcessing(s.jobs, id)
        && At(t, w) == if s.jobs[id].meeting.Some? && o.deletes then Deleted(id, rest) else Erred(id, rest)
      else t.jobs == s.jobs && At(t, w) == Queue(rest)
  {
    hide Selection, MarkDone, MarkError;
  }

  lemma WriteDown(s: State, w: WorkerId, o: Outcome)
    requires At(s, w).Deleted? || At(s, w).Erred?
    requires StillMine(s.jobs, At(s, w).job)
    ensures var t := Next(Next(Next(s, o.at, WriteDone(w, o.writes)), o.at, ReadBack(w)), o.at, WriteError(w, o.draw));
      && At(t, w) == Queue(At(s, w).rest)
      && t.jobs == if At(s, w).Deleted? && o.writes then MarkDone(s.jobs, At(s, w).job)
                   else MarkError(s.jobs, At(s, w).job, s.jobs[At(s, w).job].attempts + 1, o.at, o.draw)
  {
    hide Selection, Delay;
  }

  lemma UnclaimedDoesNothing(s: State, w: WorkerId, o: Outcome)
    requires At(s, w).Queue?
    ensures Next(Next(Next(s, o.at, WriteDone(w, o.writes)), o.at, ReadBack(w)), o.at, WriteError(w, o.draw)) == s
  {
    hide Selection, Delay;
  }

  lemma FiveSteps(s: State, w: WorkerId, o: Outcome)
    ensures Exec(s, JobRun(w, o)) ==
      Next(Next(Next(Next(Next(s, o.at, Claim(w)), o.at, TryDelete(w, o.deletes)), o.at, WriteDone(w, o.writes)),
                o.at, ReadBack(w)), o.at, WriteError(w, o.draw))
  {
    hide Next;
    var run := JobRun(w, o);
    assert run[..0] == [] && run[..5] == run;
    ClaimSpacing.BeforeNext(s, run, 0);
    ClaimSpacing.BeforeNext(s, run, 1);
    ClaimSpacing.BeforeNext(s, run, 2);
    ClaimSpacing.BeforeNext(s, run, 3);
    ClaimSpacing.BeforeNext(s, run, 4);
  }

  /** The final write covers up the claim. */
  lemma Overwritten(jobs: Jobs, id: JobId, o: Outcome)
    requires id in jobs && jobs[id].status.Pending?
    ensures var mine := MarkProcessing(jobs, id);
      && StillMine(mine, id) && mine[id].meeting == jobs[id].meeting
      && RunJob(jobs, id, o) == if Succeeds(jobs[id], o) then MarkDone(mine, id)
                                else MarkError(mine, id, mine[id].attempts + 1, o.at, o.draw)
  {
    hide Delay;
  }

  lemma JobIsARun(s: State, w: WorkerId, o: Outcome)
    requires At(s, w).Queue? && At(s, w).list != []
    ensures Exec(s, JobRun(w, o)).jobs == RunJob(s.jobs, At(s, w).list[0], o)
    ensures At(Exec(s, JobRun(w, o)), w) == Queue(At(s, w).list[1..])
  {
    var id := At(s, w).list[0];
    var t := Next(Next(s, o.at, Claim(w)), o.at, TryDelete(w, o.deletes));
    FiveSteps(s, w, o);
    ClaimAndDelete(s, w, o);
    hide Next, Delay, Exec, At, JobRun, Base;
    if id in s.jobs && s.jobs[id].status.Pending? {
      WriteDown(t, w, o);
      Overwritten(s.jobs, id, o);
      hide MarkProcessing, MarkDone, MarkError;
    } else {
      UnclaimedDoesNothing(t, w, o);
    }
  }

  /** The tick, done in one go, is one of the interleavings of the machine, and leaves its worker idle. */
  lemma {:induction false} BatchIsARun(s: State, w: WorkerId, outcomes: seq<Outcome>, end: int)
    requires At(s, w).Queue? && |At(s, w).list| == |outcomes|
    ensures Exec(s, BatchRun(w, outcomes, end)).jobs == RunAll(s.jobs, At(s, w).list, outcomes)
    ensures At(Exec(s, BatchRun(w, outcomes, end)), w).Idle?
    decreases |outcomes|
  {
    if outcomes != [] {
      hide Next, At, JobRun, RunJob;
      var t := Exec(s, JobRun(w, outcomes[0]));
      JobIsARun(s, w, outcomes[0]);
      BatchIsARun(t, w, outcomes[1..], end);
      ClaimSpacing.ExecOver(s, JobRun(w, outcomes[0]), BatchRun(w, outcomes[1..], end));
    } else {
      TickEnds(s, w, end);
    }
  }

  lemma TickEnds(s: State, w: WorkerId, end: int)
    requires At(s, w) == Queue([])
    ensures Exec(s, [Event(end, Claim(w))]).jobs == s.jobs && At(Exec(s, [Event(end, Claim(w))]), w).Idle?
  {
    hide Selection;
    assert Exec(s, [Event(end, Claim(w))]) == Exec(Next(s, end, Claim(w)), []);
  }
}
