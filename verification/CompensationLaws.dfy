/** What holds after every interleaving of any number of compensation workers. */
module CompensationLaws {
  import opened Prelude
  import opened Backoff
  import opened Compensation

  /** No worker is lost while it owns a job. */
  ghost predicate SafeRun(s: State, run: seq<Event>)
    decreases |run|
  {
    run == [] || (Safe(s, run[0].act) && SafeRun(Next(s, run[0].now, run[0].act), run[1..]))
  }

  lemma {:induction false} RunKeepsInv(s: State, run: seq<Event>)
    requires Inv(s) && SafeRun(s, run)
    ensures Inv(Exec(s, run))
    decreases |run|
  {
    hide Inv, Next, Safe;
    if run != [] {
      StepKeepsInv(s, run[0].now, run[0].act);
      RunKeepsInv(Next(s, run[0].now, run[0].act), run[1..]);
    }
  }

  lemma InitialInv(s: State)
    requires Initial(s)
    ensures Inv(s)
  {
  }

  /**
   Stale selections and interleavings never put a job into two hands, never lose
   count of an error, and never try a deletion more than ten times.
   */
  lemma WorkersShareSafely(s: State, run: seq<Event>)
    requires Initial(s) && SafeRun(s, run)
    ensures var t := Exec(s, run);
      && (forall v, w, id :: OwnedBy(t, v, id) && OwnedBy(t, w, id) ==> v == w)
      && (forall id :: id in t.jobs ==> (t.jobs[id].status.Processing? <==> Owned(t, id)))
      && (forall id :: id in t.jobs && t.jobs[id].status.Pending? ==> t.jobs[id].attempts < 10)
      && (forall id :: id in t.jobs ==> (t.jobs[id].status.Failed? <==> t.jobs[id].attempts == 10))
      && (forall id :: id in t.jobs && !t.jobs[id].status.Processing? ==> Count(t.errors, id) == t.jobs[id].attempts)
      && (forall id :: id in t.jobs ==> Count(t.tries, id) <= 10)
  {
    InitialInv(s);
    RunKeepsInv(s, run);
    var t := Exec(s, run);
    hide Next, Initial, SafeRun;
    forall id | id in t.jobs && t.jobs[id].status.Processing?
      ensures Owned(t, id) && t.jobs[id].attempts < MAX_ATTEMPTS && Count(t.tries, id) <= MAX_ATTEMPTS
    {
      var w :| OwnedBy(t, w, id);
      CountedAt(t, w, id);
    }
  }

  /** Each compare-and-set after the claim finds its row as the owner left it. */
  lemma OwnerNeverLosesTheRace(s: State, run: seq<Event>, w: WorkerId)
    requires Initial(s) && SafeRun(s, run)
    ensures var t := Exec(s, run);
      At(t, w).Owns() ==> StillMine(t.jobs, At(t, w).job) && (At(t, w).Reread? ==> t.jobs[At(t, w).job].attempts == At(t, w).seen)
  {
    InitialInv(s);
    RunKeepsInv(s, run);
    var t := Exec(s, run);
    hide Next, Initial, SafeRun;
    if At(t, w).Owns() {
      assert OwnedBy(t, w, At(t, w).job);
      CountedAt(t, w, At(t, w).job);
    }
  }

  // ---- done and failed ----

  predicate Over(s: State, id: JobId) { id in s.jobs && (s.jobs[id].status.Done? || s.jobs[id].status.Failed?) }

  lemma StepLeavesFinished(s: State, now: int, a: Action, id: JobId)
    requires Over(s, id)
    ensures id in Next(s, now, a).jobs && Next(s, now, a).jobs[id] == s.jobs[id]
  {
    hide Selection, Delay;
    match a { case Select(_, _) => case Claim(_) => case TryDelete(_, _) => case WriteDone(_, _) =>
      case ReadBack(_) => case WriteError(_, _) => case Crash(_) => }
  }

  /** From any state at all, whoever crashes, a finished job is never touched again. */
  lemma {:induction false} FinishedIsFinal(s: State, run: seq<Event>, id: JobId)
    requires Over(s, id)
    ensures id in Exec(s, run).jobs && Exec(s, run).jobs[id] == s.jobs[id]
    decreases |run|
  {
    hide Next;
    if run != [] {
      StepLeavesFinished(s, run[0].now, run[0].act, id);
      FinishedIsFinal(Next(s, run[0].now, run[0].act), run[1..], id);
    }
  }

  // ---- a lost owner ----

  /** `processing`, and nobody works on it. */
  ghost predicate Orphan(s: State, id: JobId) {
    id in s.jobs && s.jobs[id].status.Processing? && !Owned(s, id)
  }

  /** Losing a worker keeps the invariant exactly when the worker owned no job. */
  lemma LosingAnOwnerIsTheOnlyHarm(s: State, now: int, w: WorkerId)
    requires Inv(s)
    ensures Inv(Next(s, now, Crash(w))) <==> !At(s, w).Owns()
    ensures At(s, w).Owns() ==> Orphan(Next(s, now, Crash(w)), At(s, w).job)
  {
    var t := Next(s, now, Crash(w));
    if At(s, w).Owns() {
      var id := At(s, w).job;
      assert OwnedBy(s, w, id);
      forall v ensures !OwnedBy(t, v, id) { if OwnedBy(t, v, id) { assert OwnedBy(s, v, id); } }
    } else {
      StepKeepsInv(s, now, Crash(w));
    }
  }

  lemma StepLeavesOrphan(s: State, now: int, a: Action, id: JobId)
    requires Orphan(s, id)
    ensures Orphan(Next(s, now, a), id) && Next(s, now, a).jobs[id] == s.jobs[id]
  {
    var t := Next(s, now, a);
    assert forall v :: !OwnedBy(s, v, id);
    forall v ensures !OwnedBy(t, v, id) {
      if v != a.w { hide Next; OthersUntouched(s, now, a, v, id); } else { NotTakenOver(s, now, a, id); }
    }
    NotTakenOver(s, now, a, id);
    hide Next;
  }

  /** A job in `processing` cannot be claimed, nor written by a worker that does not own it. */
  lemma NotTakenOver(s: State, now: int, a: Action, id: JobId)
    requires id in s.jobs && s.jobs[id].status.Processing? && !OwnedBy(s, a.w, id)
    ensures !OwnedBy(Next(s, now, a), a.w, id)
    ensures id in Next(s, now, a).jobs && Next(s, now, a).jobs[id] == s.jobs[id]
  {
    if !Mine(At(s, a.w), id) {
      hide Next;
      OtherJobsUntouched(s, now, a, id);
    } else {
      hide Selection, Delay, MarkError;
    }
  }

  /** No run ever brings an orphan back: its meeting is not deleted and nobody is told. */
  lemma {:induction false} OrphanStaysForever(s: State, run: seq<Event>, id: JobId)
    requires Orphan(s, id)
    ensures Orphan(Exec(s, run), id) && Exec(s, run).jobs[id] == s.jobs[id]
    decreases |run|
  {
    hide Next, Orphan;
    assert id in s.jobs by { OrphanIsThere(s, id); }
    if run != [] {
      StepLeavesOrphan(s, run[0].now, run[0].act, id);
      OrphanStaysForever(Next(s, run[0].now, run[0].act), run[1..], id);
    }
  }

  lemma OrphanIsThere(s: State, id: JobId)
    requires Orphan(s, id)
    ensures id in s.jobs
  {
  }

  // ---- what the history counts ----

  /** The worker is about to delete the meeting of job `id`. */
  predicate Deletes(s: State, a: Action, id: JobId) {
    a.TryDelete? && At(s, a.w).Claimed? && At(s, a.w).job == id && id in s.jobs && s.jobs[id].meeting != None
  }

  /** The worker meets an error on job `id`: no meeting to delete, a failed deletion, or a failed last write. */
  predicate Errs(s: State, a: Action, id: JobId) {
    || (a.TryDelete? && At(s, a.w).Claimed? && At(s, a.w).job == id && !(Deletes(s, a, id) && a.ok))
    || (a.WriteDone? && At(s, a.w).Deleted? && At(s, a.w).job == id && !a.ok)
  }

  /** Every deletion tried and every error met is counted, once. */
  lemma HistoryCounts(s: State, now: int, a: Action, id: JobId)
    ensures Count(Next(s, now, a).tries, id) == Count(s.tries, id) + (if Deletes(s, a, id) then 1 else 0)
    ensures Count(Next(s, now, a).errors, id) == Count(s.errors, id) + (if Errs(s, a, id) then 1 else 0)
  {
    hide Selection, MarkError, MarkDone, MarkProcessing;
    match a { case Select(_, _) => case Claim(_) => case TryDelete(_, _) => case WriteDone(_, _) =>
      case ReadBack(_) => case WriteError(_, _) => case Crash(_) => }
  }

  // ---- which jobs a tick takes ----

  /** Pending, and with no retry time that still lies ahead. */
  predicate Ready(j: Job, now: int) { j.status == Pending && (j.nextRun == None || j.nextRun.value <= now) }

  /** The other ready jobs that are no younger than this one. */
  function ReadyBefore(jobs: Jobs, id: JobId, now: int): set<JobId>
    requires id in jobs
  {
    set o | o in jobs && o != id && Ready(jobs[o], now) && jobs[o].created <= jobs[id].created
  }

  /** The ready jobs that are older. */
  function ReadyOlder(jobs: Jobs, id: JobId, now: int): set<JobId>
    requires id in jobs
  {
    set o | o in jobs && Ready(jobs[o], now) && jobs[o].created < jobs[id].created
  }

  /** A tick takes every ready job that fewer than 20 others precede, and none that 20 older ones wait before. */
  lemma BatchIsOldest(jobs: Jobs, list: seq<JobId>, now: int, id: JobId)
    requires Selection(jobs, list, now) && id in jobs
    ensures Ready(jobs[id], now) && |ReadyBefore(jobs, id, now)| < 20 ==> id in list
    ensures id in list ==> Ready(jobs[id], now) && |ReadyOlder(jobs, id, now)| < 20
  {
    forall o | o in jobs ensures Due(jobs, o, now) <==> Ready(jobs[o], now) {}
    DistinctCount(list);
    if id in list {
      forall o | o in ReadyOlder(jobs, id, now) ensures o in list && o != id {
        var i :| 0 <= i < |list| && list[i] == id;
        assert Due(jobs, o, now);
      }
      assert ReadyOlder(jobs, id, now) <= Members(list) - {id};
      SubsetCount(ReadyOlder(jobs, id, now), Members(list) - {id});
    } else if Ready(jobs[id], now) {
      assert Due(jobs, id, now) && |list| == 20;
      forall o | o in Members(list) ensures o in ReadyBefore(jobs, id, now) {
        var i :| 0 <= i < |list| && list[i] == o;
        assert Due(jobs, list[i], now);
      }
      SubsetCount(Members(list), ReadyBefore(jobs, id, now));
    }
  }

  /** And it takes the older ones first. */
  lemma BatchInOrder(jobs: Jobs, list: seq<JobId>, now: int, i: nat, j: nat)
    requires Selection(jobs, list, now) && i < j < |list|
    ensures list[i] in jobs && list[j] in jobs && jobs[list[i]].created <= jobs[list[j]].created
  {
    assert Due(jobs, list[i], now) && Due(jobs, list[j], now);
  }
}
