/**
 The compensation worker as a protocol. Any number of workers run tick over one
 table and may interleave at every statement; the lists they selected may be
 out of date by the time they use them.
 */
module Compensation {
  import opened Prelude
  import opened Backoff

  type JobId = nat
  type WorkerId = nat

  const MAX_BATCH: nat := 20
  const MAX_ATTEMPTS: nat := 10

  datatype Status = Pending | Processing | Done | Failed

  /** `meeting` is the meeting a supported reason and payload name. */
  datatype Job = Job(status: Status, attempts: nat, nextRun: Option<int>, created: int, meeting: Option<string>)

  type Jobs = map<JobId, Job>

  predicate Due(jobs: Jobs, id: JobId, now: int) {
    && id in jobs && jobs[id].status.Pending?
    && (jobs[id].nextRun.None? || jobs[id].nextRun.value <= now)
  }

  /** An answer to the SELECT: due jobs, oldest first, at most a batch, none older left out. */
  ghost predicate Selection(jobs: Jobs, list: seq<JobId>, now: int) {
    && |list| <= MAX_BATCH
    && (forall i :: 0 <= i < |list| ==> Due(jobs, list[i], now))
    && (forall i, j :: 0 <= i < j < |list| ==> list[i] != list[j] && jobs[list[i]].created <= jobs[list[j]].created)
    && (forall id, i :: Due(jobs, id, now) && id !in list && 0 <= i < |list| ==> jobs[list[i]].created <= jobs[id].created)
    && (|list| < MAX_BATCH ==> forall id :: Due(jobs, id, now) ==> id in list)
  }

  // ---- the statements ----

  function MarkProcessing(jobs: Jobs, id: JobId): Jobs
    requires id in jobs
  {
    jobs[id := jobs[id].(status := Processing)]
  }

  function MarkDone(jobs: Jobs, id: JobId): Jobs
    requires id in jobs
  {
    jobs[id := jobs[id].(status := Done, nextRun := None)]
  }

  /** The retry write: failed for good at the tenth error, otherwise pending with a delay. */
  function MarkError(jobs: Jobs, id: JobId, attempts: nat, now: int, draw: real): Jobs
    requires id in jobs && 0.0 <= draw < 1.0
  {
    if attempts >= MAX_ATTEMPTS then jobs[id := jobs[id].(status := Failed, attempts := attempts, nextRun := None)]
    else jobs[id := jobs[id].(status := Pending, attempts := attempts, nextRun := Some(now + Delay(attempts, draw)))]
  }

  /** The compare-and-set of the final writes. */
  predicate StillMine(jobs: Jobs, id: JobId) { id in jobs && jobs[id].status.Processing? }

  // ---- the machine ----

  datatype Pc =
    | Idle
    | Queue(list: seq<JobId>)
    | Claimed(job: JobId, rest: seq<JobId>)
    | Deleted(job: JobId, rest: seq<JobId>)
    | Erred(job: JobId, rest: seq<JobId>)
    | Reread(job: JobId, seen: nat, rest: seq<JobId>)
  {
    predicate Owns() { !Idle? && !Queue? }
  }

  /** The table and the workers, with the history of deletions tried and errors met. */
  datatype State = State(jobs: Jobs, pcs: map<WorkerId, Pc>, tries: map<JobId, nat>, errors: map<JobId, nat>)

  function At(s: State, w: WorkerId): Pc { if w in s.pcs then s.pcs[w] else Idle }

  function Count(m: map<JobId, nat>, id: JobId): nat { if id in m then m[id] else 0 }

  function Goto(s: State, w: WorkerId, pc: Pc): State { s.(pcs := s.pcs[w := pc]) }

  datatype Action =
    | Select(w: WorkerId, list: seq<JobId>)
    | Claim(w: WorkerId)
    | TryDelete(w: WorkerId, ok: bool)
    | WriteDone(w: WorkerId, ok: bool)
    | ReadBack(w: WorkerId)
    | WriteError(w: WorkerId, draw: real)
    | Crash(w: WorkerId)

  function Err(s: State, w: WorkerId, job: JobId, rest: seq<JobId>): State {
    Goto(s, w, Erred(job, rest)).(errors := s.errors[job := Count(s.errors, job) + 1])
  }

  function Tried(s: State, job: JobId): State { s.(tries := s.tries[job := Count(s.tries, job) + 1]) }

  /** One statement of one worker at time `now`; a statement that is not due leaves everything alone. */
  ghost function Next(s: State, now: int, a: Action): State {
    var pc := At(s, a.w);
    match a
    case Select(w, list) => if pc.Idle? && Selection(s.jobs, list, now) then Goto(s, w, Queue(list)) else s
    case Claim(w) =>
      if !pc.Queue? then s
      else if pc.list == [] then Goto(s, w, Idle)
      else if pc.list[0] in s.jobs && s.jobs[pc.list[0]].status.Pending? then
        Goto(s, w, Claimed(pc.list[0], pc.list[1..])).(jobs := MarkProcessing(s.jobs, pc.list[0]))
      else Goto(s, w, Queue(pc.list[1..]))
    case TryDelete(w, ok) =>
      if !pc.Claimed? then s
      else if pc.job !in s.jobs || s.jobs[pc.job].meeting.None? then Err(s, w, pc.job, pc.rest)
      else if ok then Goto(Tried(s, pc.job), w, Deleted(pc.job, pc.rest))
      else Err(Tried(s, pc.job), w, pc.job, pc.rest)
    case WriteDone(w, ok) =>
      if !pc.Deleted? then s
      else if !ok then Err(s, w, pc.job, pc.rest)
      else if StillMine(s.jobs, pc.job) then Goto(s, w, Queue(pc.rest)).(jobs := MarkDone(s.jobs, pc.job))
      else Goto(s, w, Queue(pc.rest))
    case ReadBack(w) =>
      if !pc.Erred? then s
      else if StillMine(s.jobs, pc.job) then Goto(s, w, Reread(pc.job, s.jobs[pc.job].attempts, pc.rest))
      else Goto(s, w, Queue(pc.rest))
    case WriteError(w, draw) =>
      if !pc.Reread? || !(0.0 <= draw < 1.0) then s
      else if StillMine(s.jobs, pc.job) && s.jobs[pc.job].attempts == pc.seen then
        Goto(s, w, Queue(pc.rest)).(jobs := MarkError(s.jobs, pc.job, pc.seen + 1, now, draw))
      else Goto(s, w, Queue(pc.rest))
    case Crash(w) => s.(pcs := s.pcs - {w})
  }

  datatype Event = Event(now: int, act: Action)

  ghost function Exec(s: State, run: seq<Event>): State
    decreases |run|
  {
    if run == [] then s else Exec(Next(s, run[0].now, run[0].act), run[1..])
  }

  /** New jobs and no worker at work. */
  ghost predicate Initial(s: State) {
    && (forall id :: id in s.jobs ==> s.jobs[id].status.Pending? && s.jobs[id].attempts == 0 && s.jobs[id].nextRun.None?)
    && s.pcs == map[] && s.tries == map[] && s.errors == map[]
  }

  predicate OwnedBy(s: State, w: WorkerId, id: JobId) { w in s.pcs && s.pcs[w].Owns() && s.pcs[w].job == id }

  ghost predicate Owned(s: State, id: JobId) { exists w :: OwnedBy(s, w, id) }

  /** The worker has met an error on the job and not yet written it down. */
  predicate Erring(pc: Pc) { pc.Erred? || pc.Reread? }

  // ---- the invariant ----

  /** Two workers never work on the same job; a job is `processing` exactly while somebody works on it. */
  ghost predicate OneOwner(s: State) {
    && (forall v, w, id :: OwnedBy(s, v, id) && OwnedBy(s, w, id) ==> v == w)
    && (forall w, id :: OwnedBy(s, w, id) ==> id in s.jobs && s.jobs[id].status.Processing?)
    && (forall id :: id in s.jobs && s.jobs[id].status.Processing? ==> Owned(s, id))
  }

  /** What the counters of an idle job say. */
  predicate RestingJob(j: Job, tries: nat, errors: nat) {
    && errors == j.attempts && (j.status.Failed? <==> j.attempts == MAX_ATTEMPTS) && j.attempts <= MAX_ATTEMPTS
    && tries <= j.attempts + (if j.status.Done? then 1 else 0)
  }

  /** What they say of a job in its owner's hands. */
  predicate BusyJob(j: Job, pc: Pc, tries: nat, errors: nat) {
    && j.attempts < MAX_ATTEMPTS
    && errors == j.attempts + (if Erring(pc) then 1 else 0)
    && tries <= j.attempts + (if pc.Claimed? then 0 else 1)
    && (pc.Reread? ==> pc.seen == j.attempts)
  }

  ghost predicate Counted(s: State) {
    && (forall id :: id in s.jobs && !s.jobs[id].status.Processing?
          ==> RestingJob(s.jobs[id], Count(s.tries, id), Count(s.errors, id)))
    && (forall w, id :: OwnedBy(s, w, id) && id in s.jobs
          ==> BusyJob(s.jobs[id], s.pcs[w], Count(s.tries, id), Count(s.errors, id)))
  }

  ghost predicate Inv(s: State) { OneOwner(s) && Counted(s) }

  /** No worker crashes while it owns a job. */
  ghost predicate Safe(s: State, a: Action) { a.Crash? ==> !At(s, a.w).Owns() }

  // ---- what one statement can do ----

  /** A statement touches its own worker only. */
  lemma OthersUntouched(s: State, now: int, a: Action, v: WorkerId, id: JobId)
    requires v != a.w
    ensures OwnedBy(Next(s, now, a), v, id) <==> OwnedBy(s, v, id)
    ensures OwnedBy(s, v, id) ==> Next(s, now, a).pcs[v] == s.pcs[v]
  {
  }

  /** The job a worker that owns one has, or the one its next claim is for. */
  predicate Mine(pc: Pc, id: JobId) {
    if pc.Owns() then pc.job == id else pc.Queue? && pc.list != [] && pc.list[0] == id
  }

  /** Everything said about the other jobs stays as it was. */
  lemma OtherJobsUntouched(s: State, now: int, a: Action, id: JobId)
    requires !Mine(At(s, a.w), id)
    ensures id in Next(s, now, a).jobs <==> id in s.jobs
    ensures id in s.jobs ==> Next(s, now, a).jobs[id] == s.jobs[id]
    ensures Count(Next(s, now, a).tries, id) == Count(s.tries, id)
    ensures Count(Next(s, now, a).errors, id) == Count(s.errors, id)
    ensures !OwnedBy(Next(s, now, a), a.w, id)
  {
    hide Selection, MarkError;
    match a {
      case Select(_, _) =>
      case Claim(_) =>
      case TryDelete(_, _) =>
      case WriteDone(_, _) =>
      case ReadBack(_) =>
      case WriteError(w, draw) => RetryLeavesOthers(s.jobs, At(s, w), now, draw, id);
      case Crash(_) =>
    }
  }

  lemma RetryLeavesOthers(jobs: Jobs, pc: Pc, now: int, draw: real, id: JobId)
    ensures pc.Reread? && pc.job in jobs && pc.job != id && 0.0 <= draw < 1.0 ==>
      var after := MarkError(jobs, pc.job, pc.seen + 1, now, draw);
      (id in after <==> id in jobs) && (id in jobs ==> after[id] == jobs[id])
  {
    hide Delay;
  }

  /** After a statement, the job is either in this worker's hands or at rest, and its counters agree. */
  ghost predicate InHandOrAtRest(s: State, w: WorkerId, id: JobId) {
    && id in s.jobs
    && if OwnedBy(s, w, id) then
         s.jobs[id].status.Processing? && BusyJob(s.jobs[id], s.pcs[w], Count(s.tries, id), Count(s.errors, id))
       else
         !s.jobs[id].status.Processing? && RestingJob(s.jobs[id], Count(s.tries, id), Count(s.errors, id))
  }

  lemma OwnerDeletes(s: State, now: int, a: Action, id: JobId)
    requires Inv(s) && OwnedBy(s, a.w, id) && a.TryDelete?
    ensures InHandOrAtRest(Next(s, now, a), a.w, id)
  {
    assert BusyJob(s.jobs[id], s.pcs[a.w], Count(s.tries, id), Count(s.errors, id));
    assert s.jobs[id].status.Processing?;
    hide OneOwner, Counted, Owned, Selection, Delay, Inv, MarkDone, MarkError;
    assert Next(s, now, a).jobs == s.jobs;
  }

  lemma OwnerFinishes(s: State, now: int, a: Action, id: JobId)
    requires Inv(s) && OwnedBy(s, a.w, id) && a.WriteDone?
    ensures InHandOrAtRest(Next(s, now, a), a.w, id)
  {
    assert BusyJob(s.jobs[id], s.pcs[a.w], Count(s.tries, id), Count(s.errors, id));
    assert s.jobs[id].status.Processing?;
    hide OneOwner, Counted, Owned, Selection, Delay, Inv, MarkError;
    assert Next(s, now, a).tries == s.tries;
  }

  lemma OwnerMoves(s: State, now: int, a: Action, id: JobId)
    requires Inv(s) && Safe(s, a) && OwnedBy(s, a.w, id)
    ensures InHandOrAtRest(Next(s, now, a), a.w, id)
  {
    if a.TryDelete? {
      OwnerDeletes(s, now, a, id);
    } else if a.WriteDone? {
      OwnerFinishes(s, now, a, id);
    } else {
      assert BusyJob(s.jobs[id], s.pcs[a.w], Count(s.tries, id), Count(s.errors, id));
      assert s.jobs[id].status.Processing?;
      hide OneOwner, Counted, Owned, Selection, Delay;
    }
  }

  lemma ClaimMoves(s: State, now: int, a: Action, id: JobId)
    requires Inv(s) && !At(s, a.w).Owns() && Mine(At(s, a.w), id) && id in s.jobs
    ensures s.jobs[id].status.Pending? ==> InHandOrAtRest(Next(s, now, a), a.w, id)
    ensures !s.jobs[id].status.Pending? ==> !OwnedBy(Next(s, now, a), a.w, id)
    ensures !s.jobs[id].status.Pending? ==> id in Next(s, now, a).jobs && Next(s, now, a).jobs[id] == s.jobs[id]
    ensures !s.jobs[id].status.Pending? ==> Count(Next(s, now, a).tries, id) == Count(s.tries, id)
    ensures !s.jobs[id].status.Pending? ==> Count(Next(s, now, a).errors, id) == Count(s.errors, id)
  {
    assert !s.jobs[id].status.Processing? ==> RestingJob(s.jobs[id], Count(s.tries, id), Count(s.errors, id));
    hide OneOwner, Counted, Owned, Selection, Delay;
    match a { case Select(_, _) => case Claim(_) => case TryDelete(_, _) => case WriteDone(_, _) =>
      case ReadBack(_) => case WriteError(_, _) => case Crash(_) => }
  }

  // ---- the invariant is kept ----

  lemma OwnerSound(s: State, now: int, a: Action, v: WorkerId, id: JobId)
    requires Inv(s) && Safe(s, a) && OwnedBy(Next(s, now, a), v, id)
    ensures id in Next(s, now, a).jobs && Next(s, now, a).jobs[id].status.Processing?
    ensures BusyJob(Next(s, now, a).jobs[id], Next(s, now, a).pcs[v],
                    Count(Next(s, now, a).tries, id), Count(Next(s, now, a).errors, id))
    ensures v != a.w ==> !OwnedBy(Next(s, now, a), a.w, id)
  {
    hide Next, Counted, BusyJob, Safe;
    if v == a.w {
      if !Mine(At(s, a.w), id) {
        OtherJobsUntouched(s, now, a, id);
      } else if OwnedBy(s, a.w, id) {
        OwnerMoves(s, now, a, id);
      } else {
        ClaimHead(s, now, a, id);
        ClaimMoves(s, now, a, id);
      }
    } else {
      OthersUntouched(s, now, a, v, id);
      assert BusyJob(s.jobs[id], s.pcs[v], Count(s.tries, id), Count(s.errors, id)) by { CountedAt(s, v, id); }
      assert !OwnedBy(s, a.w, id);
      if Mine(At(s, a.w), id) { ClaimMoves(s, now, a, id); } else { OtherJobsUntouched(s, now, a, id); }
    }
  }

  lemma CountedAt(s: State, w: WorkerId, id: JobId)
    requires Inv(s) && OwnedBy(s, w, id)
    ensures BusyJob(s.jobs[id], s.pcs[w], Count(s.tries, id), Count(s.errors, id))
  {
  }

  /** Only a job of the table can be claimed. */
  lemma ClaimHead(s: State, now: int, a: Action, id: JobId)
    requires !At(s, a.w).Owns() && OwnedBy(Next(s, now, a), a.w, id)
    ensures id in s.jobs
  {
    hide Selection;
  }

  lemma JobSound(s: State, now: int, a: Action, id: JobId)
    requires Inv(s) && Safe(s, a) && id in Next(s, now, a).jobs
    ensures Next(s, now, a).jobs[id].status.Processing? ==> Owned(Next(s, now, a), id)
    ensures !Next(s, now, a).jobs[id].status.Processing? ==>
      RestingJob(Next(s, now, a).jobs[id], Count(Next(s, now, a).tries, id), Count(Next(s, now, a).errors, id))
  {
    hide Next, Safe, BusyJob, RestingJob;
    if OwnedBy(s, a.w, id) {
      OwnerMoves(s, now, a, id);
    } else if Mine(At(s, a.w), id) && id in s.jobs && s.jobs[id].status.Pending? {
      ClaimMoves(s, now, a, id);
    } else {
      if Mine(At(s, a.w), id) && id in s.jobs { ClaimMoves(s, now, a, id); }
      else if !Mine(At(s, a.w), id) { OtherJobsUntouched(s, now, a, id); }
      else { NoNewJobs(s, now, a, id); }
      if s.jobs[id].status.Processing? {
        var v :| OwnedBy(s, v, id);
        OthersUntouched(s, now, a, v, id);
      }
    }
  }

  /** The worker never adds a job to the table. */
  lemma NoNewJobs(s: State, now: int, a: Action, id: JobId)
    ensures id in Next(s, now, a).jobs <==> id in s.jobs
  {
    hide Selection;
  }

  lemma StepKeepsInv(s: State, now: int, a: Action)
    requires Inv(s) && Safe(s, a)
    ensures Inv(Next(s, now, a))
  {
    hide Next, Safe, BusyJob, RestingJob, Count;
    var t := Next(s, now, a);
    forall v, id | OwnedBy(t, v, id)
      ensures id in t.jobs && t.jobs[id].status.Processing?
      ensures BusyJob(t.jobs[id], t.pcs[v], Count(t.tries, id), Count(t.errors, id))
    { OwnerSound(s, now, a, v, id); }
    forall u, v, id | OwnedBy(t, u, id) && OwnedBy(t, v, id) ensures u == v {
      OwnerSound(s, now, a, u, id);
      OwnerSound(s, now, a, v, id);
      if u != a.w && v != a.w {
        OthersUntouched(s, now, a, u, id);
        OthersUntouched(s, now, a, v, id);
      }
    }
    forall id | id in t.jobs
      ensures t.jobs[id].status.Processing? ==> Owned(t, id)
      ensures !t.jobs[id].status.Processing? ==> RestingJob(t.jobs[id], Count(t.tries, id), Count(t.errors, id))
    { JobSound(s, now, a, id); }
  }
}
