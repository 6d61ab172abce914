/**
 The webhook job worker as a state machine: one sequential consumer of a queue
 that may hold anything any number of times, and a scanner for due jobs whose
 passes overlap each other and the consumer at every await.
 */
module Webhook {
  import opened Prelude
  import opened Backoff

  type JobId = nat

  const MAX_TRIES: nat := 5
  const STALE_MS: int := 300_000
  const SCAN_LIMIT: nat := 25

  datatype Status = Pending | Processing | Done | Failed

  datatype Job = Job(status: Status, attempts: nat, nextRun: Option<int>, startedAt: Option<int>)

  type Jobs = map<JobId, Job>

  /** The wait after the given number of attempts. */
  function RetryDelay(attempts: nat): int
    requires attempts >= 1
  {
    Min(60_000, 1_000 * Pow2(attempts - 1))
  }

  /** Nobody has claimed the job in the last five minutes. */
  predicate Unclaimed(j: Job, now: int) { j.startedAt.None? || j.startedAt.value < now - STALE_MS }

  /** The scanner's filter. */
  predicate Due(j: Job, now: int) {
    && j.status.Pending? && j.attempts < MAX_TRIES && j.nextRun.Some? && j.nextRun.value <= now && Unclaimed(j, now)
  }

  predicate DueIn(jobs: Jobs, id: JobId, now: int) { id in jobs && Due(jobs[id], now) }

  /** An answer to the scanner's query: the due jobs by next run, at most a page of them. */
  ghost predicate Page(jobs: Jobs, list: seq<JobId>, now: int) {
    && |list| <= SCAN_LIMIT
    && (forall i :: 0 <= i < |list| ==> DueIn(jobs, list[i], now))
    && (forall i, j :: 0 <= i < j < |list| ==>
          list[i] != list[j] && jobs[list[i]].nextRun.value <= jobs[list[j]].nextRun.value)
    && (forall id, i :: DueIn(jobs, id, now) && id !in list && 0 <= i < |list| ==>
          jobs[list[i]].nextRun.value <= jobs[id].nextRun.value)
    && (|list| < SCAN_LIMIT ==> forall id :: DueIn(jobs, id, now) ==> id in list)
  }

  // ---- the writes ----

  /** The scanner's claim finds its row still pending and unclaimed. */
  predicate ClaimHits(jobs: Jobs, id: JobId, now: int) {
    id in jobs && jobs[id].status.Pending? && Unclaimed(jobs[id], now)
  }

  /** The scanner's claim; `now` is the instant of its scan. */
  function ClaimFor(jobs: Jobs, id: JobId, now: int): Jobs {
    if ClaimHits(jobs, id, now) then jobs[id := jobs[id].(startedAt := Some(now))] else jobs
  }

  function Unclaim(jobs: Jobs, id: JobId): Jobs {
    if id in jobs then jobs[id := jobs[id].(startedAt := None)] else jobs
  }

  function Begin(jobs: Jobs, id: JobId, attempts: nat, now: int): Jobs {
    if id in jobs then jobs[id := jobs[id].(status := Processing, attempts := attempts, startedAt := Some(now))] else jobs
  }

  /** The last write of an attempt. */
  function Conclude(jobs: Jobs, id: JobId, attempts: nat, ok: bool, now: int): Jobs {
    if id !in jobs || attempts == 0 then jobs
    else if ok then jobs[id := jobs[id].(status := Done, startedAt := None)]
    else if attempts >= MAX_TRIES then jobs[id := jobs[id].(status := Failed, startedAt := None)]
    else jobs[id := jobs[id].(status := Pending, nextRun := Some(now + RetryDelay(attempts)), startedAt := None)]
  }

  // ---- the machine ----

  /** One due job of one scan, on its way into the queue. */
  datatype Ticket = ToClaim(job: JobId, scanned: int) | ToEnqueue(job: JobId) | ToRelease(job: JobId) | Settled

  datatype Consumer =
    | Idle
    | Taken(job: JobId)
    | Loaded(job: JobId, snap: Option<Job>)
    | Releasing(job: JobId)
    | Starting(job: JobId, attempts: nat)
    | Started(job: JobId, attempts: nat)
    | Finishing(job: JobId, attempts: nat, ok: bool)

  /**
   The table, the queue, the consumer and the scanner's tickets, with the history of
   reconciliations begun, of those that succeeded, and of when the last failure was written.
   */
  datatype State = State(jobs: Jobs, queue: seq<JobId>, consumer: Consumer, tickets: seq<Ticket>, clock: int,
                         runs: map<JobId, nat>, wins: map<JobId, nat>, failedAt: map<JobId, int>)

  function Count(m: map<JobId, nat>, id: JobId): nat { if id in m then m[id] else 0 }

  datatype Action =
    | Arrive(id: JobId)
    | Deliver(id: JobId)
    | Scan(list: seq<JobId>)
    | Claim(k: nat)
    | Enqueue(k: nat, ok: bool)
    | Release(k: nat)
    | Dequeue
    | Load
    | Decide
    | LetGo
    | Start
    | Reconcile(ok: bool)
    | Finish

  function Tickets(list: seq<JobId>, now: int): seq<Ticket> {
    seq(|list|, i requires 0 <= i < |list| => ToClaim(list[i], now))
  }

  /** What the consumer does with the row it has read. */
  function Verdict(id: JobId, snap: Option<Job>, now: int): Consumer {
    if snap.None? then Idle
    else
      var j := snap.value;
      if j.status.Done? || j.status.Failed? then Idle
      else if j.nextRun.Some? && j.nextRun.value > now then Releasing(id)
      else if j.status.Processing? && j.startedAt.Some? && now < j.startedAt.value + STALE_MS then Idle
      else Starting(id, j.attempts + 1)
  }

  function ClaimTicket(s: State, k: nat): State {
    if k >= |s.tickets| || !s.tickets[k].ToClaim? then s
    else
      var t := s.tickets[k];
      var next := if ClaimHits(s.jobs, t.job, t.scanned) then ToEnqueue(t.job) else Settled;
      s.(jobs := ClaimFor(s.jobs, t.job, t.scanned), tickets := s.tickets[k := next])
  }

  function EnqueueTicket(s: State, k: nat, ok: bool): State {
    if k >= |s.tickets| || !s.tickets[k].ToEnqueue? then s
    else
      var id := s.tickets[k].job;
      if ok then s.(queue := s.queue + [id], tickets := s.tickets[k := Settled])
      else s.(tickets := s.tickets[k := ToRelease(id)])
  }

  function ReleaseTicket(s: State, k: nat): State {
    if k >= |s.tickets| || !s.tickets[k].ToRelease? then s
    else s.(jobs := Unclaim(s.jobs, s.tickets[k].job), tickets := s.tickets[k := Settled])
  }

  /** One statement, at time `now`; one that is not due leaves everything alone. */
  ghost function Act(s: State, now: int, a: Action): State {
    match a
    case Arrive(id) => if id in s.jobs then s else s.(jobs := s.jobs[id := Job(Pending, 0, Some(now), None)])
    case Deliver(id) => s.(queue := s.queue + [id])
    case Scan(list) => if Page(s.jobs, list, now) then s.(tickets := s.tickets + Tickets(list, now)) else s
    case Claim(k) => ClaimTicket(s, k)
    case Enqueue(k, ok) => EnqueueTicket(s, k, ok)
    case Release(k) => ReleaseTicket(s, k)
    case Dequeue =>
      if !s.consumer.Idle? || s.queue == [] then s else s.(queue := s.queue[1..], consumer := Taken(s.queue[0]))
    case Load =>
      if !s.consumer.Taken? then s
      else
        var id := s.consumer.job;
        s.(consumer := Loaded(id, if id in s.jobs then Some(s.jobs[id]) else None))
    case Decide =>
      if !s.consumer.Loaded? then s else s.(consumer := Verdict(s.consumer.job, s.consumer.snap, now))
    case LetGo =>
      if !s.consumer.Releasing? then s else s.(jobs := Unclaim(s.jobs, s.consumer.job), consumer := Idle)
    case Start =>
      if !s.consumer.Starting? then s
      else s.(jobs := Begin(s.jobs, s.consumer.job, s.consumer.attempts, now),
              consumer := Started(s.consumer.job, s.consumer.attempts))
    case Reconcile(ok) =>
      if !s.consumer.Started? then s
      else
        var id := s.consumer.job;
        s.(runs := s.runs[id := Count(s.runs, id) + 1],
           wins := if ok then s.wins[id := Count(s.wins, id) + 1] else s.wins,
           consumer := Finishing(id, s.consumer.attempts, ok))
    case Finish =>
      if !s.consumer.Finishing? then s
      else
        var c := s.consumer;
        s.(jobs := Conclude(s.jobs, c.job, c.attempts, c.ok, now), consumer := Idle,
           failedAt := if c.ok then s.failedAt else s.failedAt[c.job := now])
  }

  datatype Event = Event(now: int, act: Action)

  ghost function Step(s: State, e: Event): State { Act(s, e.now, e.act).(clock := e.now) }

  ghost function Exec(s: State, run: seq<Event>): State
    decreases |run|
  {
    if run == [] then s else Exec(Step(s, run[0]), run[1..])
  }

  predicate Timeline(now: int, run: seq<Event>)
    decreases |run|
  {
    run == [] || (now <= run[0].now && Timeline(run[0].now, run[1..]))
  }

  function Fresh(now: int): State { State(map[], [], Idle, [], now, map[], map[], map[]) }

  // ---- the invariant ----

  /** The row of a job nobody works on. */
  predicate AtRest(j: Job, runs: nat, wins: nat) {
    && !j.status.Processing? && runs == j.attempts
    && (j.status.Pending? ==> j.attempts < MAX_TRIES && wins == 0 && j.nextRun.Some?)
    && (j.status.Failed? ==> j.attempts == MAX_TRIES && wins == 0)
    && (j.status.Done? ==> 1 <= j.attempts <= MAX_TRIES && wins == 1)
  }

  /** The row of the job in the consumer's hands. */
  predicate InHand(j: Job, c: Consumer, runs: nat, wins: nat) {
    match c
    case Started(_, n) => j.status.Processing? && 1 <= n <= MAX_TRIES && j.attempts == n && runs == n - 1 && wins == 0
    case Finishing(_, n, ok) =>
      j.status.Processing? && 1 <= n <= MAX_TRIES && j.attempts == n && runs == n && wins == if ok then 1 else 0
    case Starting(_, n) => AtRest(j, runs, wins) && j.status.Pending? && n == j.attempts + 1
    case Loaded(_, Some(snap)) =>
      AtRest(j, runs, wins) && snap.status == j.status && snap.attempts == j.attempts && snap.nextRun == j.nextRun
    case Loaded(_, None) => AtRest(j, runs, wins)
    case Idle => AtRest(j, runs, wins)
    case Taken(_) => AtRest(j, runs, wins)
    case Releasing(_) => AtRest(j, runs, wins)
  }

  predicate Holds(c: Consumer, id: JobId) { !c.Idle? && c.job == id }

  predicate Fits(s: State, id: JobId) {
    id in s.jobs && if Holds(s.consumer, id) then InHand(s.jobs[id], s.consumer, Count(s.runs, id), Count(s.wins, id))
                    else AtRest(s.jobs[id], Count(s.runs, id), Count(s.wins, id))
  }

  /** The consumer works on a job of the table. */
  predicate Grounded(s: State) {
    match s.consumer
    case Idle => true
    case Taken(_) => true
    case Loaded(id, snap) => snap.Some? ==> id in s.jobs
    case Releasing(id) => id in s.jobs
    case Starting(id, _) => id in s.jobs
    case Started(id, _) => id in s.jobs
    case Finishing(id, _, _) => id in s.jobs
  }

  predicate Untouched(s: State, id: JobId) { id in s.jobs || (Count(s.runs, id) == 0 && Count(s.wins, id) == 0) }

  ghost predicate Inv(s: State) {
    && (forall id :: id in s.jobs ==> Fits(s, id))
    && (forall id :: Untouched(s, id))
    && Grounded(s)
  }

  // ---- one step ----

  predicate ByConsumer(a: Action) {
    a.Dequeue? || a.Load? || a.Decide? || a.LetGo? || a.Start? || a.Reconcile? || a.Finish?
  }

  /** Nothing of a row differs but its claim. */
  predicate SameButClaim(before: Jobs, after: Jobs, id: JobId) {
    (id in after <==> id in before) && (id in before ==> after[id] == before[id].(startedAt := after[id].startedAt))
  }

  lemma ClaimsAreOnlyClaims(jobs: Jobs, id: JobId, now: int, other: JobId)
    ensures SameButClaim(jobs, ClaimFor(jobs, id, now), other) && SameButClaim(jobs, Unclaim(jobs, id), other)
  {
    hide Unclaimed;
  }

  predicate SameButTable(s: State, t: State) {
    t.consumer == s.consumer && t.runs == s.runs && t.wins == s.wins && t.failedAt == s.failedAt
  }

  lemma TicketsAreOnlyClaims(s: State, k: nat, ok: bool, id: JobId)
    ensures SameButTable(s, ClaimTicket(s, k)) && SameButClaim(s.jobs, ClaimTicket(s, k).jobs, id)
    ensures SameButTable(s, EnqueueTicket(s, k, ok)) && EnqueueTicket(s, k, ok).jobs == s.jobs
    ensures SameButTable(s, ReleaseTicket(s, k)) && SameButClaim(s.jobs, ReleaseTicket(s, k).jobs, id)
  {
    if k < |s.tickets| && s.tickets[k].ToClaim? {
      ClaimsAreOnlyClaims(s.jobs, s.tickets[k].job, s.tickets[k].scanned, id);
    } else if k < |s.tickets| && s.tickets[k].ToRelease? {
      ClaimsAreOnlyClaims(s.jobs, s.tickets[k].job, 0, id);
    }
    hide ClaimFor, Unclaim, ClaimHits;
  }

  /** Scanner, queue and new arrivals move nothing but claims. */
  lemma OthersMoveClaimsOnly(s: State, now: int, a: Action, id: JobId)
    requires !ByConsumer(a)
    ensures SameButTable(s, Act(s, now, a))
    ensures if a.Arrive? && a.id == id && id !in s.jobs
            then id in Act(s, now, a).jobs && Act(s, now, a).jobs[id] == Job(Pending, 0, Some(now), None)
            else SameButClaim(s.jobs, Act(s, now, a).jobs, id)
  {
    if a.Claim? || a.Enqueue? || a.Release? { TicketsAreOnlyClaims(s, a.k, a.Enqueue? && a.ok, id); }
    hide Page, Tickets, ClaimTicket, EnqueueTicket, ReleaseTicket;
  }

  lemma WritesAreLocal(jobs: Jobs, job: JobId, n: nat, ok: bool, now: int, id: JobId)
    requires id != job
    ensures id in Unclaim(jobs, job) <==> id in jobs
    ensures id in Begin(jobs, job, n, now) <==> id in jobs
    ensures id in Conclude(jobs, job, n, ok, now) <==> id in jobs
    ensures id in jobs ==> Unclaim(jobs, job)[id] == jobs[id] && Begin(jobs, job, n, now)[id] == jobs[id]
    ensures id in jobs ==> Conclude(jobs, job, n, ok, now)[id] == jobs[id]
  {
    hide RetryDelay;
  }

  /** The consumer leaves every other job alone. */
  lemma ConsumerMindsItsJob(s: State, now: int, a: Action, id: JobId)
    requires ByConsumer(a) && !Holds(s.consumer, id)
    ensures var t := Act(s, now, a);
      && (id in t.jobs <==> id in s.jobs) && (id in s.jobs ==> t.jobs[id] == s.jobs[id])
      && Count(t.runs, id) == Count(s.runs, id) && Count(t.wins, id) == Count(s.wins, id)
      && (Holds(t.consumer, id) ==> t.consumer.Taken?)
  {
    var c := s.consumer;
    if a.LetGo? && c.Releasing? { WritesAreLocal(s.jobs, c.job, 0, true, now, id); }
    if a.Start? && c.Starting? { WritesAreLocal(s.jobs, c.job, c.attempts, true, now, id); }
    if a.Finish? && c.Finishing? { WritesAreLocal(s.jobs, c.job, c.attempts, c.ok, now, id); }
    hide Unclaim, Begin, Conclude;
  }

  lemma ConsumerFits(s: State, now: int, a: Action, id: JobId)
    requires ByConsumer(a) && Fits(s, id) && Holds(s.consumer, id)
    ensures Fits(Act(s, now, a), id)
  {
    hide RetryDelay;
  }

  lemma ConsumerAddsNoJob(s: State, now: int, a: Action, id: JobId)
    requires ByConsumer(a)
    ensures id in Act(s, now, a).jobs <==> id in s.jobs
  {
    hide RetryDelay, Verdict;
  }

  /** A job that arrives may already be awaited by the consumer, but not read. */
  lemma NewcomerFits(s: State, now: int, id: JobId)
    requires Grounded(s) && id !in s.jobs && Untouched(s, id)
    ensures Fits(s.(jobs := s.jobs[id := Job(Pending, 0, Some(now), None)]), id)
  {
  }

  lemma OthersFit(s: State, now: int, a: Action, id: JobId)
    requires Grounded(s) && !ByConsumer(a) && Untouched(s, id)
    requires id in s.jobs ==> Fits(s, id)
    ensures id in Act(s, now, a).jobs ==> Fits(Act(s, now, a), id)
  {
    OthersMoveClaimsOnly(s, now, a, id);
    if id !in s.jobs { NewcomerFits(s, now, id); }
    hide Act;
  }

  lemma StepKeepsFits(s: State, now: int, a: Action, id: JobId)
    requires Inv(s) && id in Act(s, now, a).jobs
    ensures Fits(Act(s, now, a), id)
  {
    assert Untouched(s, id);
    if ByConsumer(a) {
      ConsumerAddsNoJob(s, now, a, id);
      assert Fits(s, id);
      hide Inv;
      if Holds(s.consumer, id) {
        ConsumerFits(s, now, a, id);
      } else {
        ConsumerMindsItsJob(s, now, a, id);
        hide Act;
      }
    } else {
      OthersFit(s, now, a, id);
    }
  }

  lemma StepKeepsUntouched(s: State, now: int, a: Action, id: JobId)
    requires Inv(s)
    ensures Untouched(Act(s, now, a), id)
  {
    assert Untouched(s, id);
    if !ByConsumer(a) {
      OthersMoveClaimsOnly(s, now, a, id);
      hide Act, Inv;
    } else if Holds(s.consumer, id) {
      ConsumerAddsNoJob(s, now, a, id);
      hide Inv, Verdict, Conclude, Begin, Unclaim;
    } else {
      ConsumerMindsItsJob(s, now, a, id);
      hide Act, Inv;
    }
  }

  lemma StepKeepsGrounded(s: State, now: int, a: Action)
    requires Grounded(s)
    ensures Grounded(Act(s, now, a))
  {
    if !ByConsumer(a) {
      if !s.consumer.Idle? { OthersMoveClaimsOnly(s, now, a, s.consumer.job); }
      else { OthersMoveClaimsOnly(s, now, a, 0); }
      hide Act;
    } else {
      hide RetryDelay;
    }
  }

  lemma StepKeepsInv(s: State, e: Event)
    requires Inv(s)
    ensures Inv(Step(s, e))
  {
    var t := Act(s, e.now, e.act);
    assert Inv(t) by {
      forall id | id in t.jobs ensures Fits(t, id) { StepKeepsFits(s, e.now, e.act, id); }
      forall id ensures Untouched(t, id) { StepKeepsUntouched(s, e.now, e.act, id); }
      StepKeepsGrounded(s, e.now, e.act);
      hide Act, Fits, Untouched, Grounded;
    }
    TickKeepsInv(t, e.now);
    hide Act, Inv;
  }

  /** The invariant does not look at the clock. */
  lemma TickKeepsInv(t: State, now: int)
    requires Inv(t)
    ensures Inv(t.(clock := now))
  {
    var u := t.(clock := now);
    forall id | id in u.jobs ensures Fits(u, id) { assert Fits(t, id); }
    forall id ensures Untouched(u, id) { assert Untouched(t, id); }
  }

  lemma {:induction false} RunKeepsInv(s: State, run: seq<Event>)
    requires Inv(s)
    ensures Inv(Exec(s, run))
    decreases |run|
  {
    hide Inv, Step;
    if run != [] {
      StepKeepsInv(s, run[0]);
      RunKeepsInv(Step(s, run[0]), run[1..]);
    }
  }

  // ---- the results ----

  predicate Bounded(t: State, id: JobId)
    requires id in t.jobs
  {
    var j := t.jobs[id];
    && Count(t.runs, id) <= 5 && Count(t.wins, id) <= 1
    && (j.status.Pending? ==> j.attempts < 5 && j.nextRun.Some?)
    && (j.status.Failed? ==> j.attempts == 5 && Count(t.wins, id) == 0)
    && (j.status.Done? ==> Count(t.wins, id) == 1)
    && (j.status.Processing? <==> Holds(t.consumer, id) && (t.consumer.Started? || t.consumer.Finishing?))
    && (!j.status.Processing? ==> Count(t.runs, id) == j.attempts)
  }

  lemma FitsIsBounded(t: State, id: JobId)
    requires Fits(t, id)
    ensures Bounded(t, id)
  {
  }

  /** Whatever the queue delivers and however scans overlap, attempts are counted and bounded. */
  lemma AttemptsAreBounded(now: int, run: seq<Event>, id: JobId)
    requires id in Exec(Fresh(now), run).jobs
    ensures Bounded(Exec(Fresh(now), run), id)
  {
    RunKeepsInv(Fresh(now), run);
    FitsIsBounded(Exec(Fresh(now), run), id);
    hide Exec, Inv, Bounded, Fits;
  }

  lemma ClosedStays(s: State, e: Event, id: JobId)
    requires Inv(s) && id in s.jobs && (s.jobs[id].status.Done? || s.jobs[id].status.Failed?)
    ensures SameButClaim(s.jobs, Step(s, e).jobs, id)
  {
    assert Fits(s, id);
    hide Inv;
    if !ByConsumer(e.act) {
      OthersMoveClaimsOnly(s, e.now, e.act, id);
      hide Act;
    } else if Holds(s.consumer, id) {
      hide Verdict, RetryDelay;
    } else {
      ConsumerMindsItsJob(s, e.now, e.act, id);
      hide Act;
    }
  }

  /** A job that is done or failed keeps its status and its count, whatever is still queued for it. */
  lemma {:induction false} ClosedForGood(s: State, run: seq<Event>, id: JobId)
    requires Inv(s) && id in s.jobs && (s.jobs[id].status.Done? || s.jobs[id].status.Failed?)
    ensures SameButClaim(s.jobs, Exec(s, run).jobs, id)
    decreases |run|
  {
    hide Inv, Step;
    if run != [] {
      ClosedStays(s, run[0], id);
      StepKeepsInv(s, run[0]);
      ClosedForGood(Step(s, run[0]), run[1..], id);
    }
  }

  /** With one consumer the branch that takes over a stale `processing` job, or skips a fresh one, is dead. */
  lemma NoTakeover(now: int, run: seq<Event>)
    ensures var c := Exec(Fresh(now), run).consumer; c.Loaded? && c.snap.Some? ==> !c.snap.value.status.Processing?
  {
    var t := Exec(Fresh(now), run);
    RunKeepsInv(Fresh(now), run);
    if t.consumer.Loaded? && t.consumer.snap.Some? { assert Fits(t, t.consumer.job); }
    hide Exec, Inv;
  }

  /** The due filter strands nothing: every pending job satisfies it from some instant on. */
  lemma NothingIsStranded(now: int, run: seq<Event>, id: JobId, later: int)
    requires id in Exec(Fresh(now), run).jobs && Exec(Fresh(now), run).jobs[id].status.Pending?
    ensures var j := Exec(Fresh(now), run).jobs[id];
      j.nextRun.Some?
      && (Due(j, later) <==> later >= j.nextRun.value && (j.startedAt.Some? ==> later > j.startedAt.value + 300_000))
  {
    AttemptsAreBounded(now, run, id);
    hide Exec;
  }
}
