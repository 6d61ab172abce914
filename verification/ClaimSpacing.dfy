/** How far apart the claims of one job are when a single process runs the worker. */
module ClaimSpacing {
  import opened Prelude
  import opened Backoff
  import opened Compensation

  /** The jobs still waiting in a worker's list. */
  function Waiting(pc: Pc): seq<JobId> {
    match pc
    case Idle => []
    case Queue(list) => list
    case Claimed(_, rest) => rest
    case Deleted(_, rest) => rest
    case Erred(_, rest) => rest
    case Reread(_, _, rest) => rest
  }

  predicate Distinct(list: seq<JobId>) { forall i, j :: 0 <= i < j < |list| ==> list[i] != list[j] }

  /** A list holds a job at most once, and never the one being worked on. */
  predicate LinedUp(pc: Pc) { Distinct(Waiting(pc)) && (pc.Owns() ==> pc.job !in Waiting(pc)) }

  lemma StepKeepsLinedUp(s: State, now: int, a: Action)
    requires LinedUp(At(s, a.w))
    ensures LinedUp(At(Next(s, now, a), a.w))
  {
    hide MarkError, MarkDone;
  }

  /** This statement claims the job. */
  predicate Claims(s: State, a: Action, id: JobId) {
    && a.Claim? && At(s, a.w).Queue? && At(s, a.w).list != [] && At(s, a.w).list[0] == id
    && id in s.jobs && s.jobs[id].status.Pending?
  }

  /**
   The job was claimed at `since`. Should it be pending again, its next run lies the backoff
   later, and it stands in the worker's list only once that time has come.
   */
  predicate HeldBack(s: State, w: WorkerId, id: JobId, since: int, now: int) {
    && LinedUp(At(s, w))
    && id in s.jobs
    && (s.jobs[id].status.Pending? ==>
          && s.jobs[id].nextRun.Some?
          && s.jobs[id].nextRun.value >= since + Base(s.jobs[id].attempts)
          && (id in Waiting(At(s, w)) ==> s.jobs[id].nextRun.value <= now))
    && (At(s, w).Owns() && At(s, w).job == id ==> !s.jobs[id].status.Pending?)
  }

  lemma ClaimHoldsBack(s: State, now: int, a: Action, id: JobId)
    requires LinedUp(At(s, a.w)) && Claims(s, a, id)
    ensures HeldBack(Next(s, now, a), a.w, id, now, now)
  {
  }

  lemma SelectHoldsBack(s: State, before: int, now: int, a: Action, id: JobId, since: int)
    requires a.Select? && HeldBack(s, a.w, id, since, before) && before <= now
    ensures HeldBack(Next(s, now, a), a.w, id, since, now)
  {
    hide Base;
  }

  lemma RetryHoldsBack(s: State, before: int, now: int, a: Action, id: JobId, since: int)
    requires a.WriteError? && HeldBack(s, a.w, id, since, before) && since <= before <= now
    ensures HeldBack(Next(s, now, a), a.w, id, since, now)
  {
    var pc := At(s, a.w);
    if pc.Reread? && 0.0 <= a.draw < 1.0 { DelayInRange(pc.seen + 1, a.draw); }
    hide Base, Delay;
  }

  lemma ClaimsInTurn(s: State, before: int, now: int, a: Action, id: JobId, since: int)
    requires a.Claim? && HeldBack(s, a.w, id, since, before) && since <= before <= now
    ensures !Claims(s, a, id) ==> HeldBack(Next(s, now, a), a.w, id, since, now)
    ensures Claims(s, a, id) ==> now >= since + Base(s.jobs[id].attempts)
  {
    hide Base, Selection, MarkError;
  }

  lemma StepHoldsBack(s: State, before: int, now: int, a: Action, id: JobId, since: int)
    requires HeldBack(s, a.w, id, since, before) && since <= before <= now
    ensures !Claims(s, a, id) ==> HeldBack(Next(s, now, a), a.w, id, since, now)
    ensures Claims(s, a, id) ==> now >= since + Base(s.jobs[id].attempts)
  {
    if a.Select? {
      SelectHoldsBack(s, before, now, a, id, since);
    } else if a.WriteError? {
      RetryHoldsBack(s, before, now, a, id, since);
    } else if a.Claim? {
      ClaimsInTurn(s, before, now, a, id, since);
    } else {
      hide Base, Delay, MarkError, Selection;
    }
  }

  // ---- over runs ----

  /** One process, and a clock that never runs backwards. */
  predicate OneProcess(w: WorkerId, now: int, run: seq<Event>)
    decreases |run|
  {
    run == [] || (run[0].act.w == w && now <= run[0].now && OneProcess(w, run[0].now, run[1..]))
  }

  ghost function Before(s: State, run: seq<Event>, k: nat): State
    requires k <= |run|
  {
    Exec(s, run[..k])
  }

  ghost predicate ClaimedAt(s: State, run: seq<Event>, k: nat, id: JobId) {
    k < |run| && Claims(Before(s, run, k), run[k].act, id)
  }

  lemma Shift(s: State, run: seq<Event>, k: nat)
    requires 0 < k <= |run|
    ensures Before(s, run, k) == Before(Next(s, run[0].now, run[0].act), run[1..], k - 1)
  {
    hide Next;
    assert run[..k][0] == run[0] && run[..k][1..] == run[1..][..k - 1];
  }

  lemma ShiftClaim(s: State, run: seq<Event>, k: nat, id: JobId)
    requires 0 < k < |run|
    ensures ClaimedAt(s, run, k, id) <==> ClaimedAt(Next(s, run[0].now, run[0].act), run[1..], k - 1, id)
  {
    hide Next;
    Shift(s, run, k);
  }

  /** The first claim after one at `since` keeps its distance. */
  lemma {:induction false} NextClaimKeepsDistance(s: State, w: WorkerId, before: int, run: seq<Event>, k: nat, id: JobId, since: int)
    requires HeldBack(s, w, id, since, before) && since <= before && OneProcess(w, before, run)
    requires ClaimedAt(s, run, k, id) && forall i :: 0 <= i < k ==> !ClaimedAt(s, run, i, id)
    ensures run[k].now >= since + Base(Before(s, run, k).jobs[id].attempts)
    decreases k
  {
    hide Next, HeldBack, Claims;
    var e := run[0];
    StepHoldsBack(s, before, e.now, e.act, id, since);
    assert run[..0] == [];
    if k == 0 {
    } else {
      assert !ClaimedAt(s, run, 0, id);
      var t := Next(s, e.now, e.act);
      Shift(s, run, k);
      ShiftClaim(s, run, k, id);
      forall i | 0 <= i < k - 1 ensures !ClaimedAt(t, run[1..], i, id) { ShiftClaim(s, run, i + 1, id); }
      NextClaimKeepsDistance(t, w, e.now, run[1..], k - 1, id, since);
    }
  }

  /**
   With one process, two consecutive claims of a job are at least
   min(1 h, 30 s * 2^attempts) apart, `attempts` being the count at the later one.
   */
  lemma {:induction false} ClaimsAreSpaced(s: State, w: WorkerId, before: int, run: seq<Event>, j: nat, k: nat, id: JobId)
    requires LinedUp(At(s, w)) && OneProcess(w, before, run)
    requires j < k && ClaimedAt(s, run, j, id) && ClaimedAt(s, run, k, id)
    requires forall i :: j < i < k ==> !ClaimedAt(s, run, i, id)
    ensures run[k].now - run[j].now >= Base(Before(s, run, k).jobs[id].attempts)
    decreases j
  {
    hide Next, HeldBack, Claims, LinedUp;
    var e := run[0];
    var t := Next(s, e.now, e.act);
    assert run[..0] == [];
    Shift(s, run, k);
    ShiftClaim(s, run, k, id);
    forall i | j - 1 < i < k - 1 ensures !ClaimedAt(t, run[1..], i, id) { ShiftClaim(s, run, i + 1, id); }
    if j == 0 {
      ClaimHoldsBack(s, e.now, e.act, id);
      NextClaimKeepsDistance(t, w, e.now, run[1..], k - 1, id, e.now);
    } else {
      StepKeepsLinedUp(s, e.now, e.act);
      ShiftClaim(s, run, j, id);
      ClaimsAreSpaced(t, w, e.now, run[1..], j - 1, k - 1, id);
    }
  }

  // ---- any number of workers: when a claim comes early ----

  /** This statement puts the job off after an error. */
  predicate PutsOff(s: State, a: Action, id: JobId) {
    && a.WriteError? && 0.0 <= a.draw < 1.0 && At(s, a.w).Reread? && At(s, a.w).job == id
    && StillMine(s.jobs, id) && s.jobs[id].attempts == At(s, a.w).seen && At(s, a.w).seen + 1 < MAX_ATTEMPTS
  }

  ghost predicate PutOffAt(s: State, run: seq<Event>, k: nat, id: JobId) {
    k < |run| && PutsOff(Before(s, run, k), run[k].act, id)
  }

  /** Until it is put off again the job keeps its next run and its count, unless it is over. */
  predicate Scheduled(s: State, id: JobId, due: int, attempts: nat) {
    && id in s.jobs
    && (s.jobs[id].status.Done? || s.jobs[id].status.Failed? || (s.jobs[id].nextRun == Some(due) && s.jobs[id].attempts == attempts))
  }

  lemma PutOffIsScheduled(s: State, now: int, a: Action, id: JobId)
    requires PutsOff(s, a, id)
    ensures Scheduled(Next(s, now, a), id, now + Delay(At(s, a.w).seen + 1, a.draw), At(s, a.w).seen + 1)
  {
    hide Delay;
  }

  lemma StepKeepsScheduled(s: State, now: int, a: Action, id: JobId, due: int, attempts: nat)
    requires Scheduled(s, id, due, attempts) && !PutsOff(s, a, id)
    ensures Scheduled(Next(s, now, a), id, due, attempts)
  {
    hide Delay, Selection;
    match a { case Select(_, _) => case Claim(_) => case TryDelete(_, _) => case WriteDone(_, _) =>
      case ReadBack(_) => case WriteError(_, _) => case Crash(_) => }
  }

  lemma ShiftPutOff(s: State, run: seq<Event>, k: nat, id: JobId)
    requires 0 < k < |run|
    ensures PutOffAt(s, run, k, id) <==> PutOffAt(Next(s, run[0].now, run[0].act), run[1..], k - 1, id)
  {
    hide Next;
    Shift(s, run, k);
  }

  lemma {:induction false} RunKeepsScheduled(s: State, run: seq<Event>, k: nat, id: JobId, due: int, attempts: nat)
    requires Scheduled(s, id, due, attempts) && k <= |run| && forall i :: 0 <= i < k ==> !PutOffAt(s, run, i, id)
    ensures Scheduled(Before(s, run, k), id, due, attempts)
    decreases k
  {
    hide Next, Scheduled, PutsOff;
    assert run[..0] == [];
    if k > 0 {
      var t := Next(s, run[0].now, run[0].act);
      assert !PutOffAt(s, run, 0, id);
      StepKeepsScheduled(s, run[0].now, run[0].act, id, due, attempts);
      Shift(s, run, k);
      forall i | 0 <= i < k - 1 ensures !PutOffAt(t, run[1..], i, id) { ShiftPutOff(s, run, i + 1, id); }
      RunKeepsScheduled(t, run[1..], k - 1, id, due, attempts);
    }
  }

  /**
   With any number of workers: a claim comes before the delay counted from the last retry write
   has passed if and only if the row's next run still lies ahead.
   */
  lemma {:induction false} EarlyIff(s: State, run: seq<Event>, j: nat, k: nat, id: JobId)
    requires j < k && PutOffAt(s, run, j, id) && ClaimedAt(s, run, k, id)
    requires forall i :: j < i < k ==> !PutOffAt(s, run, i, id)
    ensures var job := Before(s, run, k).jobs[id];
      && job.nextRun.Some?
      && (run[k].now - run[j].now < Delay(job.attempts, run[j].act.draw) <==> run[k].now < job.nextRun.value)
    decreases j
  {
    hide Next, Scheduled, Delay;
    var t := Next(s, run[0].now, run[0].act);
    assert run[..0] == [];
    Shift(s, run, k);
    ShiftClaim(s, run, k, id);
    forall i | j - 1 < i < k - 1 ensures !PutOffAt(t, run[1..], i, id) { ShiftPutOff(s, run, i + 1, id); }
    if j == 0 {
      PutOffIsScheduled(s, run[0].now, run[0].act, id);
      RunKeepsScheduled(t, run[1..], k - 1, id, run[0].now + Delay(At(s, run[0].act.w).seen + 1, run[0].act.draw),
                        At(s, run[0].act.w).seen + 1);
      ScheduledClaim(Before(s, run, k), run[k].act, id, run[0].now + Delay(At(s, run[0].act.w).seen + 1, run[0].act.draw),
                     At(s, run[0].act.w).seen + 1);
    } else {
      ShiftPutOff(s, run, j, id);
      EarlyIff(t, run[1..], j - 1, k - 1, id);
    }
  }

  lemma ScheduledClaim(s: State, a: Action, id: JobId, due: int, attempts: nat)
    requires Scheduled(s, id, due, attempts) && Claims(s, a, id)
    ensures s.jobs[id].nextRun == Some(due) && s.jobs[id].attempts == attempts
  {
  }

  // ---- two processes ----

  lemma BeforeNext(s: State, run: seq<Event>, k: nat)
    requires k < |run|
    ensures Before(s, run, k + 1) == Next(Before(s, run, k), run[k].now, run[k].act)
  {
    assert run[..k + 1] == run[..k] + [run[k]];
    ExecOver(s, run[..k], [run[k]]);
    OneStep(Before(s, run, k), run[k]);
  }

  lemma OneStep(s: State, e: Event)
    ensures Exec(s, [e]) == Next(s, e.now, e.act)
  {
    hide Next;
    assert [e][1..] == [];
  }

  const LISTED: State :=
    State(map[0 := Job(Pending, 0, None, 0, Some("m"))], map[0 := Queue([0]), 1 := Queue([0])], map[], map[])

  lemma BothSelect(s: State)
    requires s == State(LISTED.jobs, map[], map[], map[])
    ensures Next(Next(s, 0, Select(0, [0])), 0, Select(1, [0])) == LISTED
  {
    assert Selection(s.jobs, [0], 0);
    assert Next(s, 0, Select(0, [0])) == s.(pcs := map[0 := Queue([0])]);
  }

  /** The first process claims the job, fails and puts it off. */
  lemma FirstPutsItOff()
    ensures var s := Next(Next(Next(Next(LISTED, 0, Claim(0)), 0, TryDelete(0, false)), 0, ReadBack(0)), 0, WriteError(0, 0.0));
      Claims(LISTED, Claim(0), 0) && Claims(s, Claim(1), 0)
  {
    hide Delay;
    var s3 := Next(LISTED, 0, Claim(0));
    assert s3.pcs[0] == Claimed(0, []) && s3.pcs[1] == Queue([0]) && s3.jobs[0].status == Processing;
    var s4 := Next(s3, 0, TryDelete(0, false));
    assert s4.pcs[0] == Erred(0, []) && s4.pcs[1] == Queue([0]) && s4.jobs == s3.jobs;
    var s5 := Next(s4, 0, ReadBack(0));
    assert s5.pcs[0] == Reread(0, 0, []) && s5.pcs[1] == Queue([0]) && s5.jobs == s3.jobs;
  }

  const EMPTY: State := State(LISTED.jobs, map[], map[], map[])

  const RACE: seq<Event> :=
    [Event(0, Select(0, [0])), Event(0, Select(1, [0])), Event(0, Claim(0)), Event(0, TryDelete(0, false)),
     Event(0, ReadBack(0)), Event(0, WriteError(0, 0.0)), Event(0, Claim(1))]

  lemma RaceBegins()
    ensures Before(EMPTY, RACE, 2) == LISTED
  {
    BothSelect(EMPTY);
    hide Next;
    assert RACE[..0] == [];
    BeforeNext(EMPTY, RACE, 0);
    BeforeNext(EMPTY, RACE, 1);
  }

  lemma RaceGoesOn()
    ensures Before(EMPTY, RACE, 6)
         == Next(Next(Next(Next(LISTED, 0, Claim(0)), 0, TryDelete(0, false)), 0, ReadBack(0)), 0, WriteError(0, 0.0))
  {
    RaceBegins();
    hide Next, Before;
    BeforeNext(EMPTY, RACE, 2);
    BeforeNext(EMPTY, RACE, 3);
    BeforeNext(EMPTY, RACE, 4);
    BeforeNext(EMPTY, RACE, 5);
  }

  /** A stale list lets a second process claim a job at the very instant the first one put it off. */
  lemma TwoProcessesClaimAtOnce()
    ensures Initial(EMPTY) && forall i :: 0 <= i < |RACE| ==> RACE[i].now == 0
    ensures ClaimedAt(EMPTY, RACE, 2, 0) && ClaimedAt(EMPTY, RACE, 6, 0)
  {
    RaceBegins();
    RaceGoesOn();
    FirstPutsItOff();
    hide Next, Claims, Before;
  }

  lemma {:induction false} ExecOver(s: State, first: seq<Event>, second: seq<Event>)
    ensures Exec(s, first + second) == Exec(Exec(s, first), second)
    decreases |first|
  {
    hide Next;
    if first == [] {
      assert first + second == second;
    } else {
      assert (first + second)[1..] == first[1..] + second;
      ExecOver(Next(s, first[0].now, first[0].act), first[1..], second);
    }
  }
}
