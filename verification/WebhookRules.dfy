/** What one item and one claim do to a job, which jobs a scan takes, and how far apart claims are. */
module WebhookRules {
  import opened Prelude
  import Backoff
  import opened Webhook
  import opened WebhookService

  // ---- one item ----

  /** The wait after a failed attempt starts at a second and doubles, up to a minute. */
  lemma RetryDelaysDouble(attempts: nat)
    requires attempts >= 1
    ensures RetryDelay(1) == 1_000 && RetryDelay(attempts + 1) == Min(60_000, 2 * RetryDelay(attempts))
  {
    Backoff.PowerIsPositive(attempts - 1);
  }

  /** Nothing is to be done for the job: it is over, or has been in processing for less than five minutes. */
  predicate LeftAlone(j: Job, now: int) {
    || j.status == Done || j.status == Failed
    || (j.status == Processing && j.startedAt != None && now < j.startedAt.value + 300_000
        && (j.nextRun == None || j.nextRun.value <= now))
  }

  /** The job as one item leaves it. */
  predicate Settled(before: Job, after: Job, t: Turn) {
    if LeftAlone(before, t.readAt) then after == before
    else if before.nextRun != None && t.readAt < before.nextRun.value then after == before.(startedAt := None)
    else
      && after.attempts == before.attempts + 1 && after.startedAt == None
      && if t.ok then after.status == Done && after.nextRun == before.nextRun
         else if after.attempts >= 5 then after.status == Failed && after.nextRun == before.nextRun
         else after.status == Pending && after.nextRun == Some(t.endAt + RetryDelay(after.attempts))
  }

  /** One item settles its job, whatever state it finds it in, and touches no other. */
  lemma ItemSettles(jobs: Jobs, id: JobId, t: Turn)
    ensures Processed(jobs, id, t).Keys == jobs.Keys
    ensures id in jobs ==> Settled(jobs[id], Processed(jobs, id, t)[id], t)
    ensures forall o :: o in jobs && o != id ==> Processed(jobs, id, t)[o] == jobs[o]
  {
    hide RetryDelay;
  }

  /** A reader of a job just started passes it by for five minutes, and takes it over from then on. */
  lemma StartedIsSkippedIff(s: State, now: int, later: int)
    requires s.consumer.Starting? && s.consumer.job in s.jobs
    requires s.jobs[s.consumer.job].nextRun == None || s.jobs[s.consumer.job].nextRun.value <= later
    ensures var id, next := s.consumer.job, Act(s, now, Start);
      && id in next.jobs && next.jobs[id].status == Processing && next.jobs[id].attempts == s.consumer.attempts
      && Verdict(id, Some(next.jobs[id]), later) ==
           if later < now + 300_000 then Idle else Starting(id, s.consumer.attempts + 1)
  {
  }

  // ---- one scan ----

  /** Due for the scanner: pending, with attempts left, its time come, and unclaimed for five minutes. */
  predicate Ready(j: Job, now: int) {
    && j.status == Pending && j.attempts < 5 && j.nextRun != None && j.nextRun.value <= now
    && (j.startedAt == None || j.startedAt.value + 300_000 < now)
  }

  function ReadyBefore(jobs: Jobs, id: JobId, now: int): set<JobId>
    requires id in jobs && Ready(jobs[id], now)
  {
    set o | o in jobs && o != id && Ready(jobs[o], now) && jobs[o].nextRun.value <= jobs[id].nextRun.value
  }

  function ReadySooner(jobs: Jobs, id: JobId, now: int): set<JobId>
    requires id in jobs && Ready(jobs[id], now)
  {
    set o | o in jobs && Ready(jobs[o], now) && jobs[o].nextRun.value < jobs[id].nextRun.value
  }

  /** A scan takes every due job that fewer than 25 others precede, and none that 25 earlier ones wait before. */
  lemma PageIsSoonest(jobs: Jobs, list: seq<JobId>, now: int, id: JobId)
    requires Page(jobs, list, now) && id in jobs
    ensures Ready(jobs[id], now) && |ReadyBefore(jobs, id, now)| < 25 ==> id in list
    ensures id in list ==> Ready(jobs[id], now) && |ReadySooner(jobs, id, now)| < 25
  {
    forall o | o in jobs ensures DueIn(jobs, o, now) <==> Ready(jobs[o], now) {}
    DistinctCount(list);
    if id in list {
      assert DueIn(jobs, id, now);
      forall o | o in ReadySooner(jobs, id, now) ensures o in list && o != id {
        var i :| 0 <= i < |list| && list[i] == id;
        assert DueIn(jobs, o, now);
      }
      assert ReadySooner(jobs, id, now) <= Members(list) - {id};
      SubsetCount(ReadySooner(jobs, id, now), Members(list) - {id});
    } else if Ready(jobs[id], now) {
      assert DueIn(jobs, id, now) && |list| == 25;
      forall o | o in Members(list) ensures o in ReadyBefore(jobs, id, now) {
        var i :| 0 <= i < |list| && list[i] == o;
        assert DueIn(jobs, list[i], now);
      }
      SubsetCount(Members(list), ReadyBefore(jobs, id, now));
    }
  }

  // ---- claims of overlapping scans ----

  /** A scanner's claim goes through exactly when it finds its job pending and unclaimed for five minutes, and stamps it with its scan. */
  lemma ClaimIff(s: State, now: int, k: nat)
    requires k < |s.tickets| && s.tickets[k].ToClaim?
    ensures var t, next := s.tickets[k], Act(s, now, Claim(k));
            var free := t.job in s.jobs && s.jobs[t.job].status == Pending
                        && (s.jobs[t.job].startedAt == None || s.jobs[t.job].startedAt.value + 300_000 < t.scanned);
      && (next.tickets[k] == if free then ToEnqueue(t.job) else Ticket.Settled)
      && next.jobs == if free then s.jobs[t.job := s.jobs[t.job].(startedAt := Some(t.scanned))] else s.jobs
  {
  }

  /** The statements of the scanner's passes but the release after a failed enqueue, and what comes in from outside. */
  predicate Scanning(a: Action) { a.Arrive? || a.Deliver? || a.Scan? || a.Claim? || a.Enqueue? }

  /** The job is claimed as it was, or has been claimed again by a scan more than five minutes later. */
  predicate ClaimedSince(jobs: Jobs, id: JobId, t: int) {
    id in jobs && jobs[id].startedAt != None && (jobs[id].startedAt.value == t || t + 300_000 < jobs[id].startedAt.value)
  }

  lemma StepKeepsClaims(s: State, e: Event, id: JobId)
    requires Scanning(e.act) && id in s.jobs && s.jobs[id].startedAt != None
    ensures ClaimedSince(Step(s, e).jobs, id, s.jobs[id].startedAt.value)
  {
    match e.act {
      case Claim(k) => if k < |s.tickets| && s.tickets[k].ToClaim? { ClaimIff(s, e.now, k); }
      case Arrive(_) =>
      case Deliver(_) =>
      case Scan(_) =>
      case Enqueue(_, _) =>
      case _ =>
    }
    hide Page;
  }

  /** However many passes overlap: while only scanners act, two claims of one job are more than five minutes of scan time apart. */
  lemma {:induction false} ClaimsKeepApart(s: State, run: seq<Event>, id: JobId)
    requires id in s.jobs && s.jobs[id].startedAt != None && forall i :: 0 <= i < |run| ==> Scanning(run[i].act)
    ensures ClaimedSince(Exec(s, run).jobs, id, s.jobs[id].startedAt.value)
    decreases |run|
  {
    hide Step;
    if run != [] {
      assert Scanning(run[0].act);
      StepKeepsClaims(s, run[0], id);
      ClaimsKeepApart(Step(s, run[0]), run[1..], id);
    }
  }

  /** After the claim the job is queued behind what is there, or, when that fails, its claim is released; either settles the ticket. */
  lemma QueuedOrReleased(s: State, now: int, k: nat, ok: bool, later: int)
    requires k < |s.tickets| && s.tickets[k].ToEnqueue? && s.tickets[k].job in s.jobs
    ensures var id, next := s.tickets[k].job, Act(Act(s, now, Enqueue(k, ok)), later, Release(k));
      && next.queue == (if ok then s.queue + [id] else s.queue)
      && next.jobs == (if ok then s.jobs else s.jobs[id := s.jobs[id].(startedAt := None)])
      && next.tickets == s.tickets[k := Ticket.Settled]
  {
  }

  // ---- a scan is one of the machine's runs ----

  /** The claim, the enqueue and, when that fails, the release of the k-th ticket. */
  function TicketRun(k: nat, now: int, ok: bool): seq<Event> {
    [Event(now, Claim(k)), Event(now, Enqueue(k, ok)), Event(now, Release(k))]
  }

  /** A scan whose first ticket is the `base`-th, nobody in between. */
  function ScanRun(base: nat, list: seq<JobId>, ok: seq<bool>, now: int, n: nat): seq<Event>
    requires n <= |list| == |ok|
  {
    if n == 0 then [Event(now, Scan(list))] else ScanRun(base, list, ok, now, n - 1) + TicketRun(base + n - 1, now, ok[n - 1])
  }

  lemma ThreeSteps(s: State, k: nat, now: int, ok: bool)
    ensures Exec(s, TicketRun(k, now, ok)) ==
      Step(Step(Step(s, Event(now, Claim(k))), Event(now, Enqueue(k, ok))), Event(now, Release(k)))
  {
    hide Step;
    var run := TicketRun(k, now, ok);
    assert run[..0] == [] && run[..3] == run;
    ExecNext(s, run, 0);
    ExecNext(s, run, 1);
    ExecNext(s, run, 2);
  }

  /** One ticket claims and queues its job, or claims and releases it. */
  lemma TicketIsARun(s: State, k: nat, now: int, ok: bool)
    requires k < |s.tickets| && s.tickets[k].ToClaim? && s.tickets[k].scanned == now && ClaimHits(s.jobs, s.tickets[k].job, now)
    ensures var id, u := s.tickets[k].job, Exec(s, TicketRun(k, now, ok));
      && u.jobs == ClaimedIf(s.jobs, id, ok, now) && u.queue == s.queue + (if ok then [id] else [])
      && u.tickets == s.tickets[k := Ticket.Settled] && u.consumer == s.consumer
  {
    ThreeSteps(s, k, now, ok);
    var id := s.tickets[k].job;
    var t := Step(s, Event(now, Claim(k)));
    ClaimIff(s, now, k);
    assert t.jobs == s.jobs[id := s.jobs[id].(startedAt := Some(now))];
    QueuedOrReleased(t, now, k, ok, now);
    hide Exec, TicketRun;
  }

  /** Where the pass stands after `n` tickets. */
  predicate ScannedTo(s: State, u: State, list: seq<JobId>, ok: seq<bool>, now: int, n: nat)
    requires n <= |list| == |ok|
  {
    && u.jobs == Scanned(s.jobs, list[..n], ok[..n], now) && u.queue == s.queue + Sent(list[..n], ok[..n])
    && |u.tickets| == |s.tickets| + |list| && u.consumer == s.consumer
    && (forall i :: 0 <= i < |s.tickets| ==> u.tickets[i] == s.tickets[i])
    && (forall i :: 0 <= i < |list| ==> TicketStands(u.tickets, |s.tickets|, list, now, n, i))
  }

  /** The pass has come past its i-th ticket, or has it still before it. */
  predicate TicketStands(tickets: seq<Ticket>, base: nat, list: seq<JobId>, now: int, n: nat, i: nat)
    requires i < |list| && base + i < |tickets|
  {
    tickets[base + i] == if i < n then Ticket.Settled else ToClaim(list[i], now)
  }

  lemma ScanBegins(s: State, list: seq<JobId>, ok: seq<bool>, now: int)
    requires Page(s.jobs, list, now) && |ok| == |list|
    ensures ScannedTo(s, Exec(s, [Event(now, Scan(list))]), list, ok, now, 0)
  {
    hide Page;
    assert Exec(s, [Event(now, Scan(list))]) == Exec(Step(s, Event(now, Scan(list))), []);
  }

  lemma OneMore(jobs: Jobs, list: seq<JobId>, ok: seq<bool>, now: int, n: nat)
    requires n < |list| == |ok|
    ensures Scanned(jobs, list[..n + 1], ok[..n + 1], now) == ClaimedIf(Scanned(jobs, list[..n], ok[..n], now), list[n], ok[n], now)
    ensures Sent(list[..n + 1], ok[..n + 1]) == Sent(list[..n], ok[..n]) + if ok[n] then [list[n]] else []
  {
    assert list[..n + 1][..n] == list[..n] && ok[..n + 1][..n] == ok[..n];
  }

  lemma TicketGoesOn(s: State, u: State, list: seq<JobId>, ok: seq<bool>, now: int, n: nat)
    requires Page(s.jobs, list, now) && n < |list| == |ok| && ScannedTo(s, u, list, ok, now, n)
    ensures ScannedTo(s, Exec(u, TicketRun(|s.tickets| + n, now, ok[n])), list, ok, now, n + 1)
  {
    var k := |s.tickets| + n;
    var v := Exec(u, TicketRun(k, now, ok[n]));
    StillClaimable(s.jobs, list, ok, n, now);
    assert TicketStands(u.tickets, |s.tickets|, list, now, n, n);
    TicketIsARun(u, k, now, ok[n]);
    OneMore(s.jobs, list, ok, now, n);
    assert v.queue == s.queue + Sent(list[..n + 1], ok[..n + 1]);
    TicketCounts(s, u, v, list, ok, now, n);
    hide Scanned, Sent, Exec, TicketRun, ClaimHits, Page, ClaimedIf;
  }

  lemma TicketCounts(s: State, u: State, v: State, list: seq<JobId>, ok: seq<bool>, now: int, n: nat)
    requires n < |list| == |ok| && ScannedTo(s, u, list, ok, now, n)
    requires v.jobs == Scanned(s.jobs, list[..n + 1], ok[..n + 1], now) && v.queue == s.queue + Sent(list[..n + 1], ok[..n + 1])
    requires v.tickets == u.tickets[|s.tickets| + n := Ticket.Settled] && v.consumer == u.consumer
    ensures ScannedTo(s, v, list, ok, now, n + 1)
  {
    var m := n + 1;
    forall i | 0 <= i < |list| ensures TicketStands(v.tickets, |s.tickets|, list, now, m, i) {
      assert TicketStands(u.tickets, |s.tickets|, list, now, n, i);
    }
    hide Scanned, Sent;
  }

  /** A scan nobody interrupts is a run of the machine that claims and queues what the scanner as written does. */
  lemma {:induction false} ScanIsARun(s: State, list: seq<JobId>, ok: seq<bool>, now: int, n: nat)
    requires Page(s.jobs, list, now) && n <= |list| == |ok|
    ensures ScannedTo(s, Exec(s, ScanRun(|s.tickets|, list, ok, now, n)), list, ok, now, n)
    decreases n
  {
    hide Page, ScannedTo, TicketRun, Step;
    if n == 0 {
      ScanBegins(s, list, ok, now);
    } else {
      ScanIsARun(s, list, ok, now, n - 1);
      var first := ScanRun(|s.tickets|, list, ok, now, n - 1);
      TicketGoesOn(s, Exec(s, first), list, ok, now, n - 1);
      ExecOver(s, first, TicketRun(|s.tickets| + n - 1, now, ok[n - 1]));
    }
  }

  // ---- what the history counts, and what the queue may hold ----

  /** Every reconciliation begun is counted, with its success or the instant its failure is written. */
  lemma HistoryCounts(s: State, now: int, a: Action, id: JobId)
    ensures var t := Act(s, now, a);
            var begun := a.Reconcile? && s.consumer.Started? && s.consumer.job == id;
            var failed := a.Finish? && s.consumer.Finishing? && s.consumer.job == id && !s.consumer.ok;
      && Count(t.runs, id) == Count(s.runs, id) + (if begun then 1 else 0)
      && Count(t.wins, id) == Count(s.wins, id) + (if begun && a.ok then 1 else 0)
      && (if failed then id in t.failedAt && t.failedAt[id] == now
          else (id in t.failedAt <==> id in s.failedAt) && (id in s.failedAt ==> t.failedAt[id] == s.failedAt[id]))
  {
    hide Page, Verdict, Conclude, Begin, Unclaim, ClaimFor, ClaimHits, Tickets;
  }

  /** The queue may come to hold any jobs, any number of times and in any order. */
  lemma {:induction false} AnyQueueComes(now: int, queue: seq<JobId>)
    ensures exists run :: Exec(Fresh(now), run) == Fresh(now).(queue := queue)
  {
    if queue == [] {
      assert Exec(Fresh(now), []) == Fresh(now).(queue := queue);
    } else {
      var n := |queue| - 1;
      AnyQueueComes(now, queue[..n]);
      var run :| Exec(Fresh(now), run) == Fresh(now).(queue := queue[..n]);
      var last := Event(now, Deliver(queue[n]));
      ExecOver(Fresh(now), run, [last]);
      assert queue == queue[..n] + [queue[n]];
      assert Exec(Fresh(now).(queue := queue[..n]), [last]) == Exec(Step(Fresh(now).(queue := queue[..n]), last), []);
      assert Exec(Fresh(now), run + [last]) == Fresh(now).(queue := queue);
    }
  }
}
