/** The webhook worker as it is written: the scanner's pass and the dequeue loop, each in place. */
module WebhookService {
  import opened Prelude
  import opened Webhook

  /** What the world does during one turn of the loop. */
  datatype Turn = Turn(lost: bool, readAt: int, startAt: int, endAt: int, ok: bool, stopped: bool)

  function Lookup(jobs: Jobs, id: JobId): Option<Job> { if id in jobs then Some(jobs[id]) else None }

  /** One item from the read of its row to the last write. */
  function Processed(jobs: Jobs, id: JobId, t: Turn): Jobs {
    match Verdict(id, Lookup(jobs, id), t.readAt)
    case Releasing(_) => Unclaim(jobs, id)
    case Starting(_, n) => Conclude(Begin(jobs, id, n, t.startAt), id, n, t.ok, t.endAt)
    case _ => jobs
  }

  /** Items leave the queue in order, one a turn, until the worker is stopped. */
  function Drained(jobs: Jobs, queue: seq<JobId>, turns: seq<Turn>): (Jobs, seq<JobId>) {
    if turns == [] then (jobs, queue)
    else
      var t := turns[0];
      var (j, q) := if t.lost || queue == [] then (jobs, queue) else (Processed(jobs, queue[0], t), queue[1..]);
      if t.stopped then (j, q) else Drained(j, q, turns[1..])
  }

  /** The jobs of a page whose enqueue went through, in order. */
  function Sent(list: seq<JobId>, ok: seq<bool>): seq<JobId>
    requires |ok| == |list|
  {
    if list == [] then [] else Sent(list[..|list| - 1], ok[..|list| - 1]) + if ok[|list| - 1] then [list[|list| - 1]] else []
  }

  function ClaimedIf(jobs: Jobs, id: JobId, ok: bool, now: int): Jobs {
    if id in jobs then jobs[id := jobs[id].(startedAt := if ok then Some(now) else None)] else jobs
  }

  /** The table after a whole page: queued jobs are claimed, the others released. */
  function Scanned(jobs: Jobs, list: seq<JobId>, ok: seq<bool>, now: int): Jobs
    requires |ok| == |list|
  {
    if list == [] then jobs
    else
      var n := |list| - 1;
      ClaimedIf(Scanned(jobs, list[..n], ok[..n], now), list[n], ok[n], now)
  }

  /** Each job of the page gets its own claim, once; no other row changes. */
  lemma {:induction false} ScanClaimsItsPage(jobs: Jobs, list: seq<JobId>, ok: seq<bool>, now: int)
    requires |ok| == |list| && forall i, j :: 0 <= i < j < |list| ==> list[i] != list[j]
    ensures Scanned(jobs, list, ok, now).Keys == jobs.Keys
    ensures forall i :: 0 <= i < |list| && list[i] in jobs ==>
      Scanned(jobs, list, ok, now)[list[i]] == jobs[list[i]].(startedAt := if ok[i] then Some(now) else None)
    ensures forall id :: id in jobs && id !in list ==> Scanned(jobs, list, ok, now)[id] == jobs[id]
    decreases |list|
  {
    if list != [] {
      var n := |list| - 1;
      ScanClaimsItsPage(jobs, list[..n], ok[..n], now);
      assert list[n] !in list[..n];
      forall i | 0 <= i < n ensures list[..n][i] == list[i] && ok[..n][i] == ok[i] {}
    }
  }

  /** The claims before it do not spoil a later one. */
  lemma StillClaimable(jobs: Jobs, list: seq<JobId>, ok: seq<bool>, i: nat, now: int)
    requires Page(jobs, list, now) && |ok| == |list| && i < |list|
    ensures ClaimHits(Scanned(jobs, list[..i], ok[..i], now), list[i], now)
  {
    ScanClaimsItsPage(jobs, list[..i], ok[..i], now);
    assert DueIn(jobs, list[i], now) && list[i] !in list[..i];
  }

  class WebhookWorker {
    var running: bool
    /** The webhook_jobs table. */
    var jobs: Jobs
    /** The items of the queue in memory. */
    var queue: seq<JobId>

    constructor (table: Jobs)
      ensures running && jobs == table && queue == []
    {
      running := true;
      jobs := table;
      queue := [];
    }

    method OnModuleDestroy()
      modifies `running
      ensures !running
    {
      running := false;
    }

    method Enqueue(id: JobId)
      modifies `queue
      ensures queue == old(queue) + [id]
    {
      queue := queue + [id];
    }

    method Dequeue() returns (item: Option<JobId>)
      modifies `queue
      ensures item.None? <==> old(queue) == []
      ensures item.Some? ==> old(queue) == [item.value] + queue
      ensures item.None? ==> queue == []
    {
      if queue == [] { return None; }
      item := Some(queue[0]);
      queue := queue[1..];
    }

    /** Claims one due job and queues it, or releases the claim. */
    method EnqueueClaimed(id: JobId, now: int, ok: bool)
      modifies `jobs, `queue
      ensures jobs == if ClaimHits(old(jobs), id, now) then ClaimedIf(old(jobs), id, ok, now) else old(jobs)
      ensures queue == old(queue) + if ClaimHits(old(jobs), id, now) && ok then [id] else []
    {
      if !ClaimHits(jobs, id, now) { return; }
      jobs := ClaimFor(jobs, id, now);
      if ok {
        Enqueue(id);
      } else {
        jobs := Unclaim(jobs, id);
      }
    }

    /** `list` is the answer to the scanner's query, `ok[i]` whether the i-th enqueue went through. */
    method EnqueueDueJobs(now: int, list: seq<JobId>, ok: seq<bool>)
      requires Page(jobs, list, now) && |ok| == |list|
      modifies `jobs, `queue
      ensures queue == old(queue) + Sent(list, ok)
      ensures jobs == Scanned(old(jobs), list, ok, now)
    {
      for i := 0 to |list|
        invariant queue == old(queue) + Sent(list[..i], ok[..i])
        invariant jobs == Scanned(old(jobs), list[..i], ok[..i], now)
      {
        StillClaimable(old(jobs), list, ok, i, now);
        assert list[..i + 1][..i] == list[..i] && ok[..i + 1][..i] == ok[..i];
        EnqueueClaimed(list[i], now, ok[i]);
      }
      assert list[..|list|] == list && ok[..|list|] == ok;
    }

    method ProcessItem(id: JobId, t: Turn)
      modifies `jobs
      ensures jobs == Processed(old(jobs), id, t)
    {
      if id !in jobs { return; }
      var job := jobs[id];
      if job.status.Done? || job.status.Failed? { return; }
      if job.nextRun.Some? && job.nextRun.value > t.readAt {
        jobs := Unclaim(jobs, id);
        return;
      }
      if job.status.Processing? && job.startedAt.Some? && t.readAt < job.startedAt.value + STALE_MS { return; }
      var attempts := job.attempts + 1;
      jobs := Begin(jobs, id, attempts, t.startAt);
      if t.ok {
        jobs := jobs[id := jobs[id].(status := Done, startedAt := None)];
      } else if attempts >= MAX_TRIES {
        jobs := jobs[id := jobs[id].(status := Failed, startedAt := None)];
      } else {
        jobs := jobs[id := jobs[id].(status := Pending, nextRun := Some(t.endAt + RetryDelay(attempts)), startedAt := None)];
      }
    }

    /** As many turns as the worker lives. */
    method RunDequeueLoop(turns: seq<Turn>)
      requires running
      modifies this
      ensures (jobs, queue) == Drained(old(jobs), old(queue), turns)
    {
      var left := turns;
      while running && left != []
        invariant (if running then Drained(jobs, queue, left) else (jobs, queue)) == Drained(old(jobs), old(queue), turns)
        decreases |left|
      {
        var t := left[0];
        left := left[1..];
        if !t.lost {
          var item := Dequeue();
          if item.Some? { ProcessItem(item.value, t); }
        }
        if t.stopped { OnModuleDestroy(); }
      }
    }
  }

  // ---- the loop is one of the machine's runs ----

  function ItemRun(t: Turn): seq<Event> {
    [Event(t.readAt, Dequeue), Event(t.readAt, Load), Event(t.readAt, Decide), Event(t.startAt, LetGo),
     Event(t.startAt, Start), Event(t.startAt, Reconcile(t.ok)), Event(t.endAt, Finish)]
  }

  lemma ReadAndDecide(s: State, t: Turn)
    requires s.consumer.Idle? && s.queue != []
    ensures var u := Step(Step(Step(s, Event(t.readAt, Dequeue)), Event(t.readAt, Load)), Event(t.readAt, Decide));
      && u.jobs == s.jobs && u.queue == s.queue[1..]
      && u.consumer == Verdict(s.queue[0], Lookup(s.jobs, s.queue[0]), t.readAt)
  {
    hide Verdict;
  }

  lemma WriteDown(s: State, t: Turn)
    requires s.consumer.Idle? || s.consumer.Releasing? || s.consumer.Starting?
    ensures var u := Step(Step(Step(Step(s, Event(t.startAt, LetGo)), Event(t.startAt, Start)),
                               Event(t.startAt, Reconcile(t.ok))), Event(t.endAt, Finish));
      && u.queue == s.queue && u.consumer.Idle?
      && u.jobs == match s.consumer
                   case Releasing(id) => Unclaim(s.jobs, id)
                   case Starting(id, n) => Conclude(Begin(s.jobs, id, n, t.startAt), id, n, t.ok, t.endAt)
                   case _ => s.jobs
  {
    hide Verdict, Conclude, Begin, Unclaim;
  }

  lemma {:induction false} ExecOver(s: State, first: seq<Event>, second: seq<Event>)
    ensures Exec(s, first + second) == Exec(Exec(s, first), second)
    decreases |first|
  {
    hide Step;
    if first == [] {
      assert first + second == second;
    } else {
      assert (first + second)[1..] == first[1..] + second;
      ExecOver(Step(s, first[0]), first[1..], second);
    }
  }

  lemma ExecNext(s: State, run: seq<Event>, k: nat)
    requires k < |run|
    ensures Exec(s, run[..k + 1]) == Step(Exec(s, run[..k]), run[k])
  {
    hide Step;
    assert run[..k + 1] == run[..k] + [run[k]];
    ExecOver(s, run[..k], [run[k]]);
    assert [run[k]][1..] == [];
  }

  lemma SevenSteps(s: State, t: Turn)
    ensures Exec(s, ItemRun(t)) ==
      Step(Step(Step(Step(
        Step(Step(Step(s, Event(t.readAt, Dequeue)), Event(t.readAt, Load)), Event(t.readAt, Decide)),
        Event(t.startAt, LetGo)), Event(t.startAt, Start)), Event(t.startAt, Reconcile(t.ok))), Event(t.endAt, Finish))
  {
    hide Step;
    var run := ItemRun(t);
    assert run[..0] == [] && run[..7] == run;
    ExecNext(s, run, 0);
    ExecNext(s, run, 1);
    ExecNext(s, run, 2);
    ExecNext(s, run, 3);
    ExecNext(s, run, 4);
    ExecNext(s, run, 5);
    ExecNext(s, run, 6);
  }

  /** A turn nobody interrupts is a run of the machine with the same outcome. */
  lemma TurnIsARun(s: State, t: Turn)
    requires s.consumer.Idle? && s.queue != []
    ensures var u := Exec(s, ItemRun(t));
      && u.consumer.Idle? && u.queue == s.queue[1..] && u.jobs == Processed(s.jobs, s.queue[0], t)
  {
    SevenSteps(s, t);
    ReadAndDecide(s, t);
    var u := Step(Step(Step(s, Event(t.readAt, Dequeue)), Event(t.readAt, Load)), Event(t.readAt, Decide));
    WriteDown(u, t);
    hide Step, Exec, ItemRun, Conclude, Begin, Unclaim;
  }

  lemma EmptyTurn(s: State, t: Turn)
    requires s.consumer.Idle? && s.queue == []
    ensures var u := Exec(s, ItemRun(t)); u.consumer.Idle? && u.queue == s.queue && u.jobs == s.jobs
  {
    SevenSteps(s, t);
    var a := Step(Step(Step(s, Event(t.readAt, Dequeue)), Event(t.readAt, Load)), Event(t.readAt, Decide));
    assert a.consumer.Idle? && a.queue == s.queue && a.jobs == s.jobs by { hide Exec, ItemRun; }
    WriteDown(a, t);
    hide Step, Exec, ItemRun;
  }

  function LoopRun(turns: seq<Turn>): seq<Event> {
    if turns == [] then []
    else (if turns[0].lost then [] else ItemRun(turns[0])) + if turns[0].stopped then [] else LoopRun(turns[1..])
  }

  /** So is the whole dequeue loop: everything proved of the machine's runs holds of it. */
  lemma {:induction false} LoopIsARun(s: State, turns: seq<Turn>)
    requires s.consumer.Idle?
    ensures var u := Exec(s, LoopRun(turns)); u.consumer.Idle? && (u.jobs, u.queue) == Drained(s.jobs, s.queue, turns)
    decreases |turns|
  {
    hide Step, ItemRun, Processed;
    if turns != [] {
      var t := turns[0];
      var first := if t.lost then [] else ItemRun(t);
      var u := Exec(s, first);
      if !t.lost {
        if s.queue == [] { EmptyTurn(s, t); } else { TurnIsARun(s, t); }
      }
      if t.stopped {
        assert first + [] == first;
      } else {
        LoopIsARun(u, turns[1..]);
        ExecOver(s, first, LoopRun(turns[1..]));
      }
    }
  }
}
