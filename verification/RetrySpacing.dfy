/** The waits between the attempts of one webhook job. */
module RetrySpacing {
  import opened Prelude
  import opened Webhook

  /** The last failure lies the retry delay before the next run, and before any attempt that has begun. */
  predicate Spaced(s: State, id: JobId) {
    id in s.jobs ==>
      && (s.jobs[id].status.Pending? && s.jobs[id].attempts >= 1 ==>
            id in s.failedAt && s.jobs[id].nextRun == Some(s.failedAt[id] + RetryDelay(s.jobs[id].attempts)))
      && (Holds(s.consumer, id) && (s.consumer.Starting? || s.consumer.Started?) && s.consumer.attempts >= 2 ==>
            id in s.failedAt && s.clock >= s.failedAt[id] + RetryDelay(s.consumer.attempts - 1))
  }

  lemma DecideKeepsSpaced(s: State, e: Event, id: JobId)
    requires Fits(s, id) && Spaced(s, id) && s.clock <= e.now && Holds(s.consumer, id) && e.act.Decide?
    ensures Spaced(Step(s, e), id)
  {
    hide RetryDelay;
  }

  lemma OwnStepKeepsSpaced(s: State, e: Event, id: JobId)
    requires Fits(s, id) && Spaced(s, id) && s.clock <= e.now && Holds(s.consumer, id) && ByConsumer(e.act)
    ensures Spaced(Step(s, e), id)
  {
    if e.act.Decide? {
      DecideKeepsSpaced(s, e, id);
    } else {
      hide RetryDelay, Verdict;
      assert e.act.Finish? || Act(s, e.now, e.act).failedAt == s.failedAt;
    }
  }

  lemma OthersKeepSpaced(s: State, e: Event, id: JobId)
    requires Inv(s) && Spaced(s, id) && s.clock <= e.now && !ByConsumer(e.act)
    ensures Spaced(Step(s, e), id)
  {
    OthersMoveClaimsOnly(s, e.now, e.act, id);
    assert Holds(s.consumer, id) && id !in s.jobs ==> s.consumer.Taken? || s.consumer.Loaded?;
    hide Act, Inv, Fits, RetryDelay;
  }

  lemma StepKeepsSpaced(s: State, e: Event, id: JobId)
    requires Inv(s) && Spaced(s, id) && s.clock <= e.now
    ensures Spaced(Step(s, e), id)
  {
    if !ByConsumer(e.act) {
      OthersKeepSpaced(s, e, id);
    } else {
      ConsumerAddsNoJob(s, e.now, e.act, id);
      if id in s.jobs {
        assert Fits(s, id);
        if Holds(s.consumer, id) {
          OwnStepKeepsSpaced(s, e, id);
        } else {
          OthersHistory(s, e.now, e.act, id);
          ConsumerMindsItsJob(s, e.now, e.act, id);
        }
      }
      hide Act, Inv, Fits, RetryDelay;
    }
  }

  lemma OthersHistory(s: State, now: int, a: Action, id: JobId)
    requires ByConsumer(a) && !Holds(s.consumer, id)
    ensures id in Act(s, now, a).failedAt <==> id in s.failedAt
    ensures id in s.failedAt ==> Act(s, now, a).failedAt[id] == s.failedAt[id]
  {
    hide Verdict, Conclude, Begin, Unclaim;
  }

  lemma {:induction false} RunKeepsSpaced(s: State, run: seq<Event>, id: JobId)
    requires Inv(s) && Spaced(s, id) && Timeline(s.clock, run)
    ensures Spaced(Exec(s, run), id)
    decreases |run|
  {
    hide Inv, Act, Spaced;
    if run != [] {
      StepKeepsInv(s, run[0]);
      StepKeepsSpaced(s, run[0], id);
      RunKeepsSpaced(Step(s, run[0]), run[1..], id);
    }
  }

  /** Duplicates and scans never hurry a retry: the n-th attempt begins the full delay after the failure before it. */
  lemma RetriesWait(now: int, run: seq<Event>, when: int)
    requires Timeline(now, run) && Exec(Fresh(now), run).clock <= when
    requires var c := Exec(Fresh(now), run).consumer; c.Started? && c.attempts >= 2
    ensures var t := Exec(Fresh(now), run);
      && t.consumer.job in t.failedAt
      && when >= t.failedAt[t.consumer.job] + Min(60_000, 1_000 * Backoff.Pow2(t.consumer.attempts - 2))
  {
    var t := Exec(Fresh(now), run);
    RunKeepsInv(Fresh(now), run);
    RunKeepsSpaced(Fresh(now), run, t.consumer.job);
    hide Exec, Inv;
  }
}
