/** A booking that came and went leaves the occupancy as it was. */
module Occupancy {
  import opened Store
  import opened Availability
  import opened Lifecycle
  import opened Invariants

  /** The intervals that are taken at time `t`. */
  function Taken(db: Db, t: int): set<(Person, int, int)> {
    set id | id in db.rows && Live(db, id, t) :: (db.rows[id].person, db.rows[id].start, db.rows[id].end)
  }

  /** Every write of the run goes to booking `x`; sweeps and refusals may come in between. */
  ghost predicate About(cfg: Config, db: Db, run: seq<Event>, x: RowId)
    decreases |run|
  {
    run == []
    || (var e := Decide(cfg, db, run[0].time, run[0].op).effect;
        (e.Nothing? || e.Sweep? || Touched(db, e) == x) && About(cfg, Step(cfg, db, run[0]), run[1..], x))
  }

  /** Effects leave the later life of all other rows alone. */
  lemma OthersLiveOn(db: Db, now: int, e: Effect, id: RowId, t: int)
    requires id in db.rows && db.nextId !in db.rows && id != Touched(db, e) && now <= t
    ensures id in Apply(db, now, e).rows && SameFrame(db.rows[id], Apply(db, now, e).rows[id])
    ensures Live(Apply(db, now, e), id, t) <==> Live(db, id, t)
  {
  }

  /** Row `id` is the same booking, and equally alive at `t`, in both databases. */
  ghost predicate SameLife(a: Db, b: Db, id: RowId, t: int) {
    && (id in a.rows <==> id in b.rows)
    && (id in a.rows ==> SameFrame(a.rows[id], b.rows[id]) && (Live(a, id, t) <==> Live(b, id, t)))
  }

  lemma StepKeepsOthers(cfg: Config, db: Db, now: int, ev: Event, x: RowId, id: RowId, t: int)
    requires Sane(cfg, db, now) && id != x && ev.time <= t
    requires var e := Decide(cfg, db, ev.time, ev.op).effect;
             e.Nothing? || e.Sweep? || Touched(db, e) == x
    ensures SameLife(db, Step(cfg, db, ev), id, t)
  {
    var e := Decide(cfg, db, ev.time, ev.op).effect;
    hide Decide;
    if id in db.rows && id != Touched(db, e) { OthersLiveOn(db, ev.time, e, id, t); }
  }

  lemma {:induction false} OthersUntouched(cfg: Config, db: Db, now: int, run: seq<Event>, x: RowId, id: RowId, t: int)
    requires Good(cfg, db, now) && Timeline(now, run) && EndTime(now, run) <= t && About(cfg, db, run, x) && id != x
    ensures SameLife(db, Exec(cfg, db, run), id, t)
    decreases |run|
  {
    hide Step, Decide, IndexOk;
    if run != [] {
      StepKeepsGood(cfg, db, now, run[0]);
      TimesAscend(run);
      StepKeepsOthers(cfg, db, now, run[0], x, id, t);
      OthersUntouched(cfg, Step(cfg, db, run[0]), run[0].time, run[1..], x, id, t);
    }
  }

  lemma {:induction false} TimesAscend(run: seq<Event>)
    requires run != [] && Timeline(run[0].time, run)
    ensures run[0].time <= EndTime(0, run) == EndTime(run[0].time, run[1..])
    decreases |run|
  {
    if |run| > 1 { TimesAscend(run[1..]); }
  }

  /**
   Occupancy is conserved: take any run of calls about one booking that was not
   live when the run began and no longer is at `t` (canceled, expired, or its hold
   run out), whether the row was created or reused. From then on exactly the intervals are
   taken that would be without the run.
   */
  lemma OccupancyIsConserved(cfg: Config, db: Db, now: int, run: seq<Event>, x: RowId, t: int)
    requires Good(cfg, db, now) && Timeline(now, run) && EndTime(now, run) <= t && About(cfg, db, run, x)
    requires !Live(db, x, now) && now <= t && !Live(Exec(cfg, db, run), x, t)
    ensures Taken(Exec(cfg, db, run), t) == Taken(db, t)
  {
    var after := Exec(cfg, db, run);
    hide Exec, Good;
    forall id
      ensures id in db.rows && Live(db, id, t) <==> id in after.rows && Live(after, id, t)
      ensures id in db.rows && Live(db, id, t) ==> SameFrame(db.rows[id], after.rows[id])
    {
      if id != x { OthersUntouched(cfg, db, now, run, x, id, t); }
    }
  }

  // ---- how a booking leaves ----

  /** No call of the run confirms `x`. */
  ghost predicate NeverSealed(cfg: Config, db: Db, run: seq<Event>, x: RowId)
    decreases |run|
  {
    run == []
    || (Decide(cfg, db, run[0].time, run[0].op).effect != Seal(x) && NeverSealed(cfg, Step(cfg, db, run[0]), run[1..], x))
  }

  /** Only a confirmation makes a booking confirmed. */
  lemma {:induction false} UnsealedStaysUnconfirmed(cfg: Config, db: Db, run: seq<Event>, x: RowId)
    requires NeverSealed(cfg, db, run, x) && (x in db.rows ==> !db.rows[x].status.Confirmed?)
    ensures x in Exec(cfg, db, run).rows ==> !Exec(cfg, db, run).rows[x].status.Confirmed?
    decreases |run|
  {
    if run != [] {
      StepConfirmsBySeal(cfg, db, run[0], x);
      hide Step, Decide;
      UnsealedStaysUnconfirmed(cfg, Step(cfg, db, run[0]), run[1..], x);
    }
  }

  lemma StepConfirmsBySeal(cfg: Config, db: Db, ev: Event, x: RowId)
    requires Decide(cfg, db, ev.time, ev.op).effect != Seal(x) && (x in db.rows ==> !db.rows[x].status.Confirmed?)
    ensures x in Step(cfg, db, ev).rows ==> !Step(cfg, db, ev).rows[x].status.Confirmed?
  {
    DecisionIsLawful(cfg, db, ev.time, ev.op);
    hide Decide;
  }

  /**
   A booking that is held, even mailed, but never confirmed: one time to live after the last call exactly the
   intervals are taken that would be without it, whether or not anything swept or canceled it.
   */
  lemma UnconfirmedLeavesByItself(cfg: Config, db: Db, now: int, run: seq<Event>, x: RowId, t: int)
    requires Good(cfg, db, now) && Timeline(now, run) && About(cfg, db, run, x)
    requires !Live(db, x, now) && now <= t && NeverSealed(cfg, db, run, x)
    requires EndTime(now, run) + cfg.ttl <= t
    ensures Taken(Exec(cfg, db, run), t) == Taken(db, t)
  {
    RunKeepsGood(cfg, db, now, run);
    UnsealedStaysUnconfirmed(cfg, db, run, x);
    hide Exec, Good, About, NeverSealed, Taken;
    assert !Live(Exec(cfg, db, run), x, t) by { HoldsEnd(cfg, Exec(cfg, db, run), EndTime(now, run), x, t); }
    OccupancyIsConserved(cfg, db, now, run, x, t);
  }

  lemma HoldsEnd(cfg: Config, db: Db, end: int, x: RowId, t: int)
    requires Good(cfg, db, end) && end + cfg.ttl <= t && (x in db.rows ==> !db.rows[x].status.Confirmed?)
    ensures !Live(db, x, t)
  {
    hide IndexOk;
  }

  /**
   Whether `x` is gone after a write, given whether it was before: canceling, expiring and sweeping it
   away do it, and canceling once more leaves it so.
   */
  predicate GoneAfter(db: Db, now: int, e: Effect, x: RowId, gone: bool) {
    if e == Void(x) || e == Expire(x) || (e.Sweep? && Stale(db, x, now)) then true
    else gone && (e.Nothing? || e.Sweep? || e.Unhold? || Touched(db, e) != x)
  }

  /** The last write to `x` in the run makes it go; `gone` is what held before the run. */
  ghost predicate EndsGone(cfg: Config, db: Db, run: seq<Event>, x: RowId, gone: bool)
    decreases |run|
  {
    if run == [] then gone
    else
      EndsGone(cfg, Step(cfg, db, run[0]), run[1..], x,
               GoneAfter(db, run[0].time, Decide(cfg, db, run[0].time, run[0].op).effect, x, gone))
  }

  /** Canceled and expired bookings occupy nothing. */
  predicate Gone(db: Db, x: RowId) { x in db.rows ==> db.rows[x].status.Canceled? || db.rows[x].status.Expired? }

  lemma StepKeepsGone(cfg: Config, db: Db, ev: Event, x: RowId, gone: bool)
    requires gone ==> Gone(db, x) && x in db.rows
    requires GoneAfter(db, ev.time, Decide(cfg, db, ev.time, ev.op).effect, x, gone)
    ensures Gone(Step(cfg, db, ev), x) && x in Step(cfg, db, ev).rows
  {
    DecisionIsLawful(cfg, db, ev.time, ev.op);
    hide Decide;
  }

  lemma {:induction false} RunEndsGone(cfg: Config, db: Db, run: seq<Event>, x: RowId, gone: bool)
    requires (gone ==> Gone(db, x) && x in db.rows) && EndsGone(cfg, db, run, x, gone)
    ensures Gone(Exec(cfg, db, run), x)
    decreases |run|
  {
    if run != [] {
      var next := GoneAfter(db, run[0].time, Decide(cfg, db, run[0].time, run[0].op).effect, x, gone);
      if next { StepKeepsGone(cfg, db, run[0], x, gone); }
      hide Step, Decide, Gone, GoneAfter;
      RunEndsGone(cfg, Step(cfg, db, run[0]), run[1..], x, next);
    }
  }

  /**
   A booking that is canceled, marked expired or swept away, and at most canceled again after that, is
   gone from the occupancy at once.
   */
  lemma CanceledLeavesAtOnce(cfg: Config, db: Db, now: int, run: seq<Event>, x: RowId, t: int)
    requires Good(cfg, db, now) && Timeline(now, run) && About(cfg, db, run, x)
    requires !Live(db, x, now) && now <= t && EndTime(now, run) <= t
    requires EndsGone(cfg, db, run, x, false)
    ensures Taken(Exec(cfg, db, run), t) == Taken(db, t)
  {
    RunEndsGone(cfg, db, run, x, false);
    hide Exec, Good, About, EndsGone, Taken;
    OccupancyIsConserved(cfg, db, now, run, x, t);
  }
}
