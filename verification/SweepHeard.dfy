/** A run in which a reschedule tells whether expireHolds ran, however long holds last. */
module SweepHeard {
  import opened Store
  import opened Availability
  import opened Lifecycle
  import opened DoubleBooking
  import opened Expiry
  import opened Counterexamples
  import opened RevivedConfirms
  import opened IndexHandler
  import opened OneCall
  import opened SweepTold

  /** Hold x, hold y, confirm y by id. */
  function LapseRun(p: Person, pick: Pick, x: (int, int), y: (int, int), t: int): seq<Event> {
    [At(t, HoldOp(p, x.0, x.1, "a", pick)), At(t, HoldOp(p, y.0, y.1, "b", pick)), At(t, ConfirmBookingById(1, 1, "k"))]
  }

  function OneHeld(cfg: Config, p: Person, x: (int, int), t: int): Db {
    Db(map[0 := RowOf(p, x, Hold, "a", t)], map[0 := t + cfg.ttl], map[0 := 1], {}, 0, 1)
  }

  function BothHeld(cfg: Config, p: Person, x: (int, int), y: (int, int), t: int): Db {
    Db(map[0 := RowOf(p, x, Hold, "a", t), 1 := RowOf(p, y, Hold, "b", t)],
       map[0 := t + cfg.ttl, 1 := t + cfg.ttl], map[0 := 1, 1 := 1], {}, 0, 2)
  }

  /** x is held until t plus the time to live, y is confirmed. */
  function Lapsing(cfg: Config, p: Person, x: (int, int), y: (int, int), t: int): Db {
    Db(map[0 := RowOf(p, x, Hold, "a", t), 1 := RowOf(p, y, Confirmed, "b", t)],
       map[0 := t + cfg.ttl], map[0 := 1], {(ForConfirmById, "k")}, 0, 2)
  }

  lemma SecondIsHeld(cfg: Config, p: Person, pick: Pick, x: (int, int), y: (int, int), t: int)
    requires p in cfg.staff && x != y && x.0 < x.1 && y.0 < y.1 && !Meet(x, y)
    ensures Step(cfg, OneHeld(cfg, p, x, t), LapseRun(p, pick, x, y, t)[1]) == BothHeld(cfg, p, x, y, t)
  {
    hide Step;
    TwoRowsAreIndexed(RowOf(p, x, Hold, "a", t), RowOf(p, y, Hold, "b", t));
    HoldInserts(cfg, OneHeld(cfg, p, x, t), t, p, y.0, y.1, "b", pick);
  }

  lemma SecondIsConfirmed(cfg: Config, p: Person, pick: Pick, x: (int, int), y: (int, int), t: int)
    ensures Step(cfg, BothHeld(cfg, p, x, y, t), LapseRun(p, pick, x, y, t)[2]) == Lapsing(cfg, p, x, y, t)
  {
    hide Step;
    ByIdSeals(cfg, BothHeld(cfg, p, x, y, t), t, 1, 1, "k");
  }

  lemma LapseEnds(cfg: Config, p: Person, pick: Pick, x: (int, int), y: (int, int), t: int)
    requires p in cfg.staff && x != y && x.0 < x.1 && y.0 < y.1 && !Meet(x, y)
    ensures Exec(cfg, Fresh(0), LapseRun(p, pick, x, y, t)) == Lapsing(cfg, p, x, y, t)
  {
    hide Step, BothHeld, Lapsing;
    var run := LapseRun(p, pick, x, y, t);
    FirstHold(cfg, t, p, x.0, x.1, "a", pick);
    SecondIsHeld(cfg, p, pick, x, y, t);
    SecondIsConfirmed(cfg, p, pick, x, y, t);
    ExecNext(cfg, Fresh(0), run, OneHeld(cfg, p, x, t), run[1..]);
    ExecNext(cfg, OneHeld(cfg, p, x, t), run[1..], BothHeld(cfg, p, x, y, t), run[2..]);
    ExecNext(cfg, BothHeld(cfg, p, x, y, t), run[2..], Lapsing(cfg, p, x, y, t), []);
  }

  /** The stale row trips the index. */
  lemma MoveTripsIndex(cfg: Config, p: Person, pick: Pick, x: (int, int), y: (int, int), t: int, now: int)
    requires x != y && x.0 < x.1 && t + cfg.ttl < now <= LastCall(y)
    ensures AnswerTo(cfg, Lapsing(cfg, p, x, y, t), At(now, MoveOp(pick, x, now))) == Rejected(Internal)
  {
    var db := Lapsing(cfg, p, x, y, t);
    assert db.rows[0].SameSlot(p, x.0, x.1) && ActiveTwin(db.rows, 1, p, x.0, x.1);
    TwoRowsAreIndexed(db.rows[0], db.rows[1]);
    MoveIndexIff(db, now, 1, x.0, x.1);
    assert ActiveOverlaps(db.rows, 1, p, x.0, x.1) == {0};
    hide IndexOk, ActiveOverlaps, ActiveTwin;
  }

  /** Swept it does not. */
  lemma MovePassesSwept(cfg: Config, p: Person, pick: Pick, x: (int, int), y: (int, int), t: int, now: int)
    requires x != y && x.0 < x.1 && t + cfg.ttl < now <= LastCall(y)
    ensures AnswerTo(cfg, Cleaned(Lapsing(cfg, p, x, y, t), now), At(now, MoveOp(pick, x, now))) == Accepted(1)
  {
    var db := Lapsing(cfg, p, x, y, t);
    assert Stale(db, 0, now) && StaleTwin(db, now, 1, p, x.0, x.1);
    TwoRowsAreIndexed(db.rows[0], db.rows[1]);
    assert !LiveOver(db, now, 1, x.0, x.1);
    hide IndexOk, Cleaned, StaleTwin, LiveOver;
    SweptMove(cfg, db, now, MoveOp(pick, x, now));
  }

  lemma SweptMove(cfg: Config, db: Db, now: int, op: Op)
    requires op.Reschedule? && IndexOk(db.rows) && op.id in db.rows
    requires MoveAsks(db, now, op.id, op.token, op.start, op.end, op.key)
    requires StaleTwin(db, now, op.id, db.rows[op.id].person, op.start, op.end) && !LiveOver(db, now, op.id, op.start, op.end)
    ensures AnswerTo(cfg, Cleaned(db, now), At(now, op)) == Accepted(op.id)
  {
    var p, b := db.rows[op.id].person, Cleaned(db, now);
    MoveAsksSwept(db, now, op.id, op.token, op.start, op.end, op.key);
    SweptClear(db, now, op.id, op.start, op.end, op.pick);
    SweptOverlaps(db, now, op.id, op.start, op.end);
    SweptIndexes(db, now);
    MoveAnswer(cfg, b, now, op);
    hide Cleaned, AnswerTo, Live, Stale, ActiveOverlaps, ActiveTwin, StaleTwin, IndexOk, MoveAsks;
  }

  lemma {:induction false} HeardOver(cfg: Config, db: Db, first: seq<Event>, second: seq<Event>)
    ensures Heard(cfg, db, first + second) == Heard(cfg, db, first) + Heard(cfg, Exec(cfg, db, first), second)
    decreases |first|
  {
    hide Step, AnswerTo;
    if first == [] {
      assert first + second == second;
    } else {
      assert (first + second)[1..] == first[1..] + second;
      HeardOver(cfg, Step(cfg, db, first[0]), first[1..], second);
    }
  }

  lemma HeardOnce(cfg: Config, db: Db, e: Event)
    requires !e.op.ExpireHolds?
    ensures Heard(cfg, db, [e]) == [VerdictOf(AnswerTo(cfg, db, e))]
  {
    hide Step, AnswerTo;
    assert [e][1..] == [];
  }

  lemma HeardPastSweep(cfg: Config, db: Db, now: int, e: Event)
    requires !e.op.ExpireHolds?
    ensures Heard(cfg, db, [At(now, ExpireHolds), e]) == [VerdictOf(AnswerTo(cfg, Cleaned(db, now), e))]
  {
    SweepStep(cfg, db, now);
    hide Step, AnswerTo, Apply;
    assert [At(now, ExpireHolds), e][1..] == [e];
    HeardOnce(cfg, Cleaned(db, now), e);
  }

  /**
   For any time to live, any two intervals that do not meet, and whatever findFirst returns: hold x and y,
   confirm y, let x lapse and move y onto x. The caller hears whether a sweep came before the move.
   */
  lemma RescheduleHearsSweep(cfg: Config, p: Person, pick: Pick, x: (int, int), y: (int, int), t: int, now: int)
    requires p in cfg.staff && x.0 < x.1 && y.0 < y.1 && !Meet(x, y) && t + cfg.ttl < now <= LastCall(y)
    ensures var run := LapseRun(p, pick, x, y, t);
            var move := At(now, MoveOp(pick, x, now));
            var before := Heard(cfg, Fresh(0), run);
      && Heard(cfg, Fresh(0), run + [move]) == before + [No]
      && Heard(cfg, Fresh(0), run + [At(now, ExpireHolds), move]) == before + [Yes(Accepted(1))]
  {
    var run, move := LapseRun(p, pick, x, y, t), At(now, MoveOp(pick, x, now));
    assert x != y;
    hide Heard, Exec, AnswerTo, LapseRun, Lapsing, Cleaned, Sound;
    LapseEnds(cfg, p, pick, x, y, t);
    MoveTripsIndex(cfg, p, pick, x, y, t, now);
    MovePassesSwept(cfg, p, pick, x, y, t, now);
    HeardOver(cfg, Fresh(0), run, [move]);
    HeardOver(cfg, Fresh(0), run, [At(now, ExpireHolds), move]);
    HeardOnce(cfg, Lapsing(cfg, p, x, y, t), move);
    HeardPastSweep(cfg, Lapsing(cfg, p, x, y, t), now, move);
  }
}
