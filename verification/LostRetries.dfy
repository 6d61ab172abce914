/** Runs in which an accepted request, sent again under its key, is refused. */
module LostRetries {
  import opened Prelude
  import opened Store
  import opened Availability
  import opened Lifecycle
  import opened Counterexamples
  import opened RevivedConfirms

  /** A hold that lapsed, and another customer's hold of the same interval. */
  function TakenOverRun(cfg: Config, p: Person, pick: Pick, x: (int, int)): seq<Event> {
    [At(0, HoldOp(p, x.0, x.1, "a", pick)), At(cfg.ttl, HoldOp(p, x.0, x.1, "b", pick))]
  }

  function TakenOver(p: Person, x: (int, int), t: int): Db { Db(map[0 := RowOf(p, x, Hold, "b", 0)], map[0 := t + t], map[0 := 1], {}, 0, 1) }

  lemma OneRowIsIndexed(row: Row)
    ensures IndexOk(map[0 := row])
  {
  }

  lemma TakesOver(cfg: Config, p: Person, pick: Pick, x: (int, int))
    requires p in cfg.staff && x.0 < x.1
    ensures Exec(cfg, Fresh(0), TakenOverRun(cfg, p, pick, x)) == TakenOver(p, x, cfg.ttl)
  {
    hide Step, IndexOk;
    var db := HeldDb(p, x, cfg.ttl);
    var run := TakenOverRun(cfg, p, pick, x);
    FirstHold(cfg, 0, p, x.0, x.1, "a", pick);
    OneRowIsIndexed(RowOf(p, x, Hold, "b", 0));
    assert SlotRows(db.rows, p, x.0, x.1) == {0} && KeyRows(db.rows, "b") == {};
    assert db.rows[0 := RowOf(p, x, Hold, "b", 0)] == map[0 := RowOf(p, x, Hold, "b", 0)];
    HoldRevives(cfg, db, cfg.ttl, p, x.0, x.1, "b", pick, 0);
    assert map[] + db.secrets == db.secrets;
    ExecNext(cfg, Fresh(0), run, db, run[1..]);
    ExecNext(cfg, db, run[1..], TakenOver(p, x, cfg.ttl), []);
  }

  /** The first customer sends his request again: the row has lost his key, and he gets a conflict. */
  lemma TakenOverHoldIsRefused(cfg: Config, p: Person, pick: Pick, x: (int, int))
    requires p in cfg.staff && x.0 < x.1
    ensures var run := TakenOverRun(cfg, p, pick, x);
      && AnswerTo(cfg, Fresh(0), run[0]) == Accepted(0)
      && AnswerTo(cfg, Exec(cfg, Fresh(0), run), At(cfg.ttl, run[0].op)) == Rejected(Conflict)
  {
    TakesOver(cfg, p, pick, x);
    FirstIsAccepted(cfg, p, pick, x);
    KeyIsUnknown(cfg, p, pick, x);
    hide Exec, Decide;
  }

  lemma FirstIsAccepted(cfg: Config, p: Person, pick: Pick, x: (int, int))
    requires p in cfg.staff && x.0 < x.1
    ensures AnswerTo(cfg, Fresh(0), At(0, HoldOp(p, x.0, x.1, "a", pick))) == Accepted(0)
  {
    var db := Fresh(0);
    assert KeyRows(db.rows, "a") == {} && SlotRows(db.rows, p, x.0, x.1) == {};
    HoldIsAttempt(cfg, db, 0, p, x.0, x.1, "a", pick);
    OneRowIsIndexed(RowOf(p, x, Hold, "a", 0));
    hide Decide, IndexOk;
  }

  lemma KeyIsUnknown(cfg: Config, p: Person, pick: Pick, x: (int, int))
    requires p in cfg.staff && x.0 < x.1
    ensures AnswerTo(cfg, TakenOver(p, x, cfg.ttl), At(cfg.ttl, HoldOp(p, x.0, x.1, "a", pick))) == Rejected(Conflict)
  {
    var db := TakenOver(p, x, cfg.ttl);
    assert KeyRows(db.rows, "a") == {} && SlotRows(db.rows, p, x.0, x.1) == {0} && Live(db, 0, cfg.ttl);
    HoldIsAttempt(cfg, db, cfg.ttl, p, x.0, x.1, "a", pick);
    hide Decide, IndexOk;
  }

  /** A booking is confirmed and canceled, canceled again under a new key, and then held anew. */
  function UnrecordedRun(p: Person, pick: Pick, x: (int, int), t: int): seq<Event> {
    ClashRun(p, pick, x, x, t)[..3] + [At(t, CancelBooking(0, CancelToken(t), "n")), At(t, HoldOp(p, x.0, x.1, "c", pick))]
  }

  function HeldAnew(cfg: Config, p: Person, x: (int, int), t: int): Db {
    After(cfg, p, x, x, t, 3).(rows := map[0 := RowOf(p, x, Hold, "c", t)], holds := map[0 := t + cfg.ttl], secrets := map[0 := 1])
  }

  lemma CanceledAgain(cfg: Config, p: Person, x: (int, int), t: int)
    ensures var db := After(cfg, p, x, x, t, 3);
            var ev := At(t, CancelBooking(0, CancelToken(t), "n"));
      AnswerTo(cfg, db, ev) == Accepted(0) && Step(cfg, db, ev) == db
  {
  }

  lemma HoldsAnew(cfg: Config, p: Person, pick: Pick, x: (int, int), t: int)
    requires p in cfg.staff && x.0 < x.1
    ensures Step(cfg, After(cfg, p, x, x, t, 3), At(t, HoldOp(p, x.0, x.1, "c", pick))) == HeldAnew(cfg, p, x, t)
  {
    hide Step, IndexOk;
    var db := After(cfg, p, x, x, t, 3);
    OneRowIsIndexed(RowOf(p, x, Hold, "c", t));
    assert SlotRows(db.rows, p, x.0, x.1) == {0} && KeyRows(db.rows, "c") == {};
    assert db.rows[0 := RowOf(p, x, Hold, "c", t)] == map[0 := RowOf(p, x, Hold, "c", t)];
    HoldRevives(cfg, db, t, p, x.0, x.1, "c", pick, 0);
    assert map[0 := 1] + db.secrets == map[0 := 1];
  }

  lemma UnrecordedEnds(cfg: Config, p: Person, pick: Pick, x: (int, int), t: int)
    requires p in cfg.staff && x.0 < x.1 && t <= LastCall(x)
    ensures Exec(cfg, Fresh(0), UnrecordedRun(p, pick, x, t)) == HeldAnew(cfg, p, x, t)
  {
    hide Step, After, HeldAnew;
    var run := UnrecordedRun(p, pick, x, t);
    var s1 := Step(cfg, Fresh(0), run[0]);
    var s2 := Step(cfg, s1, run[1]);
    var s3 := After(cfg, p, x, x, t, 3);
    ConfirmedAndCanceled(cfg, p, pick, x, x, t);
    CanceledAgain(cfg, p, x, t);
    HoldsAnew(cfg, p, pick, x, t);
    ExecNext(cfg, Fresh(0), run, s1, run[1..]);
    ExecNext(cfg, s1, run[1..], s2, run[2..]);
    ExecNext(cfg, s2, run[2..], s3, run[3..]);
    ExecNext(cfg, s3, run[3..], s3, run[4..]);
    ExecNext(cfg, s3, run[4..], HeldAnew(cfg, p, x, t), []);
  }

  /** The second cancellation was accepted without its key being recorded; sent again, it is refused. */
  lemma UnrecordedCancelIsRefused(cfg: Config, p: Person, pick: Pick, x: (int, int), t: int)
    requires p in cfg.staff && x.0 < x.1 && t <= LastCall(x)
    ensures var run := UnrecordedRun(p, pick, x, t);
      && AnswerTo(cfg, Exec(cfg, Fresh(0), run[..3]), run[3]) == Accepted(0)
      && AnswerTo(cfg, Exec(cfg, Fresh(0), run), At(t, run[3].op)) == Rejected(Conflict)
  {
    var run := UnrecordedRun(p, pick, x, t);
    UnrecordedEnds(cfg, p, pick, x, t);
    FirstThree(cfg, p, pick, x, t);
    CanceledAgain(cfg, p, x, t);
    HeldIsNotCanceled(cfg, p, x, t);
    assert run[..3] == ClashRun(p, pick, x, x, t)[..3];
    hide Exec, Decide, After, HeldAnew;
  }

  lemma HeldIsNotCanceled(cfg: Config, p: Person, x: (int, int), t: int)
    ensures AnswerTo(cfg, HeldAnew(cfg, p, x, t), At(t, CancelBooking(0, CancelToken(t), "n"))) == Rejected(Conflict)
  {
  }

  lemma FirstThree(cfg: Config, p: Person, pick: Pick, x: (int, int), t: int)
    requires p in cfg.staff && x.0 < x.1 && t <= LastCall(x)
    ensures Exec(cfg, Fresh(0), ClashRun(p, pick, x, x, t)[..3]) == After(cfg, p, x, x, t, 3)
  {
    hide Step, After;
    var run := ClashRun(p, pick, x, x, t)[..3];
    var s1 := Step(cfg, Fresh(0), run[0]);
    var s2 := Step(cfg, s1, run[1]);
    ConfirmedAndCanceled(cfg, p, pick, x, x, t);
    ExecNext(cfg, Fresh(0), run, s1, run[1..]);
    ExecNext(cfg, s1, run[1..], s2, run[2..]);
    ExecNext(cfg, s2, run[2..], After(cfg, p, x, x, t, 3), []);
  }
}
