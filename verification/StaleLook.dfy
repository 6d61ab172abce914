/** A run in which the single look of a reschedule misses a live booking. */
module StaleLook {
  import opened Store
  import opened Availability
  import opened Lifecycle
  import opened DoubleBooking
  import opened Counterexamples
  import opened RevivedConfirms
  import opened IndexHandler
  import opened Intruders

  /** Hold w and confirm it by id, hold x and let it lapse, hold y over x. */
  function LookRun(cfg: Config, p: Person, pick: Pick, w: (int, int), x: (int, int), y: (int, int), t: int): seq<Event> {
    [At(t, HoldOp(p, w.0, w.1, "a", pick)), At(t, ConfirmBookingById(0, 1, "k")), At(t, HoldOp(p, x.0, x.1, "b", pick)),
     At(t + cfg.ttl, HoldOp(p, y.0, y.1, "c", pick))]
  }

  /** Then move w to z; the look returns the lapsed row. */
  ghost function LookMove(z: (int, int), now: int): Event {
    At(now, Reschedule(0, Token(true, RescheduleIt, true, 0, 0, now / 1000 + 1), z.0, z.1, "r", Prefer({1, 2}, 1)))
  }

  function FirstAt(p: Person, w: (int, int), t: int): Row { RowOf(p, w, Confirmed, "a", t) }

  function SecondAt(p: Person, x: (int, int), t: int): Row { RowOf(p, x, Hold, "b", t) }

  function ThirdAt(p: Person, y: (int, int), t: int): Row { RowOf(p, y, Hold, "c", t) }

  /** The tables after `k` calls. */
  function Stage(cfg: Config, p: Person, w: (int, int), x: (int, int), y: (int, int), t: int, k: nat): Db {
    var until := t + cfg.ttl;
    var spent := {(ForConfirmById, "k")};
    if k == 1 then Db(map[0 := RowOf(p, w, Hold, "a", t)], map[0 := until], map[0 := 1], {}, 0, 1)
    else if k == 2 then Db(map[0 := FirstAt(p, w, t)], map[], map[], spent, 0, 1)
    else if k == 3 then Db(map[0 := FirstAt(p, w, t), 1 := SecondAt(p, x, t)], map[1 := until], map[1 := 1], spent, 0, 2)
    else
      Db(map[0 := FirstAt(p, w, t), 1 := SecondAt(p, x, t), 2 := ThirdAt(p, y, until)],
         map[1 := until, 2 := until + cfg.ttl], map[1 := 1, 2 := 1], spent, 0, 3)
  }

  /** Pairwise different rows satisfy both indexes. */
  lemma ThreeRowsAreIndexed(a: Row, b: Row, c: Row)
    requires a.key != b.key && a.key != c.key && b.key != c.key
    requires !a.SameSlot(b.person, b.start, b.end) && !a.SameSlot(c.person, c.start, c.end) && !b.SameSlot(c.person, c.start, c.end)
    ensures IndexOk(map[0 := a, 1 := b, 2 := c])
  {
  }

  lemma FirstConfirmed(cfg: Config, p: Person, pick: Pick, w: (int, int), x: (int, int), y: (int, int), t: int)
    requires p in cfg.staff && w.0 < w.1
    ensures var run := LookRun(cfg, p, pick, w, x, y, t);
      Step(cfg, Fresh(0), run[0]) == Stage(cfg, p, w, x, y, t, 1) && Step(cfg, Stage(cfg, p, w, x, y, t, 1), run[1]) == Stage(cfg, p, w, x, y, t, 2)
  {
    hide Step;
    FirstHold(cfg, t, p, w.0, w.1, "a", pick);
    ByIdSeals(cfg, Stage(cfg, p, w, x, y, t, 1), t, 0, 1, "k");
  }

  lemma SecondHeld(cfg: Config, p: Person, pick: Pick, w: (int, int), x: (int, int), y: (int, int), t: int)
    requires p in cfg.staff && w.0 < w.1 && x.0 < x.1 && !Meet(w, x)
    ensures Step(cfg, Stage(cfg, p, w, x, y, t, 2), LookRun(cfg, p, pick, w, x, y, t)[2]) == Stage(cfg, p, w, x, y, t, 3)
  {
    hide Step;
    TwoRowsAreIndexed(FirstAt(p, w, t), SecondAt(p, x, t));
    HoldInserts(cfg, Stage(cfg, p, w, x, y, t, 2), t, p, x.0, x.1, "b", pick);
  }

  lemma ThirdIsFree(cfg: Config, p: Person, w: (int, int), x: (int, int), y: (int, int), t: int)
    requires w.0 < w.1 && y.0 < y.1 && !Meet(w, y) && x != y
    ensures var db := Stage(cfg, p, w, x, y, t, 3);
            var now := t + cfg.ttl;
      && KeyRows(db.rows, "c") == {} && SlotRows(db.rows, p, y.0, y.1) == {} && !Blocked(db, {}, p, y.0, y.1, now)
  {
    assert !Live(Stage(cfg, p, w, x, y, t, 3), 1, t + cfg.ttl);
  }

  lemma ThirdHeld(cfg: Config, p: Person, pick: Pick, w: (int, int), x: (int, int), y: (int, int), t: int)
    requires p in cfg.staff && w.0 < w.1 && x.0 < x.1 && y.0 < y.1 && !Meet(w, x) && !Meet(w, y) && x != y
    ensures Step(cfg, Stage(cfg, p, w, x, y, t, 3), LookRun(cfg, p, pick, w, x, y, t)[3]) == Stage(cfg, p, w, x, y, t, 4)
  {
    hide Step, IndexOk, KeyRows, SlotRows, Blocked;
    var db, now := Stage(cfg, p, w, x, y, t, 3), t + cfg.ttl;
    ThirdIsFree(cfg, p, w, x, y, t);
    ThreeRowsAreIndexed(FirstAt(p, w, t), SecondAt(p, x, t), ThirdAt(p, y, now));
    assert db.rows[2 := ThirdAt(p, y, now)] == Stage(cfg, p, w, x, y, t, 4).rows;
    HoldInserts(cfg, db, now, p, y.0, y.1, "c", pick);
  }

  lemma LookRunEnds(cfg: Config, p: Person, pick: Pick, w: (int, int), x: (int, int), y: (int, int), t: int)
    requires p in cfg.staff && w.0 < w.1 && x.0 < x.1 && y.0 < y.1 && !Meet(w, x) && !Meet(w, y) && x != y
    ensures Exec(cfg, Fresh(0), LookRun(cfg, p, pick, w, x, y, t)) == Stage(cfg, p, w, x, y, t, 4)
  {
    hide Step, Stage;
    var run := LookRun(cfg, p, pick, w, x, y, t);
    FirstConfirmed(cfg, p, pick, w, x, y, t);
    SecondHeld(cfg, p, pick, w, x, y, t);
    ThirdHeld(cfg, p, pick, w, x, y, t);
    ExecNext(cfg, Fresh(0), run, Stage(cfg, p, w, x, y, t, 1), run[1..]);
    ExecNext(cfg, Stage(cfg, p, w, x, y, t, 1), run[1..], Stage(cfg, p, w, x, y, t, 2), run[2..]);
    ExecNext(cfg, Stage(cfg, p, w, x, y, t, 2), run[2..], Stage(cfg, p, w, x, y, t, 3), run[3..]);
    ExecNext(cfg, Stage(cfg, p, w, x, y, t, 3), run[3..], Stage(cfg, p, w, x, y, t, 4), []);
  }

  function Shifted(db: Db, z: (int, int)): Db
    requires 0 in db.rows
  {
    db.(rows := db.rows[0 := db.rows[0].(start := z.0, end := z.1)], used := db.used + {(ForReschedule, "r")})
  }

  /** The look may return the lapsed row, and the index has nothing to object. */
  lemma LookPasses(cfg: Config, p: Person, w: (int, int), x: (int, int), y: (int, int), z: (int, int), t: int)
    requires Meet(z, x) && Meet(z, y) && x != y && z != x && z != y
    ensures var db := Stage(cfg, p, w, x, y, t, 4);
      TargetClear(db, 0, z.0, z.1, t + cfg.ttl, Prefer({1, 2}, 1))
      && IndexOk(db.rows[0 := db.rows[0].(start := z.0, end := z.1)])
  {
    var db := Stage(cfg, p, w, x, y, t, 4);
    assert ActiveOverlaps(db.rows, 0, p, z.0, z.1) == {1, 2};
    assert !Live(db, 1, t + cfg.ttl);
    ThreeRowsAreIndexed(RowOf(p, z, Confirmed, "a", t), SecondAt(p, x, t), ThirdAt(p, y, t + cfg.ttl));
    assert db.rows[0 := db.rows[0].(start := z.0, end := z.1)]
        == map[0 := RowOf(p, z, Confirmed, "a", t), 1 := SecondAt(p, x, t), 2 := ThirdAt(p, y, t + cfg.ttl)];
    hide IndexOk;
  }

  lemma LookMoves(cfg: Config, p: Person, w: (int, int), x: (int, int), y: (int, int), z: (int, int), t: int)
    requires Meet(z, x) && Meet(z, y) && x != y && z != x && z != y && z != w && t + cfg.ttl <= LastCall(w)
    ensures Step(cfg, Stage(cfg, p, w, x, y, t, 4), LookMove(z, t + cfg.ttl)) == Shifted(Stage(cfg, p, w, x, y, t, 4), z)
  {
    hide Step, IndexOk, TargetClear;
    LookPasses(cfg, p, w, x, y, z, t);
    RescheduleMoves(cfg, Stage(cfg, p, w, x, y, t, 4), t + cfg.ttl, 0, LookMove(z, t + cfg.ttl).op.token,
                    z.0, z.1, "r", Prefer({1, 2}, 1));
  }

  lemma ApartUntilThen(cfg: Config, p: Person, w: (int, int), x: (int, int), y: (int, int), z: (int, int), t: int)
    requires w.0 < w.1 && y.0 < y.1 && !Meet(w, y) && Meet(z, y)
    ensures Apart(Stage(cfg, p, w, x, y, t, 4), t + cfg.ttl)
    ensures !Apart(Shifted(Stage(cfg, p, w, x, y, t, 4), z), t + cfg.ttl)
  {
    var db, now := Stage(cfg, p, w, x, y, t, 4), t + cfg.ttl;
    assert !Live(db, 1, now);
    var after := Shifted(db, z);
    assert Live(after, 0, now) && Live(after, 2, now) && Collide(after.rows[0], after.rows[2]);
  }

  /**
   Any three different intervals x, y, z that meet one another, and a w apart from x and y, lead to a double
   booking without reviving a row: w is moved to z past the lapsed x onto the live y.
   */
  lemma StaleLookDoubleBooks(cfg: Config, p: Person, pick: Pick, w: (int, int), x: (int, int), y: (int, int), z: (int, int), t: int)
    requires p in cfg.staff && w.0 < w.1 && !Meet(w, x) && !Meet(w, y) && z != w && t + cfg.ttl <= LastCall(w)
    requires Meet(x, y) && Meet(z, x) && Meet(z, y) && x != y && z != x && z != y
    ensures var db := Exec(cfg, Fresh(0), LookRun(cfg, p, pick, w, x, y, t));
            var now := t + cfg.ttl;
      Apart(db, now) && !Apart(Step(cfg, db, LookMove(z, now)), now)
  {
    assert x.0 < x.1 && y.0 < y.1;
    hide *;
    LookRunEnds(cfg, p, pick, w, x, y, t);
    LookMoves(cfg, p, w, x, y, z, t);
    ApartUntilThen(cfg, p, w, x, y, z, t);
  }
}
