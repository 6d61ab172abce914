/** When createHold does meet a unique-index error: only after a reschedule. */
module IndexHandler {
  import opened Prelude
  import opened Store
  import opened Availability
  import opened Lifecycle
  import opened Intruders
  import opened Counterexamples
  import opened RevivedConfirms

  /** Another active row at the same interval as `id`. */
  predicate ActiveTwin(rows: map<RowId, Row>, id: RowId, p: Person, s: int, e: int) {
    exists o :: o in rows && o != id && rows[o].status.Active() && rows[o].SameSlot(p, s, e)
  }

  /** The dead row findFirst returned shares its interval with an active one. */
  predicate RevivesOverTwin(db: Db, now: int, p: Person, s: int, e: int, pick: Pick) {
    var found := FindFirst(pick, SlotRows(db.rows, p, s, e));
    found.Some? && !Live(db, found.value, now) && ActiveTwin(db.rows, found.value, p, s, e)
  }

  lemma ReviveIndexIff(db: Db, now: int, id: RowId, key: string, expires: int)
    requires IndexOk(db.rows) && KeyRows(db.rows, key) == {} && id in db.rows
    ensures IndexOk(Apply(db, now, Revive(id, key, expires)).rows)
            <==> !ActiveTwin(db.rows, id, db.rows[id].person, db.rows[id].start, db.rows[id].end)
  {
    var rows := Apply(db, now, Revive(id, key, expires)).rows;
    assert rows[id].status.Active();
    assert forall o :: o in db.rows ==> o !in KeyRows(db.rows, key);
    if ActiveTwin(db.rows, id, db.rows[id].person, db.rows[id].start, db.rows[id].end) {
      var o :| o in db.rows && o != id && db.rows[o].status.Active()
               && db.rows[o].SameSlot(db.rows[id].person, db.rows[id].start, db.rows[id].end);
      assert rows[o] == db.rows[o];
    }
  }

  /** A row for a slot that has none breaks no index. */
  lemma InsertKeepsIndexes(db: Db, now: int, row: Row, expires: int)
    requires IndexOk(db.rows) && KeyRows(db.rows, row.key) == {}
    requires SlotRows(db.rows, row.person, row.start, row.end) == {} && db.nextId !in db.rows
    ensures IndexOk(Apply(db, now, Insert(row, expires)).rows)
  {
    assert forall o :: o in db.rows ==> o !in KeyRows(db.rows, row.key) && o !in SlotRows(db.rows, row.person, row.start, row.end);
  }

  /** An attempt under a new key is aborted by an index if and only if it revives a row beside an active twin. */
  lemma ClashIff(cfg: Config, db: Db, now: int, p: Person, s: int, e: int, key: string, pick: Pick)
    requires IndexOk(db.rows) && KeyRows(db.rows, key) == {} && db.nextId !in db.rows
    ensures TryHold(cfg, db, now, p, s, e, key, pick).Clash? <==> RevivesOverTwin(db, now, p, s, e, pick)
  {
    var same := SlotRows(db.rows, p, s, e);
    match FindFirst(pick, same)
    case Some(id) =>
      assert id in same;
      ReviveIndexIff(db, now, id, key, now + cfg.ttl);
      hide IndexOk, Live, ActiveTwin;
    case None =>
      InsertKeepsIndexes(db, now, Row(p, s, e, Hold, key, None, now), now + cfg.ttl);
      hide IndexOk, Live, Blocked, ActiveTwin;
  }

  // ---- a run that gets there: the second booking is moved onto the canceled first one ----

  function MoveToken(t: int): Token { Token(true, RescheduleIt, true, 1, 0, t / 1000 + 1) }

  function MoveOp(pick: Pick, x: (int, int), t: int): Op { Reschedule(1, MoveToken(t), x.0, x.1, "r", pick) }

  function Moved(cfg: Config, p: Person, x: (int, int), y: (int, int), t: int): Db {
    var db := After(cfg, p, x, y, t, 5);
    db.(rows := map[0 := RowOf(p, x, Canceled, "a", t), 1 := RowOf(p, x, Confirmed, "b", t)], used := db.used + {(ForReschedule, "r")})
  }

  function TwinRun(p: Person, pick: Pick, x: (int, int), y: (int, int), t: int): seq<Event> {
    ClashRun(p, pick, x, y, t)[..5] + [At(t, MoveOp(pick, x, t))]
  }

  lemma RescheduleMoves(cfg: Config, db: Db, now: int, id: RowId, t: Token, s: int, e: int, key: string, pick: Pick)
    requires key != "" && (ForReschedule, key) !in db.used && s < e && id in db.rows && db.rows[id].status.Confirmed?
    requires Unexpired(t, now) && TokenFits(t, RescheduleIt, id) && now <= db.rows[id].start - CHANGE_DEADLINE
    requires (db.rows[id].start, db.rows[id].end) != (s, e) && TargetClear(db, id, s, e, now, pick)
    requires IndexOk(db.rows[id := db.rows[id].(start := s, end := e)])
    ensures Step(cfg, db, At(now, Reschedule(id, t, s, e, key, pick)))
         == db.(rows := db.rows[id := db.rows[id].(start := s, end := e)], used := db.used + {(ForReschedule, key)})
  {
    hide IndexOk, TargetClear, Unexpired, TokenFits;
    assert map[] + db.secrets == db.secrets;
  }

  lemma MoveStep(cfg: Config, p: Person, pick: Pick, x: (int, int), y: (int, int), t: int)
    requires x.0 < x.1 && x != y && t <= LastCall(y)
    ensures Step(cfg, After(cfg, p, x, y, t, 5), At(t, MoveOp(pick, x, t))) == Moved(cfg, p, x, y, t)
  {
    hide Step, IndexOk;
    var db := After(cfg, p, x, y, t, 5);
    assert ActiveOverlaps(db.rows, 1, p, x.0, x.1) == {};
    TwinIsIndexed(RowOf(p, x, Canceled, "a", t), RowOf(p, x, Confirmed, "b", t));
    assert db.rows[1 := db.rows[1].(start := x.0, end := x.1)] == Moved(cfg, p, x, y, t).rows;
    RescheduleMoves(cfg, db, t, 1, MoveToken(t), x.0, x.1, "r", pick);
  }

  lemma TwinIsIndexed(a: Row, b: Row)
    requires a.key != b.key && !a.status.Active()
    ensures IndexOk(map[0 := a, 1 := b])
  {
  }

  lemma FirstFive(cfg: Config, p: Person, pick: Pick, x: (int, int), y: (int, int), t: int)
    requires p in cfg.staff && x != y && x.0 < x.1 && y.0 < y.1 && t <= LastCall(x)
    ensures Exec(cfg, Fresh(0), ClashRun(p, pick, x, y, t)[..5]) == After(cfg, p, x, y, t, 5)
  {
    hide Step, After;
    var run := ClashRun(p, pick, x, y, t)[..5];
    var s1 := Step(cfg, Fresh(0), run[0]);
    var s2 := Step(cfg, s1, run[1]);
    ConfirmedAndCanceled(cfg, p, pick, x, y, t);
    Overlaid(cfg, p, pick, x, y, t);
    OverlaidConfirmed(cfg, p, pick, x, y, t);
    ExecNext(cfg, Fresh(0), run, s1, run[1..]);
    ExecNext(cfg, s1, run[1..], s2, run[2..]);
    ExecNext(cfg, s2, run[2..], After(cfg, p, x, y, t, 3), run[3..]);
    ExecNext(cfg, After(cfg, p, x, y, t, 3), run[3..], After(cfg, p, x, y, t, 4), run[4..]);
    ExecNext(cfg, After(cfg, p, x, y, t, 4), run[4..], After(cfg, p, x, y, t, 5), []);
  }

  lemma {:induction false} ExecOver(cfg: Config, db: Db, first: seq<Event>, second: seq<Event>)
    ensures Exec(cfg, db, first + second) == Exec(cfg, Exec(cfg, db, first), second)
    decreases |first|
  {
    hide Step;
    if first == [] {
      assert first + second == second;
    } else {
      assert (first + second)[1..] == first[1..] + second;
      ExecOver(cfg, Step(cfg, db, first[0]), first[1..], second);
    }
  }

  /** After a reschedule createHold can meet the slot index, and its handler answers with a conflict. */
  lemma HandlerIsLiveAfterReschedule(cfg: Config, p: Person, pick: Pick, x: (int, int), y: (int, int), t: int)
    requires p in cfg.staff && x != y && x.0 < x.1 && y.0 < y.1 && t <= LastCall(x) && t <= LastCall(y)
    ensures var db := Exec(cfg, Fresh(0), TwinRun(p, pick, x, y, t));
      exists other: Pick :: TryHold(cfg, db, t, p, x.0, x.1, "c", other).Clash?
        && Decide(cfg, db, t, HoldOp(p, x.0, x.1, "c", other)).answer == Rejected(Conflict)
  {
    FirstFive(cfg, p, pick, x, y, t);
    MoveStep(cfg, p, pick, x, y, t);
    var move := [At(t, MoveOp(pick, x, t))];
    ExecOver(cfg, Fresh(0), ClashRun(p, pick, x, y, t)[..5], move);
    ExecNext(cfg, After(cfg, p, x, y, t, 5), move, Moved(cfg, p, x, y, t), []);
    hide Step, Exec, ClashRun, MoveOp, After, Decide, TryHold, HoldOp;
    TwinClashes(cfg, p, x, y, t);
  }

  lemma TwinClashes(cfg: Config, p: Person, x: (int, int), y: (int, int), t: int)
    requires p in cfg.staff && x.0 < x.1
    ensures var db := Moved(cfg, p, x, y, t);
      exists other: Pick :: TryHold(cfg, db, t, p, x.0, x.1, "c", other).Clash?
        && Decide(cfg, db, t, HoldOp(p, x.0, x.1, "c", other)).answer == Rejected(Conflict)
  {
    var db := Moved(cfg, p, x, y, t);
    var same := SlotRows(db.rows, p, x.0, x.1);
    assert 0 in same && !Live(db, 0, t);
    assert db.rows[1].SameSlot(p, x.0, x.1) && db.rows[1].status.Active();
    TwinIsIndexed(db.rows[0], db.rows[1]);
    ClashIff(cfg, db, t, p, x.0, x.1, "c", Prefer(same, 0));
    HoldIsAttempt(cfg, db, t, p, x.0, x.1, "c", Prefer(same, 0));
    hide IndexOk, TryHold, Decide;
    assert RevivesOverTwin(db, t, p, x.0, x.1, Prefer(same, 0));
  }
}
