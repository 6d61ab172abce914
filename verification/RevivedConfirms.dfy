/** Confirming by id can confirm two overlapping bookings, however long holds last. */
module RevivedConfirms {
  import opened Prelude
  import opened Store
  import opened Availability
  import opened Lifecycle
  import opened DoubleBooking
  import opened ConfirmedBookings
  import opened Counterexamples

  lemma ByIdSeals(cfg: Config, db: Db, now: int, id: RowId, given: int, key: string)
    requires key != "" && (ForConfirmById, key) !in db.used && id in db.rows && db.rows[id].status.Hold?
    requires id in db.secrets && db.secrets[id] == given && now < db.rows[id].created + BY_ID_WINDOW
    ensures Step(cfg, db, At(now, ConfirmBookingById(id, given, key)))
         == Db(db.rows[id := db.rows[id].(status := Confirmed, jti := None)], db.holds - {id}, db.secrets - {id},
               db.used + {(ForConfirmById, key)}, db.cursor, db.nextId)
  {
    assert map[] + (db.secrets - {id}) == db.secrets - {id};
  }

  lemma CancelVoids(cfg: Config, db: Db, now: int, id: RowId, t: Token, key: string)
    requires key != "" && (ForCancel, key) !in db.used && id in db.rows && db.rows[id].status.Confirmed?
    requires Unexpired(t, now) && TokenFits(t, CancelIt, id) && now <= db.rows[id].start - CHANGE_DEADLINE
    ensures Step(cfg, db, At(now, CancelBooking(id, t, key)))
         == db.(rows := db.rows[id := db.rows[id].(status := Canceled)], holds := db.holds - {id},
                used := db.used + {(ForCancel, key)})
  {
    assert map[] + db.secrets == db.secrets;
  }

  // ---- the run: x is confirmed and canceled, y is confirmed over it, x is revived and confirmed ----

  /** The last instant at which a booking of x can be canceled; all calls are made then. */
  function LastCall(x: (int, int)): int { x.0 - CHANGE_DEADLINE }

  function RowOf(p: Person, x: (int, int), status: Status, key: string, t: int): Row { Row(p, x.0, x.1, status, key, None, t) }

  function CancelToken(t: int): Token { Token(true, CancelIt, true, 0, 0, t / 1000 + 1) }

  function ClashRun(p: Person, pick: Pick, x: (int, int), y: (int, int), t: int): seq<Event> {
    [At(t, HoldOp(p, x.0, x.1, "a", pick)), At(t, ConfirmBookingById(0, 1, "k")), At(t, CancelBooking(0, CancelToken(t), "k")),
     At(t, HoldOp(p, y.0, y.1, "b", pick)), At(t, ConfirmBookingById(1, 1, "l")),
     At(t, HoldOp(p, x.0, x.1, "c", pick)), At(t, ConfirmBookingById(0, 1, "m"))]
  }

  /** The tables after the first `k` calls, from the third on. */
  function After(cfg: Config, p: Person, x: (int, int), y: (int, int), t: int, k: nat): Db {
    var spent := {(ForConfirmById, "k"), (ForCancel, "k")};
    var more := spent + {(ForConfirmById, "l")};
    var canceled := RowOf(p, x, Canceled, "a", t);
    var confirmed := RowOf(p, y, Confirmed, "b", t);
    if k == 3 then Db(map[0 := canceled], map[], map[], spent, 0, 1)
    else if k == 4 then
      Db(map[0 := canceled, 1 := RowOf(p, y, Hold, "b", t)], map[1 := t + cfg.ttl], map[1 := 1], spent, 0, 2)
    else if k == 5 then Db(map[0 := canceled, 1 := confirmed], map[], map[], more, 0, 2)
    else if k == 6 then
      Db(map[0 := RowOf(p, x, Hold, "c", t), 1 := confirmed], map[0 := t + cfg.ttl], map[0 := 1], more, 0, 2)
    else
      Db(map[0 := RowOf(p, x, Confirmed, "c", t), 1 := confirmed], map[], map[], more + {(ForConfirmById, "m")}, 0, 2)
  }

  lemma ConfirmedAndCanceled(cfg: Config, p: Person, pick: Pick, x: (int, int), y: (int, int), t: int)
    requires p in cfg.staff && x.0 < x.1 && t <= LastCall(x)
    ensures var run := ClashRun(p, pick, x, y, t);
      Step(cfg, Step(cfg, Step(cfg, Fresh(0), run[0]), run[1]), run[2]) == After(cfg, p, x, y, t, 3)
  {
    hide Step;
    FirstHold(cfg, t, p, x.0, x.1, "a", pick);
    var db := Step(cfg, Fresh(0), ClashRun(p, pick, x, y, t)[0]);
    ByIdSeals(cfg, db, t, 0, 1, "k");
    var next := Step(cfg, db, ClashRun(p, pick, x, y, t)[1]);
    CancelVoids(cfg, next, t, 0, CancelToken(t), "k");
  }

  lemma Overlaid(cfg: Config, p: Person, pick: Pick, x: (int, int), y: (int, int), t: int)
    requires p in cfg.staff && x != y && y.0 < y.1
    ensures Step(cfg, After(cfg, p, x, y, t, 3), ClashRun(p, pick, x, y, t)[3]) == After(cfg, p, x, y, t, 4)
  {
    hide Step;
    var canceled, held := RowOf(p, x, Canceled, "a", t), RowOf(p, y, Hold, "b", t);
    TwoRowsAreIndexed(canceled, held);
    assert After(cfg, p, x, y, t, 3).rows[1 := held] == map[0 := canceled, 1 := held];
    HoldInserts(cfg, After(cfg, p, x, y, t, 3), t, p, y.0, y.1, "b", pick);
  }

  lemma OverlaidConfirmed(cfg: Config, p: Person, pick: Pick, x: (int, int), y: (int, int), t: int)
    ensures Step(cfg, After(cfg, p, x, y, t, 4), ClashRun(p, pick, x, y, t)[4]) == After(cfg, p, x, y, t, 5)
  {
    hide Step;
    ByIdSeals(cfg, After(cfg, p, x, y, t, 4), t, 1, 1, "l");
  }

  lemma SlotIsFirsts(cfg: Config, p: Person, x: (int, int), y: (int, int), t: int)
    requires x != y
    ensures var db := After(cfg, p, x, y, t, 5);
      && SlotRows(db.rows, p, x.0, x.1) == {0} && KeyRows(db.rows, "c") == {} && !Live(db, 0, t)
      && db.rows[0 := db.rows[0].(status := Hold, key := "c", jti := None)] == After(cfg, p, x, y, t, 6).rows
      && IndexOk(After(cfg, p, x, y, t, 6).rows)
  {
    TwoRowsAreIndexed(RowOf(p, x, Hold, "c", t), RowOf(p, y, Confirmed, "b", t));
    hide IndexOk;
  }

  lemma Revived(cfg: Config, p: Person, pick: Pick, x: (int, int), y: (int, int), t: int)
    requires p in cfg.staff && x != y && x.0 < x.1
    ensures Step(cfg, After(cfg, p, x, y, t, 5), ClashRun(p, pick, x, y, t)[5]) == After(cfg, p, x, y, t, 6)
  {
    hide Step, IndexOk, SlotRows, KeyRows, Live;
    SlotIsFirsts(cfg, p, x, y, t);
    HoldRevives(cfg, After(cfg, p, x, y, t, 5), t, p, x.0, x.1, "c", pick, 0);
    assert map[0 := 1] + map[] == map[0 := 1];
  }

  lemma Reconfirmed(cfg: Config, p: Person, pick: Pick, x: (int, int), y: (int, int), t: int)
    ensures Step(cfg, After(cfg, p, x, y, t, 6), ClashRun(p, pick, x, y, t)[6]) == After(cfg, p, x, y, t, 7)
  {
    hide Step;
    ByIdSeals(cfg, After(cfg, p, x, y, t, 6), t, 0, 1, "m");
  }

  lemma {:induction false} ExecSeven(cfg: Config, db: Db, run: seq<Event>)
    requires |run| == 7
    ensures Exec(cfg, db, run) ==
      Step(cfg, Step(cfg, Step(cfg, Step(cfg, Step(cfg, Step(cfg, Step(cfg, db, run[0]), run[1]), run[2]), run[3]), run[4]), run[5]), run[6])
  {
    hide Step;
    var s1 := Step(cfg, db, run[0]);
    var s2 := Step(cfg, s1, run[1]);
    var s3 := Step(cfg, s2, run[2]);
    var s4 := Step(cfg, s3, run[3]);
    var s5 := Step(cfg, s4, run[4]);
    var s6 := Step(cfg, s5, run[5]);
    ExecNext(cfg, db, run, s1, run[1..]);
    ExecNext(cfg, s1, run[1..], s2, run[2..]);
    ExecNext(cfg, s2, run[2..], s3, run[3..]);
    ExecNext(cfg, s3, run[3..], s4, run[4..]);
    ExecNext(cfg, s4, run[4..], s5, run[5..]);
    ExecNext(cfg, s5, run[5..], s6, run[6..]);
    ExecNext(cfg, s6, run[6..], Step(cfg, s6, run[6]), []);
  }

  /**
   Any two different intervals that meet end up in two confirmed bookings, for any time to live
   and whatever findFirst returns: seven calls, all a day before the first interval.
   */
  lemma ByIdDoubleConfirms(cfg: Config, p: Person, pick: Pick, x: (int, int), y: (int, int), t: int)
    requires p in cfg.staff && x != y && Meet(x, y) && t == LastCall(x)
    ensures !ConfirmedApart(Exec(cfg, Fresh(0), ClashRun(p, pick, x, y, t)).rows)
  {
    assert |ClashRun(p, pick, x, y, t)| == 7;
    hide Step, Exec, ClashRun, ConfirmedApart, After;
    ConfirmedAndCanceled(cfg, p, pick, x, y, t);
    Overlaid(cfg, p, pick, x, y, t);
    OverlaidConfirmed(cfg, p, pick, x, y, t);
    Revived(cfg, p, pick, x, y, t);
    Reconfirmed(cfg, p, pick, x, y, t);
    ExecSeven(cfg, Fresh(0), ClashRun(p, pick, x, y, t));
    BothConfirmed(cfg, p, x, y, t);
  }

  lemma BothConfirmed(cfg: Config, p: Person, x: (int, int), y: (int, int), t: int)
    requires Meet(x, y)
    ensures !ConfirmedApart(After(cfg, p, x, y, t, 7).rows)
  {
    var rows := After(cfg, p, x, y, t, 7).rows;
    assert Collide(rows[0], rows[1]) && rows[0].status.Confirmed? && rows[1].status.Confirmed?;
  }
}
