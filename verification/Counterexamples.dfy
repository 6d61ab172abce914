/** Concrete runs that show where the service does not keep a property. */
module Counterexamples {
  import opened Prelude
  import opened Store
  import opened Availability
  import opened Lifecycle
  import opened DoubleBooking

  /** A request for a named salesperson, with the calendar free and 1 as the secret. */
  function HoldOp(p: Person, s: int, e: int, key: string, pick: Pick): Op {
    CreateHold(Some(p), s, e, key, {}, 1, pick)
  }

  /** A named salesperson's request under a new key comes down to one attempt. */
  lemma HoldIsAttempt(cfg: Config, db: Db, now: int, p: Person, s: int, e: int, key: string, pick: Pick)
    requires p in cfg.staff && s < e && key != "" && KeyRows(db.rows, key) == {}
    ensures var a := TryHold(cfg, db, now, p, s, e, key, pick);
            Decide(cfg, db, now, HoldOp(p, s, e, key, pick)) ==
              if a.Held? then Decision(a.effect, Accepted(a.id), {}, db.cursor, Minted(db, a.id, 1)) else Refuse(db, Conflict)
  {
    assert Targets(cfg, Some(p)) == [p];
    assert Turn(0, 0, 1) == 0;
    assert Allocate(cfg, db, now, [p], 0, 1, {}, s, e, key, pick) == Full;
  }

  /** The first hold of an empty database. */
  lemma FirstHold(cfg: Config, now: int, p: Person, s: int, e: int, key: string, pick: Pick)
    requires p in cfg.staff && s < e && key != ""
    ensures Step(cfg, Fresh(0), At(now, HoldOp(p, s, e, key, pick)))
            == Db(map[0 := Row(p, s, e, Hold, key, None, now)], map[0 := now + cfg.ttl], map[0 := 1], {}, 0, 1)
  {
    var db := Fresh(0);
    assert KeyRows(db.rows, key) == {} && SlotRows(db.rows, p, s, e) == {};
    HoldIsAttempt(cfg, db, now, p, s, e, key, pick);
    var after := Commit(db, now, Decide(cfg, db, now, HoldOp(p, s, e, key, pick)));
    assert after.secrets == map[0 := 1];
  }

  lemma HoldInserts(cfg: Config, db: Db, now: int, p: Person, s: int, e: int, key: string, pick: Pick)
    requires p in cfg.staff && s < e && key != "" && KeyRows(db.rows, key) == {}
    requires SlotRows(db.rows, p, s, e) == {} && !Blocked(db, {}, p, s, e, now) && db.nextId !in db.secrets
    requires var row := Row(p, s, e, Hold, key, None, now);
             IndexOk(db.rows[db.nextId := row])
    ensures var row := Row(p, s, e, Hold, key, None, now);
            Step(cfg, db, At(now, HoldOp(p, s, e, key, pick)))
            == Db(db.rows[db.nextId := row], db.holds[db.nextId := now + cfg.ttl], db.secrets[db.nextId := 1],
                  db.used, db.cursor, db.nextId + 1)
  {
    HoldIsAttempt(cfg, db, now, p, s, e, key, pick);
    assert map[db.nextId := 1] + db.secrets == db.secrets[db.nextId := 1];
    assert db.used + {} == db.used;
  }

  lemma HoldRevives(cfg: Config, db: Db, now: int, p: Person, s: int, e: int, key: string, pick: Pick, id: RowId)
    requires p in cfg.staff && s < e && key != "" && KeyRows(db.rows, key) == {}
    requires id in SlotRows(db.rows, p, s, e) && pick(SlotRows(db.rows, p, s, e)) == id && !Live(db, id, now)
    requires IndexOk(db.rows[id := db.rows[id].(status := Hold, key := key, jti := None)])
    ensures Step(cfg, db, At(now, HoldOp(p, s, e, key, pick)))
            == db.(rows := db.rows[id := db.rows[id].(status := Hold, key := key, jti := None)],
                   holds := db.holds[id := now + cfg.ttl],
                   secrets := Minted(db, id, 1) + db.secrets)
  {
    HoldIsAttempt(cfg, db, now, p, s, e, key, pick);
    assert db.used + {} == db.used;
  }

  /** Runs a list of calls whose effects are already known. */
  lemma ExecNext(cfg: Config, db: Db, run: seq<Event>, next: Db, rest: seq<Event>)
    requires run != [] && Step(cfg, db, run[0]) == next && run[1..] == rest
    ensures Exec(cfg, db, run) == Exec(cfg, next, rest)
  {
    hide Step;
  }

  // ---- reviving a dead row skips the overlap query ----

  /** Hold x and let it lapse, hold y, revive x. */
  function RevivalRun(cfg: Config, p: Person, pick: Pick, x: (int, int), y: (int, int)): seq<Event> {
    [At(0, HoldOp(p, x.0, x.1, "a", pick)),
     At(cfg.ttl, HoldOp(p, y.0, y.1, "b", pick)),
     At(cfg.ttl, HoldOp(p, x.0, x.1, "c", pick))]
  }

  function Held(p: Person, x: (int, int), key: string): Row { Row(p, x.0, x.1, Hold, key, None, 0) }

  function HeldDb(p: Person, x: (int, int), t: int): Db {
    Db(map[0 := Held(p, x, "a")], map[0 := t], map[0 := 1], {}, 0, 1)
  }

  function OverlappedDb(p: Person, x: (int, int), y: (int, int), t: int): Db {
    Db(map[0 := Held(p, x, "a"), 1 := Held(p, y, "b").(created := t)],
       map[0 := t, 1 := t + t], map[0 := 1, 1 := 1], {}, 0, 2)
  }

  function RevivedDb(p: Person, x: (int, int), y: (int, int), t: int): Db {
    Db(map[0 := Held(p, x, "c"), 1 := Held(p, y, "b").(created := t)],
       map[0 := t + t, 1 := t + t], map[0 := 1, 1 := 1], {}, 0, 2)
  }

  /** Two rows with different keys and slots satisfy both unique indexes. */
  lemma TwoRowsAreIndexed(a: Row, b: Row)
    requires a.key != b.key && !a.SameSlot(b.person, b.start, b.end)
    ensures IndexOk(map[0 := a, 1 := b])
  {
  }

  lemma SecondHold(cfg: Config, p: Person, pick: Pick, x: (int, int), y: (int, int))
    requires p in cfg.staff && x != y && y.0 < y.1
    ensures Step(cfg, HeldDb(p, x, cfg.ttl), RevivalRun(cfg, p, pick, x, y)[1]) == OverlappedDb(p, x, y, cfg.ttl)
  {
    hide Step;
    TwoRowsAreIndexed(Held(p, x, "a"), Held(p, y, "b").(created := cfg.ttl));
    HoldInserts(cfg, HeldDb(p, x, cfg.ttl), cfg.ttl, p, y.0, y.1, "b", pick);
  }

  lemma SlotIsFirstRows(p: Person, x: (int, int), y: (int, int), t: int)
    requires x != y
    ensures var db := OverlappedDb(p, x, y, t);
            && SlotRows(db.rows, p, x.0, x.1) == {0} && KeyRows(db.rows, "c") == {} && !Live(db, 0, t)
            && db.rows[0 := db.rows[0].(status := Hold, key := "c", jti := None)] == RevivedDb(p, x, y, t).rows
            && IndexOk(RevivedDb(p, x, y, t).rows)
  {
    TwoRowsAreIndexed(Held(p, x, "c"), Held(p, y, "b").(created := t));
    hide IndexOk;
  }

  lemma ThirdHold(cfg: Config, p: Person, pick: Pick, x: (int, int), y: (int, int))
    requires p in cfg.staff && x != y && x.0 < x.1
    ensures Step(cfg, OverlappedDb(p, x, y, cfg.ttl), RevivalRun(cfg, p, pick, x, y)[2]) == RevivedDb(p, x, y, cfg.ttl)
  {
    hide Step, IndexOk, SlotRows, KeyRows, Live;
    var db := OverlappedDb(p, x, y, cfg.ttl);
    SlotIsFirstRows(p, x, y, cfg.ttl);
    HoldRevives(cfg, db, cfg.ttl, p, x.0, x.1, "c", pick, 0);
    assert map[] + db.secrets == db.secrets;
  }

  lemma RevivalEnds(cfg: Config, p: Person, pick: Pick, x: (int, int), y: (int, int))
    requires p in cfg.staff && x != y && x.0 < x.1 && y.0 < y.1
    ensures Exec(cfg, Fresh(0), RevivalRun(cfg, p, pick, x, y)) == RevivedDb(p, x, y, cfg.ttl)
  {
    hide Step;
    var run, t := RevivalRun(cfg, p, pick, x, y), cfg.ttl;
    FirstHold(cfg, 0, p, x.0, x.1, "a", pick);
    SecondHold(cfg, p, pick, x, y);
    ThirdHold(cfg, p, pick, x, y);
    ExecNext(cfg, Fresh(0), run, HeldDb(p, x, t), run[1..]);
    ExecNext(cfg, HeldDb(p, x, t), run[1..], OverlappedDb(p, x, y, t), run[2..]);
    ExecNext(cfg, OverlappedDb(p, x, y, t), run[2..], RevivedDb(p, x, y, t), []);
  }

  /** Any two different intervals that meet are double booked by three holds, whatever findFirst returns. */
  lemma RevivalDoubleBooks(cfg: Config, p: Person, pick: Pick, x: (int, int), y: (int, int))
    requires p in cfg.staff && x != y && Meet(x, y)
    ensures !Apart(Exec(cfg, Fresh(0), RevivalRun(cfg, p, pick, x, y)), cfg.ttl)
  {
    RevivalEnds(cfg, p, pick, x, y);
    var db := RevivedDb(p, x, y, cfg.ttl);
    assert Live(db, 0, cfg.ttl) && Live(db, 1, cfg.ttl) && Collide(db.rows[0], db.rows[1]);
    hide Exec;
  }
}
