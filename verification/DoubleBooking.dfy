/** When two bookings of one salesperson can and cannot overlap. */
module DoubleBooking {
  import opened Store
  import opened Availability
  import opened Lifecycle
  import opened Invariants
  import opened Coherence

  predicate Collide(a: Row, b: Row) { a.Overlaps(b.person, b.start, b.end) }

  /** No two rows that are live at `now` overlap. */
  ghost predicate Apart(db: Db, now: int) {
    forall a, b :: a in db.rows && b in db.rows && a != b && Live(db, a, now) && Live(db, b, now)
      ==> !Collide(db.rows[a], db.rows[b])
  }

  // ---- intervals from one tiling: every run of all calls is safe ----

  /** Two intervals, neither of them empty, with an instant in common. */
  predicate Meet(x: (int, int), y: (int, int)) { x.0 < x.1 && y.0 < y.1 && x.0 < y.1 && y.0 < x.1 }

  /** Intervals of which any two are equal or disjoint. */
  ghost predicate Tiling(f: iset<(int, int)>) {
    forall x, y :: x in f && y in f && Meet(x, y) ==> x == y
  }

  predicate AsksWithin(f: iset<(int, int)>, op: Op) {
    (op.CreateHold? || op.Reschedule?) ==> (op.start, op.end) in f
  }

  /** All calls ask for intervals from `f` only. */
  ghost predicate AllAsk(f: iset<(int, int)>, run: seq<Event>) {
    forall i :: 0 <= i < |run| ==> AsksWithin(f, run[i].op)
  }

  ghost predicate RowsWithin(f: iset<(int, int)>, rows: map<RowId, Row>) {
    forall id :: id in rows ==> (rows[id].start, rows[id].end) in f
  }

  lemma StepStaysWithin(cfg: Config, db: Db, ev: Event, f: iset<(int, int)>)
    requires RowsWithin(f, db.rows) && AsksWithin(f, ev.op)
    ensures RowsWithin(f, Step(cfg, db, ev).rows)
  {
    var e := Decide(cfg, db, ev.time, ev.op).effect;
    DecisionIsLawful(cfg, db, ev.time, ev.op);
    if Settled(e) {
      SettledIsThinner(cfg, db, ev.time, e);
    } else {
      EffectTargets(cfg, db, ev.time, ev.op);
    }
  }

  /** New intervals are the ones the call asked for. */
  lemma EffectTargets(cfg: Config, db: Db, now: int, op: Op)
    ensures var e := Decide(cfg, db, now, op).effect;
            && (e.Insert? ==> op.CreateHold? && (e.row.start, e.row.end) == (op.start, op.end))
            && (e.Move? ==> op.Reschedule? && (e.start, e.end) == (op.start, op.end))
  {
    EffectFitsCall(cfg, db, now, op);
    if op.CreateHold? && op.key != "" && op.start < op.end && Targets(cfg, op.who) != [] && KeyRows(db.rows, op.key) == {} {
      var ordered := Targets(cfg, op.who);
      PlacementIsLawful(cfg, db, now, ordered, FirstIndex(db.cursor, op.who, |ordered|), 0,
                        op.busy, op.start, op.end, op.key, op.pick);
    }
  }

  lemma {:induction false} RunStaysWithin(cfg: Config, db: Db, run: seq<Event>, f: iset<(int, int)>)
    requires RowsWithin(f, db.rows) && AllAsk(f, run)
    ensures RowsWithin(f, Exec(cfg, db, run).rows)
    decreases |run|
  {
    if run != [] {
      StepStaysWithin(cfg, db, run[0], f);
      RunStaysWithin(cfg, Step(cfg, db, run[0]), run[1..], f);
    }
  }

  /** Rows whose intervals come from one tiling do not overlap while they are live. */
  lemma TiledIsApart(cfg: Config, db: Db, end: int, f: iset<(int, int)>, now: int)
    requires Good(cfg, db, end) && RowsWithin(f, db.rows) && Tiling(f)
    ensures Apart(db, now)
  {
    forall a, b | a in db.rows && b in db.rows && a != b && Live(db, a, now) && Live(db, b, now)
      ensures !Collide(db.rows[a], db.rows[b])
    {
      var x, y := (db.rows[a].start, db.rows[a].end), (db.rows[b].start, db.rows[b].end);
      assert x in f && y in f && x.0 < x.1 && y.0 < y.1;
    }
  }

  /**
   No double booking: however the calls interleave, whichever rows findFirst
   returns, and at whatever later time one looks.
   */
  lemma NeverDoubleBooked(cfg: Config, cursor: int, start: int, run: seq<Event>, f: iset<(int, int)>, now: int)
    requires Timeline(start, run) && Tiling(f) && AllAsk(f, run)
    ensures Apart(Exec(cfg, Fresh(cursor), run), now)
  {
    var db := Exec(cfg, Fresh(cursor), run);
    RunKeepsGood(cfg, Fresh(cursor), start, run);
    RunStaysWithin(cfg, Fresh(cursor), run, f);
    hide *;
    TiledIsApart(cfg, Exec(cfg, Fresh(cursor), run), EndTime(start, run), f, now);
  }

  // ---- arbitrary intervals: exactly which writes break the separation ----

  /** The write lets a row in over a live one; the calls that do so skip or weaken the overlap query. */
  predicate Intrudes(db: Db, now: int, e: Effect) {
    match e
    case Revive(id, _, _) => id in db.rows && Over(db, now, id, db.rows[id].start, db.rows[id].end)
    case Seal(id) => id in db.rows && Over(db, now, id, db.rows[id].start, db.rows[id].end)
    case Move(id, s, t) => id in db.rows && Over(db, now, id, s, t)
    case _ => false
  }

  predicate Over(db: Db, now: int, id: RowId, s: int, e: int)
    requires id in db.rows
  {
    Blocked(db, {id}, db.rows[id].person, s, e, now)
  }

  lemma EffectKeepsApart(cfg: Config, db: Db, now: int, e: Effect)
    requires Good(cfg, db, now) && Apart(db, now) && Lawful(cfg, db, now, e) && !Intrudes(db, now, e)
    ensures Apart(Apply(db, now, e), now)
  {
    var after := Apply(db, now, e);
    forall a, b | a in after.rows && b in after.rows && a != b && Live(after, a, now) && Live(after, b, now)
      ensures !Collide(after.rows[a], after.rows[b])
    {
      var x := Touched(db, e);
      if a != x { OthersStay(db, now, e, a); }
      if b != x { OthersStay(db, now, e, b); }
      if a == x || b == x {
        MeetingIsIntrusion(cfg, db, now, e, if a == x then b else a);
      }
    }
  }

  /** Rows that no effect writes were live before if they are live after. */
  lemma MeetingIsIntrusion(cfg: Config, db: Db, now: int, e: Effect, other: RowId)
    requires Good(cfg, db, now) && Lawful(cfg, db, now, e)
    requires var after := Apply(db, now, e);
             var x := Touched(db, e);
             other != x && other in after.rows && Live(after, other, now) && x in after.rows && Live(after, x, now)
    ensures var after := Apply(db, now, e);
            var x := Touched(db, e);
            && other in db.rows && Live(db, other, now)
            && (Collide(after.rows[other], after.rows[x]) ==>
                  Intrudes(db, now, e) || (x in db.rows && Live(db, x, now) && Collide(db.rows[other], db.rows[x])))
  {
    OthersStay(db, now, e, other);
  }

  lemma IntrusionOverlaps(cfg: Config, db: Db, now: int, e: Effect)
    requires Good(cfg, db, now) && Lawful(cfg, db, now, e) && Intrudes(db, now, e)
    ensures !Apart(Apply(db, now, e), now)
  {
    var after := Apply(db, now, e);
    var x := Touched(db, e);
    var y :| y in db.rows && y != x && db.rows[y].Overlaps(after.rows[x].person, after.rows[x].start, after.rows[x].end)
             && Live(db, y, now);
    assert Live(after, x, now) && Live(after, y, now) && Collide(after.rows[y], after.rows[x]);
  }

  /** For arbitrary intervals, a call keeps live bookings apart if and only if its write does not intrude. */
  lemma ApartIff(cfg: Config, db: Db, now: int, ev: Event)
    requires Good(cfg, db, now) && now <= ev.time && Apart(db, ev.time)
    ensures Apart(Step(cfg, db, ev), ev.time) <==> !Intrudes(db, ev.time, Decide(cfg, db, ev.time, ev.op).effect)
  {
    var e := Decide(cfg, db, ev.time, ev.op).effect;
    DecisionIsLawful(cfg, db, ev.time, ev.op);
    ApartIgnoresRest(Apply(db, ev.time, e), Step(cfg, db, ev), ev.time);
    if Intrudes(db, ev.time, e) {
      IntrusionOverlaps(cfg, db, ev.time, e);
    } else {
      EffectKeepsApart(cfg, db, ev.time, e);
    }
  }

  lemma ApartIgnoresRest(a: Db, b: Db, now: int)
    requires a.rows == b.rows && a.holds == b.holds
    ensures Apart(a, now) <==> Apart(b, now)
  {
    assert forall id :: id in a.rows ==> Live(a, id, now) == Live(b, id, now);
  }
}
