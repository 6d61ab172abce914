/** Exactly which offered slots can be held, over all runs, and a run in which one cannot. */
module OfferLimits {
  import opened Prelude
  import opened Store
  import opened Availability
  import opened Lifecycle
  import opened Invariants
  import opened Counterexamples
  import opened RevivedConfirms
  import opened IndexHandler
  import opened Intruders
  import opened OneCall
  import opened Offers
  import opened StaleCache

  /** The attempt for somebody free around a slot is not refused. */
  lemma FreeIsNotRefused(db: Db, h: Hours, p: Person, slot: Slot, lo: int, hi: int, now: int, pick: Pick)
    requires h.buffer >= 0 && lo <= slot.start < slot.end <= hi && FreeFor(db, h, p, slot, lo, hi, now)
    ensures !Refuses(db, now, p, slot.start, slot.end, pick)
  {
    var same := SlotRows(db.rows, p, slot.start, slot.end);
    assert forall id :: id in same ==> db.rows[id].Overlaps(p, lo, hi) && Collides(slot, db.rows[id].start, db.rows[id].end, h.buffer);
    assert forall id :: id in db.rows && db.rows[id].Overlaps(p, slot.start, slot.end) ==>
      db.rows[id].Overlaps(p, lo, hi) && Collides(slot, db.rows[id].start, db.rows[id].end, h.buffer);
    hide Live;
  }

  /** The candidate at the offset at which the round robin reaches index `i`. */
  lemma CandidateAt(cfg: Config, db: Db, op: Op, i: nat) returns (o: nat)
    requires op.CreateHold? && i < |Targets(cfg, op.who)|
    ensures o < |Targets(cfg, op.who)| && Candidate(cfg, db, op, o) == Targets(cfg, op.who)[i]
  {
    var ordered := Targets(cfg, op.who);
    OffsetReaches(FirstIndex(db.cursor, op.who, |ordered|), i, |ordered|);
    o := OffsetOf(FirstIndex(db.cursor, op.who, |ordered|), i, |ordered|);
  }

  /** A request for an offered slot, under a new key and with the calendar free. */
  ghost predicate AsksOffered(cfg: Config, db: Db, op: Op, date: int, now: int) {
    && op.CreateHold? && op.key != "" && op.busy == {} && KeyRows(db.rows, op.key) == {}
    && Slot(op.start, op.end) in FreshSlots(cfg, db, op.who, date, now)
  }

  lemma OfferedIsInTurn(cfg: Config, db: Db, op: Op, date: int, now: int) returns (o: nat)
    requires cfg.hours.buffer >= 0 && AsksOffered(cfg, db, op, date, now)
    ensures NewRequest(cfg, db, op) && InTurn(cfg, db, now, op, o)
  {
    var slot := Slot(op.start, op.end);
    SomebodyIsFree(cfg, db, op.who, date, now, slot);
    hide FreshSlots, FreeFor, Candidate, Refuses, KeyRows;
    var i, lo, hi :| 0 <= i < |Targets(cfg, op.who)| && lo <= op.start < op.end <= hi
                     && FreeFor(db, cfg.hours, Targets(cfg, op.who)[i], slot, lo, hi, now);
    FreeIsNotRefused(db, cfg.hours, Targets(cfg, op.who)[i], slot, lo, hi, now, op.pick);
    var k := CandidateAt(cfg, db, op, i);
    SomebodyOrNobody(cfg, db, now, op, 0);
    o :| InTurn(cfg, db, now, op, o);
  }

  /**
   Over all runs: a slot that fresh availability offers, asked for at that instant under a new key, is granted
   if and only if the row found for the salesperson in turn is not a dead one with an active twin.
   */
  lemma OfferedIsGrantedIff(cfg: Config, cursor: int, start: int, run: seq<Event>, op: Op, date: int, now: int)
    requires Timeline(start, run) && EndTime(start, run) <= now && cfg.hours.buffer >= 0
    requires AsksOffered(cfg, Exec(cfg, Fresh(cursor), run), op, date, now)
    ensures var db := Exec(cfg, Fresh(cursor), run);
      exists o :: Targets(cfg, op.who) != [] && InTurn(cfg, db, now, op, o)
                  && (Decide(cfg, db, now, op).answer.Accepted? <==>
                        !RevivesOverTwin(db, now, Candidate(cfg, db, op, o), op.start, op.end, op.pick))
  {
    var db := Exec(cfg, Fresh(cursor), run);
    RunKeepsGood(cfg, Fresh(cursor), start, run);
    LaterGood(cfg, db, EndTime(start, run), now);
    var o := OfferedIsInTurn(cfg, db, op, date, now);
    InTurnIsHeld(cfg, db, now, op, o);
    hide Exec, Good, Decide, AsksOffered, Candidate, InTurn, RevivesOverTwin, Attempted;
  }

  // ---- the run: a canceled and a lapsed row at one slot ----

  /** After a reschedule onto x: cancel the moved booking, and hold x again on its row. */
  ghost function ReholdRun(p: Person, x: (int, int), y: (int, int), t: int): seq<Event> {
    TwinRun(p, AnyOf, x, y, t)
    + [At(t, CancelBooking(1, Token(true, CancelIt, true, 1, 0, t / 1000 + 1), "n")),
       At(t, HoldOp(p, x.0, x.1, "d", Prefer({0, 1}, 1)))]
  }

  /** Two dead rows at x: one canceled, one held until t plus the time to live. */
  function TwoAt(cfg: Config, p: Person, x: (int, int), y: (int, int), t: int): Db {
    var db := Moved(cfg, p, x, y, t);
    db.(rows := map[0 := RowOf(p, x, Canceled, "a", t), 1 := RowOf(p, x, Hold, "d", t)],
        holds := map[1 := t + cfg.ttl], secrets := map[1 := 1], used := db.used + {(ForCancel, "n")})
  }

  function BothCanceled(cfg: Config, p: Person, x: (int, int), y: (int, int), t: int): Db {
    var db := Moved(cfg, p, x, y, t);
    db.(rows := map[0 := RowOf(p, x, Canceled, "a", t), 1 := RowOf(p, x, Canceled, "b", t)], used := db.used + {(ForCancel, "n")})
  }

  lemma MovedIsCanceled(cfg: Config, p: Person, x: (int, int), y: (int, int), t: int)
    requires t <= LastCall(x)
    ensures Step(cfg, Moved(cfg, p, x, y, t), At(t, CancelBooking(1, Token(true, CancelIt, true, 1, 0, t / 1000 + 1), "n")))
         == BothCanceled(cfg, p, x, y, t)
  {
    hide Step;
    CancelVoids(cfg, Moved(cfg, p, x, y, t), t, 1, Token(true, CancelIt, true, 1, 0, t / 1000 + 1), "n");
  }

  lemma OneActive(a: Row, b: Row)
    requires a.key != b.key && !a.status.Active()
    ensures IndexOk(map[0 := a, 1 := b])
  {
  }

  lemma TwoRowsAt(cfg: Config, p: Person, x: (int, int), y: (int, int), t: int)
    ensures var db := BothCanceled(cfg, p, x, y, t);
      && SlotRows(db.rows, p, x.0, x.1) == {0, 1} && KeyRows(db.rows, "d") == {} && !Live(db, 1, t)
      && db.rows[1 := db.rows[1].(status := Hold, key := "d", jti := None)] == TwoAt(cfg, p, x, y, t).rows
      && IndexOk(TwoAt(cfg, p, x, y, t).rows)
  {
    OneActive(RowOf(p, x, Canceled, "a", t), RowOf(p, x, Hold, "d", t));
    hide IndexOk;
  }

  lemma CanceledIsHeldAgain(cfg: Config, p: Person, x: (int, int), y: (int, int), t: int)
    requires p in cfg.staff && x.0 < x.1
    ensures Step(cfg, BothCanceled(cfg, p, x, y, t), At(t, HoldOp(p, x.0, x.1, "d", Prefer({0, 1}, 1)))) == TwoAt(cfg, p, x, y, t)
  {
    hide Step, IndexOk, SlotRows, KeyRows, Live;
    TwoRowsAt(cfg, p, x, y, t);
    HoldRevives(cfg, BothCanceled(cfg, p, x, y, t), t, p, x.0, x.1, "d", Prefer({0, 1}, 1), 1);
    assert map[1 := 1] + map[] == map[1 := 1];
  }

  lemma MovedRunEnds(cfg: Config, p: Person, x: (int, int), y: (int, int), t: int)
    requires p in cfg.staff && x != y && x.0 < x.1 && y.0 < y.1 && t <= LastCall(x) && t <= LastCall(y)
    ensures Exec(cfg, Fresh(0), TwinRun(p, AnyOf, x, y, t)) == Moved(cfg, p, x, y, t)
  {
    var move := [At(t, MoveOp(AnyOf, x, t))];
    hide Step, ClashRun, MoveOp, After, Moved;
    FirstFive(cfg, p, AnyOf, x, y, t);
    MoveStep(cfg, p, AnyOf, x, y, t);
    ExecOver(cfg, Fresh(0), ClashRun(p, AnyOf, x, y, t)[..5], move);
    ExecNext(cfg, After(cfg, p, x, y, t, 5), move, Moved(cfg, p, x, y, t), []);
  }

  lemma ReholdRunEnds(cfg: Config, p: Person, x: (int, int), y: (int, int), t: int)
    requires p in cfg.staff && x != y && x.0 < x.1 && y.0 < y.1 && t <= LastCall(x) && t <= LastCall(y)
    ensures Exec(cfg, Fresh(0), ReholdRun(p, x, y, t)) == TwoAt(cfg, p, x, y, t)
  {
    var cancel := At(t, CancelBooking(1, Token(true, CancelIt, true, 1, 0, t / 1000 + 1), "n"));
    var hold := At(t, HoldOp(p, x.0, x.1, "d", Prefer({0, 1}, 1)));
    hide Step, TwinRun, Moved, BothCanceled, TwoAt, HoldOp;
    MovedRunEnds(cfg, p, x, y, t);
    MovedIsCanceled(cfg, p, x, y, t);
    CanceledIsHeldAgain(cfg, p, x, y, t);
    ExecOver(cfg, Fresh(0), TwinRun(p, AnyOf, x, y, t), [cancel, hold]);
    ExecNext(cfg, Moved(cfg, p, x, y, t), [cancel, hold], BothCanceled(cfg, p, x, y, t), [hold]);
    ExecNext(cfg, BothCanceled(cfg, p, x, y, t), [hold], TwoAt(cfg, p, x, y, t), []);
  }

  /** Once the second hold has lapsed nothing is live, and the first row still has an active twin. */
  lemma LapsedTwins(cfg: Config, p: Person, x: (int, int), y: (int, int), t: int)
    ensures var db := TwoAt(cfg, p, x, y, t);
            var now := t + cfg.ttl;
      && SlotRows(db.rows, p, x.0, x.1) == {0, 1} && KeyRows(db.rows, "e") == {} && db.nextId !in db.rows
      && !Live(db, 0, now) && !Live(db, 1, now) && ActiveTwin(db.rows, 0, p, x.0, x.1) && IndexOk(db.rows)
  {
    var db := TwoAt(cfg, p, x, y, t);
    assert db.rows[1].status.Active() && db.rows[1].SameSlot(p, x.0, x.1);
    OneActive(db.rows[0], db.rows[1]);
    hide IndexOk;
  }

  lemma NobodyLives(cfg: Config, p: Person, x: (int, int), y: (int, int), t: int, s: Slot, lo: int, hi: int)
    ensures FreeFor(TwoAt(cfg, p, x, y, t), cfg.hours, p, s, lo, hi, t + cfg.ttl)
  {
    LapsedTwins(cfg, p, x, y, t);
    hide Live, Collides, IndexOk, ActiveTwin, SlotRows;
  }

  lemma RevivalOfFirst(db: Db, now: int, p: Person, s: int, e: int)
    requires SlotRows(db.rows, p, s, e) == {0, 1} && !Live(db, 0, now) && ActiveTwin(db.rows, 0, p, s, e)
    ensures RevivesOverTwin(db, now, p, s, e, Prefer({0, 1}, 0))
  {
    hide Live, SlotRows, ActiveTwin;
  }

  lemma LapsedTwinRefuses(cfg: Config, p: Person, x: (int, int), y: (int, int), t: int)
    requires p in cfg.staff && x.0 < x.1
    ensures Decide(cfg, TwoAt(cfg, p, x, y, t), t + cfg.ttl, HoldOp(p, x.0, x.1, "e", Prefer({0, 1}, 0))).answer
         == Rejected(Conflict)
  {
    hide TwoAt, SlotRows, KeyRows, Live, ActiveTwin, IndexOk, TryHold, Decide, HoldOp, RevivesOverTwin, Sound;
    var db, now, pick := TwoAt(cfg, p, x, y, t), t + cfg.ttl, Prefer({0, 1}, 0);
    LapsedTwins(cfg, p, x, y, t);
    RevivalOfFirst(db, now, p, x.0, x.1);
    ClashIff(cfg, db, now, p, x.0, x.1, "e", pick);
    HoldIsAttempt(cfg, db, now, p, x.0, x.1, "e", pick);
  }

  /** For any time to live and any slot on offer a day ahead: after one reschedule the slot is offered and refused. */
  lemma OfferedIsRefused(cfg: Config, p: Person, date: int, s: Slot, y: (int, int), t: int)
    requires p in cfg.staff && s in DaySlots(cfg, Some(p), date, t + cfg.ttl) && s.start < s.end
    requires y != (s.start, s.end) && y.0 < y.1 && t <= LastCall((s.start, s.end)) && t <= LastCall(y)
    ensures var db := Exec(cfg, Fresh(0), ReholdRun(p, (s.start, s.end), y, t));
            var now := t + cfg.ttl;
      && s in FreshSlots(cfg, db, Some(p), date, now)
      && Decide(cfg, db, now, HoldOp(p, s.start, s.end, "e", Prefer({0, 1}, 0))).answer == Rejected(Conflict)
  {
    hide *;
    var x, now := (s.start, s.end), t + cfg.ttl;
    var db := TwoAt(cfg, p, x, y, t);
    ReholdRunEnds(cfg, p, x, y, t);
    FreshIff(cfg, db, p, date, now, s);
    var day, mid := OpenDay(cfg.hours, date, Zone(cfg, p), now).value, Midnight(date, Zone(cfg, p));
    NobodyLives(cfg, p, x, y, t, s, mid + Minutes(day.open), mid + Minutes(day.close));
    LapsedTwinRefuses(cfg, p, x, y, t);
  }
}
