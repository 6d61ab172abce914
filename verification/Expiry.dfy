/** Lazy expiry equals eager expiry: nobody can tell whether expireHolds ran. */
module Expiry {
  import opened Prelude
  import opened Store
  import opened Availability
  import opened Lifecycle
  import opened Invariants
  import opened Coherence
  import opened UniqueSlots
  import opened IndexHandler
  import opened OneCall

  /** A row that lost its hold, whichever way, and is too old to be confirmed by id. */
  predicate Spent(db: Db, id: RowId, now: int) {
    && id in db.rows && (db.rows[id].status.Waiting() || db.rows[id].status.Expired?)
    && !Live(db, id, now) && db.rows[id].created + BY_ID_WINDOW <= now
  }

  predicate SameRow(a: Db, b: Db, id: RowId)
    requires id in a.rows && id in b.rows
  {
    && a.rows[id] == b.rows[id] && (id in a.holds <==> id in b.holds)
    && (id in a.holds ==> a.holds[id] == b.holds[id])
  }

  ghost predicate Twins(a: Db, b: Db, id: RowId, now: int)
    requires id in a.rows && id in b.rows
  {
    && SameFrame(a.rows[id], b.rows[id])
    && (SameRow(a, b, id) || (Spent(a, id, now) && Spent(b, id, now) && b.rows[id].status.Expired?))
  }

  ghost predicate SameRest(a: Db, b: Db) {
    && a.rows.Keys == b.rows.Keys && a.secrets == b.secrets && a.used == b.used
    && a.cursor == b.cursor && a.nextId == b.nextId
  }

  /** The two databases differ in spent rows only, which the second one has marked expired. */
  ghost predicate Related(a: Db, b: Db, now: int) {
    && SameRest(a, b)
    && (forall id :: id in a.rows ==> Twins(a, b, id, now))
  }

  lemma RelatedLater(a: Db, b: Db, now: int, later: int)
    requires Related(a, b, now) && now <= later
    ensures Related(a, b, later)
  {
    forall id | id in a.rows
      ensures Twins(a, b, id, later)
    {
      assert Twins(a, b, id, now);
    }
  }

  lemma RelatedLive(a: Db, b: Db, now: int, id: RowId)
    requires Related(a, b, now)
    ensures Live(a, id, now) <==> Live(b, id, now)
  {
    if id in a.rows { assert Twins(a, b, id, now); }
  }

  /** Related databases answer every query alike. */
  lemma RelatedQueries(a: Db, b: Db, now: int)
    requires Related(a, b, now)
    ensures forall p, s, e :: SlotRows(a.rows, p, s, e) == SlotRows(b.rows, p, s, e)
    ensures forall key :: KeyRows(a.rows, key) == KeyRows(b.rows, key)
    ensures forall except, p, s, e :: Blocked(a, except, p, s, e, now) == Blocked(b, except, p, s, e, now)
  {
    forall id | id in a.rows
      ensures SameFrame(a.rows[id], b.rows[id]) && (Live(a, id, now) <==> Live(b, id, now))
    {
      assert Twins(a, b, id, now);
      RelatedLive(a, b, now, id);
    }
  }

  lemma RelatedFree(a: Db, b: Db, h: Hours, p: Person, s: Slot, lo: int, hi: int, now: int)
    requires Related(a, b, now)
    ensures FreeFor(a, h, p, s, lo, hi, now) <==> FreeFor(b, h, p, s, lo, hi, now)
  {
    forall id | id in a.rows
      ensures SameFrame(a.rows[id], b.rows[id]) && (Live(a, id, now) <==> Live(b, id, now))
    {
      assert Twins(a, b, id, now);
      RelatedLive(a, b, now, id);
    }
  }

  lemma {:induction false} RelatedKeep(a: Db, b: Db, h: Hours, who: seq<Person>, slots: seq<Slot>, lo: int, hi: int, now: int)
    requires Related(a, b, now)
    ensures KeepFree(a, h, who, slots, lo, hi, now) == KeepFree(b, h, who, slots, lo, hi, now)
  {
    if slots != [] {
      forall i | 0 <= i < |who|
        ensures FreeFor(a, h, who[i], slots[0], lo, hi, now) <==> FreeFor(b, h, who[i], slots[0], lo, hi, now)
      {
        RelatedFree(a, b, h, who[i], slots[0], lo, hi, now);
      }
      RelatedKeep(a, b, h, who, slots[1..], lo, hi, now);
    }
  }

  lemma RelatedSlots(cfg: Config, a: Db, b: Db, who: Option<Person>, date: int, now: int)
    requires Related(a, b, now)
    ensures FreshSlots(cfg, a, who, date, now) == FreshSlots(cfg, b, who, date, now)
  {
    var zone := ZoneFor(cfg, who);
    match OpenDay(cfg.hours, date, zone, now)
    case None =>
    case Some(day) =>
      var mid := Midnight(date, zone);
      RelatedKeep(a, b, cfg.hours, Targets(cfg, who), DaySlots(cfg, who, date, now),
                  mid + Minutes(day.open), mid + Minutes(day.close), now);
  }

  /** The standing facts about a database that runs without reschedules reach. */
  ghost predicate Fit(cfg: Config, db: Db, now: int) { Good(cfg, db, now) && SlotUnique(db.rows) }

  lemma RelatedKeys(a: Db, b: Db, now: int, key: string)
    requires Related(a, b, now)
    ensures KeyRows(a.rows, key) == KeyRows(b.rows, key)
  {
    RelatedQueries(a, b, now);
  }

  lemma SameFindingsSameCreate(cfg: Config, a: Db, b: Db, now: int, who: Option<Person>, s: int, e: int, key: string,
                               busy: set<Person>, secret: int, pick: Pick)
    requires a.cursor == b.cursor && a.secrets == b.secrets && KeyRows(a.rows, key) == KeyRows(b.rows, key)
    requires var ordered := Targets(cfg, who);
             ordered != [] && KeyRows(a.rows, key) == {} ==>
               var first := FirstIndex(a.cursor, who, |ordered|);
               Allocate(cfg, a, now, ordered, first, 0, busy, s, e, key, pick)
               == Allocate(cfg, b, now, ordered, first, 0, busy, s, e, key, pick)
    ensures DecideCreate(cfg, a, now, who, s, e, key, busy, secret, pick) == DecideCreate(cfg, b, now, who, s, e, key, busy, secret, pick)
  {
  }

  // ---- the calls that could tell the difference ----

  /** A row that waits without being live: a sweep may have expired it on one side. */
  predicate Dead(db: Db, id: RowId, now: int) { id in db.rows && db.rows[id].status.Waiting() && !Live(db, id, now) }

  predicate DeadTwin(db: Db, now: int, id: RowId, p: Person, s: int, e: int) {
    exists o :: o in db.rows && o != id && Dead(db, o, now) && db.rows[o].SameSlot(p, s, e)
  }

  /** The row found for the candidate in turn is dead, and has a dead twin that waits. */
  ghost predicate HoldRisks(cfg: Config, db: Db, now: int, op: Op) {
    NewRequest(cfg, db, op)
    && exists o :: InTurn(cfg, db, now, op, o) && FoundBesideDead(db, now, Candidate(cfg, db, op, o), op.start, op.end, op.pick)
  }

  predicate FoundBesideDead(db: Db, now: int, p: Person, s: int, e: int, pick: Pick) {
    var found := FindFirst(pick, SlotRows(db.rows, p, s, e));
    found.Some? && !Live(db, found.value, now) && DeadTwin(db, now, found.value, p, s, e)
  }

  /** Over the target of the move a dead row that waits is its twin, or stands beside a live one. */
  predicate MoveRisks(db: Db, now: int, id: RowId, s: int, e: int)
    requires id in db.rows
  {
    var all := ActiveOverlaps(db.rows, id, db.rows[id].person, s, e);
    || DeadTwin(db, now, id, db.rows[id].person, s, e)
    || ((exists o :: o in all && !Live(db, o, now)) && (exists o :: o in all && Live(db, o, now)))
  }

  /** A new hold, or a move that passes its earlier tests, that meets such rows. */
  ghost predicate Risks(cfg: Config, db: Db, now: int, op: Op) {
    || HoldRisks(cfg, db, now, op)
    || (op.Reschedule? && MoveAsks(db, now, op.id, op.token, op.start, op.end, op.key)
        && MoveRisks(db, now, op.id, op.start, op.end))
  }

  /** A row that is active on one side, and not dead, is the same on both. */
  lemma ActiveAlike(a: Db, b: Db, now: int, o: RowId)
    requires Related(a, b, now) && o in a.rows && !Dead(a, o, now)
    ensures o in b.rows && (a.rows[o].status.Active() <==> b.rows[o].status.Active())
    ensures a.rows[o].status.Active() || b.rows[o].status.Active() ==> SameRow(a, b, o)
  {
    assert Twins(a, b, o, now);
  }

  /** What is active after the sweep was so before, and is the same. */
  lemma ActiveWas(a: Db, b: Db, now: int, o: RowId)
    requires Related(a, b, now) && o in b.rows && b.rows[o].status.Active()
    ensures o in a.rows && SameRow(a, b, o)
  {
    assert o in a.rows;
    assert Twins(a, b, o, now);
  }

  lemma RelatedTwins(a: Db, b: Db, now: int, id: RowId, p: Person, s: int, e: int)
    requires Related(a, b, now) && !DeadTwin(a, now, id, p, s, e)
    ensures ActiveTwin(a.rows, id, p, s, e) <==> ActiveTwin(b.rows, id, p, s, e)
  {
    if ActiveTwin(a.rows, id, p, s, e) {
      var o :| o in a.rows && o != id && a.rows[o].status.Active() && a.rows[o].SameSlot(p, s, e);
      ActiveAlike(a, b, now, o);
      assert b.rows[o].SameSlot(p, s, e);
    }
    if ActiveTwin(b.rows, id, p, s, e) {
      var o :| o in b.rows && o != id && b.rows[o].status.Active() && b.rows[o].SameSlot(p, s, e);
      ActiveWas(a, b, now, o);
      assert a.rows[o].SameSlot(p, s, e);
    }
  }

  lemma RelatedRevival(a: Db, b: Db, now: int, p: Person, s: int, e: int, pick: Pick)
    requires Related(a, b, now) && !FoundBesideDead(a, now, p, s, e, pick)
    ensures RevivesOverTwin(a, now, p, s, e, pick) <==> RevivesOverTwin(b, now, p, s, e, pick)
  {
    RelatedQueries(a, b, now);
    var found := FindFirst(pick, SlotRows(a.rows, p, s, e));
    if found.Some? {
      RelatedLive(a, b, now, found.value);
      if !DeadTwin(a, now, found.value, p, s, e) { RelatedTwins(a, b, now, found.value, p, s, e); }
    }
    hide Related, Live, SlotRows, ActiveTwin, DeadTwin;
  }

  lemma RelatedRefusals(a: Db, b: Db, now: int, p: Person, s: int, e: int, pick: Pick)
    requires Related(a, b, now)
    ensures Refuses(a, now, p, s, e, pick) <==> Refuses(b, now, p, s, e, pick)
  {
    RelatedQueries(a, b, now);
    var found := FindFirst(pick, SlotRows(a.rows, p, s, e));
    if found.Some? { RelatedLive(a, b, now, found.value); }
    hide Related, Live, SlotRows, Blocked;
  }

  lemma RelatedAttempt(cfg: Config, a: Db, b: Db, now: int, op: Op, p: Person)
    requires Related(a, b, now) && Good(cfg, a, now) && Good(cfg, b, now) && NewRequest(cfg, a, op)
    requires !FoundBesideDead(a, now, p, op.start, op.end, op.pick)
    ensures Attempted(cfg, a, now, op, p) == Attempted(cfg, b, now, op, p)
  {
    RelatedQueries(a, b, now);
    RelatedRefusals(a, b, now, p, op.start, op.end, op.pick);
    RelatedRevival(a, b, now, p, op.start, op.end, op.pick);
    TakenIffRefuses(cfg, a, now, op, p);
    TakenIffRefuses(cfg, b, now, op, p);
    NextIdIsFree(cfg, a, now);
    NextIdIsFree(cfg, b, now);
    ClashIff(cfg, a, now, p, op.start, op.end, op.key, op.pick);
    ClashIff(cfg, b, now, p, op.start, op.end, op.key, op.pick);
    AttemptShape(cfg, a, now, op, p);
    AttemptShape(cfg, b, now, op, p);
    hide TryHold, Attempted, Refuses, RevivesOverTwin, FoundBesideDead, Good, IndexOk, Live, Blocked;
    assert a.nextId == b.nextId;
  }

  /** What an attempt writes when it succeeds. */
  lemma AttemptShape(cfg: Config, db: Db, now: int, op: Op, p: Person)
    requires op.CreateHold?
    ensures var found := FindFirst(op.pick, SlotRows(db.rows, p, op.start, op.end));
            var r := Attempted(cfg, db, now, op, p);
      && (r.Held? && found.Some? ==> r == Held(Revive(found.value, op.key, now + cfg.ttl), found.value))
      && (r.Held? && found.None? ==>
            r == Held(Insert(Row(p, op.start, op.end, Hold, op.key, None, now), now + cfg.ttl), db.nextId))
  {
    hide IndexOk, Live, Blocked, SlotRows, Apply;
  }

  lemma RelatedTurn(cfg: Config, a: Db, b: Db, now: int, op: Op)
    requires Related(a, b, now) && op.CreateHold? && Targets(cfg, op.who) != []
    ensures forall o: nat :: Candidate(cfg, a, op, o) == Candidate(cfg, b, op, o)
    ensures forall o :: InTurn(cfg, a, now, op, o) <==> InTurn(cfg, b, now, op, o)
  {
    forall p ensures Passes(a, now, op, p) == Passes(b, now, op, p) {
      RelatedRefusals(a, b, now, p, op.start, op.end, op.pick);
    }
    assert a.cursor == b.cursor;
    hide Related, Passes, Turn, FirstIndex, Targets;
    assert forall o: nat :: Candidate(cfg, a, op, o) == Candidate(cfg, b, op, o);
    hide Candidate;
    forall o ensures InTurn(cfg, a, now, op, o) <==> InTurn(cfg, b, now, op, o) {}
  }

  lemma RelatedAllocation(cfg: Config, a: Db, b: Db, now: int, op: Op)
    requires Related(a, b, now) && Good(cfg, a, now) && Good(cfg, b, now) && NewRequest(cfg, a, op) && !HoldRisks(cfg, a, now, op)
    ensures Allocated(cfg, a, now, op, 0) == Allocated(cfg, b, now, op, 0)
  {
    RelatedTurn(cfg, a, b, now, op);
    hide Related, Good, Passes, Allocated, Candidate, InTurn, FoundBesideDead, KeyRows, Targets, Attempted;
    if o :| InTurn(cfg, a, now, op, o) {
      RelatedAttempt(cfg, a, b, now, op, Candidate(cfg, a, op, o));
      AllocateInTurn(cfg, a, now, op, 0, o);
      AllocateInTurn(cfg, b, now, op, 0, o);
      SameAttemptSameTurn(cfg, a, b, now, op, o);
    } else {
      SomebodyOrNobody(cfg, a, now, op, 0);
      SomebodyOrNobody(cfg, b, now, op, 0);
      AllocateNobody(cfg, a, now, op, 0);
      AllocateNobody(cfg, b, now, op, 0);
    }
  }

  lemma SameAttemptSameTurn(cfg: Config, a: Db, b: Db, now: int, op: Op, o: nat)
    requires op.CreateHold? && Targets(cfg, op.who) != [] && a.cursor == b.cursor
    requires InTurn(cfg, a, now, op, o) && InTurn(cfg, b, now, op, o)
    requires Attempted(cfg, a, now, op, Candidate(cfg, a, op, o)) == Attempted(cfg, b, now, op, Candidate(cfg, a, op, o))
    ensures Allocated(cfg, a, now, op, o) == Allocated(cfg, b, now, op, o)
  {
    TakenIffRefuses(cfg, a, now, op, Candidate(cfg, a, op, o));
    hide TryHold, Refuses, FirstIndex, Turn, Targets;
  }

  lemma RelatedCreates(cfg: Config, a: Db, b: Db, now: int, op: Op)
    requires Related(a, b, now) && Good(cfg, a, now) && Good(cfg, b, now) && op.CreateHold? && !HoldRisks(cfg, a, now, op)
    ensures Decide(cfg, a, now, op) == Decide(cfg, b, now, op)
  {
    RelatedKeys(a, b, now, op.key);
    assert a.cursor == b.cursor && a.secrets == b.secrets;
    if NewRequest(cfg, a, op) { RelatedAllocation(cfg, a, b, now, op); }
    hide Related, Good, HoldRisks, KeyRows, Allocate, Targets, FirstIndex, DecideCreate;
    if op.key != "" && op.start < op.end {
      SameFindingsSameCreate(cfg, a, b, now, op.who, op.start, op.end, op.key, op.busy, op.secret, op.pick);
    } else {
      BadCreatesAlike(cfg, a, b, now, op);
    }
  }

  lemma BadCreatesAlike(cfg: Config, a: Db, b: Db, now: int, op: Op)
    requires op.CreateHold? && (op.key == "" || op.end <= op.start) && a.cursor == b.cursor
    ensures Decide(cfg, a, now, op) == Decide(cfg, b, now, op)
  {
  }

  // ---- moves ----

  /** Without a live row over the target, or without a dead one, the look is the same on both sides. */
  lemma RelatedLooks(a: Db, b: Db, now: int, id: RowId, s: int, e: int, pick: Pick)
    requires Related(a, b, now) && id in a.rows && !MoveRisks(a, now, id, s, e)
    ensures id in b.rows && (TargetClear(a, id, s, e, now, pick) <==> TargetClear(b, id, s, e, now, pick))
  {
    assert Twins(a, b, id, now);
    var p := a.rows[id].person;
    var all, left := ActiveOverlaps(a.rows, id, p, s, e), ActiveOverlaps(b.rows, id, p, s, e);
    forall o | o in left ensures o in all && (Live(a, o, now) <==> Live(b, o, now)) {
      ActiveWas(a, b, now, o);
      RelatedLive(a, b, now, o);
    }
    if forall o :: o in all ==> Live(a, o, now) {
      forall o | o in all ensures o in left { ActiveAlike(a, b, now, o); }
      assert all == left;
    } else {
      assert all != {} ==> !Live(a, pick(all), now);
    }
    hide Related, Live;
  }

  lemma RelatedMoves(cfg: Config, a: Db, b: Db, now: int, op: Op)
    requires Related(a, b, now) && IndexOk(a.rows) && IndexOk(b.rows) && op.Reschedule? && !Risks(cfg, a, now, op)
    ensures Decide(cfg, a, now, op) == Decide(cfg, b, now, op)
  {
    if op.id in a.rows {
      assert Twins(a, b, op.id, now);
      if MoveAsks(a, now, op.id, op.token, op.start, op.end, op.key) {
        RelatedLooks(a, b, now, op.id, op.start, op.end, op.pick);
        RelatedTwins(a, b, now, op.id, a.rows[op.id].person, op.start, op.end);
        MoveIndexIff(a, now, op.id, op.start, op.end);
        MoveIndexIff(b, now, op.id, op.start, op.end);
      }
    }
    hide IndexOk, TargetClear, Unexpired, TokenFits, ActiveTwin, MoveRisks, HoldRisks, Apply;
  }

  /** A refusal that at most marks a spent row as expired. */
  ghost predicate Shrugs(db: Db, now: int, d: Decision) {
    && d.answer.Rejected? && d.spend == {} && d.cursor == db.cursor && d.mint == map[]
    && (d.effect.Nothing? || (d.effect.Expire? && Spent(db, d.effect.id, now)))
  }

  /** Both refuse, over rows that the second database has expired already. */
  ghost predicate BothShrug(a: Db, b: Db, now: int, x: Decision, y: Decision) {
    && Shrugs(a, now, x) && Shrugs(b, now, y)
    && (x.effect.Expire? ==> x.effect.id in b.rows && b.rows[x.effect.id].status.Expired?)
  }

  /** Related databases decide alike, or both refuse over a spent row. */
  ghost predicate DecideAlike(cfg: Config, a: Db, b: Db, now: int, op: Op) {
    var x, y := Decide(cfg, a, now, op), Decide(cfg, b, now, op);
    x == y || BothShrug(a, b, now, x, y)
  }

  lemma RelatedVerifies(cfg: Config, a: Db, b: Db, now: int, op: Op)
    requires Related(a, b, now) && op.SendVerification?
    ensures DecideAlike(cfg, a, b, now, op)
  {
    if op.id in a.rows { assert Twins(a, b, op.id, now); }
  }

  lemma SameRowConfirms(a: Db, b: Db, now: int, t: Token, key: string)
    requires SameRest(a, b) && (t.booking in a.rows ==> SameRow(a, b, t.booking))
    requires forall except, p, s, e :: Blocked(a, except, p, s, e, now) == Blocked(b, except, p, s, e, now)
    ensures DecideConfirm(a, now, t, key) == DecideConfirm(b, now, t, key)
  {
    hide Blocked, Unexpired;
  }

  /** The reads that end a confirmation before it looks at the booking. */
  predicate EndsEarly(db: Db, now: int, t: Token, key: string) {
    key == "" || !Unexpired(t, now) || t.purpose != Verify || !t.ours || (ForConfirm, key) in db.used
  }

  lemma SpentConfirms(db: Db, now: int, t: Token, key: string)
    requires Spent(db, t.booking, now) && !EndsEarly(db, now, t, key)
    ensures var d := DecideConfirm(db, now, t, key);
      Shrugs(db, now, d) && (d.effect.Expire? ==> d.effect.id == t.booking)
  {
    hide Blocked, Unexpired;
  }

  lemma EarlyConfirms(a: Db, b: Db, now: int, t: Token, key: string)
    requires SameRest(a, b) && EndsEarly(a, now, t, key)
    ensures DecideConfirm(a, now, t, key) == DecideConfirm(b, now, t, key)
  {
    hide Blocked, Unexpired;
  }

  lemma RelatedConfirms(cfg: Config, a: Db, b: Db, now: int, op: Op)
    requires Related(a, b, now) && op.ConfirmBooking?
    ensures DecideAlike(cfg, a, b, now, op)
  {
    RelatedQueries(a, b, now);
    var t := op.token;
    if t.booking in a.rows { assert Twins(a, b, t.booking, now); }
    hide Blocked, DecideConfirm, Shrugs, Spent;
    if EndsEarly(a, now, t, op.key) {
      EarlyConfirms(a, b, now, t, op.key);
    } else if t.booking in a.rows && !SameRow(a, b, t.booking) {
      SpentConfirms(a, now, t, op.key);
      SpentConfirms(b, now, t, op.key);
    } else {
      SameRowConfirms(a, b, now, t, op.key);
    }
  }

  lemma RelatedConfirmsById(cfg: Config, a: Db, b: Db, now: int, op: Op)
    requires Related(a, b, now) && op.ConfirmBookingById?
    ensures DecideAlike(cfg, a, b, now, op)
  {
    if op.id in a.rows { assert Twins(a, b, op.id, now); }
  }

  lemma RelatedCancels(cfg: Config, a: Db, b: Db, now: int, op: Op)
    requires Related(a, b, now) && op.CancelBooking?
    ensures DecideAlike(cfg, a, b, now, op)
  {
    if op.id in a.rows { assert Twins(a, b, op.id, now); }
  }

  lemma RelatedDecisions(cfg: Config, a: Db, b: Db, now: int, op: Op)
    requires Related(a, b, now) && Good(cfg, a, now) && Good(cfg, b, now) && !op.ExpireHolds? && !Risks(cfg, a, now, op)
    ensures DecideAlike(cfg, a, b, now, op)
  {
    hide Decide, Related, BothShrug, InTurn, FoundBesideDead, MoveRisks, Candidate, IndexOk;
    match op {
      case CreateHold(_, _, _, _, _, _, _) => RelatedCreates(cfg, a, b, now, op);
      case SendVerification(_, _) => RelatedVerifies(cfg, a, b, now, op);
      case ConfirmBooking(_, _) => RelatedConfirms(cfg, a, b, now, op);
      case ConfirmBookingById(_, _, _) => RelatedConfirmsById(cfg, a, b, now, op);
      case CancelBooking(_, _, _) => RelatedCancels(cfg, a, b, now, op);
      case Reschedule(_, _, _, _, _, _) => RelatedMoves(cfg, a, b, now, op);
      case Query(_, _) => RelatedOffers(cfg, a, b, now, op);
    }
  }

  lemma RelatedOffers(cfg: Config, a: Db, b: Db, now: int, op: Op)
    requires Related(a, b, now) && op.Query?
    ensures Decide(cfg, a, now, op) == Decide(cfg, b, now, op)
  {
    RelatedSlots(cfg, a, b, op.who, op.date, now);
    hide FreshSlots;
  }

  // ---- what the effects do to related databases ----

  /** The same effect on both sides; the row it writes comes out the same or stays spent. */
  lemma TwinsAfter(cfg: Config, a: Db, b: Db, now: int, e: Effect, id: RowId)
    requires id in a.rows && id in b.rows && Twins(a, b, id, now) && id != a.nextId == b.nextId
    requires Local(cfg, a, now, e) && Local(cfg, b, now, e) && !e.Sweep?
    ensures id in Apply(a, now, e).rows && id in Apply(b, now, e).rows
    ensures Twins(Apply(a, now, e), Apply(b, now, e), id, now)
  {
  }

  lemma SameRestAfter(a: Db, b: Db, now: int, e: Effect)
    requires SameRest(a, b)
    ensures SameRest(Apply(a, now, e), Apply(b, now, e))
  {
  }

  lemma InsertedTwins(a: Db, b: Db, now: int, e: Effect)
    requires e.Insert? && a.nextId == b.nextId
    ensures Twins(Apply(a, now, e), Apply(b, now, e), a.nextId, now)
  {
  }

  lemma SameEffectKeepsRelated(cfg: Config, a: Db, b: Db, now: int, e: Effect)
    requires Related(a, b, now) && Local(cfg, a, now, e) && Local(cfg, b, now, e) && !e.Sweep?
    requires a.nextId !in a.rows
    ensures Related(Apply(a, now, e), Apply(b, now, e), now)
  {
    var x, y := Apply(a, now, e), Apply(b, now, e);
    SameRestAfter(a, b, now, e);
    forall id | id in x.rows
      ensures Twins(x, y, id, now)
    {
      if id in a.rows {
        assert Twins(a, b, id, now);
        TwinsAfter(cfg, a, b, now, e, id);
      } else {
        InsertedTwins(a, b, now, e);
      }
    }
  }

  /** Marking a spent row as expired on one side leaves it spent. */
  lemma ShrugKeepsRelated(a: Db, b: Db, now: int, id: RowId)
    requires Related(a, b, now)
    ensures Spent(a, id, now) && id in b.rows && b.rows[id].status.Expired? ==> Related(Apply(a, now, Expire(id)), b, now)
    ensures Spent(b, id, now) ==> Related(a, Apply(b, now, Expire(id)), now)
  {
    if id in a.rows && id in b.rows {
      assert Twins(a, b, id, now);
      var x, y := Apply(a, now, Expire(id)), Apply(b, now, Expire(id));
      forall i | i in a.rows
        ensures Spent(a, id, now) && b.rows[id].status.Expired? ==> Twins(x, b, i, now)
        ensures Spent(b, id, now) ==> Twins(a, y, i, now)
      {
        assert Twins(a, b, i, now);
      }
    }
  }

  /** A swept row was spent, because no hold is shorter than the window for confirming by id. */
  lemma SweptWasSpent(cfg: Config, a: Db, b: Db, id: RowId, now: int)
    requires id in a.rows && id in b.rows && Twins(a, b, id, now) && Stale(b, id, now)
    requires Sane(cfg, b, now) && cfg.ttl >= BY_ID_WINDOW
    ensures Spent(a, id, now) && Spent(b, id, now)
  {
  }

  lemma SweepKeepsRelated(cfg: Config, a: Db, b: Db, now: int)
    requires Related(a, b, now) && Sane(cfg, b, now) && cfg.ttl >= BY_ID_WINDOW
    ensures Related(a, Apply(b, now, Sweep), now)
  {
    var y := Apply(b, now, Sweep);
    forall i | i in a.rows
      ensures Twins(a, y, i, now)
    {
      assert Twins(a, b, i, now);
      if Stale(b, i, now) { SweptWasSpent(cfg, a, b, i, now); }
    }
  }

  lemma CommitKeepsRelated(x: Db, y: Db, now: int, a: Db, b: Db)
    requires Related(x, y, now)
    requires a.rows == x.rows && a.holds == x.holds && b.rows == y.rows && b.holds == y.holds && SameRest(a, b)
    ensures Related(a, b, now)
  {
    forall i | i in a.rows
      ensures Twins(a, b, i, now)
    {
      assert Twins(x, y, i, now);
    }
  }

  // ---- runs ----

  /** Related databases, and the standing facts on both sides. */
  ghost predicate Paired(cfg: Config, a: Db, b: Db, now: int) {
    Related(a, b, now) && Good(cfg, a, now) && Good(cfg, b, now)
  }

  /** Accepted answers are told apart by their content, refusals are not. */
  datatype Verdict = Yes(answer: Answer) | No

  function VerdictOf(a: Answer): Verdict { if a.Rejected? then No else Yes(a) }

  /** A shrug commits its effect and nothing else. */
  lemma ShrugCommits(db: Db, now: int, d: Decision)
    requires Shrugs(db, now, d)
    ensures var after := Commit(db, now, d);
      && SameRest(db, after) && after.rows == Apply(db, now, d.effect).rows && after.holds == Apply(db, now, d.effect).holds
    ensures SameRest(db, Apply(db, now, d.effect))
  {
    hide Spent;
    var after := Commit(db, now, d);
    assert after.used == db.used && after.secrets == db.secrets;
  }

  lemma ShrugsKeepRelated(a: Db, b: Db, now: int, x: Decision, y: Decision)
    requires Related(a, b, now) && BothShrug(a, b, now, x, y)
    ensures Related(Commit(a, now, x), Commit(b, now, y), now)
  {
    ShrugCommits(a, now, x);
    ShrugCommits(b, now, y);
    var a2, b2 := Apply(a, now, x.effect), Apply(b, now, y.effect);
    assert SameRest(a, b);
    hide Commit, Twins, Spent;
    if x.effect.Expire? { ShrugKeepsRelated(a, b, now, x.effect.id); }
    assert Related(a2, b, now);
    if y.effect.Expire? { ShrugKeepsRelated(a2, b, now, y.effect.id); }
    hide Related, Apply;
    CommitKeepsRelated(a2, b2, now, Commit(a, now, x), Commit(b, now, y));
  }

  lemma SameDecisionKeepsRelated(cfg: Config, a: Db, b: Db, now: int, op: Op)
    requires Related(a, b, now) && Sane(cfg, a, now) && !op.ExpireHolds?
    requires Decide(cfg, a, now, op) == Decide(cfg, b, now, op)
    ensures Related(Step(cfg, a, At(now, op)), Step(cfg, b, At(now, op)), now)
  {
    var d := Decide(cfg, a, now, op);
    DecisionIsLawful(cfg, a, now, op);
    DecisionIsLawful(cfg, b, now, op);
    EffectFitsCall(cfg, a, now, op);
    SameEffectKeepsRelated(cfg, a, b, now, d.effect);
    CommitKeepsRelated(Apply(a, now, d.effect), Apply(b, now, d.effect), now, Commit(a, now, d), Commit(b, now, d));
  }

  /** One call on related databases that does not risk it: same verdict, related again. */
  lemma StepAlike(cfg: Config, a: Db, b: Db, now: int, ev: Event)
    requires Paired(cfg, a, b, now) && now <= ev.time && !ev.op.ExpireHolds? && !Risks(cfg, a, ev.time, ev.op)
    ensures VerdictOf(AnswerTo(cfg, a, ev)) == VerdictOf(AnswerTo(cfg, b, ev))
    ensures Paired(cfg, Step(cfg, a, ev), Step(cfg, b, ev), ev.time)
  {
    RelatedLater(a, b, now, ev.time);
    StepKeepsGood(cfg, a, now, ev);
    StepKeepsGood(cfg, b, now, ev);
    LaterGood(cfg, a, now, ev.time);
    LaterGood(cfg, b, now, ev.time);
    RelatedDecisions(cfg, a, b, ev.time, ev.op);
    var x, y := Decide(cfg, a, ev.time, ev.op), Decide(cfg, b, ev.time, ev.op);
    hide Risks, Related, IndexOk, Decide;
    if x == y {
      SameDecisionKeepsRelated(cfg, a, b, ev.time, ev.op);
    } else {
      ShrugsKeepRelated(a, b, ev.time, x, y);
    }
  }

  lemma SweepStep(cfg: Config, db: Db, time: int)
    ensures Step(cfg, db, At(time, ExpireHolds)) == Apply(db, time, Sweep)
  {
    var after := Apply(db, time, Sweep);
    assert after.used + {} == after.used && map[] + after.secrets == after.secrets;
  }

  /** A sweep on one side only: related again. */
  lemma SweepAlone(cfg: Config, a: Db, b: Db, now: int, time: int)
    requires Paired(cfg, a, b, now) && now <= time && cfg.ttl >= BY_ID_WINDOW
    ensures Paired(cfg, a, Step(cfg, b, At(time, ExpireHolds)), time)
  {
    var ev := At(time, ExpireHolds);
    LaterGood(cfg, a, now, time);
    LaterGood(cfg, b, now, time);
    StepKeepsGood(cfg, b, now, ev);
    assert Related(a, Step(cfg, b, ev), time) by {
      RelatedLater(a, b, now, time);
      SweepKeepsRelated(cfg, a, b, time);
      SweepStep(cfg, b, time);
    }
  }

  /** What callers hear over a run; sweeps answer nobody. */
  function Heard(cfg: Config, db: Db, run: seq<Event>): seq<Verdict>
    decreases |run|
  {
    if run == [] then []
    else
      var rest := Heard(cfg, Step(cfg, db, run[0]), run[1..]);
      if run[0].op.ExpireHolds? then rest else [VerdictOf(AnswerTo(cfg, db, run[0]))] + rest
  }

  function WithoutSweeps(run: seq<Event>): seq<Event>
    decreases |run|
  {
    if run == [] then []
    else if run[0].op.ExpireHolds? then WithoutSweeps(run[1..])
    else [run[0]] + WithoutSweeps(run[1..])
  }

  /** No call of the run, swept of nothing, risks it. */
  ghost predicate Careful(cfg: Config, db: Db, run: seq<Event>)
    decreases |run|
  {
    run == [] || (!Risks(cfg, db, run[0].time, run[0].op) && Careful(cfg, Step(cfg, db, run[0]), run[1..]))
  }

  /** Callers hear the same with and without the sweeps of a run whose other calls are careful. */
  lemma {:induction false} SweepsGoUnheard(cfg: Config, a: Db, b: Db, now: int, run: seq<Event>)
    requires Paired(cfg, a, b, now) && Timeline(now, run) && cfg.ttl >= BY_ID_WINDOW && Careful(cfg, a, WithoutSweeps(run))
    ensures Heard(cfg, a, WithoutSweeps(run)) == Heard(cfg, b, run)
    decreases |run|
  {
    hide Paired, Step, AnswerTo, Risks, Sound;
    if run != [] {
      var ev := run[0];
      if ev.op.ExpireHolds? {
        SweepAlone(cfg, a, b, now, ev.time);
        SweepsGoUnheard(cfg, a, Step(cfg, b, ev), ev.time, run[1..]);
      } else {
        var lean := WithoutSweeps(run);
        assert lean[0] == ev && lean[1..] == WithoutSweeps(run[1..]);
        StepAlike(cfg, a, b, now, ev);
        SweepsGoUnheard(cfg, Step(cfg, a, ev), Step(cfg, b, ev), ev.time, run[1..]);
      }
    }
  }

  lemma {:induction false} WithoutSweepsSplits(a: seq<Event>, b: seq<Event>)
    ensures WithoutSweeps(a + b) == WithoutSweeps(a) + WithoutSweeps(b)
    decreases |a|
  {
    if a == [] {
      assert a + b == b;
    } else {
      WithoutSweepsSplits(a[1..], b);
      assert (a + b)[0] == a[0] && (a + b)[1..] == a[1..] + b;
    }
  }

  /**
   Expiring eagerly or lazily makes no difference: with holds of at least 15 minutes, adding a sweep at any
   point of any run changes neither an accepted answer nor an acceptance, nor any computed availability, as
   long as the new holds and the moves of the run, made without any sweep, meet no dead rows that wait.
   */
  lemma LazyEqualsEager(cfg: Config, cursor: int, start: int, before: seq<Event>, sweep: int, after: seq<Event>)
    requires Timeline(start, before + [At(sweep, ExpireHolds)] + after) && Timeline(start, before + after)
    requires Careful(cfg, Fresh(cursor), WithoutSweeps(before + after)) && cfg.ttl >= BY_ID_WINDOW
    ensures Heard(cfg, Fresh(cursor), before + [At(sweep, ExpireHolds)] + after) == Heard(cfg, Fresh(cursor), before + after)
  {
    var db, s := Fresh(cursor), [At(sweep, ExpireHolds)];
    assert Paired(cfg, db, db, start);
    assert WithoutSweeps(s) == [] by { assert s[1..] == []; }
    hide Heard, Paired, Careful, Fresh, Sound;
    WithoutSweepsSplits(before + s, after);
    WithoutSweepsSplits(before, s);
    WithoutSweepsSplits(before, after);
    assert WithoutSweeps(before) + [] == WithoutSweeps(before);
    SweepsGoUnheard(cfg, db, db, start, before + s + after);
    SweepsGoUnheard(cfg, db, db, start, before + after);
  }

  // ---- runs without reschedules are careful ----

  lemma StepKeepsFit(cfg: Config, db: Db, now: int, ev: Event)
    requires Fit(cfg, db, now) && now <= ev.time && !ev.op.Reschedule?
    ensures Fit(cfg, Step(cfg, db, ev), ev.time) && Fit(cfg, db, ev.time)
  {
    StepKeepsGood(cfg, db, now, ev);
    StepKeepsSlotUnique(cfg, db, ev);
  }

  lemma OneRowNoRisk(cfg: Config, db: Db, now: int, op: Op)
    requires SlotUnique(db.rows) && !op.Reschedule?
    ensures !Risks(cfg, db, now, op)
  {
    if op.CreateHold? && Targets(cfg, op.who) != [] {
      forall o: nat ensures !FoundBesideDead(db, now, Candidate(cfg, db, op, o), op.start, op.end, op.pick) {
        OneRowNoTwin(db, now, Candidate(cfg, db, op, o), op.start, op.end, op.pick);
      }
    }
    hide InTurn, Candidate, FoundBesideDead, SlotUnique;
  }

  lemma OneRowNoTwin(db: Db, now: int, p: Person, s: int, e: int, pick: Pick)
    requires SlotUnique(db.rows)
    ensures !FoundBesideDead(db, now, p, s, e, pick)
  {
    var found := FindFirst(pick, SlotRows(db.rows, p, s, e));
    if found.Some? { assert found.value in SlotRows(db.rows, p, s, e); }
    hide Live;
  }

  lemma {:induction false} UnmovedIsCareful(cfg: Config, db: Db, now: int, run: seq<Event>)
    requires Fit(cfg, db, now) && Timeline(now, run) && NoReschedule(run)
    ensures Careful(cfg, db, WithoutSweeps(run))
    decreases |run|
  {
    hide Step, Risks, Good, SlotUnique;
    if run != [] {
      if run[0].op.ExpireHolds? {
        FitLater(cfg, db, now, run[0].time);
        UnmovedIsCareful(cfg, db, run[0].time, run[1..]);
      } else {
        var lean := WithoutSweeps(run);
        assert lean[0] == run[0] && lean[1..] == WithoutSweeps(run[1..]);
        OneRowNoRisk(cfg, db, run[0].time, run[0].op);
        StepKeepsFit(cfg, db, now, run[0]);
        UnmovedIsCareful(cfg, Step(cfg, db, run[0]), run[0].time, run[1..]);
      }
    }
  }

  lemma FitLater(cfg: Config, db: Db, now: int, later: int)
    requires Fit(cfg, db, now) && now <= later
    ensures Fit(cfg, db, later)
  {
    LaterGood(cfg, db, now, later);
  }

  /** In particular in runs without reschedules. */
  lemma LazyEqualsEagerUnmoved(cfg: Config, cursor: int, start: int, before: seq<Event>, sweep: int, after: seq<Event>)
    requires Timeline(start, before + [At(sweep, ExpireHolds)] + after) && Timeline(start, before + after)
    requires NoReschedule(before) && NoReschedule(after) && cfg.ttl >= BY_ID_WINDOW
    ensures Heard(cfg, Fresh(cursor), before + [At(sweep, ExpireHolds)] + after) == Heard(cfg, Fresh(cursor), before + after)
  {
    assert Fit(cfg, Fresh(cursor), start) && NoReschedule(before + after);
    hide Heard, Careful, Fit, Fresh, Sound;
    UnmovedIsCareful(cfg, Fresh(cursor), start, before + after);
    LazyEqualsEager(cfg, cursor, start, before, sweep, after);
  }
}
