/** Which single calls can tell whether expireHolds ran just before, judged from the tables and the request. */
module SweepTold {
  import opened Prelude
  import opened Store
  import opened Availability
  import opened Lifecycle
  import opened Invariants
  import opened Expiry
  import opened Intruders
  import opened IndexHandler
  import opened OneCall

  function Cleaned(db: Db, now: int): Db { Apply(db, now, Sweep) }

  /** What a caller hears of a call, once on the tables as they are and once after a sweep. */
  predicate Alike(cfg: Config, db: Db, now: int, op: Op) {
    VerdictOf(AnswerTo(cfg, db, At(now, op))) == VerdictOf(AnswerTo(cfg, Cleaned(db, now), At(now, op)))
  }

  // ---- what a sweep leaves alone ----

  lemma SweptRow(db: Db, now: int, id: RowId)
    requires id in db.rows
    ensures var b := Cleaned(db, now);
      && id in b.rows && SameFrame(db.rows[id], b.rows[id]) && (Live(db, id, now) <==> Live(b, id, now))
      && (b.rows[id].status.Active() <==> db.rows[id].status.Active() && !Stale(db, id, now))
      && (!Stale(db, id, now) ==> b.rows[id] == db.rows[id] && (id in b.holds <==> id in db.holds)
                                  && (id in db.holds ==> b.holds[id] == db.holds[id]))
      && (Stale(db, id, now) ==> b.rows[id].status.Expired? && id !in b.holds)
  {
  }

  lemma SweptRest(db: Db, now: int)
    ensures var b := Cleaned(db, now);
      && b.rows.Keys == db.rows.Keys && b.secrets == db.secrets && b.used == db.used
      && b.cursor == db.cursor && b.nextId == db.nextId
  {
  }

  lemma SweptGood(cfg: Config, db: Db, now: int)
    requires Good(cfg, db, now)
    ensures Good(cfg, Cleaned(db, now), now)
  {
    EffectKeepsSane(cfg, db, now, Sweep);
    EffectKeepsIndexes(cfg, db, now, Sweep);
  }

  lemma SweptIndexes(db: Db, now: int)
    requires IndexOk(db.rows)
    ensures IndexOk(Cleaned(db, now).rows)
  {
    SweptRest(db, now);
    forall id | id in db.rows
      ensures SameFrame(db.rows[id], Cleaned(db, now).rows[id])
              && (Cleaned(db, now).rows[id].status.Active() ==> db.rows[id].status.Active())
    {
      SweptRow(db, now, id);
    }
    hide Cleaned;
    ThinnerKeepsIndexes(db.rows, Cleaned(db, now).rows);
  }

  /** The same queries find the same rows. */
  lemma SweptQueries(db: Db, now: int)
    ensures var b := Cleaned(db, now);
      && (forall p, s, e :: SlotRows(b.rows, p, s, e) == SlotRows(db.rows, p, s, e))
      && (forall key :: KeyRows(b.rows, key) == KeyRows(db.rows, key))
      && (forall except, p, s, e :: Blocked(b, except, p, s, e, now) == Blocked(db, except, p, s, e, now))
      && (forall id :: Live(b, id, now) == Live(db, id, now))
  {
    SweptRest(db, now);
    forall id | id in db.rows
      ensures SameFrame(db.rows[id], Cleaned(db, now).rows[id]) && (Live(db, id, now) <==> Live(Cleaned(db, now), id, now))
    {
      SweptRow(db, now, id);
    }
    hide Apply;
  }

  // ---- createHold ----

  /** A stale row at the same interval as `id`. */
  predicate StaleTwin(db: Db, now: int, id: RowId, p: Person, s: int, e: int) {
    exists o :: o in db.rows && o != id && Stale(db, o, now) && db.rows[o].SameSlot(p, s, e)
  }

  /** The row found for `p` is dead and has a stale twin. */
  predicate FindsBesideStale(db: Db, now: int, p: Person, s: int, e: int, pick: Pick) {
    var found := FindFirst(pick, SlotRows(db.rows, p, s, e));
    found.Some? && !Live(db, found.value, now) && StaleTwin(db, now, found.value, p, s, e)
  }

  /** The candidate in turn is found beside a stale twin. */
  ghost predicate HoldTells(cfg: Config, db: Db, now: int, op: Op) {
    NewRequest(cfg, db, op)
    && exists o :: InTurn(cfg, db, now, op, o)
                   && FindsBesideStale(db, now, Candidate(cfg, db, op, o), op.start, op.end, op.pick)
  }

  /** A sweep takes away exactly the twins that are stale; the index allows only one active twin. */
  lemma SweptTwin(db: Db, now: int, id: RowId, p: Person, s: int, e: int)
    requires ActiveUnique(db.rows)
    ensures ActiveTwin(Cleaned(db, now).rows, id, p, s, e)
            <==> ActiveTwin(db.rows, id, p, s, e) && !StaleTwin(db, now, id, p, s, e)
    ensures StaleTwin(db, now, id, p, s, e) ==> ActiveTwin(db.rows, id, p, s, e)
  {
    var b := Cleaned(db, now);
    forall o | o in db.rows
      ensures o in b.rows && SameFrame(db.rows[o], b.rows[o])
              && (b.rows[o].status.Active() <==> db.rows[o].status.Active() && !Stale(db, o, now))
    {
      SweptRow(db, now, o);
    }
    SweptRest(db, now);
    hide Apply;
    if o :| o in db.rows && o != id && db.rows[o].status.Active() && db.rows[o].SameSlot(p, s, e) {
      if !Stale(db, o, now) { assert b.rows[o].SameSlot(p, s, e); }
      forall q | q in db.rows && db.rows[q].status.Active() && db.rows[q].SameSlot(p, s, e) ensures q == o {}
    }
  }

  lemma SweptPasses(cfg: Config, db: Db, now: int, op: Op)
    requires op.CreateHold?
    ensures forall p :: Passes(Cleaned(db, now), now, op, p) == Passes(db, now, op, p)
  {
    SweptQueries(db, now);
    hide Apply, Live, Blocked, SlotRows;
  }

  lemma SweptTurn(cfg: Config, db: Db, now: int, op: Op)
    requires op.CreateHold? && Targets(cfg, op.who) != []
    ensures forall o :: InTurn(cfg, Cleaned(db, now), now, op, o) <==> InTurn(cfg, db, now, op, o)
    ensures forall o: nat :: Candidate(cfg, Cleaned(db, now), op, o) == Candidate(cfg, db, op, o)
  {
    SweptPasses(cfg, db, now, op);
    SweptRest(db, now);
    hide Cleaned, Passes, Turn, FirstIndex, Targets;
    assert forall o: nat :: Candidate(cfg, Cleaned(db, now), op, o) == Candidate(cfg, db, op, o);
    hide Candidate;
    forall o ensures InTurn(cfg, Cleaned(db, now), now, op, o) <==> InTurn(cfg, db, now, op, o) {}
  }

  lemma SweptRevival(db: Db, now: int, p: Person, s: int, e: int, pick: Pick)
    requires ActiveUnique(db.rows)
    ensures RevivesOverTwin(Cleaned(db, now), now, p, s, e, pick)
            <==> RevivesOverTwin(db, now, p, s, e, pick) && !FindsBesideStale(db, now, p, s, e, pick)
    ensures FindsBesideStale(db, now, p, s, e, pick) ==> RevivesOverTwin(db, now, p, s, e, pick)
  {
    SweptQueries(db, now);
    var found := FindFirst(pick, SlotRows(db.rows, p, s, e));
    if found.Some? { SweptTwin(db, now, found.value, p, s, e); }
    hide Apply, Live, SlotRows, ActiveTwin, StaleTwin, ActiveUnique;
  }

  /** The answer names the row found, or the next new one. */
  lemma HeldNames(cfg: Config, db: Db, now: int, op: Op, p: Person)
    requires op.CreateHold?
    ensures var a := Attempted(cfg, db, now, op, p);
            var found := FindFirst(op.pick, SlotRows(db.rows, p, op.start, op.end));
      a.Held? ==> a.id == if found.Some? then found.value else db.nextId
  {
    hide IndexOk, Live, Blocked, SlotRows, Apply;
  }

  /** A new request: the answer, as the tables have it. */
  function NewAnswer(cfg: Config, db: Db, op: Op, o: nat): Answer
    requires op.CreateHold? && Targets(cfg, op.who) != []
  {
    var found := FindFirst(op.pick, SlotRows(db.rows, Candidate(cfg, db, op, o), op.start, op.end));
    Accepted(if found.Some? then found.value else db.nextId)
  }

  lemma InTurnAnswer(cfg: Config, db: Db, now: int, op: Op, o: nat)
    requires Good(cfg, db, now) && NewRequest(cfg, db, op) && InTurn(cfg, db, now, op, o)
    ensures VerdictOf(Decide(cfg, db, now, op).answer) ==
      if RevivesOverTwin(db, now, Candidate(cfg, db, op, o), op.start, op.end, op.pick) then No
      else Yes(NewAnswer(cfg, db, op, o))
  {
    hide *;
    ServedIs(cfg, db, now, op, o);
    InTurnIsHeld(cfg, db, now, op, o);
    HeldNames(cfg, db, now, op, Candidate(cfg, db, op, o));
    VerdictIs(Decide(cfg, db, now, op).answer);
    NewAnswerIs(cfg, db, op, o);
  }

  lemma ServedIs(cfg: Config, db: Db, now: int, op: Op, o: nat)
    requires NewRequest(cfg, db, op) && InTurn(cfg, db, now, op, o)
    ensures op.CreateHold? && Targets(cfg, op.who) != []
    ensures Served(cfg, db, now, op, o) <==> !RevivesOverTwin(db, now, Candidate(cfg, db, op, o), op.start, op.end, op.pick)
  {
    hide InTurn, RevivesOverTwin, Candidate;
  }

  lemma VerdictIs(a: Answer)
    ensures VerdictOf(a) == if a.Rejected? then No else Yes(a)
  {
  }

  lemma NewAnswerIs(cfg: Config, db: Db, op: Op, o: nat)
    requires op.CreateHold? && Targets(cfg, op.who) != []
    ensures var found := FindFirst(op.pick, SlotRows(db.rows, Candidate(cfg, db, op, o), op.start, op.end));
      NewAnswer(cfg, db, op, o) == Accepted(if found.Some? then found.value else db.nextId)
  {
  }

  lemma NewHoldTells(cfg: Config, db: Db, now: int, op: Op, o: nat)
    requires Good(cfg, db, now) && NewRequest(cfg, db, op) && InTurn(cfg, db, now, op, o)
    ensures Alike(cfg, db, now, op)
            <==> !FindsBesideStale(db, now, Candidate(cfg, db, op, o), op.start, op.end, op.pick)
  {
    var b := Cleaned(db, now);
    SweptGood(cfg, db, now);
    SweptQueries(db, now);
    SweptRest(db, now);
    SweptTurn(cfg, db, now, op);
    InTurnAnswer(cfg, db, now, op, o);
    assert NewRequest(cfg, b, op);
    InTurnAnswer(cfg, b, now, op, o);
    assert IndexOk(db.rows);
    SweptRevival(db, now, Candidate(cfg, db, op, o), op.start, op.end, op.pick);
    hide Cleaned, Decide, InTurn, Candidate, RevivesOverTwin, FindsBesideStale, Good, Blocked, Live, KeyRows, IndexOk, Targets, VerdictOf;
  }

  lemma OldHoldAlike(cfg: Config, db: Db, now: int, op: Op)
    requires op.CreateHold? && !NewRequest(cfg, db, op)
    ensures Alike(cfg, db, now, op)
  {
    SweptQueries(db, now);
    SweptRest(db, now);
    hide Cleaned, KeyRows, Allocate, Minted, Targets;
  }

  lemma NobodyAlike(cfg: Config, db: Db, now: int, op: Op)
    requires NewRequest(cfg, db, op) && forall o :: !InTurn(cfg, db, now, op, o)
    ensures Alike(cfg, db, now, op)
  {
    var b := Cleaned(db, now);
    SweptTurn(cfg, db, now, op);
    SweptQueries(db, now);
    assert NewRequest(cfg, b, op);
    RequestDecides(cfg, db, now, op);
    RequestDecides(cfg, b, now, op);
    hide Cleaned, Decide, InTurn, Candidate, Passes, KeyRows, Targets, Allocated, SlotRows, Blocked, Live;
    SomebodyOrNobody(cfg, db, now, op, 0);
    SomebodyOrNobody(cfg, b, now, op, 0);
    AllocateNobody(cfg, db, now, op, 0);
    AllocateNobody(cfg, b, now, op, 0);
  }

  /** A createHold tells if and only if the dead row found for the candidate in turn has a stale twin. */
  lemma HoldTellsIff(cfg: Config, db: Db, now: int, op: Op)
    requires Good(cfg, db, now) && op.CreateHold?
    ensures Alike(cfg, db, now, op) <==> !HoldTells(cfg, db, now, op)
  {
    hide Alike, InTurn, FindsBesideStale, Good, Candidate;
    if !NewRequest(cfg, db, op) {
      OldHoldAlike(cfg, db, now, op);
    } else if o :| InTurn(cfg, db, now, op, o) {
      NewHoldTells(cfg, db, now, op, o);
      forall i | InTurn(cfg, db, now, op, i) ensures i == o { OneInTurn(cfg, db, now, op, i, o); }
    } else {
      NobodyAlike(cfg, db, now, op);
    }
  }

  // ---- confirmations, mails, cancellations, queries ----

  /** A booking young enough to be confirmed by id, whose hold has run out. */
  predicate ByIdTells(db: Db, now: int, op: Op) {
    op.ConfirmBookingById? && ByIdPasses(db, now, op.id, op.given, op.key) && Stale(db, op.id, now)
  }

  lemma ByIdTellsIff(cfg: Config, db: Db, now: int, op: Op)
    requires op.ConfirmBookingById?
    ensures Alike(cfg, db, now, op) <==> !ByIdTells(db, now, op)
  {
    SweptRest(db, now);
    if op.id in db.rows { SweptRow(db, now, op.id); }
    hide Cleaned;
  }

  lemma ConfirmAlike(cfg: Config, db: Db, now: int, op: Op)
    requires op.ConfirmBooking?
    ensures Alike(cfg, db, now, op)
  {
    var t, b := op.token, Cleaned(db, now);
    SweptRest(db, now);
    SweptQueries(db, now);
    if t.booking in db.rows { SweptRow(db, now, t.booking); }
    hide Cleaned, SlotRows, KeyRows;
    if EndsEarly(db, now, t, op.key) {
      EarlyConfirms(db, b, now, t, op.key);
    } else if Stale(db, t.booking, now) {
      StaleConfirms(db, now, t, op.key);
      ExpiredConfirms(b, now, t, op.key);
    } else {
      SameRowConfirms(db, b, now, t, op.key);
    }
    hide DecideConfirm;
  }

  lemma StaleConfirms(db: Db, now: int, t: Token, key: string)
    requires Stale(db, t.booking, now) && !EndsEarly(db, now, t, key)
    ensures DecideConfirm(db, now, t, key).answer.Rejected?
  {
    hide Blocked, Unexpired;
  }

  lemma ExpiredConfirms(db: Db, now: int, t: Token, key: string)
    requires t.booking in db.rows && db.rows[t.booking].status.Expired? && !EndsEarly(db, now, t, key)
    ensures DecideConfirm(db, now, t, key).answer.Rejected?
  {
    hide Blocked, Unexpired;
  }

  lemma MailAlike(cfg: Config, db: Db, now: int, op: Op)
    requires op.SendVerification?
    ensures Alike(cfg, db, now, op)
  {
    SweptRest(db, now);
    if op.id in db.rows { SweptRow(db, now, op.id); }
    hide Cleaned;
  }

  lemma CancelAlike(cfg: Config, db: Db, now: int, op: Op)
    requires op.CancelBooking?
    ensures Alike(cfg, db, now, op)
  {
    SweptRest(db, now);
    if op.id in db.rows { SweptRow(db, now, op.id); }
    hide Cleaned, Unexpired, TokenFits;
  }

  lemma FreeAlike(db: Db, h: Hours, p: Person, s: Slot, lo: int, hi: int, now: int)
    ensures FreeFor(Cleaned(db, now), h, p, s, lo, hi, now) <==> FreeFor(db, h, p, s, lo, hi, now)
  {
    SweptRest(db, now);
    forall id | id in db.rows
      ensures SameFrame(db.rows[id], Cleaned(db, now).rows[id]) && (Live(db, id, now) <==> Live(Cleaned(db, now), id, now))
    {
      SweptRow(db, now, id);
    }
    hide Cleaned;
  }

  lemma {:induction false} KeepAlike(db: Db, h: Hours, who: seq<Person>, slots: seq<Slot>, lo: int, hi: int, now: int)
    ensures KeepFree(Cleaned(db, now), h, who, slots, lo, hi, now) == KeepFree(db, h, who, slots, lo, hi, now)
  {
    hide Cleaned, FreeFor;
    if slots != [] {
      forall i | 0 <= i < |who|
        ensures FreeFor(Cleaned(db, now), h, who[i], slots[0], lo, hi, now) <==> FreeFor(db, h, who[i], slots[0], lo, hi, now)
      {
        FreeAlike(db, h, who[i], slots[0], lo, hi, now);
      }
      KeepAlike(db, h, who, slots[1..], lo, hi, now);
    }
  }

  lemma QueryAlike(cfg: Config, db: Db, now: int, op: Op)
    requires op.Query?
    ensures Alike(cfg, db, now, op)
  {
    var zone := ZoneFor(cfg, op.who);
    match OpenDay(cfg.hours, op.date, zone, now)
    case None =>
    case Some(day) =>
      var mid := Midnight(op.date, zone);
      KeepAlike(db, cfg.hours, Targets(cfg, op.who), DaySlots(cfg, op.who, op.date, now),
                mid + Minutes(day.open), mid + Minutes(day.close), now);
      hide Cleaned, KeepFree, DaySlots;
  }

  // ---- rescheduleBooking ----

  lemma MoveAnswer(cfg: Config, db: Db, now: int, op: Op)
    requires op.Reschedule? && IndexOk(db.rows)
    requires MoveAsks(db, now, op.id, op.token, op.start, op.end, op.key)
    ensures VerdictOf(AnswerTo(cfg, db, At(now, op))) ==
      if MoveClear(db, now, op.id, op.start, op.end, op.pick) then Yes(Accepted(op.id)) else No
  {
    MoveIndexIff(db, now, op.id, op.start, op.end);
    hide IndexOk, TargetClear, ActiveTwin, Unexpired, TokenFits, Apply;
  }

  /** A request that fails earlier, or repeats itself, is answered alike. */
  lemma OtherMoveAlike(cfg: Config, db: Db, now: int, op: Op)
    requires op.Reschedule? && !MoveAsks(db, now, op.id, op.token, op.start, op.end, op.key)
    ensures Alike(cfg, db, now, op)
  {
    SweptRest(db, now);
    if op.id in db.rows { SweptRow(db, now, op.id); }
    hide Cleaned, Unexpired, TokenFits, TargetClear, IndexOk;
  }

  predicate LiveOver(db: Db, now: int, id: RowId, s: int, e: int)
    requires id in db.rows
  {
    exists o :: o in ActiveOverlaps(db.rows, id, db.rows[id].person, s, e) && Live(db, o, now)
  }

  predicate StaleRowOver(db: Db, now: int, id: RowId, s: int, e: int)
    requires id in db.rows
  {
    exists o :: o in ActiveOverlaps(db.rows, id, db.rows[id].person, s, e) && Stale(db, o, now)
  }

  /** A row that waits without being live, and that a sweep leaves: its hold ends now, or is gone. */
  predicate LingererOver(db: Db, now: int, id: RowId, s: int, e: int)
    requires id in db.rows
  {
    exists o :: o in ActiveOverlaps(db.rows, id, db.rows[id].person, s, e) && !Live(db, o, now) && !Stale(db, o, now)
  }

  /**
   A stale row over the target is its twin, and the rows that a sweep leaves there could let the move pass;
   or there is no twin at all, and a stale row stands beside a live one.
   */
  predicate MoveTells(db: Db, now: int, id: RowId, s: int, e: int)
    requires id in db.rows
  {
    if StaleTwin(db, now, id, db.rows[id].person, s, e) then !LiveOver(db, now, id, s, e) || LingererOver(db, now, id, s, e)
    else
      && !ActiveTwin(db.rows, id, db.rows[id].person, s, e)
      && StaleRowOver(db, now, id, s, e) && LiveOver(db, now, id, s, e)
  }

  /** The rows over the target after a sweep. */
  lemma SweptOverlaps(db: Db, now: int, id: RowId, s: int, e: int)
    requires id in db.rows
    ensures var p := db.rows[id].person;
      forall o :: o in ActiveOverlaps(Cleaned(db, now).rows, id, p, s, e)
                  <==> o in ActiveOverlaps(db.rows, id, p, s, e) && !Stale(db, o, now)
  {
    SweptRest(db, now);
    forall o | o in db.rows
      ensures SameFrame(db.rows[o], Cleaned(db, now).rows[o])
              && (Cleaned(db, now).rows[o].status.Active() <==> db.rows[o].status.Active() && !Stale(db, o, now))
    {
      SweptRow(db, now, o);
    }
    hide Cleaned, Stale;
  }

  /** The pick that prefers `a` among `m` and `b` among `n`. */
  ghost function PreferBoth(m: set<RowId>, a: RowId, n: set<RowId>, b: RowId): Pick
    requires a in m && b in n
  {
    (x: set<RowId>) => if x == n then b else if x == m then a else AnyOf(x)
  }

  /** The look on the tables after a sweep, in terms of those before. */
  lemma SweptClear(db: Db, now: int, id: RowId, s: int, e: int, pick: Pick)
    requires ActiveUnique(db.rows) && id in db.rows && db.rows[id].status.Confirmed?
    ensures var b := Cleaned(db, now);
            var p := db.rows[id].person;
            var left := ActiveOverlaps(b.rows, id, p, s, e);
      && id in b.rows && b.rows[id] == db.rows[id]
      && (MoveClear(b, now, id, s, e, pick) <==>
            && (left == {} || !Live(db, pick(left), now))
            && (ActiveTwin(db.rows, id, p, s, e) ==> StaleTwin(db, now, id, p, s, e)))
  {
    SweptRow(db, now, id);
    SweptQueries(db, now);
    SweptTwin(db, now, id, db.rows[id].person, s, e);
    hide Cleaned, Live, ActiveOverlaps, ActiveTwin, StaleTwin, ActiveUnique, SlotRows, Blocked;
  }

  lemma MoveAsksSwept(db: Db, now: int, id: RowId, t: Token, s: int, e: int, key: string)
    requires MoveAsks(db, now, id, t, s, e, key)
    ensures MoveAsks(Cleaned(db, now), now, id, t, s, e, key)
  {
    SweptRest(db, now);
    SweptRow(db, now, id);
    hide Cleaned, Unexpired, TokenFits;
  }

  lemma MoveAlikeIff(cfg: Config, db: Db, now: int, op: Op)
    requires Good(cfg, db, now) && op.Reschedule? && MoveAsks(db, now, op.id, op.token, op.start, op.end, op.key)
    ensures op.id in Cleaned(db, now).rows
    ensures Alike(cfg, db, now, op) <==>
      (MoveClear(db, now, op.id, op.start, op.end, op.pick) <==> MoveClear(Cleaned(db, now), now, op.id, op.start, op.end, op.pick))
  {
    SweptGood(cfg, db, now);
    MoveAsksSwept(db, now, op.id, op.token, op.start, op.end, op.key);
    MoveAnswer(cfg, db, now, op);
    MoveAnswer(cfg, Cleaned(db, now), now, op);
    hide Cleaned, AnswerTo, MoveClear, VerdictOf, IndexOk;
  }

  /** If the tables do not tell, no findFirst does. */
  lemma MoveKeepsQuiet(db: Db, now: int, id: RowId, s: int, e: int, pick: Pick)
    requires ActiveUnique(db.rows) && id in db.rows && db.rows[id].status.Confirmed? && !MoveTells(db, now, id, s, e)
    ensures id in Cleaned(db, now).rows
    ensures MoveClear(db, now, id, s, e, pick) <==> MoveClear(Cleaned(db, now), now, id, s, e, pick)
  {
    var p, b := db.rows[id].person, Cleaned(db, now);
    var all, left := ActiveOverlaps(db.rows, id, p, s, e), ActiveOverlaps(b.rows, id, p, s, e);
    SweptClear(db, now, id, s, e, pick);
    SweptOverlaps(db, now, id, s, e);
    SweptTwin(db, now, id, p, s, e);
    hide Cleaned, Live, Stale, ActiveOverlaps, ActiveTwin, ActiveUnique, StaleTwin;
    if StaleTwin(db, now, id, p, s, e) {
      var o :| o in all && Live(db, o, now);
      LiveIsNotStale(db, o, now);
      assert o in left;
      assert Live(db, pick(left), now);
    } else if !ActiveTwin(db.rows, id, p, s, e) {
      if !StaleRowOver(db, now, id, s, e) {
        assert left == all;
      } else {
        assert all != {} ==> !Live(db, pick(all), now);
        assert left != {} ==> pick(left) in all;
      }
    }
  }

  lemma LiveIsNotStale(db: Db, o: RowId, now: int)
    requires Live(db, o, now)
    ensures !Stale(db, o, now)
  {
  }

  /** If they do, some findFirst does. */
  lemma MoveSpeaks(db: Db, now: int, id: RowId, s: int, e: int) returns (pick: Pick)
    requires ActiveUnique(db.rows) && id in db.rows && db.rows[id].status.Confirmed? && MoveTells(db, now, id, s, e)
    ensures id in Cleaned(db, now).rows
    ensures !(MoveClear(db, now, id, s, e, pick) <==> MoveClear(Cleaned(db, now), now, id, s, e, pick))
  {
    var p, b := db.rows[id].person, Cleaned(db, now);
    var all, left := ActiveOverlaps(db.rows, id, p, s, e), ActiveOverlaps(b.rows, id, p, s, e);
    SweptOverlaps(db, now, id, s, e);
    SweptTwin(db, now, id, p, s, e);
    hide Cleaned, Live, Stale, ActiveOverlaps, ActiveTwin, ActiveUnique, StaleTwin;
    if StaleTwin(db, now, id, p, s, e) {
      if LiveOver(db, now, id, s, e) {
        var o :| o in all && !Live(db, o, now) && !Stale(db, o, now);
        pick := Prefer(left, o);
      } else {
        pick := AnyOf;
        assert left != {} ==> pick(left) in all;
      }
    } else {
      var o :| o in all && Stale(db, o, now);
      var v :| v in all && Live(db, v, now);
      LiveIsNotStale(db, v, now);
      if Live(db, o, now) { LiveIsNotStale(db, o, now); }
      pick := PreferBoth(all, o, left, v);
      assert o !in left;
    }
    SweptClear(db, now, id, s, e, pick);
  }

  /** A move tells, for some findFirst, if and only if it passes the earlier tests and the rows over its target tell. */
  lemma MoveTellsIff(cfg: Config, db: Db, now: int, id: RowId, t: Token, s: int, e: int, key: string)
    requires Good(cfg, db, now)
    ensures (exists pick: Pick :: !Alike(cfg, db, now, Reschedule(id, t, s, e, key, pick)))
            <==> MoveAsks(db, now, id, t, s, e, key) && MoveTells(db, now, id, s, e)
  {
    hide Alike, MoveTells, MoveClear, Cleaned;
    if !MoveAsks(db, now, id, t, s, e, key) {
      forall pick: Pick ensures Alike(cfg, db, now, Reschedule(id, t, s, e, key, pick)) {
        OtherMoveAlike(cfg, db, now, Reschedule(id, t, s, e, key, pick));
      }
    } else if MoveTells(db, now, id, s, e) {
      var pick := MoveSpeaks(db, now, id, s, e);
      MoveAlikeIff(cfg, db, now, Reschedule(id, t, s, e, key, pick));
    } else {
      forall pick: Pick ensures Alike(cfg, db, now, Reschedule(id, t, s, e, key, pick)) {
        MoveKeepsQuiet(db, now, id, s, e, pick);
        MoveAlikeIff(cfg, db, now, Reschedule(id, t, s, e, key, pick));
      }
    }
  }

  // ---- all calls but moves ----

  /** What tells, for the calls that look at no single row. */
  ghost predicate Tells(cfg: Config, db: Db, now: int, op: Op) { HoldTells(cfg, db, now, op) || ByIdTells(db, now, op) }

  /** Any other call is answered alike with and without a sweep just before, if and only if it does not tell. */
  lemma TellsIff(cfg: Config, db: Db, now: int, op: Op)
    requires Good(cfg, db, now) && !op.Reschedule?
    ensures Alike(cfg, db, now, op) <==> !Tells(cfg, db, now, op)
  {
    hide Alike, InTurn, FindsBesideStale, ByIdPasses, Stale, Good, Candidate;
    match op {
      case CreateHold(_, _, _, _, _, _, _) => HoldTellsIff(cfg, db, now, op);
      case ConfirmBookingById(_, _, _) => ByIdTellsIff(cfg, db, now, op);
      case ConfirmBooking(_, _) => ConfirmAlike(cfg, db, now, op);
      case SendVerification(_, _) => MailAlike(cfg, db, now, op);
      case CancelBooking(_, _, _) => CancelAlike(cfg, db, now, op);
      case Query(_, _) => QueryAlike(cfg, db, now, op);
      case ExpireHolds => SweepAlike(cfg, db, now);
    }
  }

  lemma SweepAlike(cfg: Config, db: Db, now: int)
    ensures Alike(cfg, db, now, ExpireHolds)
  {
    hide Cleaned;
  }

  /** With holds of at least 15 minutes a stale booking is too old to be confirmed by id. */
  lemma LongHoldsKeepByIdQuiet(cfg: Config, db: Db, now: int, op: Op)
    requires Good(cfg, db, now) && cfg.ttl >= BY_ID_WINDOW
    ensures !ByIdTells(db, now, op)
  {
    hide IndexOk;
  }

  /** Careful runs avoid every call that tells, at the call itself. */
  lemma TellingIsRisky(cfg: Config, db: Db, now: int, op: Op)
    ensures HoldTells(cfg, db, now, op) ==> Risks(cfg, db, now, op)
    ensures op.Reschedule? && MoveAsks(db, now, op.id, op.token, op.start, op.end, op.key) ==>
      (MoveTells(db, now, op.id, op.start, op.end) ==> Risks(cfg, db, now, op))
  {
    forall o | Stale(db, o, now) ensures Dead(db, o, now) && !Live(db, o, now) {}
    hide InTurn, Candidate, MoveAsks, Live, Stale, KeyRows, Targets;
  }
}
