/**
 One call, judged before it is made: from the tables and the request alone,
 whether a hold is granted and whether a booking is let in over another one.
 */
module OneCall {
  import opened Prelude
  import opened Store
  import opened Availability
  import opened Lifecycle
  import opened Invariants
  import opened Coherence
  import opened DoubleBooking
  import opened ConfirmedBookings
  import opened Intruders
  import opened IndexHandler
  import opened Credentials

  // ---- whose turn it is ----

  /** The attempt for `p` comes to nothing: the row found is live or, when there is none, a live row overlaps. */
  predicate Refuses(db: Db, now: int, p: Person, s: int, e: int, pick: Pick) {
    var found := FindFirst(pick, SlotRows(db.rows, p, s, e));
    if found.Some? then Live(db, found.value, now) else Blocked(db, {}, p, s, e, now)
  }

  /** The allocator goes past this salesperson. */
  predicate Passes(db: Db, now: int, op: Op, p: Person)
    requires op.CreateHold?
  {
    p in op.busy || Refuses(db, now, p, op.start, op.end, op.pick)
  }

  /** The candidate `o` turns after the start of the round robin. */
  function Candidate(cfg: Config, db: Db, op: Op, o: nat): Person
    requires op.CreateHold? && Targets(cfg, op.who) != []
  {
    var ordered := Targets(cfg, op.who);
    ordered[Turn(FirstIndex(db.cursor, op.who, |ordered|), o, |ordered|)]
  }

  /** Candidate `o` is the first one the allocator does not go past. */
  predicate InTurn(cfg: Config, db: Db, now: int, op: Op, o: nat)
    requires op.CreateHold? && Targets(cfg, op.who) != []
  {
    && o < |Targets(cfg, op.who)| && !Passes(db, now, op, Candidate(cfg, db, op, o))
    && forall k: nat :: k < o ==> Passes(db, now, op, Candidate(cfg, db, op, k))
  }

  /** A well-formed request under a key no booking has. */
  predicate NewRequest(cfg: Config, db: Db, op: Op) {
    op.CreateHold? && op.key != "" && op.start < op.end && Targets(cfg, op.who) != [] && KeyRows(db.rows, op.key) == {}
  }

  function Attempted(cfg: Config, db: Db, now: int, op: Op, p: Person): Attempt
    requires op.CreateHold?
  {
    TryHold(cfg, db, now, p, op.start, op.end, op.key, op.pick)
  }

  function Allocated(cfg: Config, db: Db, now: int, op: Op, offset: nat): Placement
    requires op.CreateHold? && Targets(cfg, op.who) != []
  {
    var ordered := Targets(cfg, op.who);
    Allocate(cfg, db, now, ordered, FirstIndex(db.cursor, op.who, |ordered|), offset,
             op.busy, op.start, op.end, op.key, op.pick)
  }

  lemma TakenIffRefuses(cfg: Config, db: Db, now: int, op: Op, p: Person)
    requires op.CreateHold?
    ensures Attempted(cfg, db, now, op, p).Taken? <==> Refuses(db, now, p, op.start, op.end, op.pick)
  {
    hide IndexOk, Live, Blocked, Apply;
  }

  lemma AllocateOnce(cfg: Config, db: Db, now: int, op: Op, offset: nat)
    requires op.CreateHold? && Targets(cfg, op.who) != [] && offset < |Targets(cfg, op.who)|
    ensures var p := Candidate(cfg, db, op, offset);
      if Passes(db, now, op, p) then Allocated(cfg, db, now, op, offset) == Allocated(cfg, db, now, op, offset + 1)
      else match Attempted(cfg, db, now, op, p)
           case Clash => Allocated(cfg, db, now, op, offset).Aborted?
           case Held(effect, id) =>
             Allocated(cfg, db, now, op, offset).Placed? && Allocated(cfg, db, now, op, offset).effect == effect
             && Allocated(cfg, db, now, op, offset).id == id
           case Taken => false
  {
    TakenIffRefuses(cfg, db, now, op, Candidate(cfg, db, op, offset));
    hide TryHold, Refuses, FirstIndex, Turn, Targets;
  }

  /** The allocator does what the attempt for the candidate in turn does. */
  lemma {:induction false} AllocateInTurn(cfg: Config, db: Db, now: int, op: Op, offset: nat, o: nat)
    requires op.CreateHold? && Targets(cfg, op.who) != [] && InTurn(cfg, db, now, op, o) && offset <= o
    ensures Allocated(cfg, db, now, op, offset) == Allocated(cfg, db, now, op, o)
    decreases o - offset
  {
    hide Allocated, Passes, Candidate, Targets;
    if offset < o {
      AllocateOnce(cfg, db, now, op, offset);
      AllocateInTurn(cfg, db, now, op, offset + 1, o);
    }
  }

  lemma {:induction false} AllocateNobody(cfg: Config, db: Db, now: int, op: Op, offset: nat)
    requires op.CreateHold? && Targets(cfg, op.who) != [] && offset <= |Targets(cfg, op.who)|
    requires forall k: nat :: k < |Targets(cfg, op.who)| ==> Passes(db, now, op, Candidate(cfg, db, op, k))
    ensures Allocated(cfg, db, now, op, offset).Full?
    decreases |Targets(cfg, op.who)| - offset
  {
    hide Passes, Candidate, Targets, Turn, FirstIndex, TryHold;
    if offset < |Targets(cfg, op.who)| {
      AllocateOnce(cfg, db, now, op, offset);
      AllocateNobody(cfg, db, now, op, offset + 1);
    }
  }

  /** Either one candidate is in turn, or all are gone past. */
  lemma {:induction false} SomebodyOrNobody(cfg: Config, db: Db, now: int, op: Op, o: nat)
    requires op.CreateHold? && Targets(cfg, op.who) != [] && o <= |Targets(cfg, op.who)|
    requires forall k: nat :: k < o ==> Passes(db, now, op, Candidate(cfg, db, op, k))
    ensures (exists i :: InTurn(cfg, db, now, op, i))
            || forall k: nat :: k < |Targets(cfg, op.who)| ==> Passes(db, now, op, Candidate(cfg, db, op, k))
    decreases |Targets(cfg, op.who)| - o
  {
    hide Passes, Candidate, Targets;
    if o < |Targets(cfg, op.who)| {
      if Passes(db, now, op, Candidate(cfg, db, op, o)) {
        SomebodyOrNobody(cfg, db, now, op, o + 1);
      } else {
        assert InTurn(cfg, db, now, op, o);
      }
    }
  }

  /** What createHold decides, once it is known who is in turn. */
  lemma RequestDecides(cfg: Config, db: Db, now: int, op: Op)
    requires op.CreateHold?
    ensures var d := Decide(cfg, db, now, op);
      if !NewRequest(cfg, db, op) then
        d.effect.Nothing?
        && (d.answer.Accepted? <==> op.key != "" && op.start < op.end && Targets(cfg, op.who) != [])
      else match Allocated(cfg, db, now, op, 0)
           case Placed(effect, id, _) => d.effect == effect && d.answer == Accepted(id)
           case Full => d.effect.Nothing? && d.answer.Rejected?
           case Aborted => d.effect.Nothing? && d.answer.Rejected?
  {
    hide Allocate, KeyRows, FirstIndex, Minted;
  }

  // ---- when a hold is granted ----

  /** The candidate in turn can be served without breaking an index. */
  predicate Served(cfg: Config, db: Db, now: int, op: Op, o: nat)
    requires op.CreateHold? && Targets(cfg, op.who) != []
  {
    InTurn(cfg, db, now, op, o) && !RevivesOverTwin(db, now, Candidate(cfg, db, op, o), op.start, op.end, op.pick)
  }

  lemma InTurnIsHeld(cfg: Config, db: Db, now: int, op: Op, o: nat)
    requires Good(cfg, db, now) && NewRequest(cfg, db, op) && InTurn(cfg, db, now, op, o)
    ensures var a := Attempted(cfg, db, now, op, Candidate(cfg, db, op, o));
            var d := Decide(cfg, db, now, op);
      && (a.Held? <==> Served(cfg, db, now, op, o)) && !a.Taken?
      && (if a.Held? then d.effect == a.effect && d.answer == Accepted(a.id) else d.effect.Nothing? && d.answer.Rejected?)
  {
    var p := Candidate(cfg, db, op, o);
    RequestDecides(cfg, db, now, op);
    AllocateInTurn(cfg, db, now, op, 0, o);
    AllocateOnce(cfg, db, now, op, o);
    TakenIffRefuses(cfg, db, now, op, p);
    NextIdIsFree(cfg, db, now);
    ClashIff(cfg, db, now, p, op.start, op.end, op.key, op.pick);
    hide Decide, Allocated, TryHold, Refuses, RevivesOverTwin, Good, Candidate;
  }

  lemma NextIdIsFree(cfg: Config, db: Db, now: int)
    requires Good(cfg, db, now)
    ensures IndexOk(db.rows) && db.nextId !in db.rows
  {
    hide IndexOk;
  }

  /**
   After any run of any calls: a hold is granted if and only if its key is known, or the first
   salesperson in turn whom the calendar and the tables do not rule out has no dead row with an active twin.
   */
  lemma GrantedIff(cfg: Config, db: Db, now: int, op: Op)
    requires Good(cfg, db, now) && op.CreateHold?
    ensures Decide(cfg, db, now, op).answer.Accepted? <==>
      && op.key != "" && op.start < op.end && Targets(cfg, op.who) != []
      && (KeyRows(db.rows, op.key) != {} || exists o :: Served(cfg, db, now, op, o))
  {
    RequestDecides(cfg, db, now, op);
    hide Decide, Allocated, Passes, Candidate, RevivesOverTwin, KeyRows, Good, Targets;
    if NewRequest(cfg, db, op) {
      SomebodyOrNobody(cfg, db, now, op, 0);
      if o :| InTurn(cfg, db, now, op, o) {
        InTurnIsHeld(cfg, db, now, op, o);
        forall i | Served(cfg, db, now, op, i) ensures i == o { OneInTurn(cfg, db, now, op, i, o); }
      } else {
        AllocateNobody(cfg, db, now, op, 0);
      }
    }
  }

  lemma OneInTurn(cfg: Config, db: Db, now: int, op: Op, i: nat, o: nat)
    requires op.CreateHold? && Targets(cfg, op.who) != [] && InTurn(cfg, db, now, op, i) && InTurn(cfg, db, now, op, o)
    ensures i == o
  {
    hide Passes, Candidate, Targets;
  }

  // ---- when a booking is let in over another ----

  /** The row found for `p` is dead while another live row overlaps its interval. */
  predicate RevivesOverLive(db: Db, now: int, p: Person, s: int, e: int, pick: Pick) {
    var found := FindFirst(pick, SlotRows(db.rows, p, s, e));
    found.Some? && !Live(db, found.value, now) && Blocked(db, {found.value}, p, s, e, now)
  }

  /** The tests of confirmBookingById. */
  predicate ByIdPasses(db: Db, now: int, id: RowId, given: int, key: string) {
    && key != "" && (ForConfirmById, key) !in db.used && id in db.rows && db.rows[id].status.Hold?
    && id in db.secrets && db.secrets[id] == given && now < db.rows[id].created + Minutes(15)
  }

  /** Every test of a move but the look at the new interval and the index. */
  predicate MoveAsks(db: Db, now: int, id: RowId, t: Token, s: int, e: int, key: string) {
    && key != "" && (ForReschedule, key) !in db.used && s < e && Proves(t, RescheduleIt, id, now)
    && id in db.rows && db.rows[id].status.Confirmed? && now + Days(1) <= db.rows[id].start
    && (db.rows[id].start, db.rows[id].end) != (s, e)
  }

  /** The look and the index let the move pass. */
  predicate MoveClear(db: Db, now: int, id: RowId, s: int, e: int, pick: Pick)
    requires id in db.rows
  {
    TargetClear(db, id, s, e, now, pick) && !ActiveTwin(db.rows, id, db.rows[id].person, s, e)
  }

  /** The tests of rescheduleBooking, for a move to another interval. */
  predicate MovePasses(db: Db, now: int, id: RowId, t: Token, s: int, e: int, key: string, pick: Pick) {
    MoveAsks(db, now, id, t, s, e, key) && MoveClear(db, now, id, s, e, pick)
  }

  /** The request, made now, would let a booking in over a live one. */
  ghost predicate LetsIn(cfg: Config, db: Db, now: int, op: Op) {
    match op
    case CreateHold(_, s, e, _, _, _, pick) =>
      NewRequest(cfg, db, op)
      && exists o :: Served(cfg, db, now, op, o) && RevivesOverLive(db, now, Candidate(cfg, db, op, o), s, e, pick)
    case ConfirmBookingById(id, given, key) =>
      ByIdPasses(db, now, id, given, key) && Over(db, now, id, db.rows[id].start, db.rows[id].end)
    case Reschedule(id, t, s, e, key, pick) => MovePasses(db, now, id, t, s, e, key, pick) && Over(db, now, id, s, e)
    case SendVerification(_, _) => false
    case ConfirmBooking(_, _) => false
    case CancelBooking(_, _, _) => false
    case ExpireHolds => false
    case Query(_, _) => false
  }

  lemma HeldOverLive(cfg: Config, db: Db, now: int, op: Op, p: Person)
    requires op.CreateHold? && Attempted(cfg, db, now, op, p).Held? && db.nextId !in db.rows
    ensures Intrudes(db, now, Attempted(cfg, db, now, op, p).effect)
            <==> RevivesOverLive(db, now, p, op.start, op.end, op.pick)
  {
    var found := FindFirst(op.pick, SlotRows(db.rows, p, op.start, op.end));
    assert found.Some? ==> found.value in SlotRows(db.rows, p, op.start, op.end);
    hide IndexOk, Blocked, Live, Apply;
  }

  lemma CreateLetsIn(cfg: Config, db: Db, now: int, op: Op)
    requires Good(cfg, db, now) && op.CreateHold?
    ensures Intrudes(db, now, Decide(cfg, db, now, op).effect) <==> LetsIn(cfg, db, now, op)
  {
    RequestDecides(cfg, db, now, op);
    NextIdIsFree(cfg, db, now);
    hide Decide, Allocated, Passes, Candidate, RevivesOverTwin, RevivesOverLive, KeyRows, Good, Targets, TryHold, Over;
    if NewRequest(cfg, db, op) {
      SomebodyOrNobody(cfg, db, now, op, 0);
      if o :| InTurn(cfg, db, now, op, o) {
        InTurnIsHeld(cfg, db, now, op, o);
        forall i | Served(cfg, db, now, op, i) ensures i == o { OneInTurn(cfg, db, now, op, i, o); }
        if Attempted(cfg, db, now, op, Candidate(cfg, db, op, o)).Held? {
          HeldOverLive(cfg, db, now, op, Candidate(cfg, db, op, o));
        }
      } else {
        AllocateNobody(cfg, db, now, op, 0);
      }
    }
  }

  lemma ByIdDecides(cfg: Config, db: Db, now: int, op: Op)
    requires op.ConfirmBookingById?
    ensures Decide(cfg, db, now, op).effect ==
      if ByIdPasses(db, now, op.id, op.given, op.key) then Seal(op.id) else Nothing
  {
  }

  /** A move breaks an index exactly when an active row stands at its target. */
  lemma MoveIndexIff(db: Db, now: int, id: RowId, s: int, e: int)
    requires IndexOk(db.rows) && id in db.rows && db.rows[id].status.Confirmed?
    ensures IndexOk(Apply(db, now, Move(id, s, e)).rows) <==> !ActiveTwin(db.rows, id, db.rows[id].person, s, e)
  {
    var rows := Apply(db, now, Move(id, s, e)).rows;
    if ActiveTwin(db.rows, id, db.rows[id].person, s, e) {
      var o :| o in db.rows && o != id && db.rows[o].status.Active() && db.rows[o].SameSlot(db.rows[id].person, s, e);
      assert rows[o] == db.rows[o] && rows[id].status.Active();
    }
  }

  lemma MoveDecides(cfg: Config, db: Db, now: int, op: Op)
    requires op.Reschedule? && IndexOk(db.rows)
    ensures Decide(cfg, db, now, op).effect ==
      if MovePasses(db, now, op.id, op.token, op.start, op.end, op.key, op.pick) then Move(op.id, op.start, op.end) else Nothing
  {
    if op.id in db.rows && db.rows[op.id].status.Confirmed? { MoveIndexIff(db, now, op.id, op.start, op.end); }
    ProvesIff(op.token, RescheduleIt, op.id, now);
    hide IndexOk, TargetClear, ActiveTwin, Unexpired, TokenFits, Proves;
  }

  lemma TokenLetsNobodyIn(cfg: Config, db: Db, now: int, op: Op)
    requires !op.CreateHold? && !op.ConfirmBookingById? && !op.Reschedule?
    ensures !Intrudes(db, now, Decide(cfg, db, now, op).effect)
  {
    EffectFitsCall(cfg, db, now, op);
    var e := Decide(cfg, db, now, op).effect;
    if e.Seal? { TokenNeverIntrudes(db, e.id, now); }
    hide Decide;
  }

  lemma IntrudesIffLetsIn(cfg: Config, db: Db, now: int, op: Op)
    requires Good(cfg, db, now)
    ensures Intrudes(db, now, Decide(cfg, db, now, op).effect) <==> LetsIn(cfg, db, now, op)
  {
    if op.CreateHold? {
      CreateLetsIn(cfg, db, now, op);
    } else if op.ConfirmBookingById? {
      ByIdDecides(cfg, db, now, op);
    } else if op.Reschedule? {
      NextIdIsFree(cfg, db, now);
      MoveDecides(cfg, db, now, op);
    } else {
      TokenLetsNobodyIn(cfg, db, now, op);
    }
    hide Decide, Over, MovePasses, ByIdPasses, Good;
  }

  lemma LaterGood(cfg: Config, db: Db, now: int, later: int)
    requires Good(cfg, db, now) && now <= later
    ensures Good(cfg, db, later)
  {
    hide IndexOk;
  }

  /**
   For arbitrary intervals, a call keeps the live bookings apart if and only if it is none of these: a new
   hold for somebody with a dead row there and a live row over it; a confirmation by id, or a move
   whose one look passes, with a live row over it.
   */
  lemma CallKeepsApartIff(cfg: Config, db: Db, now: int, ev: Event)
    requires Good(cfg, db, now) && now <= ev.time && Apart(db, ev.time)
    ensures Apart(Step(cfg, db, ev), ev.time) <==> !LetsIn(cfg, db, ev.time, ev.op)
  {
    LaterGood(cfg, db, now, ev.time);
    ApartIff(cfg, db, now, ev);
    IntrudesIffLetsIn(cfg, db, ev.time, ev.op);
    hide Apart, Step, Decide, LetsIn, Good;
  }

  /** The request would confirm or move a booking over a confirmed one. */
  predicate LetsConfirm(db: Db, now: int, op: Op) {
    match op
    case ConfirmBookingById(id, given, key) =>
      ByIdPasses(db, now, id, given, key) && OverConfirmed(db.rows, id, db.rows[id].start, db.rows[id].end)
    case Reschedule(id, t, s, e, key, pick) =>
      MovePasses(db, now, id, t, s, e, key, pick) && OverConfirmed(db.rows, id, s, e)
    case CreateHold(_, _, _, _, _, _, _) => false
    case SendVerification(_, _) => false
    case ConfirmBooking(_, _) => false
    case CancelBooking(_, _, _) => false
    case ExpireHolds => false
    case Query(_, _) => false
  }

  /** And it keeps confirmed bookings apart if and only if it is no such confirmation by id and no such move. */
  lemma CallKeepsConfirmedApartIff(cfg: Config, db: Db, now: int, ev: Event)
    requires Good(cfg, db, now) && ConfirmedApart(db.rows)
    ensures ConfirmedApart(Step(cfg, db, ev).rows) <==> !LetsConfirm(db, ev.time, ev.op)
  {
    ConfirmedApartIff(cfg, db, now, ev);
    if ev.op.ConfirmBookingById? {
      ByIdDecides(cfg, db, ev.time, ev.op);
    } else if ev.op.Reschedule? {
      NextIdIsFree(cfg, db, now);
      MoveDecides(cfg, db, ev.time, ev.op);
    }
    hide ConfirmedApart, Step, Decide, OverConfirmed, MovePasses, ByIdPasses, Good;
  }
}
