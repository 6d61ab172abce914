/** When each call is accepted, in terms of the tables, and what acceptance leaves behind. */
module Acceptance {
  import opened Prelude
  import opened Store
  import opened Availability
  import opened Lifecycle
  import opened Invariants
  import opened UniqueSlots
  import opened Expiry
  import opened Offers
  import opened IndexHandler
  import opened OneCall
  import opened Credentials

  /** The interval can be held: nothing live at exactly it and, when no row has it, nothing live over it. */
  predicate Holdable(db: Db, p: Person, s: int, e: int, now: int) {
    if SlotRows(db.rows, p, s, e) == {} then !Blocked(db, {}, p, s, e, now)
    else forall id :: id in SlotRows(db.rows, p, s, e) ==> !Live(db, id, now)
  }

  lemma HeldIff(cfg: Config, db: Db, now: int, p: Person, s: int, e: int, key: string, pick: Pick)
    requires Fit(cfg, db, now) && KeyRows(db.rows, key) == {}
    ensures TryHold(cfg, db, now, p, s, e, key, pick).Held? <==> Holdable(db, p, s, e, now)
  {
    AttemptNeverClashes(cfg, db, now, p, s, e, key, pick);
    var same := SlotRows(db.rows, p, s, e);
    forall a, b | a in same && b in same ensures a == b {}
    hide IndexOk, Live;
  }

  /**
   After any run without reschedules a hold is granted if and only if its key is known, or one
   of the salespersons asked for is free in the calendar and can hold the interval.
   */
  lemma HoldAcceptedIff(cfg: Config, cursor: int, start: int, run: seq<Event>, op: Op, now: int)
    requires Timeline(start, run) && NoReschedule(run) && EndTime(start, run) <= now && op.CreateHold?
    ensures var db := Exec(cfg, Fresh(cursor), run);
      Decide(cfg, db, now, op).answer.Accepted? <==>
        && op.key != "" && op.start < op.end && Targets(cfg, op.who) != []
        && (KeyRows(db.rows, op.key) != {} || SomeHoldable(cfg, db, op, now))
  {
    var db := Exec(cfg, Fresh(cursor), run);
    RunKeepsGood(cfg, Fresh(cursor), start, run);
    RunKeepsSlotUnique(cfg, Fresh(cursor), run);
    assert Fit(cfg, db, now);
    hide Exec, Fit, Timeline;
    if op.key != "" && op.start < op.end && Targets(cfg, op.who) != [] && KeyRows(db.rows, op.key) == {} {
      NewHoldAcceptedIff(cfg, db, now, op);
    }
  }

  predicate SomeHoldable(cfg: Config, db: Db, op: Op, now: int)
    requires op.CreateHold?
  {
    exists i :: 0 <= i < |Targets(cfg, op.who)| && Targets(cfg, op.who)[i] !in op.busy
                && Holdable(db, Targets(cfg, op.who)[i], op.start, op.end, now)
  }

  lemma NewHoldAcceptedIff(cfg: Config, db: Db, now: int, op: Op)
    requires Fit(cfg, db, now) && op.CreateHold? && op.key != "" && op.start < op.end
    requires Targets(cfg, op.who) != [] && KeyRows(db.rows, op.key) == {}
    ensures Decide(cfg, db, now, op).answer.Accepted? <==> SomeHoldable(cfg, db, op, now)
  {
    var ordered := Targets(cfg, op.who);
    hide Fit, Holdable, TryHold;
    if SomeHoldable(cfg, db, op, now) {
      var i :| 0 <= i < |ordered| && ordered[i] !in op.busy && Holdable(db, ordered[i], op.start, op.end, now);
      HeldIff(cfg, db, now, ordered[i], op.start, op.end, op.key, op.pick);
      WillingIsAccepted(cfg, db, now, op, i);
    } else if Decide(cfg, db, now, op).answer.Accepted? {
      var first := FirstIndex(db.cursor, op.who, |ordered|);
      PlacementIsLawful(cfg, db, now, ordered, first, 0, op.busy, op.start, op.end, op.key, op.pick);
      var a := Allocate(cfg, db, now, ordered, first, 0, op.busy, op.start, op.end, op.key, op.pick);
      HeldIff(cfg, db, now, ordered[a.index], op.start, op.end, op.key, op.pick);
    }
  }

  /** A verification mail goes out exactly for a waiting booking whose hold has not run out. */
  lemma SentIff(cfg: Config, db: Db, now: int, id: RowId, key: string)
    ensures Decide(cfg, db, now, SendVerification(id, key)).answer.Sent? <==>
      key != "" && id in db.rows && db.rows[id].status.Waiting() && Live(db, id, now)
  {
  }

  /**
   A confirmation is accepted exactly with a genuine, unexpired verify token: as a replay, for a booking already
   confirmed, or for a mailed one under its token name whose hold has not run out and that nothing live overlaps.
   */
  lemma ConfirmAcceptedIff(cfg: Config, db: Db, now: int, t: Token, key: string)
    ensures Decide(cfg, db, now, ConfirmBooking(t, key)).answer.Accepted? <==>
      && key != "" && Proves(t, Verify, t.booking, now) && t.booking in db.rows
      && ((ForConfirm, key) in db.used || db.rows[t.booking].status.Confirmed?
          || (&& db.rows[t.booking].status.PendingVerify? && db.rows[t.booking].jti == Some(t.jti)
              && t.booking in db.holds && db.holds[t.booking] > now
              && !Blocked(db, {t.booking}, db.rows[t.booking].person, db.rows[t.booking].start, db.rows[t.booking].end, now)))
  {
    hide Blocked;
  }

  /**
   The confirming transaction by itself, on tables that may have changed since the reads before it: it writes
   exactly for a mailed booking under its token name whose hold has not run out and that nothing live overlaps, and
   is accepted exactly then or for a booking that others have confirmed in between.
   */
  lemma ConfirmTxIff(db: Db, now: int, t: Token, key: string)
    ensures var id := t.booking;
            var d := ConfirmTx(db, now, t, key);
            var writes := id in db.rows && db.rows[id].status.PendingVerify? && db.rows[id].jti == Some(t.jti)
                          && id in db.holds && now < db.holds[id]
                          && !Blocked(db, {id}, db.rows[id].person, db.rows[id].start, db.rows[id].end, now);
      && (d.effect == if writes then Seal(id) else Nothing)
      && (d.answer.Accepted? <==> writes || (id in db.rows && db.rows[id].status.Confirmed?))
      && (d.answer.Accepted? ==> d.answer.id == id && d.spend == {(ForConfirm, key)})
      && (!d.answer.Accepted? ==> d.spend == {} && d.answer == Rejected(
            if id !in db.rows then NotFound
            else if db.rows[id].status.PendingVerify? && db.rows[id].jti != Some(t.jti) then Forbidden
            else Conflict))
  {
    hide Blocked;
  }

  /** A confirmation by id is accepted exactly as a replay, or for a hold by its secret within 15 minutes of its creation. */
  lemma ByIdAcceptedIff(cfg: Config, db: Db, now: int, id: RowId, given: int, key: string)
    ensures Decide(cfg, db, now, ConfirmBookingById(id, given, key)).answer.Accepted? <==>
      && key != "" && id in db.rows
      && ((ForConfirmById, key) in db.used
          || (db.rows[id].status.Hold? && id in db.secrets && db.secrets[id] == given && now < db.rows[id].created + Minutes(15)))
  {
  }

  /** A cancellation is accepted exactly as a replay, for a booking already canceled, or by its own token a day or more ahead. */
  lemma CancelAcceptedIff(cfg: Config, db: Db, now: int, id: RowId, t: Token, key: string)
    ensures Decide(cfg, db, now, CancelBooking(id, t, key)).answer.Accepted? <==>
      && key != "" && id in db.rows
      && ((ForCancel, key) in db.used || db.rows[id].status.Canceled?
          || (Proves(t, CancelIt, id, now) && db.rows[id].status.Confirmed? && now + Days(1) <= db.rows[id].start))
  {
  }

  /**
   A reschedule is accepted exactly by the booking's own token: as a replay, or for a confirmed booking a day or more
   ahead, to the interval it has already or to one that the look and the slot index let it have.
   */
  lemma RescheduleAcceptedIff(cfg: Config, db: Db, now: int, id: RowId, t: Token, s: int, e: int, key: string, pick: Pick)
    requires IndexOk(db.rows)
    ensures Decide(cfg, db, now, Reschedule(id, t, s, e, key, pick)).answer.Accepted? <==>
      && key != "" && Proves(t, RescheduleIt, id, now) && s < e && id in db.rows
      && ((ForReschedule, key) in db.used
          || (&& db.rows[id].status.Confirmed? && now + Days(1) <= db.rows[id].start
              && ((db.rows[id].start, db.rows[id].end) == (s, e) || MoveClear(db, now, id, s, e, pick))))
  {
    if id in db.rows && db.rows[id].status.Confirmed? { MoveIndexIff(db, now, id, s, e); }
    ProvesIff(t, RescheduleIt, id, now);
    hide IndexOk, TargetClear, ActiveTwin, Unexpired, TokenFits, Proves;
  }

  /** The key of the call was used before, or is the key of a booking. */
  predicate KnownKey(db: Db, op: Op) {
    match op
    case CreateHold(_, _, _, key, _, _, _) => KeyRows(db.rows, key) != {}
    case SendVerification(_, key) => (ForVerify, key) in db.used
    case ConfirmBooking(_, key) => (ForConfirm, key) in db.used
    case ConfirmBookingById(_, _, key) => (ForConfirmById, key) in db.used
    case CancelBooking(_, _, key) => (ForCancel, key) in db.used
    case Reschedule(_, _, _, _, key, _) => (ForReschedule, key) in db.used
    case ExpireHolds => false
    case Query(_, _) => false
  }

  /** What is still asked of a call under a known key: the tests that come before the look at the key, and its booking. */
  predicate PassesReplay(cfg: Config, db: Db, now: int, op: Op) {
    match op
    case CreateHold(who, s, e, key, _, _, _) => key != "" && s < e && Targets(cfg, who) != []
    case SendVerification(id, key) => key != "" && id in db.rows && db.rows[id].status.Waiting() && id in db.holds && db.holds[id] > now
    case ConfirmBooking(t, key) => key != "" && Proves(t, Verify, t.booking, now) && t.booking in db.rows
    case ConfirmBookingById(id, _, key) => key != "" && id in db.rows
    case CancelBooking(id, _, key) => key != "" && id in db.rows
    case Reschedule(id, t, s, e, key, _) => key != "" && Proves(t, RescheduleIt, id, now) && s < e && id in db.rows
    case ExpireHolds => true
    case Query(_, _) => true
  }

  /** A call under a known key is answered exactly when it passes those tests, and then changes no booking but may unhold one. */
  lemma ReplaysAreInert(cfg: Config, db: Db, now: int, op: Op)
    requires KnownKey(db, op)
    ensures !Decide(cfg, db, now, op).answer.Rejected? <==> PassesReplay(cfg, db, now, op)
    ensures PassesReplay(cfg, db, now, op) ==>
      && Step(cfg, db, At(now, op)).rows == db.rows
      && Step(cfg, db, At(now, op)).holds == (if op.CancelBooking? then db.holds - {op.id} else db.holds)
      && Step(cfg, db, At(now, op)).used == db.used && Step(cfg, db, At(now, op)).cursor == db.cursor
  {
    hide Blocked, IndexOk, TargetClear, Allocate;
  }
}
