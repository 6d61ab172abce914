/** How statuses, holds and token names belong together, and which status changes occur. */
module Coherence {
  import opened Store
  import opened Availability
  import opened Lifecycle
  import opened Invariants

  ghost predicate RowCoherent(db: Db, id: RowId)
    requires id in db.rows
  {
    && (db.rows[id].status.Confirmed? || db.rows[id].status.Canceled? ==> id !in db.holds && db.rows[id].jti.None?)
    && (db.rows[id].status.Waiting() ==> id in db.holds)
    && (db.rows[id].status.PendingVerify? ==> db.rows[id].jti.Some?)
  }

  /** Settled bookings hold nothing; waiting bookings hold their slot; a sent mail has a token name. */
  ghost predicate Coherent(db: Db) {
    forall id :: id in db.rows ==> RowCoherent(db, id)
  }

  /** A replayed cancel key deletes the hold of whatever booking the caller names. */
  predicate Orphans(db: Db, op: Op) {
    op.CancelBooking? && op.id in db.rows && db.rows[op.id].status.Waiting() && (ForCancel, op.key) in db.used && op.key != ""
  }

  lemma EffectKeepsCoherent(cfg: Config, db: Db, now: int, e: Effect)
    requires Coherent(db) && Local(cfg, db, now, e) && db.holds.Keys <= db.rows.Keys && db.nextId !in db.rows
    requires e.Unhold? ==> !db.rows[e.id].status.Waiting()
    ensures Coherent(Apply(db, now, e))
  {
    forall id | id in Apply(db, now, e).rows
      ensures RowCoherent(Apply(db, now, e), id)
    {
      if id in db.rows { assert RowCoherent(db, id); }
    }
  }

  lemma StepKeepsCoherent(cfg: Config, db: Db, now: int, ev: Event)
    requires Good(cfg, db, now) && Coherent(db) && !Orphans(db, ev.op)
    ensures Coherent(Step(cfg, db, ev))
  {
    var e := Decide(cfg, db, ev.time, ev.op).effect;
    DecisionIsLawful(cfg, db, ev.time, ev.op);
    EffectFitsCall(cfg, db, ev.time, ev.op);
    EffectKeepsCoherent(cfg, db, ev.time, e);
    forall id | id in Step(cfg, db, ev).rows
      ensures RowCoherent(Step(cfg, db, ev), id)
    {
      assert RowCoherent(Apply(db, ev.time, e), id);
    }
  }

  lemma OrphaningBreaksCoherence(cfg: Config, db: Db, ev: Event)
    requires Orphans(db, ev.op)
    ensures !Coherent(Step(cfg, db, ev))
  {
    assert Decide(cfg, db, ev.time, ev.op).effect == Unhold(ev.op.id);
    assert !RowCoherent(Step(cfg, db, ev), ev.op.id);
  }

  /**
   Every call keeps the tables coherent, except a cancel whose key was already
   used and which names a booking that still waits on its hold.
   */
  lemma CoherentIff(cfg: Config, db: Db, now: int, ev: Event)
    requires Good(cfg, db, now) && Coherent(db)
    ensures Coherent(Step(cfg, db, ev)) <==> !Orphans(db, ev.op)
  {
    if Orphans(db, ev.op) {
      OrphaningBreaksCoherence(cfg, db, ev);
    } else {
      StepKeepsCoherent(cfg, db, now, ev);
    }
  }

  /** A run in which no replayed cancel key names a waiting booking. */
  ghost predicate Disciplined(cfg: Config, db: Db, run: seq<Event>)
    decreases |run|
  {
    run == [] || (!Orphans(db, run[0].op) && Disciplined(cfg, Step(cfg, db, run[0]), run[1..]))
  }

  lemma {:induction false} RunKeepsCoherent(cfg: Config, db: Db, now: int, run: seq<Event>)
    requires Good(cfg, db, now) && Coherent(db) && Timeline(now, run) && Disciplined(cfg, db, run)
    ensures Coherent(Exec(cfg, db, run))
    decreases |run|
  {
    if run != [] {
      StepKeepsCoherent(cfg, db, now, run[0]);
      StepKeepsGood(cfg, db, now, run[0]);
      RunKeepsCoherent(cfg, Step(cfg, db, run[0]), run[0].time, run[1..]);
    }
  }

  lemma RunIsSound(cfg: Config, db: Db, now: int, run: seq<Event>)
    requires Good(cfg, db, now) && Coherent(db) && Timeline(now, run) && Disciplined(cfg, db, run)
    ensures Good(cfg, Exec(cfg, db, run), EndTime(now, run)) && Coherent(Exec(cfg, db, run))
  {
    RunKeepsGood(cfg, db, now, run);
    RunKeepsCoherent(cfg, db, now, run);
  }

  /** The intended changes of status; a dead row may come back to life as a hold. */
  ghost predicate Allowed(before: Row, wasLive: bool, after: Row, op: Op) {
    match after.status
    case Hold => before.status.Hold? || (!wasLive && op.CreateHold?)
    case PendingVerify => before.status.PendingVerify? || (before.status.Hold? && wasLive && op.SendVerification?)
    case Confirmed =>
      || before.status.Confirmed?
      || (before.status.PendingVerify? && wasLive && op.ConfirmBooking?)
      || (before.status.Hold? && op.ConfirmBookingById?)
    case Canceled => before.status.Canceled? || (before.status.Confirmed? && op.CancelBooking?)
    case Expired =>
      || before.status.Expired?
      || (before.status.Waiting() && !wasLive && (op.SendVerification? || op.ConfirmBooking? || op.ExpireHolds?))
  }

  /**
   No call deletes a booking or changes its salesperson; only a reschedule of a
   confirmed booking moves it; every status change is an intended one.
   */
  lemma OnlyIntendedChanges(cfg: Config, db: Db, ev: Event, id: RowId)
    requires id in db.rows && db.nextId !in db.rows
    ensures id in Step(cfg, db, ev).rows
    ensures var was := db.rows[id];
            var became := Step(cfg, db, ev).rows[id];
            Allowed(was, Live(db, id, ev.time), became, ev.op)
            && became.person == was.person && became.created == was.created
            && ((became.start, became.end) != (was.start, was.end) ==> was.status.Confirmed? && became.status.Confirmed? && ev.op.Reschedule?)
  {
    DecisionIsLawful(cfg, db, ev.time, ev.op);
    EffectFitsCall(cfg, db, ev.time, ev.op);
  }

  /** Which calls can have which effects. */
  lemma EffectFitsCall(cfg: Config, db: Db, now: int, op: Op)
    ensures match Decide(cfg, db, now, op).effect
            case Nothing => true
            case Insert(_, _) => op.CreateHold?
            case Revive(_, _, _) => op.CreateHold?
            case Expire(id) => op.SendVerification? || op.ConfirmBooking?
            case MarkVerify(id) => op.SendVerification?
            case Seal(id) => id in db.rows && ((op.ConfirmBooking? && SealedByToken(db, id, now))
                                               || (op.ConfirmBookingById? && SealedById(db, id, now)))
            case Void(_) => op.CancelBooking?
            case Unhold(id) => op.CancelBooking? && id == op.id && id in db.rows && op.key != ""
                               && (db.rows[id].status.Canceled? || (ForCancel, op.key) in db.used)
            case Move(_, _, _) => op.Reschedule?
            case Sweep => op.ExpireHolds?
  {
    match op
    case CreateHold(who, s, e, key, busy, secret, pick) =>
      var ordered := Targets(cfg, who);
      if ordered != [] { PlacementWrites(cfg, db, now, ordered, FirstIndex(db.cursor, who, |ordered|), 0, busy, s, e, key, pick); }
    case _ =>
  }

  lemma {:induction false} PlacementWrites(cfg: Config, db: Db, now: int, ordered: seq<Person>, first: int, offset: nat,
                                           busy: set<Person>, s: int, e: int, key: string, pick: Pick)
    requires ordered != []
    ensures var a := Allocate(cfg, db, now, ordered, first, offset, busy, s, e, key, pick);
            a.Placed? ==> a.effect.Insert? || a.effect.Revive?
    decreases |ordered| - offset
  {
    if offset < |ordered| {
      PlacementWrites(cfg, db, now, ordered, first, offset + 1, busy, s, e, key, pick);
    }
  }
}
