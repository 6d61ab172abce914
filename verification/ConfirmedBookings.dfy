/** Confirmed bookings of one salesperson, for arbitrary intervals. */
module ConfirmedBookings {
  import opened Store
  import opened Availability
  import opened Lifecycle
  import opened Invariants
  import opened Coherence
  import opened DoubleBooking

  ghost predicate ConfirmedApart(rows: map<RowId, Row>) {
    forall a, b :: a in rows && b in rows && a != b && rows[a].status.Confirmed? && rows[b].status.Confirmed?
      ==> !Collide(rows[a], rows[b])
  }

  predicate OverConfirmed(rows: map<RowId, Row>, id: RowId, s: int, e: int)
    requires id in rows
  {
    exists o :: o in rows && o != id && rows[o].status.Confirmed? && rows[o].Overlaps(rows[id].person, s, e)
  }

  /** The write puts a confirmed booking over another one. */
  predicate DoubleConfirms(rows: map<RowId, Row>, e: Effect) {
    match e
    case Seal(id) => id in rows && OverConfirmed(rows, id, rows[id].start, rows[id].end)
    case Move(id, s, t) => id in rows && OverConfirmed(rows, id, s, t)
    case _ => false
  }

  lemma EffectKeepsConfirmedApart(cfg: Config, db: Db, now: int, e: Effect)
    requires ConfirmedApart(db.rows) && Lawful(cfg, db, now, e) && db.nextId !in db.rows
    ensures ConfirmedApart(Apply(db, now, e).rows) <==> !DoubleConfirms(db.rows, e)
  {
    var after := Apply(db, now, e).rows;
    if DoubleConfirms(db.rows, e) {
      var x := Touched(db, e);
      var o :| o in db.rows && o != x && db.rows[o].status.Confirmed?
               && db.rows[o].Overlaps(after[x].person, after[x].start, after[x].end);
      assert Collide(after[o], after[x]);
    } else {
      forall a, b | a in after && b in after && a != b && after[a].status.Confirmed? && after[b].status.Confirmed?
        ensures !Collide(after[a], after[b])
      {
        PairStaysApart(cfg, db, now, e, a, b);
      }
    }
  }

  lemma PairStaysApart(cfg: Config, db: Db, now: int, e: Effect, a: RowId, b: RowId)
    requires ConfirmedApart(db.rows) && Lawful(cfg, db, now, e) && db.nextId !in db.rows && !DoubleConfirms(db.rows, e)
    requires var after := Apply(db, now, e).rows;
             a in after && b in after && a != b && after[a].status.Confirmed? && after[b].status.Confirmed?
    ensures !Collide(Apply(db, now, e).rows[a], Apply(db, now, e).rows[b])
  {
    if a != Touched(db, e) { OthersStay(db, now, e, a); }
    if b != Touched(db, e) { OthersStay(db, now, e, b); }
  }

  /** A call keeps confirmed bookings apart exactly when it does not confirm or move one onto another. */
  lemma ConfirmedApartIff(cfg: Config, db: Db, now: int, ev: Event)
    requires Good(cfg, db, now) && ConfirmedApart(db.rows)
    ensures var e := Decide(cfg, db, ev.time, ev.op).effect;
            && (ConfirmedApart(Step(cfg, db, ev).rows) <==> !DoubleConfirms(db.rows, e))
            && (DoubleConfirms(db.rows, e) ==> ev.op.ConfirmBookingById? || ev.op.Reschedule?)
  {
    DecisionIsLawful(cfg, db, ev.time, ev.op);
    EffectFitsCall(cfg, db, ev.time, ev.op);
    var e := Decide(cfg, db, ev.time, ev.op).effect;
    EffectKeepsConfirmedApart(cfg, db, ev.time, e);
    if e.Seal? && ev.op.ConfirmBooking? && DoubleConfirms(db.rows, e) {
      GuardSeesConfirmed(db, e.id, ev.time);
    }
  }

  lemma GuardSeesConfirmed(db: Db, id: RowId, now: int)
    requires id in db.rows && OverConfirmed(db.rows, id, db.rows[id].start, db.rows[id].end)
    ensures !SealedByToken(db, id, now)
  {
    var o :| o in db.rows && o != id && db.rows[o].status.Confirmed?
             && db.rows[o].Overlaps(db.rows[id].person, db.rows[id].start, db.rows[id].end);
    assert Live(db, o, now);
  }

  /** Runs that neither confirm by id nor reschedule keep confirmed bookings disjoint, whatever their intervals. */
  lemma {:induction false} ConfirmedStayApart(cfg: Config, db: Db, now: int, run: seq<Event>)
    requires Good(cfg, db, now) && Timeline(now, run) && ConfirmedApart(db.rows)
    requires forall i :: 0 <= i < |run| ==> !run[i].op.ConfirmBookingById? && !run[i].op.Reschedule?
    ensures ConfirmedApart(Exec(cfg, db, run).rows)
    decreases |run|
  {
    if run != [] {
      ConfirmedApartIff(cfg, db, now, run[0]);
      StepKeepsGood(cfg, db, now, run[0]);
      ConfirmedStayApart(cfg, Step(cfg, db, run[0]), run[0].time, run[1..]);
    }
  }

  // ---- two confirmations whose check and write are split ----

  /** The write that follows a passed check, without looking again. */
  function SealNow(db: Db, now: int, id: RowId): Db { Apply(db, now, Seal(id)) }

  /** A hold that ran out by `bound` is not prolonged unless createHold runs. */
  lemma {:induction false} HoldStaysSpent(cfg: Config, db: Db, run: seq<Event>, id: RowId, bound: int)
    requires id in db.rows && db.nextId > id && (id in db.holds ==> db.holds[id] <= bound)
    requires forall i :: 0 <= i < |run| ==> !run[i].op.CreateHold?
    ensures var after := Exec(cfg, db, run);
            id in after.rows && after.nextId > id && (id in after.holds ==> after.holds[id] <= bound)
    decreases |run|
  {
    if run != [] {
      EffectFitsCall(cfg, db, run[0].time, run[0].op);
      HoldStaysSpent(cfg, Step(cfg, db, run[0]), run[1..], id, bound);
    }
  }

  /**
   Two confirmations of overlapping waiting bookings cannot both pass their
   check, even when other calls and the first one's write come in between,
   as long as none of them creates a hold.
   */
  lemma SplitConfirmsExclude(cfg: Config, db: Db, a: RowId, b: RowId, jtiA: RowId, jtiB: RowId,
                             first: int, between: seq<Event>, written: bool, write: int, rest: seq<Event>, second: int)
    requires a != b && a in db.rows && b in db.rows && b < db.nextId && Collide(db.rows[b], db.rows[a])
    requires db.rows[b].status.PendingVerify? && b in db.holds
    requires ConfirmGuard(db, a, jtiA, first) && first <= second
    requires forall i :: 0 <= i < |between| ==> !between[i].op.CreateHold?
    requires forall i :: 0 <= i < |rest| ==> !rest[i].op.CreateHold?
    ensures var mid := Exec(cfg, db, between);
            var after := Exec(cfg, if written then SealNow(mid, write, a) else mid, rest);
            !ConfirmGuard(after, b, jtiB, second)
  {
    assert !Live(db, b, first);
    HoldStaysSpent(cfg, db, between, b, first);
    var mid := Exec(cfg, db, between);
    var next := if written then SealNow(mid, write, a) else mid;
    HoldStaysSpent(cfg, next, rest, b, first);
  }
}
