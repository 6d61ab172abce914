/** What every step of the booking service keeps, and when each effect may occur. */
module Invariants {
  import opened Store
  import opened Availability
  import opened Lifecycle

  /** What a call knows about the row it writes. */
  ghost predicate Local(cfg: Config, db: Db, now: int, e: Effect) {
    match e
    case Nothing => true
    case Insert(row, expires) =>
      && row.status.Hold? && row.jti.None? && row.created == now && expires == now + cfg.ttl && row.start < row.end
    case Revive(id, key, expires) => id in db.rows && !Live(db, id, now) && expires == now + cfg.ttl
    case Expire(id) => id in db.rows && db.rows[id].status.Waiting() && !Live(db, id, now)
    case MarkVerify(id) => id in db.rows && db.rows[id].status.Waiting() && Live(db, id, now)
    case Seal(id) =>
      && id in db.rows
      && ((db.rows[id].status.PendingVerify? && db.rows[id].jti.Some? && Live(db, id, now)) || SealedById(db, id, now))
    case Void(id) => id in db.rows && db.rows[id].status.Confirmed?
    case Unhold(id) => id in db.rows
    case Move(id, s, t) => id in db.rows && db.rows[id].status.Confirmed? && s < t
    case Sweep => true
  }

  /** What its queries and the unique indexes found in the other rows. */
  ghost predicate Checked(db: Db, now: int, e: Effect) {
    match e
    case Insert(row, _) =>
      && SlotRows(db.rows, row.person, row.start, row.end) == {}
      && !Blocked(db, {}, row.person, row.start, row.end, now)
      && KeyRows(db.rows, row.key) == {} && IndexOk(Apply(db, now, e).rows)
    case Revive(id, key, _) => KeyRows(db.rows, key) == {} && IndexOk(Apply(db, now, e).rows)
    case Seal(id) => SealedById(db, id, now) || SealedByToken(db, id, now)
    case Move(id, s, t) => IndexOk(Apply(db, now, e).rows)
    case _ => true
  }

  /** The circumstances in which a call may have the effect `e`. */
  ghost predicate Lawful(cfg: Config, db: Db, now: int, e: Effect) {
    Local(cfg, db, now, e) && Checked(db, now, e)
  }

  ghost predicate SealedByToken(db: Db, id: RowId, now: int) {
    id in db.rows && db.rows[id].jti.Some? && ConfirmGuard(db, id, db.rows[id].jti.value, now)
  }

  ghost predicate SealedById(db: Db, id: RowId, now: int) {
    id in db.rows && db.rows[id].status.Hold? && db.rows[id].created + BY_ID_WINDOW > now
  }

  lemma AttemptIsLawful(cfg: Config, db: Db, now: int, p: Person, s: int, e: int, key: string, pick: Pick)
    requires s < e && KeyRows(db.rows, key) == {}
    ensures var a := TryHold(cfg, db, now, p, s, e, key, pick);
            a.Held? ==> Lawful(cfg, db, now, a.effect)
  {
  }

  /** A placement writes what one attempt, for the salesperson it names, allowed. */
  lemma {:induction false} PlacementIsLawful(cfg: Config, db: Db, now: int, ordered: seq<Person>, first: int, offset: nat,
                                             busy: set<Person>, s: int, e: int, key: string, pick: Pick)
    requires ordered != [] && s < e && KeyRows(db.rows, key) == {}
    ensures var a := Allocate(cfg, db, now, ordered, first, offset, busy, s, e, key, pick);
            a.Placed? ==> a.index < |ordered| && ordered[a.index] !in busy
                          && TryHold(cfg, db, now, ordered[a.index], s, e, key, pick) == Held(a.effect, a.id)
                          && Lawful(cfg, db, now, a.effect)
    decreases |ordered| - offset
  {
    if offset < |ordered| {
      AttemptIsLawful(cfg, db, now, ordered[Turn(first, offset, |ordered|)], s, e, key, pick);
      PlacementIsLawful(cfg, db, now, ordered, first, offset + 1, busy, s, e, key, pick);
    }
  }

  lemma DecisionIsLawful(cfg: Config, db: Db, now: int, op: Op)
    ensures Lawful(cfg, db, now, Decide(cfg, db, now, op).effect)
  {
    match op
    case CreateHold(who, s, e, key, busy, secret, pick) =>
      var ordered := Targets(cfg, who);
      if key != "" && s < e && ordered != [] && KeyRows(db.rows, key) == {} {
        PlacementIsLawful(cfg, db, now, ordered, FirstIndex(db.cursor, who, |ordered|), 0, busy, s, e, key, pick);
      }
    case ConfirmBooking(t, key) => ConfirmIsLawful(cfg, db, now, t, key);
    case _ =>
  }

  lemma ConfirmIsLawful(cfg: Config, db: Db, now: int, t: Token, key: string)
    ensures Lawful(cfg, db, now, DecideConfirm(db, now, t, key).effect)
  {
  }

  /** Keys and bounds of the tables: foreign keys, ids, and how far ahead a hold may reach. */
  ghost predicate Sane(cfg: Config, db: Db, now: int) {
    && db.holds.Keys <= db.rows.Keys
    && (forall id :: id in db.rows ==> id < db.nextId && db.rows[id].start < db.rows[id].end && db.rows[id].created <= now)
    && (forall id :: id in db.holds ==> db.rows[id].created + cfg.ttl <= db.holds[id] <= now + cfg.ttl)
  }

  /** What holds in every reachable state. */
  ghost predicate Good(cfg: Config, db: Db, now: int) { Sane(cfg, db, now) && IndexOk(db.rows) }

  /** Two versions of a row that differ in status and token name only. */
  predicate SameFrame(a: Row, b: Row) {
    a.person == b.person && a.start == b.start && a.end == b.end && a.key == b.key && a.created == b.created
  }

  /** The effects that only change statuses and holds. */
  predicate Settled(e: Effect) { !e.Insert? && !e.Revive? && !e.Move? }

  /** The rows stay the same rows, and no row becomes active. */
  ghost predicate Thinner(before: map<RowId, Row>, after: map<RowId, Row>) {
    && before.Keys == after.Keys
    && (forall id :: id in before ==> SameFrame(before[id], after[id])
                                      && (after[id].status.Active() ==> before[id].status.Active()))
  }

  ghost predicate FewerHolds(before: Db, after: Db) {
    && after.nextId == before.nextId
    && (forall id :: id in after.holds ==> id in before.holds && after.holds[id] == before.holds[id])
  }

  lemma SettledIsThinner(cfg: Config, db: Db, now: int, e: Effect)
    requires Settled(e) && Local(cfg, db, now, e)
    ensures Thinner(db.rows, Apply(db, now, e).rows) && FewerHolds(db, Apply(db, now, e))
  {
  }

  lemma ThinnerKeepsIndexes(before: map<RowId, Row>, after: map<RowId, Row>)
    requires Thinner(before, after) && IndexOk(before)
    ensures IndexOk(after)
  {
  }

  lemma EffectKeepsIndexes(cfg: Config, db: Db, now: int, e: Effect)
    requires IndexOk(db.rows) && Lawful(cfg, db, now, e)
    ensures IndexOk(Apply(db, now, e).rows)
  {
    if Settled(e) {
      SettledIsThinner(cfg, db, now, e);
      ThinnerKeepsIndexes(db.rows, Apply(db, now, e).rows);
    }
  }

  lemma EffectKeepsSane(cfg: Config, db: Db, now: int, e: Effect)
    requires Sane(cfg, db, now) && Local(cfg, db, now, e)
    ensures Sane(cfg, Apply(db, now, e), now)
  {
    if Settled(e) {
      SettledIsThinner(cfg, db, now, e);
    }
  }

  lemma StepKeepsGood(cfg: Config, db: Db, now: int, ev: Event)
    requires Good(cfg, db, now) && now <= ev.time
    ensures Good(cfg, Step(cfg, db, ev), ev.time)
  {
    DecisionIsLawful(cfg, db, ev.time, ev.op);
    var e := Decide(cfg, db, ev.time, ev.op).effect;
    EffectKeepsSane(cfg, db, ev.time, e);
    EffectKeepsIndexes(cfg, db, ev.time, e);
  }

  lemma {:induction false} RunKeepsGood(cfg: Config, db: Db, now: int, run: seq<Event>)
    requires Good(cfg, db, now) && Timeline(now, run)
    ensures Good(cfg, Exec(cfg, db, run), EndTime(now, run))
    decreases |run|
  {
    hide Step, Good;
    if run != [] {
      StepKeepsGood(cfg, db, now, run[0]);
      RunKeepsGood(cfg, Step(cfg, db, run[0]), run[0].time, run[1..]);
    }
  }

  /** The row an effect writes; a sweep only takes life away. */
  function Touched(db: Db, e: Effect): RowId {
    match e
    case Insert(_, _) => db.nextId
    case Nothing => db.nextId
    case Sweep => db.nextId
    case Revive(id, _, _) => id
    case Expire(id) => id
    case MarkVerify(id) => id
    case Seal(id) => id
    case Void(id) => id
    case Unhold(id) => id
    case Move(id, _, _) => id
  }

  /** A row the effect does not write is the same row with the same hold, unless a sweep finds it stale and expires it. */
  lemma OthersStay(db: Db, now: int, e: Effect, id: RowId)
    requires id != Touched(db, e) && id in Apply(db, now, e).rows
    ensures id in db.rows
    ensures var after := Apply(db, now, e);
      if e.Sweep? && Stale(db, id, now) then
        after.rows[id] == db.rows[id].(status := Expired) && id !in after.holds
      else
        after.rows[id] == db.rows[id] && (id in after.holds <==> id in db.holds)
        && (id in db.holds ==> after.holds[id] == db.holds[id])
    ensures Live(Apply(db, now, e), id, now) ==> Live(db, id, now)
  {
  }
}
