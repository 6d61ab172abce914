/**
 What each call of the booking service decides, as a function of the tables.
 A decision is an answer, an effect on the bookings and holds tables, and the
 bookkeeping that goes with it. One call is one atomic step.
 */
module Lifecycle {
  import opened Prelude
  import opened Store
  import opened Availability

  datatype Purpose = Verify | CancelIt | RescheduleIt

  /** A signed booking token; `genuine` says that signature, issuer and audience check out. */
  datatype Token = Token(genuine: bool, purpose: Purpose, ours: bool, booking: RowId, jti: RowId, exp: int)

  datatype Error = BadRequest | Unauthorized | Forbidden | NotFound | Conflict | Internal

  datatype Answer =
    | Accepted(id: RowId)
    | Sent(token: Token)
    | Offered(slots: seq<Slot>)
    | Rejected(error: Error)
    | Swept

  datatype Op =
    | CreateHold(who: Option<Person>, start: int, end: int, key: string,
                 busy: set<Person>, secret: int, pick: Pick)
    | SendVerification(id: RowId, key: string)
    | ConfirmBooking(token: Token, key: string)
    | ConfirmBookingById(id: RowId, given: int, key: string)
    | CancelBooking(id: RowId, token: Token, key: string)
    | Reschedule(id: RowId, token: Token, start: int, end: int, key: string, pick: Pick)
    | ExpireHolds
    | Query(who: Option<Person>, date: int)

  /** The ways a call can change the bookings and holds tables. */
  datatype Effect =
    | Nothing
    | Insert(row: Row, expires: int)
    | Revive(id: RowId, key: string, expires: int)
    | Expire(id: RowId)
    | MarkVerify(id: RowId)
    | Seal(id: RowId)
    | Void(id: RowId)
    | Unhold(id: RowId)
    | Move(id: RowId, start: int, end: int)
    | Sweep

  function Apply(db: Db, now: int, e: Effect): Db {
    match e
    case Nothing => db
    case Insert(row, expires) =>
      db.(rows := db.rows[db.nextId := row], holds := db.holds[db.nextId := expires], nextId := db.nextId + 1)
    case Revive(id, key, expires) =>
      if id !in db.rows then db else
      db.(rows := db.rows[id := db.rows[id].(status := Hold, key := key, jti := None)],
          holds := db.holds[id := expires])
    case Expire(id) =>
      if id !in db.rows then db else db.(rows := db.rows[id := db.rows[id].(status := Expired)])
    case MarkVerify(id) =>
      if id !in db.rows then db else
      db.(rows := db.rows[id := db.rows[id].(status := PendingVerify, jti := Some(JtiFor(db, id)))])
    case Seal(id) =>
      if id !in db.rows then db else
      db.(rows := db.rows[id := db.rows[id].(status := Confirmed, jti := None)],
          secrets := db.secrets - {id}, holds := db.holds - {id})
    case Void(id) =>
      if id !in db.rows then db else
      db.(rows := db.rows[id := db.rows[id].(status := Canceled)], holds := db.holds - {id})
    case Unhold(id) => db.(holds := db.holds - {id})
    case Move(id, s, t) =>
      if id !in db.rows then db else db.(rows := db.rows[id := db.rows[id].(start := s, end := t)])
    case Sweep =>
      db.(rows := map id | id in db.rows ::
            if Stale(db, id, now) then db.rows[id].(status := Expired) else db.rows[id],
          holds := map id | id in db.holds && !Stale(db, id, now) :: db.holds[id])
  }

  /** A waiting row whose hold ran out before `now`. */
  predicate Stale(db: Db, id: RowId, now: int) {
    id in db.rows && db.rows[id].status.Waiting() && id in db.holds && db.holds[id] < now
  }

  function JtiFor(db: Db, id: RowId): RowId
    requires id in db.rows
  {
    if db.rows[id].jti.Some? then db.rows[id].jti.value else id
  }

  datatype Decision = Decision(effect: Effect, answer: Answer, spend: set<(Scope, string)>,
                               cursor: int, mint: map<RowId, int>)

  function Refuse(db: Db, error: Error): Decision { Decision(Nothing, Rejected(error), {}, db.cursor, map[]) }

  function Reply(db: Db, effect: Effect, answer: Answer, spend: set<(Scope, string)>): Decision {
    Decision(effect, answer, spend, db.cursor, map[])
  }

  function Commit(db: Db, now: int, d: Decision): Db {
    var after := Apply(db, now, d.effect);
    after.(used := after.used + d.spend, cursor := d.cursor, secrets := d.mint + after.secrets)
  }

  // ---- createHold ----

  datatype Attempt = Taken | Clash | Held(effect: Effect, id: RowId)

  /** The write of one attempt, turned into a clash when it would break a unique index. */
  function Admit(db: Db, now: int, e: Effect, id: RowId): Attempt {
    if IndexOk(Apply(db, now, e).rows) then Held(e, id) else Clash
  }

  function TryHold(cfg: Config, db: Db, now: int, p: Person, s: int, e: int, key: string, pick: Pick): Attempt {
    match FindFirst(pick, SlotRows(db.rows, p, s, e))
    case Some(id) =>
      if Live(db, id, now) then Taken else Admit(db, now, Revive(id, key, now + cfg.ttl), id)
    case None =>
      if Blocked(db, {}, p, s, e, now) then Taken
      else Admit(db, now, Insert(Row(p, s, e, Hold, key, None, now), now + cfg.ttl), db.nextId)
  }

  datatype Placement = Full | Aborted | Placed(effect: Effect, id: RowId, index: nat)

  /** The index `offset` places after the cursor. */
  function Turn(first: int, offset: int, n: int): (i: int)
    requires n > 0
    ensures 0 <= i < n
  {
    (first + offset) % n
  }

  function Allocate(cfg: Config, db: Db, now: int, ordered: seq<Person>, first: int, offset: nat,
                    busy: set<Person>, s: int, e: int, key: string, pick: Pick): Placement
    requires ordered != []
    decreases |ordered| - offset
  {
    if offset >= |ordered| then Full
    else
      var idx := Turn(first, offset, |ordered|);
      if ordered[idx] in busy then Allocate(cfg, db, now, ordered, first, offset + 1, busy, s, e, key, pick)
      else
        match TryHold(cfg, db, now, ordered[idx], s, e, key, pick)
        case Taken => Allocate(cfg, db, now, ordered, first, offset + 1, busy, s, e, key, pick)
        case Clash => Aborted
        case Held(effect, id) => Placed(effect, id, idx)
  }

  /** Where the round robin starts; an explicit salesperson is a list of one. */
  function FirstIndex(cursor: int, who: Option<Person>, n: int): int
    requires n > 0
  {
    if who.Some? then 0 else JsRem(JsRem(cursor, n) + n, n)
  }

  /** The confirm token createHoldPublic leaves on a booking that has none. */
  function Minted(db: Db, id: RowId, secret: int): map<RowId, int> {
    if id in db.secrets then map[] else map[id := secret]
  }

  function DecideCreate(cfg: Config, db: Db, now: int, who: Option<Person>, s: int, e: int, key: string,
                        busy: set<Person>, secret: int, pick: Pick): Decision {
    var ordered := Targets(cfg, who);
    if key == "" || e <= s then Refuse(db, BadRequest)
    else if ordered == [] then Refuse(db, if who.Some? then NotFound else Conflict)
    else
      match FindFirst(pick, KeyRows(db.rows, key))
      case Some(id) => Decision(Nothing, Accepted(id), {}, db.cursor, Minted(db, id, secret))
      case None =>
        match Allocate(cfg, db, now, ordered, FirstIndex(db.cursor, who, |ordered|), 0, busy, s, e, key, pick)
        case Full => Refuse(db, Conflict)
        case Aborted => Refuse(db, Conflict)
        case Placed(effect, id, index) =>
          var next := if who.Some? then db.cursor else (index + 1) % |ordered|;
          Decision(effect, Accepted(id), {}, next, Minted(db, id, secret))
  }

  // ---- sendVerification ----

  /** The token names the hold's expiry rounded down to whole seconds. */
  function VerifyToken(db: Db, id: RowId): Token
    requires id in db.rows && id in db.holds
  {
    Token(true, Verify, true, id, JtiFor(db, id), db.holds[id] / 1000)
  }

  function DecideVerify(db: Db, now: int, id: RowId, key: string): Decision {
    if key == "" then Refuse(db, BadRequest)
    else if id !in db.rows || id !in db.holds then Refuse(db, NotFound)
    else if !db.rows[id].status.Waiting() then Refuse(db, Conflict)
    else if db.holds[id] <= now then Reply(db, Expire(id), Rejected(Conflict), {})
    else if (ForVerify, key) in db.used then Reply(db, Nothing, Sent(VerifyToken(db, id)), {})
    else Reply(db, MarkVerify(id), Sent(VerifyToken(db, id)), {(ForVerify, key)})
  }

  // ---- confirmBooking ----

  /** The expiry test of a JSON web token: the clock in whole seconds is before `exp`. */
  predicate Unexpired(t: Token, now: int) { t.genuine && now / 1000 < t.exp }

  /** What the confirming transaction demands before it writes. */
  predicate ConfirmGuard(db: Db, id: RowId, jti: RowId, now: int) {
    && id in db.rows && db.rows[id].status.PendingVerify? && db.rows[id].jti == Some(jti)
    && id in db.holds && db.holds[id] > now
    && !Blocked(db, {id}, db.rows[id].person, db.rows[id].start, db.rows[id].end, now)
  }

  /** The reads before the transaction; None when they let the call go on. */
  function ConfirmPrecheck(db: Db, now: int, t: Token, key: string): Option<Decision> {
    if key == "" then Some(Refuse(db, BadRequest))
    else if !Unexpired(t, now) then Some(Refuse(db, Unauthorized))
    else if t.purpose != Verify || !t.ours then Some(Refuse(db, Forbidden))
    else if (ForConfirm, key) in db.used then
      Some(if t.booking in db.rows then Reply(db, Nothing, Accepted(t.booking), {}) else Refuse(db, NotFound))
    else if t.booking !in db.rows then Some(Refuse(db, NotFound))
    else
      var row := db.rows[t.booking];
      if row.status.Confirmed? then Some(Reply(db, Nothing, Accepted(t.booking), {(ForConfirm, key)}))
      else if row.jti != Some(t.jti) then Some(Refuse(db, Forbidden))
      else if !row.status.PendingVerify? then Some(Refuse(db, Conflict))
      else if t.booking !in db.holds || db.holds[t.booking] <= now then
        Some(Reply(db, Expire(t.booking), Rejected(Conflict), {}))
      else if Blocked(db, {t.booking}, row.person, row.start, row.end, now) then Some(Refuse(db, Conflict))
      else None
  }

  /** The transaction; its own write of `expired` is rolled back by the error that follows it. */
  function ConfirmTx(db: Db, now: int, t: Token, key: string): Decision {
    if t.booking !in db.rows then Refuse(db, NotFound)
    else if db.rows[t.booking].status.Confirmed? then Reply(db, Nothing, Accepted(t.booking), {(ForConfirm, key)})
    else if !db.rows[t.booking].status.PendingVerify? then Refuse(db, Conflict)
    else if db.rows[t.booking].jti != Some(t.jti) then Refuse(db, Forbidden)
    else if ConfirmGuard(db, t.booking, t.jti, now) then
      Reply(db, Seal(t.booking), Accepted(t.booking), {(ForConfirm, key)})
    else Refuse(db, Conflict)
  }

  function DecideConfirm(db: Db, now: int, t: Token, key: string): Decision {
    match ConfirmPrecheck(db, now, t, key)
    case Some(d) => d
    case None => ConfirmTx(db, now, t, key)
  }

  // ---- confirmBookingById ----

  const BY_ID_WINDOW: int := 900_000

  function DecideConfirmById(db: Db, now: int, id: RowId, given: int, key: string): Decision {
    if key == "" then Refuse(db, BadRequest)
    else if (ForConfirmById, key) in db.used then
      if id in db.rows then Reply(db, Nothing, Accepted(id), {}) else Refuse(db, NotFound)
    else if id !in db.rows then Refuse(db, NotFound)
    else if !db.rows[id].status.Hold? then Refuse(db, Conflict)
    else if id !in db.secrets || db.secrets[id] != given then Refuse(db, BadRequest)
    else if db.rows[id].created + BY_ID_WINDOW <= now then Refuse(db, BadRequest)
    else Reply(db, Seal(id), Accepted(id), {(ForConfirmById, key)})
  }

  // ---- cancelBooking ----

  const CHANGE_DEADLINE: int := 86_400_000

  predicate TokenFits(t: Token, purpose: Purpose, id: RowId) { t.purpose == purpose && t.booking == id && t.ours }

  function DecideCancel(db: Db, now: int, id: RowId, t: Token, key: string): Decision {
    if key == "" then Refuse(db, BadRequest)
    else if id !in db.rows then Refuse(db, NotFound)
    else if db.rows[id].status.Canceled? || (ForCancel, key) in db.used then
      Reply(db, Unhold(id), Accepted(id), {})
    else if !Unexpired(t, now) then Refuse(db, Unauthorized)
    else if !TokenFits(t, CancelIt, id) then Refuse(db, Forbidden)
    else if !db.rows[id].status.Confirmed? then Refuse(db, Conflict)
    else if now > db.rows[id].start - CHANGE_DEADLINE then Refuse(db, Conflict)
    else Reply(db, Void(id), Accepted(id), {(ForCancel, key)})
  }

  // ---- rescheduleBooking ----

  /** The single row the transaction looks at over the new interval lets it pass. */
  predicate TargetClear(db: Db, id: RowId, s: int, e: int, now: int, pick: Pick)
    requires id in db.rows
  {
    var found := FindFirst(pick, ActiveOverlaps(db.rows, id, db.rows[id].person, s, e));
    found.None? || !Live(db, found.value, now)
  }

  function DecideReschedule(db: Db, now: int, id: RowId, t: Token, s: int, e: int, key: string, pick: Pick): Decision {
    if key == "" then Refuse(db, BadRequest)
    else if !Unexpired(t, now) then Refuse(db, Unauthorized)
    else if !TokenFits(t, RescheduleIt, id) then Refuse(db, Forbidden)
    else if id !in db.rows then Refuse(db, NotFound)
    else if e <= s then Refuse(db, BadRequest)
    else if (ForReschedule, key) in db.used then Reply(db, Nothing, Accepted(id), {})
    else if !db.rows[id].status.Confirmed? then Refuse(db, Conflict)
    else if now > db.rows[id].start - CHANGE_DEADLINE then Refuse(db, Conflict)
    else if db.rows[id].start == s && db.rows[id].end == e then
      Reply(db, Nothing, Accepted(id), {(ForReschedule, key)})
    else if !TargetClear(db, id, s, e, now, pick) then Refuse(db, Conflict)
    else if !IndexOk(Apply(db, now, Move(id, s, e)).rows) then Refuse(db, Internal)
    else Reply(db, Move(id, s, e), Accepted(id), {(ForReschedule, key)})
  }

  // ---- one step, and runs ----

  function Decide(cfg: Config, db: Db, now: int, op: Op): Decision {
    match op
    case CreateHold(who, s, e, key, busy, secret, pick) => DecideCreate(cfg, db, now, who, s, e, key, busy, secret, pick)
    case SendVerification(id, key) => DecideVerify(db, now, id, key)
    case ConfirmBooking(t, key) => DecideConfirm(db, now, t, key)
    case ConfirmBookingById(id, given, key) => DecideConfirmById(db, now, id, given, key)
    case CancelBooking(id, t, key) => DecideCancel(db, now, id, t, key)
    case Reschedule(id, t, s, e, key, pick) => DecideReschedule(db, now, id, t, s, e, key, pick)
    case ExpireHolds => Reply(db, Sweep, Swept, {})
    case Query(who, date) =>
      if who.Some? && who.value !in cfg.staff then Refuse(db, NotFound)
      else Reply(db, Nothing, Offered(FreshSlots(cfg, db, who, date, now)), {})
  }

  /** A call and the instant at which it takes place. */
  datatype Event = At(time: int, op: Op)

  function Step(cfg: Config, db: Db, ev: Event): Db {
    Commit(db, ev.time, Decide(cfg, db, ev.time, ev.op))
  }

  function AnswerTo(cfg: Config, db: Db, ev: Event): Answer { Decide(cfg, db, ev.time, ev.op).answer }

  function Exec(cfg: Config, db: Db, run: seq<Event>): Db
    decreases |run|
  {
    if run == [] then db else Exec(cfg, Step(cfg, db, run[0]), run[1..])
  }

  /** The clock never runs backwards, and starts no earlier than `now`. */
  predicate Timeline(now: int, run: seq<Event>)
    decreases |run|
  {
    run == [] || (now <= run[0].time && Timeline(run[0].time, run[1..]))
  }

  function EndTime(now: int, run: seq<Event>): int { if run == [] then now else run[|run| - 1].time }

  /** No bookings yet; the round-robin cursor may hold anything. */
  function Fresh(cursor: int): Db { Db(map[], map[], map[], {}, cursor, 0) }
}
