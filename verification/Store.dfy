/**
 The tables the booking service works on, restricted to one tenant, and the
 queries it puts to them. All times are integer milliseconds.
 */
module Store {
  import opened Prelude

  type RowId = nat
  type Person = nat

  datatype Status = Hold | PendingVerify | Confirmed | Canceled | Expired {
    /** The statuses that wait on a row of the holds table. */
    predicate Waiting() { Hold? || PendingVerify? }

    /** The statuses covered by the partial unique index on slots. */
    predicate Active() { Waiting() || Confirmed? }
  }

  /** One booking. `jti` is the booking id inside a `verify-<id>` token name. */
  datatype Row = Row(person: Person, start: int, end: int, status: Status,
                     key: string, jti: Option<RowId>, created: int) {
    predicate SameSlot(p: Person, s: int, e: int) { person == p && start == s && end == e }

    predicate Overlaps(p: Person, s: int, e: int) { person == p && start < e && end > s }
  }

  datatype Scope = ForVerify | ForConfirm | ForConfirmById | ForCancel | ForReschedule

  /**
   bookings, holds (expiry per booking), the public_confirm_token column,
   idempotency_keys, the tenant's rr_cursor, and the next fresh booking id.
   */
  datatype Db = Db(rows: map<RowId, Row>, holds: map<RowId, int>, secrets: map<RowId, int>,
                   used: set<(Scope, string)>, cursor: int, nextId: RowId)

  /** A row that occupies its interval at time `now`. */
  predicate Live(db: Db, id: RowId, now: int) {
    && id in db.rows
    && (db.rows[id].status.Confirmed?
        || (db.rows[id].status.Waiting() && id in db.holds && db.holds[id] > now))
  }

  /** Some live row outside `except` overlaps the interval. */
  predicate Blocked(db: Db, except: set<RowId>, p: Person, s: int, e: int, now: int) {
    exists id :: id in db.rows && id !in except && db.rows[id].Overlaps(p, s, e) && Live(db, id, now)
  }

  function SlotRows(rows: map<RowId, Row>, p: Person, s: int, e: int): set<RowId> {
    set id | id in rows && rows[id].SameSlot(p, s, e)
  }

  function ActiveOverlaps(rows: map<RowId, Row>, except: RowId, p: Person, s: int, e: int): set<RowId> {
    set id | id in rows && id != except && rows[id].status.Active() && rows[id].Overlaps(p, s, e)
  }

  function KeyRows(rows: map<RowId, Row>, key: string): set<RowId> {
    set id | id in rows && rows[id].key == key
  }

  /** Which of several matching rows the database returns first: any of them. */
  type Pick = f: set<RowId> -> RowId | forall s :: s != {} ==> f(s) in s ghost witness AnyOf

  ghost function AnyOf(s: set<RowId>): RowId {
    if s == {} then 0 else var x :| x in s; x
  }

  function FindFirst(pick: Pick, matches: set<RowId>): (r: Option<RowId>)
    ensures r.None? <==> matches == {}
    ensures r.Some? ==> r.value in matches
  {
    if matches == {} then None else Some(pick(matches))
  }

  /** The partial unique index on the slots of active rows. */
  predicate ActiveUnique(rows: map<RowId, Row>) {
    forall a, b :: a in rows && b in rows && a != b && rows[a].status.Active() && rows[b].status.Active()
      ==> !rows[a].SameSlot(rows[b].person, rows[b].start, rows[b].end)
  }

  /** The unique index on idempotency keys of bookings. */
  predicate KeyUnique(rows: map<RowId, Row>) {
    forall a, b :: a in rows && b in rows && a != b ==> rows[a].key != rows[b].key
  }

  predicate IndexOk(rows: map<RowId, Row>) { ActiveUnique(rows) && KeyUnique(rows) }
}
