/**
 The booking service as it is written: one object whose calls update the tables
 and the availability cache in place, each proved against the step it specifies.
 */
module BookingService {
  import opened Prelude
  import opened Store
  import opened Availability
  import opened Lifecycle
  import opened CachedView

  // ---- each call's step, spelled out ----

  /** The service after a decision, with some cache keys dropped. */
  function After(sys: Sys, now: int, d: Decision, dropped: set<Key>): Sys {
    Sys(Commit(sys.db, now, d), sys.cache - dropped)
  }

  lemma VerifyStep(cfg: Config, sys: Sys, now: int, id: RowId, key: string)
    ensures var ev := At(now, Op.SendVerification(id, key));
            var d := DecideVerify(sys.db, now, id, key);
      AnswerTo(cfg, sys.db, ev) == d.answer && CachedStep(cfg, sys, ev) == After(sys, now, d, {})
  {
    hide DecideVerify, Commit;
  }

  lemma ConfirmStep(cfg: Config, sys: Sys, now: int, t: Token, key: string)
    ensures var ev := At(now, Op.ConfirmBooking(t, key));
            var d := DecideConfirm(sys.db, now, t, key);
      AnswerTo(cfg, sys.db, ev) == d.answer && CachedStep(cfg, sys, ev) == After(sys, now, d, {})
  {
    hide DecideConfirm, Commit;
  }

  lemma ConfirmByIdStep(cfg: Config, sys: Sys, now: int, id: RowId, given: int, key: string)
    ensures var ev := At(now, Op.ConfirmBookingById(id, given, key));
            var d := DecideConfirmById(sys.db, now, id, given, key);
      AnswerTo(cfg, sys.db, ev) == d.answer && CachedStep(cfg, sys, ev) == After(sys, now, d, {})
  {
    hide DecideConfirmById, Commit;
  }

  lemma CancelStep(cfg: Config, sys: Sys, now: int, id: RowId, t: Token, key: string)
    ensures var ev := At(now, Op.CancelBooking(id, t, key));
            var d := DecideCancel(sys.db, now, id, t, key);
            var dropped := if d.answer.Accepted? && id in sys.db.rows
                           then Stains(cfg, sys.db.rows[id].person, sys.db.rows[id].start) else {};
      AnswerTo(cfg, sys.db, ev) == d.answer && CachedStep(cfg, sys, ev) == After(sys, now, d, dropped)
  {
    hide DecideCancel, Commit, Stains;
  }

  lemma RescheduleStep(cfg: Config, sys: Sys, now: int, id: RowId, t: Token, s: int, e: int, key: string, pick: Pick)
    ensures var ev := At(now, Op.Reschedule(id, t, s, e, key, pick));
            var d := DecideReschedule(sys.db, now, id, t, s, e, key, pick);
            var dropped := if d.effect.Move? && id in sys.db.rows
                           then Stains(cfg, sys.db.rows[id].person, sys.db.rows[id].start)
                                + Stains(cfg, sys.db.rows[id].person, s) else {};
      AnswerTo(cfg, sys.db, ev) == d.answer && CachedStep(cfg, sys, ev) == After(sys, now, d, dropped)
  {
    hide DecideReschedule, Commit, Stains;
  }

  lemma CreateStep(cfg: Config, sys: Sys, now: int, who: Option<Person>, s: int, e: int, key: string,
                   busy: set<Person>, secret: int, pick: Pick)
    ensures var ev := At(now, Op.CreateHold(who, s, e, key, busy, secret, pick));
            var d := DecideCreate(cfg, sys.db, now, who, s, e, key, busy, secret, pick);
            var after := Apply(sys.db, now, d.effect).rows;
            var dropped := if d.answer.Accepted? && d.answer.id in after then Stains(cfg, after[d.answer.id].person, s) else {};
      AnswerTo(cfg, sys.db, ev) == d.answer && CachedStep(cfg, sys, ev) == After(sys, now, d, dropped)
  {
    hide DecideCreate, Commit, Stains, Apply;
  }

  lemma SweepStep(cfg: Config, sys: Sys, now: int)
    ensures var dropped := if exists id :: id in sys.db.rows && Stale(sys.db, id, now) then sys.cache.Keys else {};
      CachedStep(cfg, sys, At(now, Op.ExpireHolds)) == After(sys, now, Reply(sys.db, Sweep, Swept, {}), dropped)
  {
    hide Commit, Stale;
  }

  /** A decision that spends no key, on top of its effect and its cursor. */
  lemma Committed(db: Db, now: int, d: Decision, mid: Db)
    requires mid == Apply(db, now, d.effect).(cursor := d.cursor) && d.spend == {}
    ensures Commit(db, now, d) == mid.(secrets := d.mint + mid.secrets)
  {
    hide Apply;
  }

  /** A refusal, or an answer without an effect, leaves everything as it was. */
  lemma Unmoved(sys: Sys, now: int)
    ensures forall answer :: After(sys, now, Decision(Nothing, answer, {}, sys.db.cursor, map[]), {}) == sys
  {
  }

  /** A reply is its effect and the key it spends. */
  lemma Replied(sys: Sys, now: int, e: Effect, answer: Answer, spend: set<(Scope, string)>, dropped: set<Key>)
    requires Apply(sys.db, now, e).cursor == sys.db.cursor
    ensures var after := Apply(sys.db, now, e);
      After(sys, now, Reply(sys.db, e, answer, spend), dropped) == Sys(after.(used := after.used + spend), sys.cache - dropped)
  {
    hide Apply;
  }

  lemma Mint(secrets: map<RowId, int>, id: RowId, secret: int)
    ensures map[] + secrets == secrets && map[id := secret] + secrets == if id in secrets then secrets else secrets[id := secret]
  {
  }

  function StaleIds(db: Db, now: int): set<RowId> { set id | id in db.rows && Stale(db, id, now) }

  /** The sweep by the list of ids the query returned. */
  lemma SweepByIds(db: Db, now: int)
    ensures var ids := StaleIds(db, now);
      && Apply(db, now, Sweep) == db.(holds := db.holds - ids,
           rows := map id | id in db.rows ::
             if id in ids && db.rows[id].status.Waiting() then db.rows[id].(status := Expired) else db.rows[id])
      && (ids == {} ==> Apply(db, now, Sweep) == db)
      && (ids == {} <==> !exists id :: id in db.rows && Stale(db, id, now))
  {
    var ids := StaleIds(db, now);
    assert ids == {} ==> forall id :: id in db.rows && Stale(db, id, now) ==> id in ids;
    assert ids == {} ==> Apply(db, now, Sweep).rows == db.rows && Apply(db, now, Sweep).holds == db.holds;
    assert (exists id :: id in db.rows && Stale(db, id, now)) ==> exists id :: id in ids;
  }

  lemma ApplyNothing(db: Db, now: int)
    ensures Apply(db, now, Nothing) == db
  {
  }

  lemma BadCreateRefused(cfg: Config, db: Db, now: int, who: Option<Person>, s: int, e: int, key: string,
                         busy: set<Person>, secret: int, pick: Pick)
    requires key == "" || e <= s || Targets(cfg, who) == []
    ensures DecideCreate(cfg, db, now, who, s, e, key, busy, secret, pick) ==
      Decision(Nothing, Rejected(if key == "" || e <= s then BadRequest else if who.Some? then NotFound else Conflict),
               {}, db.cursor, map[])
  {
  }

  class Service {
    const cfg: Config
    /** The tables: bookings, holds, public_confirm_token, idempotency_keys, rr_cursor. */
    var rows: map<RowId, Row>
    var holds: map<RowId, int>
    var secrets: map<RowId, int>
    var used: set<(Scope, string)>
    var cursor: int
    var nextId: RowId
    /** The availabilityCache of this process. */
    var cache: map<Key, Entry>

    constructor (config: Config, start: int)
      ensures cfg == config && Tables() == Fresh(start) && cache == map[]
    {
      cfg := config;
      rows, holds, secrets, used, cursor, nextId := map[], map[], map[], {}, start, 0;
      cache := map[];
    }

    function Tables(): Db
      reads this
    {
      Db(rows, holds, secrets, used, cursor, nextId)
    }

    function Whole(): Sys
      reads this
    {
      Sys(Tables(), cache)
    }

    // ---- the cache ----

    method InvalidateForStart(p: Person, start: int)
      modifies `cache
      ensures cache == old(cache) - Stains(cfg, p, start)
    {
      var date := DateOf(start, Zone(cfg, p));
      cache := cache - {(Some(p), date)};
      cache := cache - {(None, date)};
    }

    // ---- createHold ----

    /** A write that would break a unique index is rolled back. */
    method TryCreateHold(now: int, p: Person, s: int, e: int, key: string, pick: Pick) returns (r: Attempt)
      modifies `rows, `holds, `nextId
      ensures r == TryHold(cfg, old(Tables()), now, p, s, e, key, pick)
      ensures Tables() == if r.Held? then Apply(old(Tables()), now, r.effect) else old(Tables())
    {
      var rowsBefore, holdsBefore, nextBefore := rows, holds, nextId;
      var expires := now + cfg.ttl;
      var existing := FindFirst(pick, SlotRows(rows, p, s, e));
      if existing.Some? {
        var id := existing.value;
        var holdValid := rows[id].status.Waiting() && id in holds && holds[id] > now;
        if rows[id].status.Confirmed? || holdValid { return Taken; }
        rows := rows[id := rows[id].(status := Hold, key := key, jti := None)];
        holds := holds[id := expires];
        r := Held(Revive(id, key, expires), id);
      } else {
        if Blocked(Tables(), {}, p, s, e, now) { return Taken; }
        var row := Row(p, s, e, Hold, key, None, now);
        rows := rows[nextId := row];
        holds := holds[nextId := expires];
        r := Held(Insert(row, expires), nextId);
        nextId := nextId + 1;
      }
      assert Tables() == Apply(old(Tables()), now, r.effect);
      if !IndexOk(rows) {
        rows, holds, nextId := rowsBefore, holdsBefore, nextBefore;
        r := Clash;
      }
    }

    /** The transaction of createHold once the key is known to be new: the first salesperson who can take the slot. */
    method Assign(now: int, who: Option<Person>, s: int, e: int, key: string, busy: set<Person>, pick: Pick)
      returns (r: Placement)
      requires Targets(cfg, who) != []
      modifies `rows, `holds, `nextId, `cursor
      ensures var ordered := Targets(cfg, who);
        r == Allocate(cfg, old(Tables()), now, ordered, FirstIndex(old(cursor), who, |ordered|), 0, busy, s, e, key, pick)
      ensures Tables() == if r.Placed?
        then Apply(old(Tables()), now, r.effect).(cursor := if who.Some? then old(cursor) else (r.index + 1) % |Targets(cfg, who)|)
        else old(Tables())
    {
      hide TryHold, Apply, FirstIndex, Targets, Turn, IndexOk;
      var ordered := Targets(cfg, who);
      var first := FirstIndex(cursor, who, |ordered|);
      for offset := 0 to |ordered|
        invariant Tables() == old(Tables())
        invariant Allocate(cfg, old(Tables()), now, ordered, first, offset, busy, s, e, key, pick)
               == Allocate(cfg, old(Tables()), now, ordered, first, 0, busy, s, e, key, pick)
      {
        var idx := Turn(first, offset, |ordered|);
        if ordered[idx] in busy { continue; }
        var attempt := TryCreateHold(now, ordered[idx], s, e, key, pick);
        if attempt.Clash? { return Aborted; }
        if attempt.Held? {
          if who.None? { cursor := (idx + 1) % |ordered|; }
          return Placed(attempt.effect, attempt.id, idx);
        }
      }
      r := Full;
    }

    /** The booking a key already has, or a new assignment. */
    method FindOrAssign(now: int, who: Option<Person>, s: int, e: int, key: string, busy: set<Person>, pick: Pick)
      returns (id: Option<RowId>)
      requires key != "" && s < e && Targets(cfg, who) != []
      modifies `rows, `holds, `nextId, `cursor
      ensures forall secret :: var d := DecideCreate(cfg, old(Tables()), now, who, s, e, key, busy, secret, pick);
        && d.answer == (match id case None => Rejected(Conflict) case Some(i) => Accepted(i))
        && Tables() == Apply(old(Tables()), now, d.effect).(cursor := d.cursor)
        && (id.Some? ==> d.mint == Minted(old(Tables()), id.value, secret))
        && (id.None? ==> d.mint == map[])
        && d.spend == {}
    {
      hide IndexOk, Blocked, Live, Allocate, Targets, KeyRows, Apply;
      id := FindFirst(pick, KeyRows(rows, key));
      if id.Some? {
        assert Apply(Tables(), now, Nothing) == Tables() by { ApplyNothing(Tables(), now); }
        return;
      }
      var placed := Assign(now, who, s, e, key, busy, pick);
      ApplyNothing(old(Tables()), now);
      id := if placed.Placed? then Some(placed.id) else None;
    }

    /** A confirm token for a booking that has none. */
    method MintSecret(id: RowId, secret: int)
      modifies `secrets
      ensures secrets == Minted(old(Tables()), id, secret) + old(secrets)
    {
      Mint(secrets, id, secret);
      if id !in secrets { secrets := secrets[id := secret]; }
    }

    /** createHoldPublic: the hold, the cache, and a confirm token for a booking that has none. */
    method CreateHold(now: int, who: Option<Person>, s: int, e: int, key: string, busy: set<Person>, secret: int, pick: Pick)
      returns (answer: Answer)
      modifies this
      ensures var ev := At(now, Op.CreateHold(who, s, e, key, busy, secret, pick));
        && answer == AnswerTo(cfg, old(Tables()), ev)
        && Whole() == CachedStep(cfg, old(Whole()), ev)
    {
      CreateStep(cfg, Whole(), now, who, s, e, key, busy, secret, pick);
      hide CachedStep, AnswerTo, Stains, Targets, DecideCreate, Apply;
      if key == "" || e <= s || Targets(cfg, who) == [] {
        BadCreateRefused(cfg, Tables(), now, who, s, e, key, busy, secret, pick);
        Unmoved(Whole(), now);
        hide After, Commit;
        return Rejected(if key == "" || e <= s then BadRequest else if who.Some? then NotFound else Conflict);
      }
      var id := FindOrAssign(now, who, s, e, key, busy, pick);
      ghost var d := DecideCreate(cfg, old(Tables()), now, who, s, e, key, busy, secret, pick);
      Committed(old(Tables()), now, d, Tables());
      hide Commit;
      assert map[] + secrets == secrets by { Mint(secrets, 0, 0); }
      assert cache - {} == cache;
      assert d.answer.Accepted? ==> d.answer.id == id.value;
      if id.None? { return Rejected(Conflict); }
      if id.value in rows { InvalidateForStart(rows[id.value].person, s); }
      MintSecret(id.value, secret);
      answer := Accepted(id.value);
    }

    // ---- sendVerification ----

    method SendVerification(now: int, id: RowId, key: string) returns (answer: Answer)
      modifies `rows, `used
      ensures var ev := At(now, Op.SendVerification(id, key));
        && answer == AnswerTo(cfg, old(Tables()), ev)
        && Whole() == CachedStep(cfg, old(Whole()), ev)
    {
      VerifyStep(cfg, Whole(), now, id, key);
      Unmoved(Whole(), now);
      ghost var sys := Whole();
      hide CachedStep, AnswerTo, IndexOk, Blocked, Stains, Unexpired, TokenFits, Live, After, Commit;
      if key == "" { return Rejected(BadRequest); }
      if id !in rows || id !in holds { return Rejected(NotFound); }
      if !rows[id].status.Waiting() { return Rejected(Conflict); }
      if holds[id] <= now {
        Replied(sys, now, Expire(id), Rejected(Conflict), {}, {});
        rows := rows[id := rows[id].(status := Expired)];
        return Rejected(Conflict);
      }
      var jti := if rows[id].jti.Some? then rows[id].jti.value else id;
      var token := Token(true, Verify, true, id, jti, holds[id] / 1000);
      if (ForVerify, key) !in used {
        Replied(sys, now, MarkVerify(id), Sent(token), {(ForVerify, key)}, {});
        rows := rows[id := rows[id].(jti := Some(jti), status := PendingVerify)];
        used := used + {(ForVerify, key)};
      }
      answer := Sent(token);
    }

    // ---- confirmBooking ----

    /** Confirms the booking: its token, its secret and its hold are gone. */
    method Confirm(now: int, id: RowId)
      requires id in rows
      modifies `rows, `secrets, `holds
      ensures Tables() == Apply(old(Tables()), now, Seal(id))
    {
      rows := rows[id := rows[id].(status := Confirmed, jti := None)];
      secrets := secrets - {id};
      holds := holds - {id};
    }

    /** The transaction reads the booking again and repeats every test. */
    method ConfirmInTx(now: int, t: Token, key: string) returns (answer: Answer)
      modifies `rows, `secrets, `holds, `used
      ensures answer == ConfirmTx(old(Tables()), now, t, key).answer
      ensures Whole() == After(old(Whole()), now, ConfirmTx(old(Tables()), now, t, key), {})
    {
      Unmoved(Whole(), now);
      ghost var sys := Whole();
      hide Blocked, After, Commit;
      var id := t.booking;
      if id !in rows { return Rejected(NotFound); }
      if rows[id].status.Confirmed? {
        Replied(sys, now, Nothing, Accepted(id), {(ForConfirm, key)}, {});
        used := used + {(ForConfirm, key)};
        return Accepted(id);
      }
      if !rows[id].status.PendingVerify? { return Rejected(Conflict); }
      if rows[id].jti != Some(t.jti) { return Rejected(Forbidden); }
      if id !in holds || holds[id] <= now { return Rejected(Conflict); }
      if Blocked(Tables(), {id}, rows[id].person, rows[id].start, rows[id].end, now) { return Rejected(Conflict); }
      Replied(sys, now, Seal(id), Accepted(id), {(ForConfirm, key)}, {});
      Confirm(now, id);
      used := used + {(ForConfirm, key)};
      answer := Accepted(id);
    }

    method ConfirmBooking(now: int, t: Token, key: string) returns (answer: Answer)
      modifies `rows, `secrets, `holds, `used
      ensures var ev := At(now, Op.ConfirmBooking(t, key));
        && answer == AnswerTo(cfg, old(Tables()), ev)
        && Whole() == CachedStep(cfg, old(Whole()), ev)
    {
      ConfirmStep(cfg, Whole(), now, t, key);
      Unmoved(Whole(), now);
      ghost var sys := Whole();
      hide CachedStep, AnswerTo, IndexOk, Blocked, Stains, Unexpired, TokenFits, Live, After, Commit;
      if key == "" { return Rejected(BadRequest); }
      if !Unexpired(t, now) { return Rejected(Unauthorized); }
      if t.purpose != Verify || !t.ours { return Rejected(Forbidden); }
      var id := t.booking;
      if (ForConfirm, key) in used {
        return if id in rows then Accepted(id) else Rejected(NotFound);
      }
      if id !in rows { return Rejected(NotFound); }
      if rows[id].status.Confirmed? {
        Replied(sys, now, Nothing, Accepted(id), {(ForConfirm, key)}, {});
        used := used + {(ForConfirm, key)};
        return Accepted(id);
      }
      if rows[id].jti != Some(t.jti) { return Rejected(Forbidden); }
      if !rows[id].status.PendingVerify? { return Rejected(Conflict); }
      if id !in holds || holds[id] <= now {
        Replied(sys, now, Expire(id), Rejected(Conflict), {}, {});
        rows := rows[id := rows[id].(status := Expired)];
        return Rejected(Conflict);
      }
      if Blocked(Tables(), {id}, rows[id].person, rows[id].start, rows[id].end, now) { return Rejected(Conflict); }
      answer := ConfirmInTx(now, t, key);
    }

    // ---- confirmBookingById ----

    method ConfirmBookingById(now: int, id: RowId, given: int, key: string) returns (answer: Answer)
      modifies `rows, `secrets, `holds, `used
      ensures var ev := At(now, Op.ConfirmBookingById(id, given, key));
        && answer == AnswerTo(cfg, old(Tables()), ev)
        && Whole() == CachedStep(cfg, old(Whole()), ev)
    {
      ConfirmByIdStep(cfg, Whole(), now, id, given, key);
      Unmoved(Whole(), now);
      ghost var sys := Whole();
      hide CachedStep, AnswerTo, IndexOk, Blocked, Stains, Unexpired, TokenFits, Live, After, Commit;
      if key == "" { return Rejected(BadRequest); }
      if (ForConfirmById, key) in used {
        return if id in rows then Accepted(id) else Rejected(NotFound);
      }
      if id !in rows { return Rejected(NotFound); }
      if !rows[id].status.Hold? { return Rejected(Conflict); }
      if id !in secrets || secrets[id] != given { return Rejected(BadRequest); }
      if rows[id].created + BY_ID_WINDOW <= now { return Rejected(BadRequest); }
      Replied(sys, now, Seal(id), Accepted(id), {(ForConfirmById, key)}, {});
      Confirm(now, id);
      used := used + {(ForConfirmById, key)};
      answer := Accepted(id);
    }

    // ---- cancelBooking ----

    method CancelBooking(now: int, id: RowId, t: Token, key: string) returns (answer: Answer)
      modifies `rows, `holds, `used, `cache
      ensures var ev := At(now, Op.CancelBooking(id, t, key));
        && answer == AnswerTo(cfg, old(Tables()), ev)
        && Whole() == CachedStep(cfg, old(Whole()), ev)
    {
      CancelStep(cfg, Whole(), now, id, t, key);
      Unmoved(Whole(), now);
      ghost var sys := Whole();
      hide CachedStep, AnswerTo, IndexOk, Blocked, Stains, Unexpired, TokenFits, Live, After, Commit;
      if key == "" { return Rejected(BadRequest); }
      if id !in rows { return Rejected(NotFound); }
      var row := rows[id];
      if row.status.Canceled? || (ForCancel, key) in used {
        Replied(sys, now, Unhold(id), Accepted(id), {}, Stains(cfg, row.person, row.start));
        holds := holds - {id};
        InvalidateForStart(row.person, row.start);
        return Accepted(id);
      }
      if !Unexpired(t, now) { return Rejected(Unauthorized); }
      if !TokenFits(t, CancelIt, id) { return Rejected(Forbidden); }
      if !row.status.Confirmed? { return Rejected(Conflict); }
      if now > row.start - CHANGE_DEADLINE { return Rejected(Conflict); }
      Replied(sys, now, Void(id), Accepted(id), {(ForCancel, key)}, Stains(cfg, row.person, row.start));
      rows := rows[id := row.(status := Canceled)];
      holds := holds - {id};
      used := used + {(ForCancel, key)};
      InvalidateForStart(row.person, row.start);
      answer := Accepted(id);
    }

    // ---- rescheduleBooking ----

    /** The transaction: one look at the new interval, then the write, which the slot index may abort. */
    method MoveTx(now: int, id: RowId, s: int, e: int, pick: Pick) returns (refused: Option<Error>)
      requires id in rows
      modifies `rows
      ensures var db := old(Tables());
        refused == if !TargetClear(db, id, s, e, now, pick) then Some(Conflict)
                   else if !IndexOk(Apply(db, now, Move(id, s, e)).rows) then Some(Internal) else None
      ensures Tables() == if refused.Some? then old(Tables()) else Apply(old(Tables()), now, Move(id, s, e))
    {
      hide IndexOk, Live, ActiveOverlaps;
      var row := rows[id];
      var other := FindFirst(pick, ActiveOverlaps(rows, id, row.person, s, e));
      if other.Some? && Live(Tables(), other.value, now) { return Some(Conflict); }
      rows := rows[id := row.(start := s, end := e)];
      if !IndexOk(rows) {
        rows := rows[id := row];
        assert rows == old(rows);
        return Some(Internal);
      }
      refused := None;
    }

    method RescheduleBooking(now: int, id: RowId, t: Token, s: int, e: int, key: string, pick: Pick) returns (answer: Answer)
      modifies `rows, `used, `cache
      ensures var ev := At(now, Op.Reschedule(id, t, s, e, key, pick));
        && answer == AnswerTo(cfg, old(Tables()), ev)
        && Whole() == CachedStep(cfg, old(Whole()), ev)
    {
      RescheduleStep(cfg, Whole(), now, id, t, s, e, key, pick);
      Unmoved(Whole(), now);
      ghost var sys := Whole();
      hide CachedStep, AnswerTo, IndexOk, TargetClear, Stains, Unexpired, TokenFits, After, Commit;
      if key == "" { return Rejected(BadRequest); }
      if !Unexpired(t, now) { return Rejected(Unauthorized); }
      if !TokenFits(t, RescheduleIt, id) { return Rejected(Forbidden); }
      if id !in rows { return Rejected(NotFound); }
      if e <= s { return Rejected(BadRequest); }
      if (ForReschedule, key) in used { return Accepted(id); }
      var row := rows[id];
      if !row.status.Confirmed? { return Rejected(Conflict); }
      if now > row.start - CHANGE_DEADLINE { return Rejected(Conflict); }
      if row.start == s && row.end == e {
        Replied(sys, now, Nothing, Accepted(id), {(ForReschedule, key)}, {});
        used := used + {(ForReschedule, key)};
        return Accepted(id);
      }
      var refused := MoveTx(now, id, s, e, pick);
      if refused.Some? { return Rejected(refused.value); }
      Replied(sys, now, Move(id, s, e), Accepted(id), {(ForReschedule, key)},
              Stains(cfg, row.person, row.start) + Stains(cfg, row.person, s));
      used := used + {(ForReschedule, key)};
      InvalidateForStart(row.person, row.start);
      InvalidateForStart(row.person, s);
      answer := Accepted(id);
    }

    // ---- expireHolds ----

    method ExpireHolds(now: int)
      modifies `rows, `holds, `cache
      ensures Whole() == CachedStep(cfg, old(Whole()), At(now, Op.ExpireHolds))
    {
      SweepStep(cfg, Whole(), now);
      Unmoved(Whole(), now);
      ghost var sys := Whole();
      SweepByIds(Tables(), now);
      hide CachedStep, After, Commit, Apply, Stale;
      var ids := StaleIds(Tables(), now);
      Replied(sys, now, Sweep, Swept, {}, if ids == {} then {} else cache.Keys);
      if ids == {} { return; }
      rows := map id | id in rows :: if id in ids && rows[id].status.Waiting() then rows[id].(status := Expired) else rows[id];
      holds := holds - ids;
      cache := map[];
    }

    // ---- getAvailability ----

    /** The slot loop of buildAvailabilityContext. */
    method BuildSlots(day: Day, midnight: int, cutoff: int) returns (slots: seq<Slot>)
      ensures slots == SlotsFrom(cfg.hours, day, midnight, day.open, cutoff)
    {
      slots := [];
      var at := day.open;
      while at + cfg.hours.slot <= day.close
        invariant slots + SlotsFrom(cfg.hours, day, midnight, at, cutoff)
               == SlotsFrom(cfg.hours, day, midnight, day.open, cutoff)
        decreases day.close - at
      {
        var s := SlotAt(midnight, at, cfg.hours.slot);
        if !InBreak(day, at, at + cfg.hours.slot) && s.start >= cutoff {
          slots := slots + [s];
        }
        at := at + cfg.hours.slot;
      }
    }

    predicate SlotOverlapsBusy(s: Slot, busy: set<(int, int)>) {
      exists b :: b in busy && Collides(s, b.0, b.1, cfg.hours.buffer)
    }

    /** The occupied intervals of one salesperson inside the opening window. */
    function BusyOf(p: Person, lo: int, hi: int, now: int): set<(int, int)>
      reads this
    {
      set id | id in rows && rows[id].Overlaps(p, lo, hi) && Live(Tables(), id, now) :: (rows[id].start, rows[id].end)
    }

    /** The slot filter: somebody asked for has no busy interval in the way. */
    method FilterFree(who: seq<Person>, slots: seq<Slot>, lo: int, hi: int, now: int) returns (kept: seq<Slot>)
      ensures kept == KeepFree(Tables(), cfg.hours, who, slots, lo, hi, now)
    {
      kept := [];
      assert slots[0..] == slots;
      for i := 0 to |slots|
        invariant kept + KeepFree(Tables(), cfg.hours, who, slots[i..], lo, hi, now)
               == KeepFree(Tables(), cfg.hours, who, slots, lo, hi, now)
      {
        var some := AnyFree(who, slots[i], lo, hi, now);
        assert slots[i..][0] == slots[i] && slots[i..][1..] == slots[i + 1..];
        if some { kept := kept + [slots[i]]; }
      }
    }

    method AnyFree(who: seq<Person>, s: Slot, lo: int, hi: int, now: int) returns (some: bool)
      ensures some == SomeFree(Tables(), cfg.hours, who, s, lo, hi, now)
    {
      for i := 0 to |who|
        invariant forall k :: 0 <= k < i ==> !FreeFor(Tables(), cfg.hours, who[k], s, lo, hi, now)
      {
        var busy := BusyOf(who[i], lo, hi, now);
        BusyBlocks(who[i], s, lo, hi, now);
        if !SlotOverlapsBusy(s, busy) { return true; }
      }
      some := false;
    }

    lemma BusyBlocks(p: Person, s: Slot, lo: int, hi: int, now: int)
      ensures SlotOverlapsBusy(s, BusyOf(p, lo, hi, now)) <==> !FreeFor(Tables(), cfg.hours, p, s, lo, hi, now)
    {
      hide Collides, Live;
      if !FreeFor(Tables(), cfg.hours, p, s, lo, hi, now) {
        var id :| id in rows && rows[id].Overlaps(p, lo, hi) && Live(Tables(), id, now)
                  && Collides(s, rows[id].start, rows[id].end, cfg.hours.buffer);
        assert (rows[id].start, rows[id].end) in BusyOf(p, lo, hi, now);
      }
    }

    /** Served from the cache while the entry lasts, computed and stored otherwise. */
    method GetAvailability(now: int, who: Option<Person>, date: int) returns (answer: Answer)
      modifies `cache
      ensures answer == if who.Some? && who.value !in cfg.staff then Rejected(NotFound)
                        else Offered(Serve(cfg, old(Whole()), who, date, now).0)
      ensures cache == Serve(cfg, old(Whole()), who, date, now).1
    {
      var targets := Targets(cfg, who);
      if targets == [] {
        return if who.Some? && who.value !in cfg.staff then Rejected(NotFound) else Offered([]);
      }
      var zone := ZoneFor(cfg, who);
      var opening := OpenDay(cfg.hours, date, zone, now);
      if opening.None? { return Offered([]); }
      var day, midnight := opening.value, Midnight(date, zone);
      var slots := BuildSlots(day, midnight, now + Minutes(cfg.hours.lead));
      if (who, date) in cache && cache[(who, date)].expiresAt > now {
        return Offered(cache[(who, date)].slots);
      }
      var free := FilterFree(targets, slots, midnight + Minutes(day.open), midnight + Minutes(day.close), now);
      cache := cache[(who, date) := Entry(now + CACHE_TTL, free)];
      answer := Offered(free);
    }
  }
}
