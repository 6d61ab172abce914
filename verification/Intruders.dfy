/** Off one grid: which calls can let a booking in over a live one, and exactly when reschedule does. */
module Intruders {
  import opened Store
  import opened Availability
  import opened Lifecycle
  import opened Invariants
  import opened Coherence
  import opened DoubleBooking
  import opened ConfirmById

  // ---- rescheduling ----

  /** An active row that no longer holds its interval. */
  predicate StaleOver(db: Db, id: RowId, s: int, e: int, now: int)
    requires id in db.rows
  {
    exists o :: o in ActiveOverlaps(db.rows, id, db.rows[id].person, s, e) && !Live(db, o, now)
  }

  /** The pick that prefers `o` among `matches`. */
  ghost function Prefer(matches: set<RowId>, o: RowId): Pick
    requires o in matches
  {
    (m: set<RowId>) => if m == matches then o else AnyOf(m)
  }

  lemma LiveIsActive(db: Db, id: RowId, s: int, e: int, now: int)
    requires id in db.rows && Over(db, now, id, s, e)
    ensures exists o :: o in ActiveOverlaps(db.rows, id, db.rows[id].person, s, e) && Live(db, o, now)
  {
    var o :| o in db.rows && o != id && db.rows[o].Overlaps(db.rows[id].person, s, e) && Live(db, o, now);
    assert o in ActiveOverlaps(db.rows, id, db.rows[id].person, s, e);
  }

  /**
   The transaction looks at one row over the new interval. It sees a live row whatever
   findFirst returns if and only if no stale row stands over the interval beside it.
   */
  lemma OneLookSufficesIff(db: Db, id: RowId, s: int, e: int, now: int)
    requires id in db.rows
    ensures (forall pick: Pick :: TargetClear(db, id, s, e, now, pick) ==> !Over(db, now, id, s, e))
            <==> !(Over(db, now, id, s, e) && StaleOver(db, id, s, e, now))
  {
    var matches := ActiveOverlaps(db.rows, id, db.rows[id].person, s, e);
    if Over(db, now, id, s, e) {
      LiveIsActive(db, id, s, e, now);
      if StaleOver(db, id, s, e, now) {
        var o :| o in matches && !Live(db, o, now);
        assert TargetClear(db, id, s, e, now, Prefer(matches, o));
      } else {
        forall pick: Pick ensures !TargetClear(db, id, s, e, now, pick) {
          assert Live(db, FindFirst(pick, matches).value, now);
        }
      }
    }
  }

  // ---- which calls intrude ----

  lemma TokenNeverIntrudes(db: Db, id: RowId, now: int)
    requires SealedByToken(db, id, now)
    ensures !Intrudes(db, now, Seal(id))
  {
  }

  /** A booking that still holds its interval is already apart from the others. */
  lemma LiveSealNeverIntrudes(db: Db, id: RowId, now: int)
    requires Apart(db, now) && Live(db, id, now)
    ensures !Intrudes(db, now, Seal(id))
  {
  }

  /**
   With holds of at least 15 minutes and over any run, there are three ways to let a booking in over a
   live one: revive a dead row, reschedule past a stale one, or confirm by id a booking
   whose hold row a replayed cancel key has deleted.
   */
  lemma IntrudersNamed(cfg: Config, cursor: int, start: int, run: seq<Event>, ev: Event)
    requires Timeline(start, run) && EndTime(start, run) <= ev.time
    requires cfg.ttl >= BY_ID_WINDOW && Apart(Exec(cfg, Fresh(cursor), run), ev.time)
    requires var db := Exec(cfg, Fresh(cursor), run);
             Intrudes(db, ev.time, Decide(cfg, db, ev.time, ev.op).effect)
    ensures var db := Exec(cfg, Fresh(cursor), run);
            var e := Decide(cfg, db, ev.time, ev.op).effect;
            || (ev.op.CreateHold? && e.Revive? && !Live(db, e.id, ev.time))
            || (ev.op.Reschedule? && e.Move? && e.id in db.rows && StaleOver(db, e.id, e.start, e.end, ev.time))
            || (ev.op.ConfirmBookingById? && e.Seal? && e.id !in db.holds)
    ensures Disciplined(cfg, Fresh(cursor), run) ==> !ev.op.ConfirmBookingById?
  {
    var db := Exec(cfg, Fresh(cursor), run);
    var e := Decide(cfg, db, ev.time, ev.op).effect;
    RunKeepsGood(cfg, Fresh(cursor), start, run);
    if Disciplined(cfg, Fresh(cursor), run) { RunIsSound(cfg, Fresh(cursor), start, run); }
    EffectFitsCall(cfg, db, ev.time, ev.op);
    DecisionIsLawful(cfg, db, ev.time, ev.op);
    hide Exec, Disciplined;
    if e.Seal? {
      if SealedByToken(db, e.id, ev.time) {
        TokenNeverIntrudes(db, e.id, ev.time);
      } else {
        YoungIsLiveIff(cfg, db, EndTime(start, run), ev.time, e.id);
        if e.id in db.holds { LiveSealNeverIntrudes(db, e.id, ev.time); }
        if Coherent(db) { assert RowCoherent(db, e.id); }
      }
    } else if e.Move? {
      MoveLooked(cfg, db, ev.time, ev.op);
      OneLookSufficesIff(db, e.id, e.start, e.end, ev.time);
    }
  }

  lemma MoveLooked(cfg: Config, db: Db, now: int, op: Op)
    requires Decide(cfg, db, now, op).effect.Move?
    ensures var e := Decide(cfg, db, now, op).effect;
      op.Reschedule? && e.id in db.rows && TargetClear(db, e.id, e.start, e.end, now, op.pick)
  {
    EffectFitsCall(cfg, db, now, op);
  }
}
