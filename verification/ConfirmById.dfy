/** Confirming by id looks at the age of the booking instead of its hold. */
module ConfirmById {
  import opened Prelude
  import opened Store
  import opened Availability
  import opened Lifecycle
  import opened Invariants
  import opened Coherence
  import opened Counterexamples

  /** One reachable state and one call: a booking confirmed by id still has an unexpired hold. */
  ghost predicate SealsLive(cfg: Config, cursor: int, start: int, run: seq<Event>, ev: Event) {
    var db := Exec(cfg, Fresh(cursor), run);
    var e := Decide(cfg, db, ev.time, ev.op).effect;
    (Timeline(start, run) && Disciplined(cfg, Fresh(cursor), run) && EndTime(start, run) <= ev.time
     && ev.op.ConfirmBookingById? && e.Seal?)
    ==> e.id in db.holds && db.holds[e.id] > ev.time
  }

  lemma LongHoldsSealLive(cfg: Config, cursor: int, start: int, run: seq<Event>, ev: Event)
    requires cfg.ttl >= BY_ID_WINDOW
    ensures SealsLive(cfg, cursor, start, run, ev)
  {
    if Timeline(start, run) && Disciplined(cfg, Fresh(cursor), run) && ev.op.ConfirmBookingById? {
      RunIsSound(cfg, Fresh(cursor), start, run);
      hide Exec, Disciplined, IndexOk;
      YoungHoldIsLive(cfg, Exec(cfg, Fresh(cursor), run), EndTime(start, run), ev.time, ev.op.id);
    }
  }

  /** A hold row is at least as old as its booking plus the time to live. */
  lemma YoungHoldIsLive(cfg: Config, db: Db, end: int, now: int, id: RowId)
    requires Sane(cfg, db, end) && Coherent(db) && cfg.ttl >= BY_ID_WINDOW
    ensures SealedById(db, id, now) ==> id in db.holds && db.holds[id] > now
  {
    if id in db.rows { assert RowCoherent(db, id); }
  }

  /** A hold shorter than the window is confirmed at the instant it runs out. */
  lemma ShortHoldSealsLate(cfg: Config, p: Person, hold: Event, byId: Event)
    requires p in cfg.staff && cfg.ttl < BY_ID_WINDOW
    requires hold == At(0, HoldOp(p, 0, HOUR, "a", AnyOf)) && byId == At(cfg.ttl, ConfirmBookingById(0, 1, "b"))
    ensures !SealsLive(cfg, 0, 0, [hold], byId)
  {
    var db := Step(cfg, Fresh(0), hold);
    assert Decide(cfg, db, byId.time, byId.op).effect == Seal(0) && db.holds[0] == cfg.ttl by {
      FirstHold(cfg, 0, p, 0, HOUR, "a", AnyOf);
      hide Step;
    }
    assert !Orphans(Fresh(0), hold.op);
    hide Step, Decide, HoldOp, Fresh, Orphans;
    assert [hold][1..] == [];
    assert Exec(cfg, Fresh(0), [hold]) == Exec(cfg, db, []) == db;
    assert Disciplined(cfg, db, []) && Disciplined(cfg, Fresh(0), [hold]);
    assert Timeline(0, [hold]);
    assert [hold][|[hold]| - 1] == hold && EndTime(0, [hold]) == hold.time;
  }

  /** Confirming by id is limited to unexpired holds exactly when holds last at least 15 minutes. */
  lemma ByIdSafeIff(cfg: Config)
    requires cfg.staff != []
    ensures (forall cursor, start, run, ev :: SealsLive(cfg, cursor, start, run, ev)) <==> cfg.ttl >= BY_ID_WINDOW
  {
    if cfg.ttl >= BY_ID_WINDOW {
      forall cursor, start, run, ev
        ensures SealsLive(cfg, cursor, start, run, ev)
      {
        LongHoldsSealLive(cfg, cursor, start, run, ev);
      }
    } else {
      var hold := At(0, HoldOp(cfg.staff[0], 0, HOUR, "a", AnyOf));
      ShortHoldSealsLate(cfg, cfg.staff[0], hold, At(cfg.ttl, ConfirmBookingById(0, 1, "b")));
    }
  }

  // ---- over all runs, replayed cancel keys included ----

  /** A booking young enough to be confirmed by id holds its interval exactly while it has a hold row. */
  lemma YoungIsLiveIff(cfg: Config, db: Db, end: int, now: int, id: RowId)
    requires Good(cfg, db, end) && cfg.ttl >= BY_ID_WINDOW && SealedById(db, id, now)
    ensures Live(db, id, now) <==> id in db.holds
  {
    hide IndexOk;
  }

  /** One reachable state of any run and one call: the hold of a booking confirmed by id is unexpired, or it is gone. */
  ghost predicate SealsHeld(cfg: Config, cursor: int, start: int, run: seq<Event>, ev: Event) {
    var db := Exec(cfg, Fresh(cursor), run);
    var e := Decide(cfg, db, ev.time, ev.op).effect;
    (Timeline(start, run) && EndTime(start, run) <= ev.time && ev.op.ConfirmBookingById? && e.Seal?)
    ==> (Live(db, e.id, ev.time) <==> e.id in db.holds)
  }

  lemma LongHoldsSealHeld(cfg: Config, cursor: int, start: int, run: seq<Event>, ev: Event)
    requires cfg.ttl >= BY_ID_WINDOW
    ensures SealsHeld(cfg, cursor, start, run, ev)
  {
    var db := Exec(cfg, Fresh(cursor), run);
    EffectFitsCall(cfg, db, ev.time, ev.op);
    if Timeline(start, run) && ev.op.ConfirmBookingById? && Decide(cfg, db, ev.time, ev.op).effect.Seal? {
      RunKeepsGood(cfg, Fresh(cursor), start, run);
      YoungIsLiveIff(cfg, db, EndTime(start, run), ev.time, Decide(cfg, db, ev.time, ev.op).effect.id);
    }
    hide Exec, Decide;
  }

  /**
   Over all runs: confirming by id lets no expired hold through exactly when holds last at least
   15 minutes; what it can still confirm is a booking whose hold row a replayed cancel key deleted.
   */
  lemma ByIdHeldIff(cfg: Config)
    requires cfg.staff != []
    ensures (forall cursor, start, run, ev :: SealsHeld(cfg, cursor, start, run, ev)) <==> cfg.ttl >= BY_ID_WINDOW
  {
    if cfg.ttl >= BY_ID_WINDOW {
      forall cursor, start, run, ev
        ensures SealsHeld(cfg, cursor, start, run, ev)
      {
        LongHoldsSealHeld(cfg, cursor, start, run, ev);
      }
    } else {
      var hold := At(0, HoldOp(cfg.staff[0], 0, HOUR, "a", AnyOf));
      var byId := At(cfg.ttl, ConfirmBookingById(0, 1, "b"));
      ShortHoldIsThere(cfg, cfg.staff[0], hold, byId);
    }
  }

  lemma ShortHoldIsThere(cfg: Config, p: Person, hold: Event, byId: Event)
    requires p in cfg.staff && cfg.ttl < BY_ID_WINDOW
    requires hold == At(0, HoldOp(p, 0, HOUR, "a", AnyOf)) && byId == At(cfg.ttl, ConfirmBookingById(0, 1, "b"))
    ensures !SealsHeld(cfg, 0, 0, [hold], byId)
  {
    var db := Step(cfg, Fresh(0), hold);
    assert Decide(cfg, db, byId.time, byId.op).effect == Seal(0) && 0 in db.holds && !Live(db, 0, cfg.ttl) by {
      FirstHold(cfg, 0, p, 0, HOUR, "a", AnyOf);
      hide Step;
    }
    hide Step, Decide, HoldOp, Fresh;
    assert [hold][1..] == [];
    assert Exec(cfg, Fresh(0), [hold]) == Exec(cfg, db, []) == db;
    assert Timeline(0, [hold]);
    assert [hold][|[hold]| - 1] == hold && EndTime(0, [hold]) == hold.time;
  }
}
