/** What a replayed cancel key does to confirmations by id and to the cache, however long holds last. */
module ReplayedCancel {
  import opened Prelude
  import opened Store
  import opened Availability
  import opened Lifecycle
  import opened DoubleBooking
  import opened CachedView
  import opened CacheLaw
  import opened Counterexamples
  import opened RevivedConfirms
  import opened TilingLaw
  import opened StaleCache
  import IndexHandler

  // ---- the tables ----

  /** A booking of x is confirmed and canceled; a hold of y loses its row to the replay of that cancel key. */
  function ReplayRun(p: Person, pick: Pick, x: (int, int), y: (int, int), t: int): seq<Event> {
    ClashRun(p, pick, x, y, t)[..4] + [At(t, CancelBooking(1, CancelToken(t), "k"))]
  }

  function Orphaned(cfg: Config, p: Person, x: (int, int), y: (int, int), t: int): Db {
    After(cfg, p, x, y, t, 4).(holds := map[])
  }

  lemma FirstFour(cfg: Config, p: Person, pick: Pick, x: (int, int), y: (int, int), t: int)
    requires p in cfg.staff && x != y && x.0 < x.1 && y.0 < y.1 && t <= LastCall(x)
    ensures Exec(cfg, Fresh(0), ClashRun(p, pick, x, y, t)[..4]) == After(cfg, p, x, y, t, 4)
  {
    hide Step, After;
    var run := ClashRun(p, pick, x, y, t)[..4];
    var s1 := Step(cfg, Fresh(0), run[0]);
    var s2 := Step(cfg, s1, run[1]);
    ConfirmedAndCanceled(cfg, p, pick, x, y, t);
    Overlaid(cfg, p, pick, x, y, t);
    ExecNext(cfg, Fresh(0), run, s1, run[1..]);
    ExecNext(cfg, s1, run[1..], s2, run[2..]);
    ExecNext(cfg, s2, run[2..], After(cfg, p, x, y, t, 3), run[3..]);
    ExecNext(cfg, After(cfg, p, x, y, t, 3), run[3..], After(cfg, p, x, y, t, 4), []);
  }

  lemma ReplayUnholds(cfg: Config, db: Db, now: int, id: RowId, t: Token, key: string)
    requires key != "" && (ForCancel, key) in db.used && id in db.rows
    ensures Step(cfg, db, At(now, CancelBooking(id, t, key))) == db.(holds := db.holds - {id})
  {
    assert db.used + {} == db.used && map[] + db.secrets == db.secrets;
  }

  lemma ReplayOrphans(cfg: Config, p: Person, pick: Pick, x: (int, int), y: (int, int), t: int)
    requires p in cfg.staff && x != y && x.0 < x.1 && y.0 < y.1 && t <= LastCall(x)
    ensures Exec(cfg, Fresh(0), ReplayRun(p, pick, x, y, t)) == Orphaned(cfg, p, x, y, t)
  {
    var replay := At(t, CancelBooking(1, CancelToken(t), "k"));
    ReplayUnholds(cfg, After(cfg, p, x, y, t, 4), t, 1, CancelToken(t), "k");
    assert Step(cfg, After(cfg, p, x, y, t, 4), replay) == Orphaned(cfg, p, x, y, t) by { hide Step; }
    hide Step, After, Orphaned, ClashRun;
    FirstFour(cfg, p, pick, x, y, t);
    IndexHandler.ExecOver(cfg, Fresh(0), ClashRun(p, pick, x, y, t)[..4], [replay]);
    ExecNext(cfg, After(cfg, p, x, y, t, 4), [replay], Orphaned(cfg, p, x, y, t), []);
  }

  /** For any time to live: after a replayed cancel key, a booking without a hold row is confirmed by id. */
  lemma ByIdConfirmsWithoutHold(cfg: Config, p: Person, pick: Pick, x: (int, int), y: (int, int), t: int)
    requires p in cfg.staff && x != y && x.0 < x.1 && y.0 < y.1 && t <= LastCall(x)
    ensures var db := Exec(cfg, Fresh(0), ReplayRun(p, pick, x, y, t));
      1 in db.rows && 1 !in db.holds && Decide(cfg, db, t, ConfirmBookingById(1, 1, "l")).effect == Seal(1)
  {
    ReplayOrphans(cfg, p, pick, x, y, t);
    hide Exec, ReplayRun;
  }

  // ---- the cache ----

  lemma {:induction false} NoQueryNoCache(cfg: Config, db: Db, run: seq<Event>)
    requires forall i :: 0 <= i < |run| ==> !run[i].op.Query?
    ensures CachedExec(cfg, Sys(db, map[]), run) == Sys(Exec(cfg, db, run), map[])
    decreases |run|
  {
    hide Step, Dropped;
    if run != [] {
      var dropped := Dropped(cfg, Sys(db, map[]), run[0]);
      var none: map<Key, Entry> := map[];
      assert none - dropped == none;
      NoQueryNoCache(cfg, Step(cfg, db, run[0]), run[1..]);
    }
  }

  lemma {:induction false} CachedExecOver(cfg: Config, sys: Sys, first: seq<Event>, second: seq<Event>)
    ensures CachedExec(cfg, sys, first + second) == CachedExec(cfg, CachedExec(cfg, sys, first), second)
    decreases |first|
  {
    hide CachedStep;
    if first == [] {
      assert first + second == second;
    } else {
      assert (first + second)[1..] == first[1..] + second;
      CachedExecOver(cfg, CachedStep(cfg, sys, first[0]), first[1..], second);
    }
  }

  lemma TwoCachedSteps(cfg: Config, sys: Sys, a: Event, b: Event)
    ensures CachedExec(cfg, sys, [a, b]) == CachedStep(cfg, CachedStep(cfg, sys, a), b)
  {
    hide CachedStep;
    var s1 := CachedStep(cfg, sys, a);
    assert [a, b][1..] == [b] && CachedExec(cfg, sys, [a, b]) == CachedExec(cfg, s1, [b]);
    assert [b][1..] == [] && CachedExec(cfg, s1, [b]) == CachedExec(cfg, CachedStep(cfg, s1, b), []);
  }

  lemma OrphanIsOffered(cfg: Config, p: Person, date: int, x: (int, int), s: Slot, t: int)
    requires p in cfg.staff && s in DaySlots(cfg, Some(p), date, t)
    ensures var db := Orphaned(cfg, p, x, (s.start, s.end), t);
            var sys := CachedStep(cfg, Sys(db, map[]), At(t, Query(Some(p), date)));
      && sys.db == db && (Some(p), date) in sys.cache
      && sys.cache[(Some(p), date)].expiresAt == t + CACHE_TTL && s in sys.cache[(Some(p), date)].slots
  {
    var db := Orphaned(cfg, p, x, (s.start, s.end), t);
    FreshIff(cfg, db, p, date, t, s);
    assert Targets(cfg, Some(p)) == [p];
    assert !Live(db, 0, t) && !Live(db, 1, t);
    hide FreshSlots, DaySlots, Step, Collides;
  }

  lemma OrphanIsConfirmed(cfg: Config, p: Person, x: (int, int), y: (int, int), t: int, cache: map<Key, Entry>)
    ensures CachedStep(cfg, Sys(Orphaned(cfg, p, x, y, t), cache), At(t, ConfirmBookingById(1, 1, "l")))
         == Sys(After(cfg, p, x, y, t, 5), cache)
  {
    ByIdSeals(cfg, Orphaned(cfg, p, x, y, t), t, 1, 1, "l");
    hide Step, Decide;
    assert cache - {} == cache;
  }

  lemma ConfirmedIsNotFresh(cfg: Config, p: Person, date: int, x: (int, int), s: Slot, t: int)
    requires p in cfg.staff && s in DaySlots(cfg, Some(p), date, t) && cfg.hours.buffer >= 0
    ensures s !in FreshSlots(cfg, After(cfg, p, x, (s.start, s.end), t, 5), Some(p), date, t)
  {
    SlotOfDay(cfg, p, date, t, s);
    FreshIff(cfg, After(cfg, p, x, (s.start, s.end), t, 5), p, date, t, s);
    hide FreshSlots, DaySlots, OpenDay;
    var db := After(cfg, p, x, (s.start, s.end), t, 5);
    assert Live(db, 1, t) && Collides(s, s.start, s.end, cfg.hours.buffer);
  }

  ghost function ServedRun(p: Person, date: int, x: (int, int), s: Slot, t: int): seq<Event> {
    ReplayRun(p, AnyOf, x, (s.start, s.end), t) + [At(t, Query(Some(p), date)), At(t, ConfirmBookingById(1, 1, "l"))]
  }

  lemma ServedRunAsks(cfg: Config, p: Person, date: int, x: (int, int), s: Slot, t: int)
    requires p in cfg.staff && OneZone(cfg) && OneDay(x.0, x.1, cfg.tenantZone) && OneDay(s.start, s.end, Zone(cfg, p))
    ensures var run := ServedRun(p, date, x, s, t);
      Timeline(t, run) && EndTime(t, run) == t && AllAsk(OneDays(cfg.tenantZone), run)
  {
    SameTime(t, ServedRun(p, date, x, s, t));
    assert Zone(cfg, p) == cfg.tenantZone;
    assert x in OneDays(cfg.tenantZone) && (s.start, s.end) in OneDays(cfg.tenantZone);
  }

  lemma ServedRunEnds(cfg: Config, p: Person, date: int, x: (int, int), s: Slot, t: int)
    requires p in cfg.staff && s in DaySlots(cfg, Some(p), date, t) && s.start < s.end
    requires x != (s.start, s.end) && x.0 < x.1 && t <= LastCall(x)
    ensures var sys := CachedExec(cfg, Sys(Fresh(0), map[]), ServedRun(p, date, x, s, t));
      && sys.db == After(cfg, p, x, (s.start, s.end), t, 5) && (Some(p), date) in sys.cache
      && sys.cache[(Some(p), date)].expiresAt > t && s in sys.cache[(Some(p), date)].slots
  {
    var y, run := (s.start, s.end), ReplayRun(p, AnyOf, x, (s.start, s.end), t);
    assert forall i :: 0 <= i < |run| ==> !run[i].op.Query?;
    hide CachedStep, CachedExec, DaySlots, ReplayRun, After, Orphaned, Exec, Sound, Fresh;
    NoQueryNoCache(cfg, Fresh(0), run);
    ReplayOrphans(cfg, p, AnyOf, x, y, t);
    var query, byId := At(t, Query(Some(p), date)), At(t, ConfirmBookingById(1, 1, "l"));
    CachedExecOver(cfg, Sys(Fresh(0), map[]), run, [query, byId]);
    TwoCachedSteps(cfg, Sys(Orphaned(cfg, p, x, y, t), map[]), query, byId);
    OrphanIsOffered(cfg, p, date, x, s, t);
    OrphanIsConfirmed(cfg, p, x, y, t, CachedStep(cfg, Sys(Orphaned(cfg, p, x, y, t), map[]), query).cache);
  }

  /**
   For any time to live and any slot on offer: after a replayed cancel key the cache serves a slot that is
   taken. Every premise of the cache theorem is met but the one about replayed cancel keys.
   */
  lemma ReplayServesTakenSlot(cfg: Config, p: Person, date: int, x: (int, int), s: Slot, t: int)
    requires p in cfg.staff && s in DaySlots(cfg, Some(p), date, t) && cfg.hours.buffer >= 0 && OneZone(cfg)
    requires x != (s.start, s.end) && x.0 < x.1 && t <= LastCall(x) && OneDay(x.0, x.1, cfg.tenantZone)
    ensures var run := ServedRun(p, date, x, s, t);
            var sys := CachedExec(cfg, Sys(Fresh(0), map[]), run);
      && Timeline(t, run) && EndTime(t, run) == t && AllAsk(OneDays(cfg.tenantZone), run)
      && s in Serve(cfg, sys, Some(p), date, t).0 && s.start >= t + Minutes(cfg.hours.lead)
      && s !in FreshSlots(cfg, sys.db, Some(p), date, t)
  {
    hide CachedExec, FreshSlots, DaySlots, OneZone, Sound, After, OneDay, Timeline, ServedRun, EndTime, AllAsk, OpenDay, Serve;
    SlotOfDay(cfg, p, date, t, s);
    ServedRunAsks(cfg, p, date, x, s, t);
    ServedRunEnds(cfg, p, date, x, s, t);
    ConfirmedIsNotFresh(cfg, p, date, x, s, t);
    ServedFromCache(cfg, CachedExec(cfg, Sys(Fresh(0), map[]), ServedRun(p, date, x, s, t)), p, date, t);
  }
}
