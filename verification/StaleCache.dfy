/** Holds shorter than 15 minutes make the cache offer slots that are taken. */
module StaleCache {
  import opened Prelude
  import opened Store
  import opened Availability
  import opened Lifecycle
  import opened Slots
  import opened CachedView
  import opened CacheLaw
  import opened Counterexamples
  import opened RevivedConfirms
  import opened ShortHolds

  /** One reachable state and one query: what is served above the cutoff is also fresh. */
  ghost predicate Conservative(cfg: Config, cursor: int, start: int, run: seq<Event>,
                               who: Option<Person>, date: int, now: int, s: Slot) {
    var sys := CachedExec(cfg, Sys(Fresh(cursor), map[]), run);
    Timeline(start, run) && EndTime(start, run) <= now && TidyRun(cfg, Sys(Fresh(cursor), map[]), run)
    && s in Serve(cfg, sys, who, date, now).0 && s.start >= now + Minutes(cfg.hours.lead)
    ==> s in FreshSlots(cfg, sys.db, who, date, now)
  }

  // ---- a slot of the day ----

  /** Where a slot of the day lies, and that nothing occupies it while no row is live. */
  lemma SlotOfDay(cfg: Config, p: Person, date: int, now: int, s: Slot)
    requires p in cfg.staff && s in DaySlots(cfg, Some(p), date, now)
    ensures OpenDay(cfg.hours, date, Zone(cfg, p), now).Some?
    ensures var day := OpenDay(cfg.hours, date, Zone(cfg, p), now).value;
            var mid := Midnight(date, Zone(cfg, p));
      && mid + Minutes(day.open) <= s.start < s.end <= mid + Minutes(day.close)
      && 0 <= day.open && day.close < 1440
    ensures OneDay(s.start, s.end, Zone(cfg, p)) && s.start >= now + Minutes(cfg.hours.lead)
  {
    var zone := Zone(cfg, p);
    var day := OpenDay(cfg.hours, date, zone, now).value;
    var mid, cutoff := Midnight(date, zone), now + Minutes(cfg.hours.lead);
    SlotsAscend(cfg.hours, day, mid, day.open, cutoff);
    SlotsExact(cfg.hours, day, mid, day.open, cutoff, s);
    var ss := SlotsFrom(cfg.hours, day, mid, day.open, cutoff);
    var k :| 0 <= k < |ss| && ss[k] == s;
    assert Days(date) <= s.start + zone < s.end + zone <= Days(date) + Minutes(1439);
    InsideDate(date, s.start + zone);
  }

  lemma InsideDate(date: int, t: int)
    requires Days(date) <= t < Days(date) + 86_400_000
    ensures t / 86_400_000 == date
  {
  }

  /** The slot is fresh exactly while no live row of the salesperson collides with it. */
  lemma FreshIff(cfg: Config, db: Db, p: Person, date: int, now: int, s: Slot)
    requires p in cfg.staff && s in DaySlots(cfg, Some(p), date, now)
    ensures OpenDay(cfg.hours, date, Zone(cfg, p), now).Some?
    ensures var day := OpenDay(cfg.hours, date, Zone(cfg, p), now).value;
            var mid := Midnight(date, Zone(cfg, p));
      s in FreshSlots(cfg, db, Some(p), date, now) <==>
        FreeFor(db, cfg.hours, p, s, mid + Minutes(day.open), mid + Minutes(day.close), now)
  {
    OfferedExact(cfg, db, Some(p), date, now, s);
    var day, mid := OpenDay(cfg.hours, date, Zone(cfg, p), now).value, Midnight(date, Zone(cfg, p));
    hide FreeFor, DaySlots, FreshSlots, OpenDay, Midnight;
    OneTarget(db, cfg.hours, p, s, mid + Minutes(day.open), mid + Minutes(day.close), now);
    assert Targets(cfg, Some(p)) == [p];
  }

  lemma OneTarget(db: Db, h: Hours, p: Person, s: Slot, lo: int, hi: int, now: int)
    ensures SomeFree(db, h, [p], s, lo, hi, now) <==> FreeFor(db, h, p, s, lo, hi, now)
  {
    hide FreeFor;
    if FreeFor(db, h, p, s, lo, hi, now) { assert FreeFor(db, h, [p][0], s, lo, hi, now); }
  }

  // ---- the run: a hold, its expiry, a query, a confirmation by id ----

  ghost function StaleRun(cfg: Config, p: Person, date: int, s: Slot): seq<Event> {
    [At(0, HoldOp(p, s.start, s.end, "a", AnyOf)), At(cfg.ttl, Query(Some(p), date)),
     At(cfg.ttl, ConfirmBookingById(0, 1, "b"))]
  }

  function Held(cfg: Config, p: Person, s: Slot): Db {
    Db(map[0 := Row(p, s.start, s.end, Hold, "a", None, 0)], map[0 := cfg.ttl], map[0 := 1], {}, 0, 1)
  }

  function Sealed(cfg: Config, p: Person, s: Slot): Db {
    Db(map[0 := Row(p, s.start, s.end, Confirmed, "a", None, 0)], map[], map[], {(ForConfirmById, "b")}, 0, 1)
  }

  lemma HoldStep(cfg: Config, p: Person, date: int, s: Slot)
    requires p in cfg.staff && s.start < s.end
    ensures CachedStep(cfg, Sys(Fresh(0), map[]), StaleRun(cfg, p, date, s)[0]) == Sys(Held(cfg, p, s), map[])
  {
    FirstHold(cfg, 0, p, s.start, s.end, "a", AnyOf);
    hide Step, Dropped, Decide;
  }

  lemma QueryStep(cfg: Config, p: Person, date: int, s: Slot)
    requires p in cfg.staff && s in DaySlots(cfg, Some(p), date, cfg.ttl)
    ensures var sys := CachedStep(cfg, Sys(Held(cfg, p, s), map[]), StaleRun(cfg, p, date, s)[1]);
      && sys.db == Held(cfg, p, s) && (Some(p), date) in sys.cache
      && sys.cache[(Some(p), date)].expiresAt == cfg.ttl + CACHE_TTL && s in sys.cache[(Some(p), date)].slots
  {
    FreshIff(cfg, Held(cfg, p, s), p, date, cfg.ttl, s);
    assert Targets(cfg, Some(p)) == [p];
    assert !Live(Held(cfg, p, s), 0, cfg.ttl);
    hide FreshSlots, DaySlots, Step, Collides;
  }

  lemma SealStep(cfg: Config, p: Person, date: int, s: Slot, cache: map<Key, Entry>)
    requires cfg.ttl < BY_ID_WINDOW
    ensures CachedStep(cfg, Sys(Held(cfg, p, s), cache), StaleRun(cfg, p, date, s)[2]) == Sys(Sealed(cfg, p, s), cache)
  {
    ByIdSeals(cfg, Held(cfg, p, s), cfg.ttl, 0, 1, "b");
    hide Step, Decide;
    assert cache - {} == cache;
  }

  /** Once confirmed, the booking keeps its own slot out of any fresh computation. */
  lemma SealedIsNotFresh(cfg: Config, p: Person, date: int, s: Slot)
    requires p in cfg.staff && s in DaySlots(cfg, Some(p), date, cfg.ttl) && cfg.hours.buffer >= 0
    ensures s !in FreshSlots(cfg, Sealed(cfg, p, s), Some(p), date, cfg.ttl)
  {
    SlotOfDay(cfg, p, date, cfg.ttl, s);
    FreshIff(cfg, Sealed(cfg, p, s), p, date, cfg.ttl, s);
    hide FreshSlots, DaySlots, OpenDay;
    var db := Sealed(cfg, p, s);
    assert Live(db, 0, cfg.ttl) && Collides(s, s.start, s.end, cfg.hours.buffer);
  }

  /** For any configuration with a slot to offer: a confirmation by id after expiry leaves a cached slot that is taken. */
  lemma ShortHoldsServeTakenSlots(cfg: Config, p: Person, date: int, s: Slot)
    requires p in cfg.staff && s in DaySlots(cfg, Some(p), date, cfg.ttl) && cfg.hours.buffer >= 0 && OneZone(cfg)
    requires cfg.ttl < BY_ID_WINDOW
    ensures !Conservative(cfg, 0, 0, StaleRun(cfg, p, date, s), Some(p), date, cfg.ttl, s)
  {
    assert cfg.ttl > 0;
    hide CachedStep, CachedExec, FreshSlots, DaySlots, TidyRun, OneZone, Sound, Held, Sealed, OneDay, Timeline;
    var run := StaleRun(cfg, p, date, s);
    SlotOfDay(cfg, p, date, cfg.ttl, s);
    HoldStep(cfg, p, date, s);
    QueryStep(cfg, p, date, s);
    var cache := CachedStep(cfg, Sys(Held(cfg, p, s), map[]), run[1]).cache;
    SealStep(cfg, p, date, s, cache);
    SealedIsNotFresh(cfg, p, date, s);
    ThreeCachedSteps(cfg, Sys(Fresh(0), map[]), run);
    TidyThree(cfg, p, date, s, cache);
    ThreeInOrder(run[0], run[1], run[2]);
    assert run == [run[0], run[1], run[2]];
    ServedFromCache(cfg, Sys(Sealed(cfg, p, s), cache), p, date, cfg.ttl);
  }

  /** While the day is open and the entry lasts, the entry is what is served. */
  lemma ServedFromCache(cfg: Config, sys: Sys, p: Person, date: int, now: int)
    requires p in cfg.staff && OpenDay(cfg.hours, date, Zone(cfg, p), now).Some?
    requires (Some(p), date) in sys.cache && sys.cache[(Some(p), date)].expiresAt > now
    ensures Serve(cfg, sys, Some(p), date, now).0 == sys.cache[(Some(p), date)].slots
  {
    hide OpenDay, FreshSlots;
    assert Targets(cfg, Some(p)) == [p];
  }

  lemma ThreeCachedSteps(cfg: Config, sys: Sys, run: seq<Event>)
    requires |run| == 3
    ensures CachedExec(cfg, sys, run) == CachedStep(cfg, CachedStep(cfg, CachedStep(cfg, sys, run[0]), run[1]), run[2])
  {
    hide CachedStep;
    var s1 := CachedStep(cfg, sys, run[0]);
    var s2 := CachedStep(cfg, s1, run[1]);
    assert CachedExec(cfg, sys, run) == CachedExec(cfg, s1, run[1..]);
    assert run[1..][1..] == run[2..] && CachedExec(cfg, s1, run[1..]) == CachedExec(cfg, s2, run[2..]);
    assert run[2..][1..] == [];
  }

  lemma TidyThree(cfg: Config, p: Person, date: int, s: Slot, cache: map<Key, Entry>)
    requires p in cfg.staff && s.start < s.end && OneZone(cfg) && OneDay(s.start, s.end, Zone(cfg, p))
    requires CachedStep(cfg, Sys(Held(cfg, p, s), map[]), StaleRun(cfg, p, date, s)[1]) == Sys(Held(cfg, p, s), cache)
    ensures TidyRun(cfg, Sys(Fresh(0), map[]), StaleRun(cfg, p, date, s))
  {
    var run := StaleRun(cfg, p, date, s);
    HoldStep(cfg, p, date, s);
    assert Zone(cfg, p) == cfg.tenantZone;
    assert (s.start, s.end) in OneDays(cfg.tenantZone);
    assert Tidy(cfg, Fresh(0), run[0].op) && Tidy(cfg, Held(cfg, p, s), run[1].op) && Tidy(cfg, Held(cfg, p, s), run[2].op);
    hide CachedStep, Tidy;
    assert run[1..] == [run[1], run[2]] && [run[1], run[2]][1..] == [run[2]] && [run[2]][1..] == [];
    assert TidyRun(cfg, Sys(Held(cfg, p, s), cache), [run[2]]);
    assert TidyRun(cfg, Sys(Held(cfg, p, s), map[]), [run[1], run[2]]);
  }

  /**
   The cache is conservative over every run exactly when holds last at least 15 minutes,
   for every configuration in one zone that has a slot to offer when the first hold runs out.
   */
  lemma ConservativeIff(cfg: Config, p: Person, date: int, s: Slot)
    requires p in cfg.staff && s in DaySlots(cfg, Some(p), date, cfg.ttl) && cfg.hours.buffer >= 0 && OneZone(cfg)
    ensures (forall cursor, start, run, who, day, now, slot :: Conservative(cfg, cursor, start, run, who, day, now, slot))
            <==> cfg.ttl >= BY_ID_WINDOW
  {
    hide DaySlots, OneZone, CachedExec, Serve, FreshSlots, TidyRun;
    if cfg.ttl >= BY_ID_WINDOW {
      forall cursor, start, run, who, day, now, slot
        ensures Conservative(cfg, cursor, start, run, who, day, now, slot)
      {
        var sys := CachedExec(cfg, Sys(Fresh(cursor), map[]), run);
        if Timeline(start, run) && EndTime(start, run) <= now && TidyRun(cfg, Sys(Fresh(cursor), map[]), run)
           && slot in Serve(cfg, sys, who, day, now).0 && slot.start >= now + Minutes(cfg.hours.lead) {
          CacheIsConservative(cfg, cursor, start, run, who, day, now, slot);
        }
      }
    } else {
      ShortHoldsServeTakenSlots(cfg, p, date, s);
    }
  }
}
