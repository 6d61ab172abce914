/** The cache is conservative: it never offers what a fresh computation would not. */
module CacheLaw {
  import opened Prelude
  import opened Store
  import opened Availability
  import opened Lifecycle
  import opened Invariants
  import opened Coherence
  import opened DoubleBooking
  import opened ConfirmById
  import opened Slots
  import opened CachedView

  // ---- dates ----

  predicate OneDay(s: int, e: int, zone: int) { e <= Midnight(DateOf(s, zone) + 1, zone) }

  ghost function OneDays(zone: int): iset<(int, int)> { iset s: int, e: int | OneDay(s, e, zone) :: (s, e) }

  /** All salespersons live in the tenant's zone. */
  ghost predicate OneZone(cfg: Config) {
    forall i :: 0 <= i < |cfg.staff| ==> Zone(cfg, cfg.staff[i]) == cfg.tenantZone
  }

  /** The day's hours whatever the clock says. */
  function DayHours(h: Hours, date: int): Option<Day> {
    if date in h.closed || Weekday(date) !in h.weekly then None
    else if h.weekly[Weekday(date)].close <= h.weekly[Weekday(date)].open then None
    else Some(h.weekly[Weekday(date)])
  }

  function Lo(day: Day, date: int, zone: int): int { Midnight(date, zone) + Minutes(day.open) }

  function Hi(day: Day, date: int, zone: int): int { Midnight(date, zone) + Minutes(day.close) }

  /** An interval inside one local date meets the opening window of that date only. */
  lemma WindowOfOneDate(cfg: Config, date: int, zone: int, s: int, e: int)
    requires DayHours(cfg.hours, date).Some? && OneDay(s, e, zone)
    requires var day := DayHours(cfg.hours, date).value;
             s < Hi(day, date, zone) && e > Lo(day, date, zone)
    ensures DateOf(s, zone) == date
  {
  }

  // ---- the invariant ----

  /** A cached slot is on the day's grid, and somebody in its scope is still free around it. */
  ghost predicate SlotSound(cfg: Config, db: Db, who: Option<Person>, date: int, s: Slot, now: int) {
    var zone := ZoneFor(cfg, who);
    && DayHours(cfg.hours, date).Some?
    && var day := DayHours(cfg.hours, date).value;
       && (exists k: nat :: GridSlot(cfg.hours, day, Midnight(date, zone), day.open, s.start, k, s))
       && SomeFree(db, cfg.hours, Targets(cfg, who), s, Lo(day, date, zone), Hi(day, date, zone), now)
  }

  ghost predicate CacheSound(cfg: Config, sys: Sys, now: int) {
    forall key, i :: key in sys.cache && 0 <= i < |sys.cache[key].slots|
      ==> SlotSound(cfg, sys.db, key.0, key.1, sys.cache[key].slots[i], now)
  }

  lemma FreshIsSound(cfg: Config, db: Db, who: Option<Person>, date: int, now: int, s: Slot)
    requires s in FreshSlots(cfg, db, who, date, now)
    ensures SlotSound(cfg, db, who, date, s, now)
  {
    OfferedExact(cfg, db, who, date, now, s);
    var zone := ZoneFor(cfg, who);
    var day := OpenDay(cfg.hours, date, zone, now).value;
    var mid, cutoff := Midnight(date, zone), now + Minutes(cfg.hours.lead);
    SlotsExact(cfg.hours, day, mid, day.open, cutoff, s);
    var k: nat :| GridSlot(cfg.hours, day, mid, day.open, cutoff, k, s);
    assert GridSlot(cfg.hours, day, mid, day.open, s.start, k, s);
  }

  lemma SoundIsFresh(cfg: Config, db: Db, who: Option<Person>, date: int, now: int, s: Slot)
    requires SlotSound(cfg, db, who, date, s, now) && OpenDay(cfg.hours, date, ZoneFor(cfg, who), now).Some?
    requires s.start >= now + Minutes(cfg.hours.lead)
    ensures s in FreshSlots(cfg, db, who, date, now)
  {
    OfferedExact(cfg, db, who, date, now, s);
    var zone := ZoneFor(cfg, who);
    var day := OpenDay(cfg.hours, date, zone, now).value;
    var mid, cutoff := Midnight(date, zone), now + Minutes(cfg.hours.lead);
    SlotsExact(cfg.hours, day, mid, day.open, cutoff, s);
    var k: nat :| GridSlot(cfg.hours, day, mid, day.open, s.start, k, s);
    assert GridSlot(cfg.hours, day, mid, day.open, cutoff, k, s);
  }

  // ---- what a call adds to the occupancy, it also drops from the cache ----

  /** The standing facts about a run with a cache. */
  ghost predicate Standing(cfg: Config, sys: Sys, now: int) {
    && Good(cfg, sys.db, now) && Coherent(sys.db) && RowsWithin(OneDays(cfg.tenantZone), sys.db.rows)
    && CacheSound(cfg, sys, now)
  }

  /** A row live after the call was live there before, or its date is gone from the cache. */
  ghost predicate OldOrDropped(cfg: Config, sys: Sys, ev: Event, id: RowId) {
    var after := Step(cfg, sys.db, ev);
    id in after.rows && Live(after, id, ev.time) ==>
      || (id in sys.db.rows && SameFrame(sys.db.rows[id], after.rows[id]) && Live(sys.db, id, ev.time))
      || Stains(cfg, after.rows[id].person, after.rows[id].start) <= Dropped(cfg, sys, ev)
  }

  /** An attempt that succeeds writes the row it names, at the interval it was given. */
  lemma AttemptWrites(cfg: Config, db: Db, now: int, p: Person, s: int, e: int, key: string, pick: Pick)
    ensures var a := TryHold(cfg, db, now, p, s, e, key, pick);
            a.Held? ==>
              var rows := Apply(db, now, a.effect).rows;
              a.id == Touched(db, a.effect) && a.id in rows && rows[a.id].start == s && rows[a.id].end == e
  {
    hide IndexOk, Blocked, Live;
  }

  /** A hold is placed at the interval asked for, on the row the answer names. */
  lemma PlacedAsAsked(cfg: Config, db: Db, now: int, op: Op)
    requires op.CreateHold?
    ensures var d := Decide(cfg, db, now, op);
            var x := Touched(db, d.effect);
            d.effect.Insert? || d.effect.Revive? ==>
              d.answer == Accepted(x) && x in Apply(db, now, d.effect).rows
              && Apply(db, now, d.effect).rows[x].start == op.start && Apply(db, now, d.effect).rows[x].end == op.end
  {
    hide TryHold, Lawful;
    if op.key != "" && op.start < op.end && Targets(cfg, op.who) != [] && KeyRows(db.rows, op.key) == {} {
      var ordered := Targets(cfg, op.who);
      var first := FirstIndex(db.cursor, op.who, |ordered|);
      PlacementIsLawful(cfg, db, now, ordered, first, 0, op.busy, op.start, op.end, op.key, op.pick);
      var a := Allocate(cfg, db, now, ordered, first, 0, op.busy, op.start, op.end, op.key, op.pick);
      if a.Placed? {
        AttemptWrites(cfg, db, now, ordered[a.index], op.start, op.end, op.key, op.pick);
      }
      hide Apply, Allocate, Touched;
    }
  }

  lemma StepRows(cfg: Config, db: Db, ev: Event)
    ensures var after := Apply(db, ev.time, Decide(cfg, db, ev.time, ev.op).effect);
            Step(cfg, db, ev).rows == after.rows && Step(cfg, db, ev).holds == after.holds
  {
    hide Decide, Apply;
  }

  /** Effects other than placing and moving a booking bring nothing to life. */
  lemma QuietEffect(cfg: Config, db: Db, now: int, time: int, e: Effect, id: RowId)
    requires Sane(cfg, db, now) && Coherent(db) && now <= time && cfg.ttl >= BY_ID_WINDOW && Local(cfg, db, time, e)
    requires id in Apply(db, time, e).rows && Live(Apply(db, time, e), id, time)
    requires id == Touched(db, e) ==> !e.Insert? && !e.Revive? && !e.Move?
    ensures id in db.rows && SameFrame(db.rows[id], Apply(db, time, e).rows[id]) && Live(db, id, time)
  {
    if id != Touched(db, e) {
      OthersStay(db, time, e, id);
    } else if e.Seal? {
      YoungHoldIsLive(cfg, db, now, time, id);
    }
  }

  lemma PlacingDrops(cfg: Config, sys: Sys, ev: Event, id: RowId)
    requires ev.op.CreateHold?
    requires var e := Decide(cfg, sys.db, ev.time, ev.op).effect;
             (e.Insert? || e.Revive?) && id == Touched(sys.db, e)
    ensures var after := Apply(sys.db, ev.time, Decide(cfg, sys.db, ev.time, ev.op).effect).rows;
            id in after && Stains(cfg, after[id].person, after[id].start) <= Dropped(cfg, sys, ev)
  {
    PlacedAsAsked(cfg, sys.db, ev.time, ev.op);
    hide Decide;
  }

  lemma MovingDrops(cfg: Config, sys: Sys, ev: Event, id: RowId)
    requires var e := Decide(cfg, sys.db, ev.time, ev.op).effect;
             e.Move? && e.id == id && id in sys.db.rows
    ensures var after := Apply(sys.db, ev.time, Decide(cfg, sys.db, ev.time, ev.op).effect).rows;
            id in after && Stains(cfg, after[id].person, after[id].start) <= Dropped(cfg, sys, ev)
  {
    EffectTargets(cfg, sys.db, ev.time, ev.op);
    MoveNamesRow(cfg, sys.db, ev.time, ev.op);
    hide Decide;
  }

  lemma MoveNamesRow(cfg: Config, db: Db, now: int, op: Op)
    ensures var e := Decide(cfg, db, now, op).effect;
            e.Move? ==> op.Reschedule? && e.id == op.id
  {
    EffectFitsCall(cfg, db, now, op);
  }

  lemma NewLifeIsDropped(cfg: Config, sys: Sys, now: int, ev: Event, id: RowId)
    requires Good(cfg, sys.db, now) && Coherent(sys.db) && now <= ev.time && cfg.ttl >= BY_ID_WINDOW
    ensures OldOrDropped(cfg, sys, ev, id)
  {
    hide Decide, Step, Dropped, IndexOk;
    var e := Decide(cfg, sys.db, ev.time, ev.op).effect;
    var after := Apply(sys.db, ev.time, e);
    DecisionIsLawful(cfg, sys.db, ev.time, ev.op);
    EffectFitsCall(cfg, sys.db, ev.time, ev.op);
    StepRows(cfg, sys.db, ev);
    if id in after.rows && Live(after, id, ev.time) {
      if id == Touched(sys.db, e) && (e.Insert? || e.Revive?) {
        PlacingDrops(cfg, sys, ev, id);
      } else if id == Touched(sys.db, e) && e.Move? {
        MovingDrops(cfg, sys, ev, id);
      } else {
        QuietEffect(cfg, sys.db, now, ev.time, e, id);
      }
    }
  }

  // ---- runs ----

  lemma FreeStaysFree(cfg: Config, sys: Sys, now: int, ev: Event, who: Option<Person>, date: int, s: Slot, p: Person)
    requires (forall id :: OldOrDropped(cfg, sys, ev, id)) && (who, date) !in Dropped(cfg, sys, ev)
    requires RowsWithin(OneDays(cfg.tenantZone), Step(cfg, sys.db, ev).rows) && now <= ev.time
    requires DayHours(cfg.hours, date).Some? && Zone(cfg, p) == cfg.tenantZone && (who.None? || who == Some(p))
    requires var day, zone := DayHours(cfg.hours, date).value, cfg.tenantZone;
             FreeFor(sys.db, cfg.hours, p, s, Lo(day, date, zone), Hi(day, date, zone), now)
    ensures var day, zone := DayHours(cfg.hours, date).value, cfg.tenantZone;
            FreeFor(Step(cfg, sys.db, ev), cfg.hours, p, s, Lo(day, date, zone), Hi(day, date, zone), ev.time)
  {
    hide Step, Dropped, DayHours, Sound;
    var day, zone := DayHours(cfg.hours, date).value, cfg.tenantZone;
    var after := Step(cfg, sys.db, ev);
    forall id | id in after.rows && after.rows[id].Overlaps(p, Lo(day, date, zone), Hi(day, date, zone)) && Live(after, id, ev.time)
      ensures !Collides(s, after.rows[id].start, after.rows[id].end, cfg.hours.buffer)
    {
      assert OldOrDropped(cfg, sys, ev, id);
      assert (after.rows[id].start, after.rows[id].end) in OneDays(zone);
      WindowOfOneDate(cfg, date, zone, after.rows[id].start, after.rows[id].end);
    }
  }

  lemma SlotStaysSound(cfg: Config, sys: Sys, now: int, ev: Event, who: Option<Person>, date: int, s: Slot)
    requires (forall id :: OldOrDropped(cfg, sys, ev, id)) && (who, date) !in Dropped(cfg, sys, ev)
    requires RowsWithin(OneDays(cfg.tenantZone), Step(cfg, sys.db, ev).rows) && now <= ev.time && OneZone(cfg)
    requires SlotSound(cfg, sys.db, who, date, s, now)
    ensures SlotSound(cfg, Step(cfg, sys.db, ev), who, date, s, ev.time)
  {
    hide Step, Dropped, DayHours, FreeFor, GridSlot;
    var day, zone := DayHours(cfg.hours, date).value, ZoneFor(cfg, who);
    var i :| 0 <= i < |Targets(cfg, who)|
             && FreeFor(sys.db, cfg.hours, Targets(cfg, who)[i], s, Lo(day, date, zone), Hi(day, date, zone), now);
    var p := Targets(cfg, who)[i];
    FreeStaysFree(cfg, sys, now, ev, who, date, s, p);
    assert SomeFree(Step(cfg, sys.db, ev), cfg.hours, Targets(cfg, who), s, Lo(day, date, zone), Hi(day, date, zone), ev.time);
  }

  /** Conditions on a call under which the cache argument applies. */
  ghost predicate Tidy(cfg: Config, db: Db, op: Op) {
    !Orphans(db, op) && AsksWithin(OneDays(cfg.tenantZone), op)
  }

  lemma CallKeepsStanding(cfg: Config, sys: Sys, now: int, ev: Event)
    requires Standing(cfg, sys, now) && now <= ev.time && Tidy(cfg, sys.db, ev.op) && !ev.op.Query?
    requires cfg.ttl >= BY_ID_WINDOW && OneZone(cfg)
    ensures Standing(cfg, CachedStep(cfg, sys, ev), ev.time)
  {
    hide Step, Dropped, SlotSound, IndexOk, Tiling;
    StepKeepsGood(cfg, sys.db, now, ev);
    StepKeepsCoherent(cfg, sys.db, now, ev);
    StepStaysWithin(cfg, sys.db, ev, OneDays(cfg.tenantZone));
    forall id
      ensures OldOrDropped(cfg, sys, ev, id)
    {
      NewLifeIsDropped(cfg, sys, now, ev, id);
    }
    var next := CachedStep(cfg, sys, ev);
    forall key, i | key in next.cache && 0 <= i < |next.cache[key].slots|
      ensures SlotSound(cfg, next.db, key.0, key.1, next.cache[key].slots[i], ev.time)
    {
      SlotStaysSound(cfg, sys, now, ev, key.0, key.1, sys.cache[key].slots[i]);
    }
  }

  /** Time alone only frees slots. */
  lemma LaterStaysSound(cfg: Config, db: Db, who: Option<Person>, date: int, s: Slot, now: int, later: int)
    requires SlotSound(cfg, db, who, date, s, now) && now <= later
    ensures SlotSound(cfg, db, who, date, s, later)
  {
    hide GridSlot, DayHours;
    var day, zone := DayHours(cfg.hours, date).value, ZoneFor(cfg, who);
    var i :| 0 <= i < |Targets(cfg, who)|
             && FreeFor(db, cfg.hours, Targets(cfg, who)[i], s, Lo(day, date, zone), Hi(day, date, zone), now);
    assert FreeFor(db, cfg.hours, Targets(cfg, who)[i], s, Lo(day, date, zone), Hi(day, date, zone), later);
  }

  lemma QueryKeepsStanding(cfg: Config, sys: Sys, now: int, ev: Event)
    requires Standing(cfg, sys, now) && now <= ev.time && ev.op.Query?
    ensures Standing(cfg, CachedStep(cfg, sys, ev), ev.time)
  {
    hide SlotSound, IndexOk, FreshSlots;
    var next := CachedStep(cfg, sys, ev);
    forall key, i | key in next.cache && 0 <= i < |next.cache[key].slots|
      ensures SlotSound(cfg, next.db, key.0, key.1, next.cache[key].slots[i], ev.time)
    {
      if key in sys.cache && sys.cache[key] == next.cache[key] {
        LaterStaysSound(cfg, sys.db, key.0, key.1, sys.cache[key].slots[i], now, ev.time);
      } else {
        FreshIsSound(cfg, sys.db, key.0, key.1, ev.time, next.cache[key].slots[i]);
      }
    }
  }

  /** Every call of the run is tidy in the state it meets. */
  ghost predicate TidyRun(cfg: Config, sys: Sys, run: seq<Event>)
    decreases |run|
  {
    run == [] || (Tidy(cfg, sys.db, run[0].op) && TidyRun(cfg, CachedStep(cfg, sys, run[0]), run[1..]))
  }

  lemma {:induction false} RunKeepsStanding(cfg: Config, sys: Sys, now: int, run: seq<Event>)
    requires Standing(cfg, sys, now) && Timeline(now, run) && TidyRun(cfg, sys, run)
    requires cfg.ttl >= BY_ID_WINDOW && OneZone(cfg)
    ensures Standing(cfg, CachedExec(cfg, sys, run), EndTime(now, run))
    decreases |run|
  {
    hide CachedStep, Standing, Tidy, OneZone;
    if run != [] {
      if run[0].op.Query? {
        QueryKeepsStanding(cfg, sys, now, run[0]);
      } else {
        CallKeepsStanding(cfg, sys, now, run[0]);
      }
      RunKeepsStanding(cfg, CachedStep(cfg, sys, run[0]), run[0].time, run[1..]);
    }
  }

  /**
   After any tidy run, every slot that getAvailability serves and that still
   meets the lead cutoff is also in a fresh computation at that instant.
   */
  lemma CacheIsConservative(cfg: Config, cursor: int, start: int, run: seq<Event>,
                            who: Option<Person>, date: int, now: int, s: Slot)
    requires Timeline(start, run) && EndTime(start, run) <= now
    requires TidyRun(cfg, Sys(Fresh(cursor), map[]), run)
    requires cfg.ttl >= BY_ID_WINDOW && OneZone(cfg)
    requires var sys := CachedExec(cfg, Sys(Fresh(cursor), map[]), run);
             s in Serve(cfg, sys, who, date, now).0 && s.start >= now + Minutes(cfg.hours.lead)
    ensures s in FreshSlots(cfg, CachedExec(cfg, Sys(Fresh(cursor), map[]), run).db, who, date, now)
  {
    hide CachedExec, SlotSound, FreshSlots;
    var sys := CachedExec(cfg, Sys(Fresh(cursor), map[]), run);
    RunKeepsStanding(cfg, Sys(Fresh(cursor), map[]), start, run);
    if (who, date) in sys.cache && s in sys.cache[(who, date)].slots && OpenDay(cfg.hours, date, ZoneFor(cfg, who), now).Some? {
      var i :| 0 <= i < |sys.cache[(who, date)].slots| && sys.cache[(who, date)].slots[i] == s;
      LaterStaysSound(cfg, sys.db, who, date, s, EndTime(start, run), now);
      SoundIsFresh(cfg, sys.db, who, date, now, s);
    }
  }

  // ---- the tables do not notice the cache ----

  lemma QueryWritesNothing(cfg: Config, db: Db, ev: Event)
    requires ev.op.Query?
    ensures Step(cfg, db, ev) == db
  {
    hide FreshSlots;
    assert db.used + {} == db.used && map[] + db.secrets == db.secrets;
  }

  /** A service with a cache leaves the tables of one without: what holds over its runs holds here. */
  lemma {:induction false} TablesIgnoreCache(cfg: Config, sys: Sys, run: seq<Event>)
    ensures CachedExec(cfg, sys, run).db == Exec(cfg, sys.db, run)
    decreases |run|
  {
    hide Step, Serve, Dropped;
    if run != [] {
      if run[0].op.Query? { QueryWritesNothing(cfg, sys.db, run[0]); }
      TablesIgnoreCache(cfg, CachedStep(cfg, sys, run[0]), run[1..]);
    }
  }
}
