/** What getAvailability offers, told from the settings, the clock and the bookings alone. */
module OfferLaw {
  import opened Prelude
  import opened Store
  import opened Availability
  import opened Lifecycle
  import opened Slots

  function LocalZone(cfg: Config, who: Option<Person>): int {
    match who
    case None => cfg.tenantZone
    case Some(p) => if p in cfg.zones then cfg.zones[p] else 0
  }

  /**
   The local date can be booked: it is not over, it begins at most `maxDays` days after now, it is not a closed
   date, and its weekday `w`, with Monday as 0, has hours. (Day 0 was a Thursday.)
   */
  predicate DateHas(h: Hours, date: int, zone: int, now: int, w: int) {
    && now + zone < Days(date + 1) && Days(date - h.maxDays) <= now + zone
    && date !in h.closed && 0 <= w < 7 && (date + 3 - w) % 7 == 0
    && w in h.weekly && h.weekly[w].open < h.weekly[w].close
  }

  /** The slot is the k-th of the day: it ends by the close, has no minute in a break, and begins after the lead time. */
  predicate KthSlot(h: Hours, day: Day, midnight: int, now: int, k: nat, s: Slot) {
    var m := day.open + k * h.slot;
    && s.start == midnight + m * MINUTE && s.end == s.start + h.slot * MINUTE
    && m + h.slot <= day.close && now + h.lead * MINUTE <= s.start
    && (forall b :: b in day.breaks && 0 <= b.0 < b.1 ==> m + h.slot <= b.0 || b.1 <= m)
  }

  /** Every booking of `p` that is confirmed or on an unspent hold, and meets the opening hours, keeps the buffer from the slot. */
  predicate KeepsDistance(db: Db, h: Hours, p: Person, s: Slot, lo: int, hi: int, now: int) {
    forall id :: id in db.rows && db.rows[id].person == p && db.rows[id].start < hi && lo < db.rows[id].end
                 && (db.rows[id].status == Confirmed
                     || (db.rows[id].status in {Hold, PendingVerify} && id in db.holds && now < db.holds[id]))
      ==> db.rows[id].end + h.buffer * MINUTE <= s.start || s.end + h.buffer * MINUTE <= db.rows[id].start
  }

  /** `p` is asked for, and the slot is the k-th of that weekday and free for him. */
  predicate OfferedBy(cfg: Config, db: Db, who: Option<Person>, date: int, now: int, s: Slot, p: Person, w: int, k: nat) {
    var mid := Days(date) - LocalZone(cfg, who);
    && p in cfg.staff && (who == None || who == Some(p)) && DateHas(cfg.hours, date, LocalZone(cfg, who), now, w)
    && KthSlot(cfg.hours, cfg.hours.weekly[w], mid, now, k, s)
    && KeepsDistance(db, cfg.hours, p, s, mid + cfg.hours.weekly[w].open * MINUTE, mid + cfg.hours.weekly[w].close * MINUTE, now)
  }

  lemma DateHasIff(h: Hours, date: int, zone: int, now: int)
    ensures OpenDay(h, date, zone, now).Some? <==> DateHas(h, date, zone, now, Weekday(date))
    ensures OpenDay(h, date, zone, now).Some? ==> OpenDay(h, date, zone, now).value == h.weekly[Weekday(date)]
    ensures forall w :: DateHas(h, date, zone, now, w) ==> w == Weekday(date)
  {
  }

  lemma KthIff(h: Hours, day: Day, midnight: int, now: int, k: nat, s: Slot)
    ensures GridSlot(h, day, midnight, day.open, now + Minutes(h.lead), k, s) <==> KthSlot(h, day, midnight, now, k, s)
  {
    var m := day.open + k * h.slot;
    BreakIff(day, m, m + h.slot);
    hide InBreak;
  }

  lemma BreakIff(day: Day, from: int, to: int)
    ensures InBreak(day, from, to) <==> !(forall b :: b in day.breaks && 0 <= b.0 < b.1 ==> to <= b.0 || b.1 <= from)
  {
    if b :| b in day.breaks && 0 <= b.0 < b.1 && from < b.1 && b.0 < to {
      var i :| 0 <= i < |day.breaks| && day.breaks[i] == b;
    }
  }

  lemma DistanceIff(db: Db, h: Hours, p: Person, s: Slot, lo: int, hi: int, now: int)
    ensures FreeFor(db, h, p, s, lo, hi, now) <==> KeepsDistance(db, h, p, s, lo, hi, now)
  {
  }

  lemma SomeIff(cfg: Config, db: Db, who: Option<Person>, s: Slot, lo: int, hi: int, now: int)
    ensures SomeFree(db, cfg.hours, Targets(cfg, who), s, lo, hi, now) <==>
      exists p :: p in cfg.staff && (who == None || who == Some(p)) && KeepsDistance(db, cfg.hours, p, s, lo, hi, now)
  {
    forall p ensures FreeFor(db, cfg.hours, p, s, lo, hi, now) <==> KeepsDistance(db, cfg.hours, p, s, lo, hi, now) {
      DistanceIff(db, cfg.hours, p, s, lo, hi, now);
    }
    hide FreeFor, KeepsDistance;
    var targets := Targets(cfg, who);
    forall p ensures p in targets <==> p in cfg.staff && (who == None || who == Some(p)) {}
    if p :| p in cfg.staff && (who == None || who == Some(p)) && KeepsDistance(db, cfg.hours, p, s, lo, hi, now) {
      assert p in targets;
    }
  }

  lemma {:induction false} FreshAscends(db: Db, h: Hours, who: seq<Person>, slots: seq<Slot>, lo: int, hi: int, now: int, from: int, to: int)
    requires Ascending(slots, from, to)
    ensures Ascending(KeepFree(db, h, who, slots, lo, hi, now), from, to)
    ensures forall s :: s in KeepFree(db, h, who, slots, lo, hi, now) ==> s in slots
  {
    if slots != [] {
      FreshAscends(db, h, who, slots[1..], lo, hi, now, from, to);
      forall s | s in slots[1..] ensures slots[0].end <= s.start {
        var i :| 0 <= i < |slots[1..]| && slots[1..][i] == s;
        assert slots[i + 1] == s;
      }
      hide SomeFree;
    }
  }

  /** The slots of the day are its k-th slots. */
  lemma DaySlotIff(cfg: Config, who: Option<Person>, date: int, now: int, w: int, s: Slot)
    requires DateHas(cfg.hours, date, LocalZone(cfg, who), now, w)
    ensures var day := cfg.hours.weekly[w];
            var mid := Days(date) - LocalZone(cfg, who);
      s in DaySlots(cfg, who, date, now) <==> exists k: nat :: KthSlot(cfg.hours, day, mid, now, k, s)
  {
    var zone := LocalZone(cfg, who);
    var day, mid := cfg.hours.weekly[w], Days(date) - zone;
    var cutoff := now + Minutes(cfg.hours.lead);
    DateHasIff(cfg.hours, date, zone, now);
    SlotsExact(cfg.hours, day, mid, day.open, cutoff, s);
    forall k: nat ensures GridSlot(cfg.hours, day, mid, day.open, cutoff, k, s) <==> KthSlot(cfg.hours, day, mid, now, k, s) {
      KthIff(cfg.hours, day, mid, now, k, s);
    }
    hide SlotsFrom, GridSlot, KthSlot, DateHas, OpenDay, Weekday;
  }

  lemma FreshIff(cfg: Config, db: Db, who: Option<Person>, date: int, now: int, s: Slot, w: int)
    ensures DateHas(cfg.hours, date, LocalZone(cfg, who), now, w) ==>
      var mid := Days(date) - LocalZone(cfg, who);
      (s in FreshSlots(cfg, db, who, date, now) <==>
        && s in DaySlots(cfg, who, date, now)
        && SomeFree(db, cfg.hours, Targets(cfg, who), s, mid + Minutes(cfg.hours.weekly[w].open),
                    mid + Minutes(cfg.hours.weekly[w].close), now))
    ensures s in FreshSlots(cfg, db, who, date, now) ==> exists v :: DateHas(cfg.hours, date, LocalZone(cfg, who), now, v)
  {
    OfferedExact(cfg, db, who, date, now, s);
    DateHasIff(cfg.hours, date, LocalZone(cfg, who), now);
    hide FreshSlots, DaySlots, SomeFree, Targets, OpenDay, Weekday, DateHas;
  }

  /** The offer holds exactly the slots of the day that somebody asked for is free for. */
  lemma OfferedIff(cfg: Config, db: Db, who: Option<Person>, date: int, now: int, s: Slot)
    ensures s in FreshSlots(cfg, db, who, date, now) <==> exists p, w, k: nat :: OfferedBy(cfg, db, who, date, now, s, p, w, k)
  {
    var zone := LocalZone(cfg, who);
    forall w
      ensures DateHas(cfg.hours, date, zone, now, w) ==>
        (s in FreshSlots(cfg, db, who, date, now) <==> exists p, k: nat :: OfferedBy(cfg, db, who, date, now, s, p, w, k))
    {
      FreshIff(cfg, db, who, date, now, s, w);
      if DateHas(cfg.hours, date, zone, now, w) { OnDateIff(cfg, db, who, date, now, s, w); }
    }
    FreshIff(cfg, db, who, date, now, s, 0);
    hide FreshSlots, KthSlot, KeepsDistance, DateHas;
  }

  lemma OnDateIff(cfg: Config, db: Db, who: Option<Person>, date: int, now: int, s: Slot, w: int)
    requires DateHas(cfg.hours, date, LocalZone(cfg, who), now, w)
    ensures s in FreshSlots(cfg, db, who, date, now) <==> exists p, k: nat :: OfferedBy(cfg, db, who, date, now, s, p, w, k)
  {
    var mid, day := Days(date) - LocalZone(cfg, who), cfg.hours.weekly[w];
    var lo, hi := mid + Minutes(day.open), mid + Minutes(day.close);
    FreshIff(cfg, db, who, date, now, s, w);
    DaySlotIff(cfg, who, date, now, w, s);
    SomeIff(cfg, db, who, s, lo, hi, now);
    hide FreshSlots, DaySlots, SomeFree, Targets, KthSlot, DateHas, KeepsDistance;
    if s in FreshSlots(cfg, db, who, date, now) {
      var k: nat :| KthSlot(cfg.hours, day, mid, now, k, s);
      var p :| p in cfg.staff && (who == None || who == Some(p)) && KeepsDistance(db, cfg.hours, p, s, lo, hi, now);
      assert OfferedBy(cfg, db, who, date, now, s, p, w, k);
    }
  }

  /** And it holds each once, in the order of time. */
  lemma OfferAscends(cfg: Config, db: Db, who: Option<Person>, date: int, now: int)
    ensures var ss := FreshSlots(cfg, db, who, date, now);
            forall i, j :: 0 <= i < j < |ss| ==> ss[i].start < ss[i].end <= ss[j].start < ss[j].end
  {
    var zone := ZoneFor(cfg, who);
    match OpenDay(cfg.hours, date, zone, now)
    case None =>
    case Some(day) =>
      var mid := Midnight(date, zone);
      var lo, hi := mid + Minutes(day.open), mid + Minutes(day.close);
      SlotsAscend(cfg.hours, day, mid, day.open, now + Minutes(cfg.hours.lead));
      FreshAscends(db, cfg.hours, Targets(cfg, who), DaySlots(cfg, who, date, now), lo, hi, now, lo, hi);
      hide KeepFree, SlotsFrom, OpenDay;
  }

  /** What a query is answered without a cache: those slots, unless it names somebody who is not there. */
  lemma QueryOffers(cfg: Config, db: Db, who: Option<Person>, date: int, now: int, s: Slot)
    ensures var answer := AnswerTo(cfg, db, At(now, Query(who, date)));
            var known := who == None || who.value in cfg.staff;
      && (known ==> answer.Offered?
                    && (s in answer.slots <==> exists p, w, k: nat :: OfferedBy(cfg, db, who, date, now, s, p, w, k)))
      && (!known ==> answer == Rejected(NotFound))
  {
    OfferedIff(cfg, db, who, date, now, s);
    hide FreshSlots, OfferedBy;
  }
}
