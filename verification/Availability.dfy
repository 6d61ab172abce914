/** Business hours, the slots of a day, and which of them are free. */
module Availability {
  import opened Prelude
  import opened Store

  /** Opening minutes of one weekday; each break is a (start, end) pair of minutes. */
  datatype Day = Day(open: int, close: int, breaks: seq<(int, int)>)

  /** Weekdays without an entry are closed. Lengths are in minutes, dates count days from the epoch. */
  datatype Hours = Hours(slot: int, lead: int, buffer: int, maxDays: int,
                         closed: set<int>, weekly: map<int, Day>)

  datatype Settings = Settings(ttl: int, staff: seq<Person>, zones: map<Person, int>,
                               tenantZone: int, hours: Hours)

  /**
   The time to live is whole minutes, at least one; `staff` lists the active
   salespersons by display name; zones are fixed offsets from UTC.
   */
  predicate Sound(c: Settings) {
    && c.ttl >= MINUTE && c.ttl % MINUTE == 0
    && c.hours.slot > 0
    && (forall i, j :: 0 <= i < j < |c.staff| ==> c.staff[i] != c.staff[j])
    && (forall w :: w in c.hours.weekly ==>
          0 <= c.hours.weekly[w].open < 1440 && 0 <= c.hours.weekly[w].close < 1440)
  }

  type Config = c: Settings | Sound(c)
    witness Settings(MINUTE, [], map[], 0, Hours(1, 0, 0, 0, {}, map[]))

  datatype Slot = Slot(start: int, end: int)

  function Zone(cfg: Config, p: Person): int { if p in cfg.zones then cfg.zones[p] else 0 }

  /** The local calendar date of an instant. */
  function DateOf(t: int, zone: int): int { (t + zone) / 86_400_000 }

  function Midnight(date: int, zone: int): int { Days(date) - zone }

  /** 0 is Monday; the epoch was a Thursday. */
  function Weekday(date: int): int { (date + 3) % 7 }

  predicate InBreak(day: Day, from: int, to: int) {
    exists i :: 0 <= i < |day.breaks| && 0 <= day.breaks[i].0 < day.breaks[i].1
                && from < day.breaks[i].1 && to > day.breaks[i].0
  }

  /** The day's hours, when `date` can be booked at `now`. */
  function OpenDay(h: Hours, date: int, zone: int, now: int): Option<Day> {
    var today := DateOf(now, zone);
    if date < today || date > today + h.maxDays || date in h.closed || Weekday(date) !in h.weekly then None
    else if h.weekly[Weekday(date)].close <= h.weekly[Weekday(date)].open then None
    else Some(h.weekly[Weekday(date)])
  }

  function SlotAt(midnight: int, from: int, step: int): Slot {
    Slot(midnight + Minutes(from), midnight + Minutes(from + step))
  }

  /** The slots the day offers from minute `cursor` on. */
  function SlotsFrom(h: Hours, day: Day, midnight: int, cursor: int, cutoff: int): seq<Slot>
    requires h.slot > 0
    decreases day.close - cursor
  {
    if cursor + h.slot > day.close then []
    else
      var rest := SlotsFrom(h, day, midnight, cursor + h.slot, cutoff);
      var s := SlotAt(midnight, cursor, h.slot);
      if !InBreak(day, cursor, cursor + h.slot) && s.start >= cutoff then [s] + rest else rest
  }

  /** A slot collides with a busy interval widened by the buffer on both sides. */
  predicate Collides(s: Slot, start: int, end: int, buffer: int) {
    s.start < end + Minutes(buffer) && s.end > start - Minutes(buffer)
  }

  /** `p` has no live row inside the opening window that collides with the slot. */
  predicate FreeFor(db: Db, h: Hours, p: Person, s: Slot, lo: int, hi: int, now: int) {
    forall id :: id in db.rows && db.rows[id].Overlaps(p, lo, hi) && Live(db, id, now)
      ==> !Collides(s, db.rows[id].start, db.rows[id].end, h.buffer)
  }

  predicate SomeFree(db: Db, h: Hours, who: seq<Person>, s: Slot, lo: int, hi: int, now: int) {
    exists i :: 0 <= i < |who| && FreeFor(db, h, who[i], s, lo, hi, now)
  }

  function KeepFree(db: Db, h: Hours, who: seq<Person>, slots: seq<Slot>, lo: int, hi: int, now: int): seq<Slot> {
    if slots == [] then []
    else
      var rest := KeepFree(db, h, who, slots[1..], lo, hi, now);
      if SomeFree(db, h, who, slots[0], lo, hi, now) then [slots[0]] + rest else rest
  }

  /** A named salesperson, or every active one. */
  function Targets(cfg: Config, who: Option<Person>): seq<Person> {
    match who
    case None => cfg.staff
    case Some(p) => if p in cfg.staff then [p] else []
  }

  function ZoneFor(cfg: Config, who: Option<Person>): int {
    match who
    case None => cfg.tenantZone
    case Some(p) => Zone(cfg, p)
  }

  /** The slots a date has at `now`, before occupancy is looked at; empty when the date is closed. */
  function DaySlots(cfg: Config, who: Option<Person>, date: int, now: int): seq<Slot> {
    var zone := ZoneFor(cfg, who);
    match OpenDay(cfg.hours, date, zone, now)
    case None => []
    case Some(day) =>
      SlotsFrom(cfg.hours, day, Midnight(date, zone), day.open, now + Minutes(cfg.hours.lead))
  }

  /** Availability computed from the tables, with the calendar service off. */
  function FreshSlots(cfg: Config, db: Db, who: Option<Person>, date: int, now: int): seq<Slot> {
    var zone := ZoneFor(cfg, who);
    match OpenDay(cfg.hours, date, zone, now)
    case None => []
    case Some(day) =>
      var mid := Midnight(date, zone);
      KeepFree(db, cfg.hours, Targets(cfg, who), DaySlots(cfg, who, date, now),
               mid + Minutes(day.open), mid + Minutes(day.close), now)
  }
}
