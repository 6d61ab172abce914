/** Availability behind the in-process cache, and what the calls invalidate. */
module CachedView {
  import opened Prelude
  import opened Store
  import opened Availability
  import opened Lifecycle

  /** One salesperson or, with None, the union of all; and a local date. */
  type Key = (Option<Person>, int)

  datatype Entry = Entry(expiresAt: int, slots: seq<Slot>)

  const CACHE_TTL: int := 45_000

  /** The service as one process sees it: the tables and its own cache. */
  datatype Sys = Sys(db: Db, cache: map<Key, Entry>)

  /** Both scopes of the salesperson's local date of an instant. */
  function Stains(cfg: Config, p: Person, start: int): set<Key> {
    var date := DateOf(start, Zone(cfg, p));
    {(Some(p), date), (None, date)}
  }

  /** The keys a call drops. */
  function Dropped(cfg: Config, sys: Sys, ev: Event): set<Key> {
    var db, d := sys.db, Decide(cfg, sys.db, ev.time, ev.op);
    match ev.op
    case CreateHold(_, start, _, _, _, _, _) =>
      if d.answer.Accepted? && d.answer.id in Apply(db, ev.time, d.effect).rows
      then Stains(cfg, Apply(db, ev.time, d.effect).rows[d.answer.id].person, start) else {}
    case CancelBooking(id, _, _) =>
      if d.answer.Accepted? && id in db.rows then Stains(cfg, db.rows[id].person, db.rows[id].start) else {}
    case Reschedule(id, _, start, _, _, _) =>
      if d.effect.Move? && id in db.rows
      then Stains(cfg, db.rows[id].person, db.rows[id].start) + Stains(cfg, db.rows[id].person, start) else {}
    case ExpireHolds => if exists id :: id in db.rows && Stale(db, id, ev.time) then sys.cache.Keys else {}
    case _ => {}
  }

  /** What getAvailability answers from the cache or computes, and the cache it leaves. */
  function Serve(cfg: Config, sys: Sys, who: Option<Person>, date: int, now: int): (seq<Slot>, map<Key, Entry>) {
    if OpenDay(cfg.hours, date, ZoneFor(cfg, who), now).None? || Targets(cfg, who) == [] then ([], sys.cache)
    else if (who, date) in sys.cache && sys.cache[(who, date)].expiresAt > now then
      (sys.cache[(who, date)].slots, sys.cache)
    else
      var slots := FreshSlots(cfg, sys.db, who, date, now);
      (slots, sys.cache[(who, date) := Entry(now + CACHE_TTL, slots)])
  }

  function CachedStep(cfg: Config, sys: Sys, ev: Event): Sys {
    if ev.op.Query? then Sys(sys.db, Serve(cfg, sys, ev.op.who, ev.op.date, ev.time).1)
    else Sys(Step(cfg, sys.db, ev), sys.cache - Dropped(cfg, sys, ev))
  }

  function CachedExec(cfg: Config, sys: Sys, run: seq<Event>): Sys
    decreases |run|
  {
    if run == [] then sys else CachedExec(cfg, CachedStep(cfg, sys, run[0]), run[1..])
  }
}
