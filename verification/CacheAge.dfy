/** How old a served answer can be, and which calls make the service compute it anew. */
module CacheAge {
  import opened Prelude
  import opened Store
  import opened Availability
  import opened Lifecycle
  import opened Slots
  import opened Occupancy
  import opened CachedView
  import opened Sweeping

  /** The key is about the salesperson or the union, on the local date of the instant. */
  predicate About(cfg: Config, key: Key, p: Person, t: int) {
    var zone := if p in cfg.zones then cfg.zones[p] else 0;
    (key.0 == None || key.0 == Some(p)) && Days(key.1) <= t + zone < Days(key.1 + 1)
  }

  /** The call makes the answers under the key obsolete: it held, released or moved a booking there, or swept one anywhere. */
  ghost predicate Outdates(cfg: Config, db: Db, ev: Event, key: Key) {
    var answer, after := AnswerTo(cfg, db, ev), Step(cfg, db, ev).rows;
    match ev.op
    case CreateHold(_, start, _, _, _, _, _) =>
      answer.Accepted? && answer.id in after && About(cfg, key, after[answer.id].person, start)
    case CancelBooking(id, _, _) => answer.Accepted? && id in db.rows && About(cfg, key, db.rows[id].person, db.rows[id].start)
    case Reschedule(id, _, start, _, _, _) =>
      id in db.rows && id in after && after[id] != db.rows[id]
      && (About(cfg, key, db.rows[id].person, db.rows[id].start) || About(cfg, key, db.rows[id].person, start))
    case ExpireHolds => exists id :: Lapsed(db, id, ev.time)
    case SendVerification(_, _) => false
    case ConfirmBooking(_, _) => false
    case ConfirmBookingById(_, _, _) => false
    case Query(_, _) => false
  }

  lemma StainsIff(cfg: Config, key: Key, p: Person, t: int)
    ensures key in Stains(cfg, p, t) <==> About(cfg, key, p, t)
  {
  }

  lemma MovedRow(cfg: Config, db: Db, ev: Event)
    requires ev.op.Reschedule? && ev.op.id in db.rows
    ensures var id, after := ev.op.id, Step(cfg, db, ev).rows;
      id in after && (after[id] != db.rows[id] <==> Decide(cfg, db, ev.time, ev.op).effect.Move?)
  {
    hide IndexOk, TargetClear, Unexpired, TokenFits;
  }

  /** An entry is dropped by exactly the calls that make it obsolete. */
  lemma DroppedIff(cfg: Config, sys: Sys, ev: Event, key: Key)
    requires !ev.op.Query? && key in sys.cache
    ensures key in CachedStep(cfg, sys, ev).cache <==> !Outdates(cfg, sys.db, ev, key)
    ensures key in CachedStep(cfg, sys, ev).cache ==> CachedStep(cfg, sys, ev).cache[key] == sys.cache[key]
  {
    forall id ensures Stale(sys.db, id, ev.time) <==> Lapsed(sys.db, id, ev.time) {}
    if ev.op.Reschedule? && ev.op.id in sys.db.rows { MovedRow(cfg, sys.db, ev); }
    forall p, t ensures key in Stains(cfg, p, t) <==> About(cfg, key, p, t) { StainsIff(cfg, key, p, t); }
    hide Decide, Apply, Stale, Lapsed, Stains, About;
  }

  // ---- runs ----

  function Asks(key: Key): Op { Query(key.0, key.1) }

  /** What the service answers to a query now. */
  function Served(cfg: Config, sys: Sys, key: Key, now: int): seq<Slot> { Serve(cfg, sys, key.0, key.1, now).0 }

  /** The entry came from an earlier query of the run, computed from the tables of that moment, and nothing made it obsolete since. */
  ghost predicate CameFrom(cfg: Config, sys: Sys, run: seq<Event>, key: Key, entry: Entry, i: nat)
    requires i < |run|
  {
    && run[i].op == Asks(key) && entry.expiresAt == run[i].time + 45_000
    && entry.slots == FreshSlots(cfg, CachedExec(cfg, sys, run[..i]).db, key.0, key.1, run[i].time)
    && forall j :: i < j < |run| && !run[j].op.Query? ==> !Outdates(cfg, CachedExec(cfg, sys, run[..j]).db, run[j], key)
  }

  lemma {:induction false} CachedExecNext(cfg: Config, sys: Sys, run: seq<Event>)
    requires run != []
    ensures CachedExec(cfg, sys, run) == CachedStep(cfg, CachedExec(cfg, sys, run[..|run| - 1]), run[|run| - 1])
    decreases |run|
  {
    hide CachedStep;
    var n := |run| - 1;
    if n > 0 {
      CachedExecNext(cfg, CachedStep(cfg, sys, run[0]), run[1..]);
      assert run[..n][1..] == run[1..][..n - 1];
    } else {
      assert run[..0] == [] && run[1..] == [];
      assert CachedExec(cfg, sys, run) == CachedExec(cfg, CachedStep(cfg, sys, run[0]), []);
    }
  }

  /** A query keeps every unexpired entry, and stores a fresh one when its own is missing or expired. */
  lemma QueryStores(cfg: Config, sys: Sys, ev: Event, key: Key)
    requires ev.op.Query?
    ensures var next := CachedStep(cfg, sys, ev);
      && next.db == sys.db
      && (key in next.cache ==>
            || (key in sys.cache && next.cache[key] == sys.cache[key])
            || (ev.op == Asks(key) && next.cache[key] == Entry(ev.time + 45_000, FreshSlots(cfg, sys.db, key.0, key.1, ev.time))))
  {
    hide FreshSlots;
  }

  lemma {:induction false} EntriesAreRecent(cfg: Config, sys: Sys, run: seq<Event>, key: Key)
    requires sys.cache == map[] && key in CachedExec(cfg, sys, run).cache
    ensures exists i :: 0 <= i < |run| && CameFrom(cfg, sys, run, key, CachedExec(cfg, sys, run).cache[key], i)
    decreases |run|
  {
    hide CachedStep, Outdates, FreshSlots;
    if run != [] {
      var n := |run| - 1;
      var before, after := CachedExec(cfg, sys, run[..n]), CachedExec(cfg, sys, run);
      CachedExecNext(cfg, sys, run);
      if run[n].op.Query? { QueryStores(cfg, before, run[n], key); }
      if key in before.cache && after.cache[key] == before.cache[key] {
        if !run[n].op.Query? { DroppedIff(cfg, before, run[n], key); }
        EntriesAreRecent(cfg, sys, run[..n], key);
        var i :| 0 <= i < n && CameFrom(cfg, sys, run[..n], key, before.cache[key], i);
        forall j | 0 <= j < n ensures run[..n][..j] == run[..j] {}
        assert CameFrom(cfg, sys, run, key, after.cache[key], i);
      } else {
        NewEntry(cfg, before, run[n], key);
        assert CameFrom(cfg, sys, run, key, after.cache[key], n);
      }
    }
  }

  /** Only a query brings a new entry. */
  lemma NewEntry(cfg: Config, sys: Sys, ev: Event, key: Key)
    requires key in CachedStep(cfg, sys, ev).cache
    requires key in sys.cache ==> CachedStep(cfg, sys, ev).cache[key] != sys.cache[key]
    ensures ev.op == Asks(key)
    ensures CachedStep(cfg, sys, ev).cache[key] == Entry(ev.time + 45_000, FreshSlots(cfg, sys.db, key.0, key.1, ev.time))
  {
    if ev.op.Query? { QueryStores(cfg, sys, ev, key); }
    hide FreshSlots, Step, Dropped;
  }

  /**
   After any run of a service that started with an empty cache: an answer is what a fresh computation gives now, or what it
   gave at an earlier query of the run, less than 45 seconds ago and with no call since that makes it obsolete.
   */
  lemma ServedIsRecent(cfg: Config, sys: Sys, run: seq<Event>, key: Key, now: int)
    requires sys.cache == map[]
    ensures var last := CachedExec(cfg, sys, run);
      || Served(cfg, last, key, now) == FreshSlots(cfg, last.db, key.0, key.1, now)
      || exists i :: 0 <= i < |run| && now < run[i].time + 45_000
                     && CameFrom(cfg, sys, run, key, Entry(run[i].time + 45_000, Served(cfg, last, key, now)), i)
  {
    var last := CachedExec(cfg, sys, run);
    ServedOrFresh(cfg, last, key, now);
    hide CachedExec, Serve, FreshSlots, CameFrom;
    if Served(cfg, last, key, now) != FreshSlots(cfg, last.db, key.0, key.1, now) {
      EntriesAreRecent(cfg, sys, run, key);
      var i :| 0 <= i < |run| && CameFrom(cfg, sys, run, key, last.cache[key], i);
      ExpiryOf(cfg, sys, run, key, last.cache[key], i);
    }
  }

  lemma ExpiryOf(cfg: Config, sys: Sys, run: seq<Event>, key: Key, entry: Entry, i: nat)
    requires i < |run| && CameFrom(cfg, sys, run, key, entry, i)
    ensures entry.expiresAt == run[i].time + 45_000
  {
  }

  lemma ServedOrFresh(cfg: Config, sys: Sys, key: Key, now: int)
    ensures || Served(cfg, sys, key, now) == FreshSlots(cfg, sys.db, key.0, key.1, now)
            || (key in sys.cache && Served(cfg, sys, key, now) == sys.cache[key].slots && now < sys.cache[key].expiresAt)
  {
    if Targets(cfg, key.0) == [] { NobodyIsFree(cfg, sys.db, key.0, key.1, now); }
    hide DaySlots, KeepFree;
  }

  lemma NobodyIsFree(cfg: Config, db: Db, who: Option<Person>, date: int, now: int)
    requires Targets(cfg, who) == []
    ensures FreshSlots(cfg, db, who, date, now) == []
  {
    var offered := FreshSlots(cfg, db, who, date, now);
    if offered != [] { OfferedExact(cfg, db, who, date, now, offered[0]); }
    hide DaySlots, KeepFree, OpenDay;
  }

  // ---- and for how long an answer stands ----

  /** No call of the run makes the answers under the key obsolete. */
  ghost predicate LeavesAlone(cfg: Config, sys: Sys, run: seq<Event>, key: Key)
    decreases |run|
  {
    run == [] || (!Outdates(cfg, sys.db, run[0], key) && LeavesAlone(cfg, CachedStep(cfg, sys, run[0]), run[1..], key))
  }

  lemma StepKeepsEntry(cfg: Config, sys: Sys, ev: Event, key: Key)
    requires key in sys.cache && ev.time < sys.cache[key].expiresAt && !Outdates(cfg, sys.db, ev, key)
    ensures key in CachedStep(cfg, sys, ev).cache && CachedStep(cfg, sys, ev).cache[key] == sys.cache[key]
  {
    if ev.op.Query? {
      hide FreshSlots, Step, Outdates;
    } else {
      DroppedIff(cfg, sys, ev, key);
      hide CachedStep, Outdates;
    }
  }

  lemma {:induction false} RunKeepsEntry(cfg: Config, sys: Sys, start: int, run: seq<Event>, key: Key)
    requires key in sys.cache && Timeline(start, run) && EndTime(start, run) < sys.cache[key].expiresAt
    requires LeavesAlone(cfg, sys, run, key)
    ensures var last := CachedExec(cfg, sys, run);
      key in last.cache && last.cache[key] == sys.cache[key]
    decreases |run|
  {
    hide CachedStep, Outdates;
    if run != [] {
      TimesAscend(run);
      StepKeepsEntry(cfg, sys, run[0], key);
      RunKeepsEntry(cfg, CachedStep(cfg, sys, run[0]), run[0].time, run[1..], key);
    }
  }

  /** A computed answer is given again, unchanged, for 45 seconds, if no call makes it obsolete and the date stays open. */
  lemma AnswerStands(cfg: Config, sys: Sys, key: Key, t: int, run: seq<Event>, now: int)
    requires key !in sys.cache && Targets(cfg, key.0) != []
    requires OpenDay(cfg.hours, key.1, ZoneFor(cfg, key.0), t).Some? && OpenDay(cfg.hours, key.1, ZoneFor(cfg, key.0), now).Some?
    requires Timeline(t, run) && EndTime(t, run) <= now < t + 45_000
    requires LeavesAlone(cfg, CachedStep(cfg, sys, At(t, Asks(key))), run, key)
    ensures Served(cfg, CachedExec(cfg, CachedStep(cfg, sys, At(t, Asks(key))), run), key, now)
            == FreshSlots(cfg, sys.db, key.0, key.1, t)
  {
    var next := CachedStep(cfg, sys, At(t, Asks(key)));
    assert key in next.cache && next.cache[key] == Entry(t + 45_000, FreshSlots(cfg, sys.db, key.0, key.1, t));
    hide CachedStep, FreshSlots, LeavesAlone, CachedExec;
    RunKeepsEntry(cfg, next, t, run, key);
  }
}
