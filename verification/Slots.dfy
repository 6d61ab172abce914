/** Exactly which slots the slot loop produces. */
module Slots {
  import opened Prelude
  import opened Store
  import opened Availability

  /** The k-th grid slot from minute `from`, when it fits before closing, misses the breaks and the cutoff allows it. */
  predicate GridSlot(h: Hours, day: Day, midnight: int, from: int, cutoff: int, k: nat, s: Slot) {
    var m := from + k * h.slot;
    && m + h.slot <= day.close && !InBreak(day, m, m + h.slot)
    && s == SlotAt(midnight, m, h.slot) && s.start >= cutoff
  }

  /** The loop yields every such grid slot and nothing else. */
  lemma {:induction false} SlotsExact(h: Hours, day: Day, midnight: int, from: int, cutoff: int, s: Slot)
    requires h.slot > 0
    ensures s in SlotsFrom(h, day, midnight, from, cutoff) <==> exists k: nat :: GridSlot(h, day, midnight, from, cutoff, k, s)
    decreases day.close - from
  {
    if from + h.slot <= day.close {
      SlotsExact(h, day, midnight, from + h.slot, cutoff, s);
      var next := from + h.slot;
      forall k: nat
        ensures GridSlot(h, day, midnight, next, cutoff, k, s) <==> GridSlot(h, day, midnight, from, cutoff, k + 1, s)
      {
        assert next + k * h.slot == from + (k + 1) * h.slot;
      }
      if s in SlotsFrom(h, day, midnight, next, cutoff) {
        var k: nat :| GridSlot(h, day, midnight, next, cutoff, k, s);
        assert GridSlot(h, day, midnight, from, cutoff, k + 1, s);
      } else if s in SlotsFrom(h, day, midnight, from, cutoff) {
        assert GridSlot(h, day, midnight, from, cutoff, 0, s);
      } else {
        forall k: nat
          ensures !GridSlot(h, day, midnight, from, cutoff, k, s)
        {
          if k > 0 { assert !GridSlot(h, day, midnight, next, cutoff, k - 1, s); }
        }
      }
    } else {
      forall k: nat
        ensures !GridSlot(h, day, midnight, from, cutoff, k, s)
      {
        assert k * h.slot >= 0;
      }
    }
  }

  /** In order, without overlaps, and within the bounds. */
  predicate Ascending(ss: seq<Slot>, lo: int, hi: int) {
    && (forall i :: 0 <= i < |ss| ==> lo <= ss[i].start < ss[i].end <= hi)
    && (forall i, j :: 0 <= i < j < |ss| ==> ss[i].end <= ss[j].start)
  }

  lemma {:induction false} SlotsAscend(h: Hours, day: Day, midnight: int, from: int, cutoff: int)
    requires h.slot > 0
    ensures Ascending(SlotsFrom(h, day, midnight, from, cutoff), midnight + Minutes(from), midnight + Minutes(day.close))
    decreases day.close - from
  {
    if from + h.slot <= day.close {
      SlotsAscend(h, day, midnight, from + h.slot, cutoff);
    }
  }

  /** At most `fuel` iterations of the slot loop from minute `cursor` on; None when they do not reach its end. */
  function SlotLoop(h: Hours, day: Day, midnight: int, cursor: int, cutoff: int, fuel: nat): Option<seq<Slot>>
    decreases fuel
  {
    if cursor + h.slot > day.close then Some([])
    else if fuel == 0 then None
    else
      match SlotLoop(h, day, midnight, cursor + h.slot, cutoff, fuel - 1)
      case None => None
      case Some(rest) =>
        var s := SlotAt(midnight, cursor, h.slot);
        Some(if !InBreak(day, cursor, cursor + h.slot) && s.start >= cutoff then [s] + rest else rest)
  }

  lemma {:induction false} LoopYieldsSlots(h: Hours, day: Day, midnight: int, cursor: int, cutoff: int, fuel: nat)
    requires h.slot > 0
    ensures var r := SlotLoop(h, day, midnight, cursor, cutoff, fuel);
      (r.Some? ==> r.value == SlotsFrom(h, day, midnight, cursor, cutoff)) && (fuel >= day.close - cursor ==> r.Some?)
    decreases fuel
  {
    if cursor + h.slot <= day.close && fuel > 0 {
      LoopYieldsSlots(h, day, midnight, cursor + h.slot, cutoff, fuel - 1);
    }
  }

  lemma {:induction false} LoopGoesOn(h: Hours, day: Day, midnight: int, cursor: int, cutoff: int, fuel: nat)
    requires h.slot <= 0 && cursor <= day.close
    ensures SlotLoop(h, day, midnight, cursor, cutoff, fuel).None?
    decreases fuel
  {
    if fuel > 0 { LoopGoesOn(h, day, midnight, cursor + h.slot, cutoff, fuel - 1); }
  }

  /** On an open day the loop ends if and only if the slot length is positive, and then with exactly the day's slots. */
  lemma SlotLoopEndsIff(h: Hours, day: Day, midnight: int, cutoff: int)
    requires day.open < day.close
    ensures (exists fuel: nat :: SlotLoop(h, day, midnight, day.open, cutoff, fuel).Some?) <==> h.slot > 0
    ensures h.slot > 0 ==>
      SlotLoop(h, day, midnight, day.open, cutoff, day.close - day.open) == Some(SlotsFrom(h, day, midnight, day.open, cutoff))
  {
    if h.slot > 0 {
      LoopYieldsSlots(h, day, midnight, day.open, cutoff, day.close - day.open);
    } else {
      forall fuel: nat
        ensures SlotLoop(h, day, midnight, day.open, cutoff, fuel).None?
      {
        LoopGoesOn(h, day, midnight, day.open, cutoff, fuel);
      }
    }
  }

  lemma {:induction false} KeptExact(db: Db, h: Hours, who: seq<Person>, slots: seq<Slot>, lo: int, hi: int, now: int, s: Slot)
    ensures s in KeepFree(db, h, who, slots, lo, hi, now) <==> s in slots && SomeFree(db, h, who, s, lo, hi, now)
  {
    if slots != [] {
      KeptExact(db, h, who, slots[1..], lo, hi, now, s);
    }
  }

  /** A slot is offered exactly when it is a slot of the day and somebody asked for is free. */
  lemma OfferedExact(cfg: Config, db: Db, who: Option<Person>, date: int, now: int, s: Slot)
    ensures s in FreshSlots(cfg, db, who, date, now) <==>
            var day := OpenDay(cfg.hours, date, ZoneFor(cfg, who), now);
            var mid := Midnight(date, ZoneFor(cfg, who));
            && day.Some? && s in DaySlots(cfg, who, date, now)
            && SomeFree(db, cfg.hours, Targets(cfg, who), s, mid + Minutes(day.value.open), mid + Minutes(day.value.close), now)
  {
    var zone := ZoneFor(cfg, who);
    match OpenDay(cfg.hours, date, zone, now)
    case None =>
    case Some(day) =>
      var mid := Midnight(date, zone);
      KeptExact(db, cfg.hours, Targets(cfg, who), DaySlots(cfg, who, date, now),
                mid + Minutes(day.open), mid + Minutes(day.close), now, s);
  }
}
