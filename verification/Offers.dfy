/** What is offered can be held. */
module Offers {
  import opened Prelude
  import opened Store
  import opened Availability
  import opened Lifecycle
  import opened Invariants
  import opened UniqueSlots
  import opened Expiry
  import opened Slots

  /** Somebody free around a slot of the opening window gets the hold. */
  lemma FreeGetsHold(cfg: Config, db: Db, now: int, p: Person, slot: Slot, lo: int, hi: int, key: string, pick: Pick)
    requires Fit(cfg, db, now) && KeyRows(db.rows, key) == {} && cfg.hours.buffer >= 0
    requires lo <= slot.start < slot.end <= hi && FreeFor(db, cfg.hours, p, slot, lo, hi, now)
    ensures TryHold(cfg, db, now, p, slot.start, slot.end, key, pick).Held?
  {
    AttemptNeverClashes(cfg, db, now, p, slot.start, slot.end, key, pick);
    assert forall id :: id in db.rows && db.rows[id].Overlaps(p, slot.start, slot.end) ==> db.rows[id].Overlaps(p, lo, hi);
    assert forall id :: id in SlotRows(db.rows, p, slot.start, slot.end) ==> db.rows[id].Overlaps(p, slot.start, slot.end);
  }

  /** The offset at which the round robin reaches index `i`. */
  function OffsetOf(first: int, i: int, n: int): int
    requires n > 0
  {
    (i - first) % n
  }

  lemma OffsetReaches(first: int, i: int, n: int)
    requires 0 <= i < n
    ensures 0 <= OffsetOf(first, i, n) < n && Turn(first, OffsetOf(first, i, n), n) == i
  {
    var q := (i - first) / n;
    assert i - first == q * n + OffsetOf(first, i, n);
    assert first + OffsetOf(first, i, n) == (-q) * n + i;
    ModUnique(first + OffsetOf(first, i, n), -q, i, n);
  }

  /** If nobody's attempt clashes and one candidate's succeeds, somebody is placed. */
  lemma {:induction false} CandidateIsPlaced(cfg: Config, db: Db, now: int, ordered: seq<Person>, first: int, offset: nat, reach: nat,
                                             busy: set<Person>, s: int, e: int, key: string, pick: Pick)
    requires ordered != [] && offset <= reach < |ordered|
    requires forall p :: !TryHold(cfg, db, now, p, s, e, key, pick).Clash?
    requires var p := ordered[Turn(first, reach, |ordered|)];
             p !in busy && TryHold(cfg, db, now, p, s, e, key, pick).Held?
    ensures Allocate(cfg, db, now, ordered, first, offset, busy, s, e, key, pick).Placed?
    decreases |ordered| - offset
  {
    var p := ordered[Turn(first, offset, |ordered|)];
    if p in busy || TryHold(cfg, db, now, p, s, e, key, pick).Taken? {
      CandidateIsPlaced(cfg, db, now, ordered, first, offset + 1, reach, busy, s, e, key, pick);
    }
  }

  /** A request that some candidate can take is accepted, from any cursor. */
  lemma WillingIsAccepted(cfg: Config, db: Db, now: int, op: Op, i: nat)
    requires Fit(cfg, db, now) && op.CreateHold? && op.key != "" && op.start < op.end && KeyRows(db.rows, op.key) == {}
    requires i < |Targets(cfg, op.who)| && Targets(cfg, op.who)[i] !in op.busy
    requires TryHold(cfg, db, now, Targets(cfg, op.who)[i], op.start, op.end, op.key, op.pick).Held?
    ensures Decide(cfg, db, now, op).answer.Accepted?
  {
    var ordered := Targets(cfg, op.who);
    var first := FirstIndex(db.cursor, op.who, |ordered|);
    forall p
      ensures !TryHold(cfg, db, now, p, op.start, op.end, op.key, op.pick).Clash?
    {
      AttemptNeverClashes(cfg, db, now, p, op.start, op.end, op.key, op.pick);
    }
    OffsetReaches(first, i, |ordered|);
    CandidateIsPlaced(cfg, db, now, ordered, first, 0, OffsetOf(first, i, |ordered|), op.busy, op.start, op.end, op.key, op.pick);
  }

  /**
   Every slot that fresh availability offers, for one salesperson or for all
   together, is accepted by createHold at that instant under a new key, whatever
   the round-robin cursor holds.
   */
  lemma OfferedCanBeHeld(cfg: Config, cursor: int, start: int, run: seq<Event>, op: Op, date: int, now: int)
    requires Timeline(start, run) && NoReschedule(run) && EndTime(start, run) <= now && cfg.hours.buffer >= 0
    requires op.CreateHold? && op.key != "" && op.busy == {}
    requires var db := Exec(cfg, Fresh(cursor), run);
             KeyRows(db.rows, op.key) == {} && Slot(op.start, op.end) in FreshSlots(cfg, db, op.who, date, now)
    ensures Decide(cfg, Exec(cfg, Fresh(cursor), run), now, op).answer.Accepted?
  {
    var db := Exec(cfg, Fresh(cursor), run);
    RunKeepsGood(cfg, Fresh(cursor), start, run);
    RunKeepsSlotUnique(cfg, Fresh(cursor), run);
    SomebodyIsFree(cfg, db, op.who, date, now, Slot(op.start, op.end));
    var i, lo, hi :| 0 <= i < |Targets(cfg, op.who)| && lo <= op.start < op.end <= hi
                     && FreeFor(db, cfg.hours, Targets(cfg, op.who)[i], Slot(op.start, op.end), lo, hi, now);
    FreeGetsHold(cfg, db, now, Targets(cfg, op.who)[i], Slot(op.start, op.end), lo, hi, op.key, op.pick);
    WillingIsAccepted(cfg, db, now, op, i);
  }

  lemma SomebodyIsFree(cfg: Config, db: Db, who: Option<Person>, date: int, now: int, s: Slot)
    requires s in FreshSlots(cfg, db, who, date, now)
    ensures exists i, lo, hi :: 0 <= i < |Targets(cfg, who)| && lo <= s.start < s.end <= hi
                                && FreeFor(db, cfg.hours, Targets(cfg, who)[i], s, lo, hi, now)
  {
    OfferedExact(cfg, db, who, date, now, s);
    var zone := ZoneFor(cfg, who);
    var day := OpenDay(cfg.hours, date, zone, now).value;
    var mid := Midnight(date, zone);
    SlotsAscend(cfg.hours, day, mid, day.open, now + Minutes(cfg.hours.lead));
    var ss := SlotsFrom(cfg.hours, day, mid, day.open, now + Minutes(cfg.hours.lead));
    assert ss == DaySlots(cfg, who, date, now);
    var k :| 0 <= k < |ss| && ss[k] == s;
    var lo, hi := mid + Minutes(day.open), mid + Minutes(day.close);
    assert SomeFree(db, cfg.hours, Targets(cfg, who), s, lo, hi, now);
    var i :| 0 <= i < |Targets(cfg, who)| && FreeFor(db, cfg.hours, Targets(cfg, who)[i], s, lo, hi, now);
    assert lo <= s.start < s.end <= hi;
  }
}
