/** Without reschedules the unique indexes never fire. */
module UniqueSlots {
  import opened Prelude
  import opened Store
  import opened Availability
  import opened Lifecycle
  import opened Invariants
  import opened Coherence

  /** At most one row, of whatever status, per salesperson and interval. */
  ghost predicate SlotUnique(rows: map<RowId, Row>) {
    forall a, b :: a in rows && b in rows && a != b ==> !rows[a].SameSlot(rows[b].person, rows[b].start, rows[b].end)
  }

  ghost predicate NoReschedule(run: seq<Event>) {
    forall i :: 0 <= i < |run| ==> !run[i].op.Reschedule?
  }

  lemma EffectKeepsSlotUnique(cfg: Config, db: Db, now: int, e: Effect)
    requires SlotUnique(db.rows) && Lawful(cfg, db, now, e) && !e.Move?
    ensures SlotUnique(Apply(db, now, e).rows)
  {
    if Settled(e) {
      SettledIsThinner(cfg, db, now, e);
    } else if e.Insert? {
      forall id | id in db.rows
        ensures !db.rows[id].SameSlot(e.row.person, e.row.start, e.row.end)
      {
        assert id !in SlotRows(db.rows, e.row.person, e.row.start, e.row.end);
      }
    }
  }

  lemma StepKeepsSlotUnique(cfg: Config, db: Db, ev: Event)
    requires SlotUnique(db.rows) && !ev.op.Reschedule?
    ensures SlotUnique(Step(cfg, db, ev).rows)
  {
    DecisionIsLawful(cfg, db, ev.time, ev.op);
    EffectFitsCall(cfg, db, ev.time, ev.op);
    EffectKeepsSlotUnique(cfg, db, ev.time, Decide(cfg, db, ev.time, ev.op).effect);
  }

  lemma {:induction false} RunKeepsSlotUnique(cfg: Config, db: Db, run: seq<Event>)
    requires SlotUnique(db.rows) && NoReschedule(run)
    ensures SlotUnique(Exec(cfg, db, run).rows)
    decreases |run|
  {
    if run != [] {
      StepKeepsSlotUnique(cfg, db, run[0]);
      RunKeepsSlotUnique(cfg, Step(cfg, db, run[0]), run[1..]);
    }
  }

  /** With one row per slot and a key no booking carries, an attempt is refused only because the slot is taken. */
  lemma AttemptNeverClashes(cfg: Config, db: Db, now: int, p: Person, s: int, e: int, key: string, pick: Pick)
    requires SlotUnique(db.rows) && KeyUnique(db.rows) && KeyRows(db.rows, key) == {} && db.nextId !in db.rows
    ensures !TryHold(cfg, db, now, p, s, e, key, pick).Clash?
  {
    var same := SlotRows(db.rows, p, s, e);
    forall id | id in db.rows
      ensures db.rows[id].key != key
    {
      assert id !in KeyRows(db.rows, key);
    }
    match FindFirst(pick, same)
    case Some(id) =>
      assert id in same;
      AttemptKeepsIndexes(db, now, Revive(id, key, now + cfg.ttl), id, key);
    case None =>
      forall id | id in db.rows
        ensures !db.rows[id].SameSlot(p, s, e)
      {
        assert id !in same;
      }
      AttemptKeepsIndexes(db, now, Insert(Row(p, s, e, Hold, key, None, now), now + cfg.ttl), db.nextId, key);
  }

  lemma AttemptKeepsIndexes(db: Db, now: int, e: Effect, x: RowId, key: string)
    requires SlotUnique(db.rows) && KeyUnique(db.rows)
    requires forall id :: id in db.rows ==> db.rows[id].key != key
    requires (e.Revive? && e.id == x && e.key == key && x in db.rows)
             || (e.Insert? && x == db.nextId && x !in db.rows && e.row.key == key
                 && (forall id :: id in db.rows ==> !db.rows[id].SameSlot(e.row.person, e.row.start, e.row.end)))
    ensures IndexOk(Apply(db, now, e).rows)
  {
  }

  lemma {:induction false} OnlyClashesAbort(cfg: Config, db: Db, now: int, ordered: seq<Person>, first: int, offset: nat,
                                            busy: set<Person>, s: int, e: int, key: string, pick: Pick)
    requires ordered != [] && (forall p :: !TryHold(cfg, db, now, p, s, e, key, pick).Clash?)
    ensures !Allocate(cfg, db, now, ordered, first, offset, busy, s, e, key, pick).Aborted?
    decreases |ordered| - offset
  {
    if offset < |ordered| {
      OnlyClashesAbort(cfg, db, now, ordered, first, offset + 1, busy, s, e, key, pick);
    }
  }

  lemma AllocationNeverAborts(cfg: Config, db: Db, now: int, ordered: seq<Person>, first: int,
                              busy: set<Person>, s: int, e: int, key: string, pick: Pick)
    requires SlotUnique(db.rows) && KeyUnique(db.rows) && KeyRows(db.rows, key) == {} && db.nextId !in db.rows
    requires ordered != []
    ensures !Allocate(cfg, db, now, ordered, first, 0, busy, s, e, key, pick).Aborted?
  {
    forall p
      ensures !TryHold(cfg, db, now, p, s, e, key, pick).Clash?
    {
      AttemptNeverClashes(cfg, db, now, p, s, e, key, pick);
    }
    OnlyClashesAbort(cfg, db, now, ordered, first, 0, busy, s, e, key, pick);
  }

  /**
   After any run without reschedules there is one row per slot and per key, and
   createHold's handler for a unique-index error is dead code.
   */
  lemma IndexesNeverFire(cfg: Config, cursor: int, start: int, run: seq<Event>, op: Op, now: int, first: int)
    requires Timeline(start, run) && NoReschedule(run) && op.CreateHold? && Targets(cfg, op.who) != []
    requires KeyRows(Exec(cfg, Fresh(cursor), run).rows, op.key) == {}
    ensures var db := Exec(cfg, Fresh(cursor), run);
            && SlotUnique(db.rows) && KeyUnique(db.rows)
            && !Allocate(cfg, db, now, Targets(cfg, op.who), first, 0, op.busy, op.start, op.end, op.key, op.pick).Aborted?
  {
    var db := Exec(cfg, Fresh(cursor), run);
    RunKeepsGood(cfg, Fresh(cursor), start, run);
    RunKeepsSlotUnique(cfg, Fresh(cursor), run);
    AllocationNeverAborts(cfg, db, now, Targets(cfg, op.who), first, op.busy, op.start, op.end, op.key, op.pick);
  }
}
