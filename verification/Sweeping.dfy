/** What one sweep of lapsed holds does to the tables and the cache. */
module Sweeping {
  import opened Store
  import opened Availability
  import opened Lifecycle
  import opened CachedView
  import opened CacheLaw

  /** The booking waits, on a plain or a mailed hold, that ran out before now. */
  predicate Lapsed(db: Db, id: RowId, now: int) {
    id in db.rows && db.rows[id].status in {Hold, PendingVerify} && id in db.holds && db.holds[id] < now
  }

  /**
   After a sweep the lapsed bookings, and no others, are expired and without a hold; nothing else in the tables
   changes, and the cache is emptied exactly when there was one.
   */
  lemma SweepExact(cfg: Config, sys: Sys, now: int)
    ensures var db, next := sys.db, CachedStep(cfg, sys, At(now, ExpireHolds));
      && next.db.rows.Keys == db.rows.Keys
      && (forall id :: id in db.rows ==>
            next.db.rows[id] == if Lapsed(db, id, now) then db.rows[id].(status := Expired) else db.rows[id])
      && next.db.holds.Keys == (set id | id in db.holds && !Lapsed(db, id, now))
      && (forall id :: id in next.db.holds ==> next.db.holds[id] == db.holds[id])
      && next.db == db.(rows := next.db.rows, holds := next.db.holds)
      && next.cache == if exists id :: Lapsed(db, id, now) then map[] else sys.cache
  {
    var db := sys.db;
    forall id ensures Stale(db, id, now) <==> Lapsed(db, id, now) {}
    hide Stale, Lapsed;
    assert map[] + db.secrets == db.secrets && db.used + {} == db.used;
  }
}
