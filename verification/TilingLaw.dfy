/** For which intervals runs are free of double bookings: exactly those of one tiling. */
module TilingLaw {
  import opened Prelude
  import opened Store
  import opened Availability
  import opened Lifecycle
  import opened DoubleBooking
  import opened ConfirmedBookings
  import opened Counterexamples
  import opened RevivedConfirms
  import opened Slots

  /** Runs that ask for intervals from `f` never double book live bookings. */
  ghost predicate LiveSafe(cfg: Config, f: iset<(int, int)>) {
    forall cursor, start, run, now :: Timeline(start, run) && AllAsk(f, run) ==> Apart(Exec(cfg, Fresh(cursor), run), now)
  }

  /** They never reach two overlapping confirmed bookings. */
  ghost predicate ConfirmedSafe(cfg: Config, f: iset<(int, int)>) {
    forall cursor, start, run :: Timeline(start, run) && AllAsk(f, run) ==> ConfirmedApart(Exec(cfg, Fresh(cursor), run).rows)
  }

  lemma SameTime(t: int, run: seq<Event>)
    requires forall i :: 0 <= i < |run| ==> run[i].time == t
    ensures Timeline(t, run)
    decreases |run|
  {
    if run != [] { SameTime(t, run[1..]); }
  }

  lemma RevivalIsInOrder(cfg: Config, p: Person, pick: Pick, x: (int, int), y: (int, int))
    ensures Timeline(0, RevivalRun(cfg, p, pick, x, y))
  {
    var run := RevivalRun(cfg, p, pick, x, y);
    SameTime(cfg.ttl, run[1..]);
    assert Timeline(0, run) <==> Timeline(0, run[1..]);
    assert run[1..][1..] == run[2..];
  }

  /**
   Over all runs of all calls, whatever findFirst returns: no two live bookings of a
   salesperson ever overlap if and only if the intervals asked for come from one tiling.
   */
  lemma NeverDoubleBookedIff(cfg: Config, f: iset<(int, int)>)
    requires cfg.staff != []
    ensures LiveSafe(cfg, f) <==> Tiling(f)
  {
    hide Exec, Apart;
    if Tiling(f) {
      forall cursor, start, run, now | Timeline(start, run) && AllAsk(f, run)
        ensures Apart(Exec(cfg, Fresh(cursor), run), now)
      {
        NeverDoubleBooked(cfg, cursor, start, run, f, now);
      }
    } else {
      var x, y :| x in f && y in f && Meet(x, y) && x != y;
      var run := RevivalRun(cfg, cfg.staff[0], AnyOf, x, y);
      RevivalDoubleBooks(cfg, cfg.staff[0], AnyOf, x, y);
      RevivalIsInOrder(cfg, cfg.staff[0], AnyOf, x, y);
      assert AllAsk(f, run);
    }
  }

  /** Confirmed bookings are live at any time. */
  lemma ApartConfirmed(db: Db, now: int)
    requires Apart(db, now)
    ensures ConfirmedApart(db.rows)
  {
    forall a, b | a in db.rows && b in db.rows && a != b && db.rows[a].status.Confirmed? && db.rows[b].status.Confirmed?
      ensures !Collide(db.rows[a], db.rows[b])
    {
      assert Live(db, a, now) && Live(db, b, now);
    }
  }

  lemma ClashAsks(cfg: Config, p: Person, x: (int, int), y: (int, int), t: int, f: iset<(int, int)>)
    requires x in f && y in f
    ensures AllAsk(f, ClashRun(p, AnyOf, x, y, t)) && Timeline(t, ClashRun(p, AnyOf, x, y, t))
  {
    SameTime(t, ClashRun(p, AnyOf, x, y, t));
  }

  /** The same for confirmed bookings, over all runs with confirmations by id and reschedules. */
  lemma NeverDoubleConfirmedIff(cfg: Config, f: iset<(int, int)>)
    requires cfg.staff != []
    ensures ConfirmedSafe(cfg, f) <==> Tiling(f)
  {
    hide Exec, Apart, ConfirmedApart;
    if Tiling(f) {
      forall cursor, start, run | Timeline(start, run) && AllAsk(f, run)
        ensures ConfirmedApart(Exec(cfg, Fresh(cursor), run).rows)
      {
        NeverDoubleBooked(cfg, cursor, start, run, f, 0);
        ApartConfirmed(Exec(cfg, Fresh(cursor), run), 0);
      }
    } else {
      hide ClashRun, AllAsk;
      var x, y :| x in f && y in f && Meet(x, y) && x != y;
      ByIdDoubleConfirms(cfg, cfg.staff[0], AnyOf, x, y, LastCall(x));
      ClashAsks(cfg, cfg.staff[0], x, y, LastCall(x), f);
    }
  }

  // ---- the slots that are offered ----

  /** The interval is a slot of some date, for somebody in the zone, at some time. */
  ghost predicate IsOffered(cfg: Config, zone: int, x: (int, int)) {
    exists who, date, now :: ZoneFor(cfg, who) == zone && Slot(x.0, x.1) in DaySlots(cfg, who, date, now)
  }

  ghost function Offered(cfg: Config, zone: int): iset<(int, int)> { iset x: (int, int) | IsOffered(cfg, zone, x) :: x }

  /** Its place on the grid of its date. */
  ghost predicate OnGrid(cfg: Config, zone: int, x: (int, int), date: int, k: nat) {
    && Weekday(date) in cfg.hours.weekly
    && var day := cfg.hours.weekly[Weekday(date)];
       && day.open + k * cfg.hours.slot + cfg.hours.slot <= day.close
       && Slot(x.0, x.1) == SlotAt(Midnight(date, zone), day.open + k * cfg.hours.slot, cfg.hours.slot)
  }

  lemma OfferedIsOnGrid(cfg: Config, zone: int, x: (int, int)) returns (date: int, k: nat)
    requires IsOffered(cfg, zone, x)
    ensures OnGrid(cfg, zone, x, date, k)
  {
    var who, d, now :| ZoneFor(cfg, who) == zone && Slot(x.0, x.1) in DaySlots(cfg, who, d, now);
    var day := OpenDay(cfg.hours, d, zone, now).value;
    var mid, cutoff := Midnight(d, zone), now + Minutes(cfg.hours.lead);
    SlotsExact(cfg.hours, day, mid, day.open, cutoff, Slot(x.0, x.1));
    k :| GridSlot(cfg.hours, day, mid, day.open, cutoff, k, Slot(x.0, x.1));
    date := d;
  }

  lemma CellsInOrder(i: int, j: int, width: int)
    requires width > 0 && i < j
    ensures (i + 1) * width <= j * width
  {
    assert (j - i - 1) * width >= 0;
  }

  /** Minutes of one grid: the same cell, or one ends before the other begins. */
  lemma CellsApart(open: int, slot: int, i: nat, j: nat)
    requires slot > 0
    ensures i == j || open + i * slot + slot <= open + j * slot || open + j * slot + slot <= open + i * slot
  {
    assert i * slot + slot == (i + 1) * slot && j * slot + slot == (j + 1) * slot;
    if i < j { CellsInOrder(i, j, slot); }
    if j < i { CellsInOrder(j, i, slot); }
  }

  lemma WithinDate(cfg: Config, zone: int, x: (int, int), date: int, k: nat)
    requires OnGrid(cfg, zone, x, date, k)
    ensures Days(date) <= x.0 + zone && x.1 + zone < Days(date) + 86_400_000
  {
    assert k * cfg.hours.slot >= 0;
  }

  /** The slots of all dates in one zone form a tiling, whenever and for whomever they are computed. */
  lemma OfferedIsTiling(cfg: Config, zone: int)
    ensures Tiling(Offered(cfg, zone))
  {
    forall x, y | x in Offered(cfg, zone) && y in Offered(cfg, zone) && Meet(x, y)
      ensures x == y
    {
      var d, i := OfferedIsOnGrid(cfg, zone, x);
      var e, j := OfferedIsOnGrid(cfg, zone, y);
      WithinDate(cfg, zone, x, d, i);
      WithinDate(cfg, zone, y, e, j);
      assert d == e;
      CellsApart(cfg.hours.weekly[Weekday(d)].open, cfg.hours.slot, i, j);
      assert i == j;
    }
  }

  /** Customers who ask for offered slots of one zone are never double booked. */
  lemma OfferedNeverDoubleBooked(cfg: Config, cursor: int, start: int, run: seq<Event>, zone: int, now: int)
    requires Timeline(start, run) && AllAsk(Offered(cfg, zone), run)
    ensures Apart(Exec(cfg, Fresh(cursor), run), now) && ConfirmedApart(Exec(cfg, Fresh(cursor), run).rows)
  {
    OfferedIsTiling(cfg, zone);
    NeverDoubleBooked(cfg, cursor, start, run, Offered(cfg, zone), now);
    ApartConfirmed(Exec(cfg, Fresh(cursor), run), now);
  }
}
