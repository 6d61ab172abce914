/** The round robin over the active salespersons neither starves nor favours anybody. */
module RoundRobin {
  import opened Prelude
  import opened Store
  import opened Availability
  import opened Lifecycle
  import opened Coherence

  /** JavaScript's double remainder puts any cursor, negative ones too, into range. */
  lemma CursorInRange(cursor: int, n: int)
    requires n > 0
    ensures FirstIndex(cursor, None, n) == cursor % n
  {
    if cursor >= 0 {
      ModWrap(cursor % n + n, n);
    } else {
      var q := -((-cursor) / n);
      DivMod(-cursor, n);
      assert cursor == -((-cursor) % n) + q * n;
      ModCongruent(cursor, -((-cursor) % n), q, n);
      ModWrap(-((-cursor) % n), n);
      ModWrap(-((-cursor) % n) + n, n);
    }
  }

  /** How many turns away index `i` is from the cursor. */
  function Away(cursor: int, i: int, n: int): int
    requires n > 0
  {
    (i - cursor) % n
  }

  /** A successful automatic assignment: the call wrote a hold nobody was named for. */
  predicate Assigns(cfg: Config, db: Db, ev: Event) {
    && ev.op.CreateHold? && ev.op.who.None?
    && var e := Decide(cfg, db, ev.time, ev.op).effect;
       e.Insert? || e.Revive?
  }

  /** The index in `staff` of the salesperson an automatic assignment chose. */
  function ChosenIndex(cfg: Config, db: Db, ev: Event): nat
    requires Assigns(cfg, db, ev)
  {
    AssignmentPlaces(cfg, db, ev);
    Allocation(cfg, db, ev).index
  }

  function Allocation(cfg: Config, db: Db, ev: Event): Placement
    requires ev.op.CreateHold? && cfg.staff != []
  {
    Allocate(cfg, db, ev.time, cfg.staff, FirstIndex(db.cursor, None, |cfg.staff|), 0,
             ev.op.busy, ev.op.start, ev.op.end, ev.op.key, ev.op.pick)
  }

  lemma AssignmentPlaces(cfg: Config, db: Db, ev: Event)
    requires Assigns(cfg, db, ev)
    ensures cfg.staff != [] && Allocation(cfg, db, ev).Placed? && Allocation(cfg, db, ev).index < |cfg.staff|
    ensures Step(cfg, db, ev).cursor == (Allocation(cfg, db, ev).index + 1) % |cfg.staff|
    ensures !Skips(cfg, db, ev, Allocation(cfg, db, ev).index)
  {
    FirstTakerIsPlaced(cfg, db, ev.time, cfg.staff, FirstIndex(db.cursor, None, |cfg.staff|), 0,
                       ev.op.busy, ev.op.start, ev.op.end, ev.op.key, ev.op.pick);
  }

  /** This candidate does not take the request. */
  predicate Skips(cfg: Config, db: Db, ev: Event, i: nat)
    requires ev.op.CreateHold? && i < |cfg.staff|
  {
    cfg.staff[i] in ev.op.busy
    || !TryHold(cfg, db, ev.time, cfg.staff[i], ev.op.start, ev.op.end, ev.op.key, ev.op.pick).Held?
  }

  /** The placed candidate is the first, in cyclic order from the cursor, who takes the request. */
  lemma {:induction false} FirstTakerIsPlaced(cfg: Config, db: Db, now: int, ordered: seq<Person>, first: int, offset: nat,
                                              busy: set<Person>, s: int, e: int, key: string, pick: Pick)
    requires ordered != []
    ensures var a := Allocate(cfg, db, now, ordered, first, offset, busy, s, e, key, pick);
            a.Placed? ==>
              && a.index < |ordered| && ordered[a.index] !in busy
              && TryHold(cfg, db, now, ordered[a.index], s, e, key, pick).Held?
              && exists o :: offset <= o < |ordered| && a.index == Turn(first, o, |ordered|)
                             && forall k :: offset <= k < o ==>
                                  var p := ordered[Turn(first, k, |ordered|)];
                                  p in busy || !TryHold(cfg, db, now, p, s, e, key, pick).Held?
    decreases |ordered| - offset
  {
    hide TryHold;
    if offset < |ordered| {
      FirstTakerIsPlaced(cfg, db, now, ordered, first, offset + 1, busy, s, e, key, pick);
      var a := Allocate(cfg, db, now, ordered, first, offset, busy, s, e, key, pick);
      var p := ordered[Turn(first, offset, |ordered|)];
      if a.Placed? && (p in busy || !TryHold(cfg, db, now, p, s, e, key, pick).Held?) {
        var o :| offset + 1 <= o < |ordered| && a.index == Turn(first, o, |ordered|)
                 && forall k :: offset + 1 <= k < o ==>
                      var p := ordered[Turn(first, k, |ordered|)];
                      p in busy || !TryHold(cfg, db, now, p, s, e, key, pick).Held?;
        assert offset <= o;
      } else if a.Placed? {
        assert a.index == Turn(first, offset, |ordered|);
      }
    }
  }

  /** Passing `o` candidates and moving one past the chosen one brings index `i` that much nearer. */
  lemma AwayAfter(cursor: int, i: int, o: int, n: int)
    requires 0 <= i < n && 0 <= o < n
    ensures var c := Turn(cursor % n, o, n);
            && (o == Away(cursor, i, n) ==> c == i)
            && (o < Away(cursor, i, n) ==> Away((c + 1) % n, i, n) == Away(cursor, i, n) - o - 1)
            && (o == 0 == Away(cursor, i, n) ==> Away((c + 1) % n, i, n) == n - 1)
  {
    var d := cursor % n;
    var c := Turn(d, o, n);
    DivMod(cursor, n);
    ModCongruent(i - d, i - cursor, cursor / n, n);
    ModWrap(i - d, n);
    ModWrap(d + o, n);
    ModWrap(c + 1, n);
    ModWrap(i - (c + 1) % n, n);
  }

  /** The number of candidates passed over in an assignment. */
  lemma PassedOver(cfg: Config, db: Db, ev: Event) returns (o: nat)
    requires Assigns(cfg, db, ev)
    ensures var n := |cfg.staff|;
            && o < n && ChosenIndex(cfg, db, ev) == Turn(db.cursor % n, o, n)
            && forall k :: 0 <= k < o ==> Skips(cfg, db, ev, Turn(db.cursor % n, k, n))
  {
    AssignmentPlaces(cfg, db, ev);
    CursorInRange(db.cursor, |cfg.staff|);
    FirstTakerIsPlaced(cfg, db, ev.time, cfg.staff, db.cursor % |cfg.staff|, 0,
                       ev.op.busy, ev.op.start, ev.op.end, ev.op.key, ev.op.pick);
    hide Assigns, TryHold, Allocate;
    o :| 0 <= o < |cfg.staff| && ChosenIndex(cfg, db, ev) == Turn(db.cursor % |cfg.staff|, o, |cfg.staff|)
         && forall k :: 0 <= k < o ==>
              var p := cfg.staff[Turn(db.cursor % |cfg.staff|, k, |cfg.staff|)];
              p in ev.op.busy || !TryHold(cfg, db, ev.time, p, ev.op.start, ev.op.end, ev.op.key, ev.op.pick).Held?;
  }

  /** A candidate who would take the request is chosen, or comes nearer to the front. */
  lemma TakerComesNearer(cfg: Config, db: Db, ev: Event, i: nat)
    requires Assigns(cfg, db, ev) && i < |cfg.staff| && !Skips(cfg, db, ev, i)
    ensures var n := |cfg.staff|;
            ChosenIndex(cfg, db, ev) == i || Away(Step(cfg, db, ev).cursor, i, n) < Away(db.cursor, i, n)
  {
    var n := |cfg.staff|;
    var o := PassedOver(cfg, db, ev);
    AssignmentPlaces(cfg, db, ev);
    AwayAfter(db.cursor, i, o, n);
    if Away(db.cursor, i, n) < o {
      AwayAfter(db.cursor, i, Away(db.cursor, i, n), n);
    }
  }

  /** Named requests, refusals, replays and all other calls leave the cursor alone. */
  lemma OnlyAssignmentsMoveCursor(cfg: Config, db: Db, ev: Event)
    requires !Assigns(cfg, db, ev)
    ensures Step(cfg, db, ev).cursor == db.cursor
  {
    if ev.op.CreateHold? && Targets(cfg, ev.op.who) != [] {
      var ordered := Targets(cfg, ev.op.who);
      PlacementWrites(cfg, db, ev.time, ordered, FirstIndex(db.cursor, ev.op.who, |ordered|), 0,
                      ev.op.busy, ev.op.start, ev.op.end, ev.op.key, ev.op.pick);
    }
  }

  // ---- runs ----

  /** Automatic assignments in a run. */
  function Assignments(cfg: Config, db: Db, run: seq<Event>): nat
    decreases |run|
  {
    if run == [] then 0
    else (if Assigns(cfg, db, run[0]) then 1 else 0) + Assignments(cfg, Step(cfg, db, run[0]), run[1..])
  }

  /** How many of them went to index `i`. */
  function Share(cfg: Config, db: Db, run: seq<Event>, i: nat): nat
    decreases |run|
  {
    if run == [] then 0
    else (if Assigns(cfg, db, run[0]) && ChosenIndex(cfg, db, run[0]) == i then 1 else 0)
         + Share(cfg, Step(cfg, db, run[0]), run[1..], i)
  }

  /** `i` would have taken every request that was assigned automatically. */
  ghost predicate Takes(cfg: Config, db: Db, run: seq<Event>, i: nat)
    requires i < |cfg.staff|
    decreases |run|
  {
    run == [] || ((Assigns(cfg, db, run[0]) ==> !Skips(cfg, db, run[0], i)) && Takes(cfg, Step(cfg, db, run[0]), run[1..], i))
  }

  lemma {:induction false} WaitIsBounded(cfg: Config, db: Db, run: seq<Event>, i: nat)
    requires i < |cfg.staff| && Takes(cfg, db, run, i) && Share(cfg, db, run, i) == 0
    ensures Assignments(cfg, db, run) <= Away(db.cursor, i, |cfg.staff|)
    decreases |run|
  {
    hide Assigns, ChosenIndex, Skips, Step;
    if run != [] {
      WaitIsBounded(cfg, Step(cfg, db, run[0]), run[1..], i);
      if Assigns(cfg, db, run[0]) {
        TakerComesNearer(cfg, db, run[0], i);
      } else {
        OnlyAssignmentsMoveCursor(cfg, db, run[0]);
      }
    }
  }

  /**
   Nobody starves: over any run of calls, whatever the cursor starts from, a
   salesperson who would take every automatic request is chosen by the time as
   many assignments are made as there are active salespersons.
   */
  lemma NobodyStarves(cfg: Config, db: Db, run: seq<Event>, i: nat)
    requires i < |cfg.staff| && Takes(cfg, db, run, i) && Assignments(cfg, db, run) >= |cfg.staff|
    ensures Share(cfg, db, run, i) > 0
  {
    if Share(cfg, db, run, i) == 0 {
      WaitIsBounded(cfg, db, run, i);
    }
  }

  /** When everybody takes everything, the front of the queue is chosen. */
  lemma FrontIsChosen(cfg: Config, db: Db, ev: Event, i: nat)
    requires Assigns(cfg, db, ev) && i < |cfg.staff|
    requires forall k :: 0 <= k < |cfg.staff| ==> !Skips(cfg, db, ev, k)
    ensures var n := |cfg.staff|;
            var a := Away(db.cursor, i, n);
            && (ChosenIndex(cfg, db, ev) == i <==> a == 0)
            && Away(Step(cfg, db, ev).cursor, i, n) == (if a == 0 then n - 1 else a - 1)
  {
    hide Skips;
    var n := |cfg.staff|;
    var o := PassedOver(cfg, db, ev);
    assert !Skips(cfg, db, ev, Turn(db.cursor % n, 0, n));
    assert o == 0;
    AssignmentPlaces(cfg, db, ev);
    AwayAfter(db.cursor, i, 0, n);
    if Away(db.cursor, i, n) > 0 && ChosenIndex(cfg, db, ev) == i {
      SelfIsFar(db.cursor, i, n);
    }
  }

  lemma SelfIsFar(cursor: int, i: int, n: int)
    requires 0 <= i < n && Turn(cursor % n, 0, n) == i
    ensures Away(cursor, i, n) == 0
  {
    ModUnique(cursor % n, 0, cursor % n, n);
    ModUnique(i - cursor, -(cursor / n), 0, n);
  }

  ghost predicate AllTake(cfg: Config, db: Db, run: seq<Event>) {
    forall k :: 0 <= k < |cfg.staff| ==> Takes(cfg, db, run, k)
  }

  /** With everybody willing, the share of `i` depends on its distance from the cursor alone. */
  lemma {:induction false} ShareByDistance(cfg: Config, db: Db, run: seq<Event>, i: nat)
    requires i < |cfg.staff| && AllTake(cfg, db, run)
    ensures var n := |cfg.staff|;
            Share(cfg, db, run, i) == (Assignments(cfg, db, run) + n - 1 - Away(db.cursor, i, n)) / n
    decreases |run|
  {
    hide Decide, ChosenIndex, Skips, Step, Away;
    var n := |cfg.staff|;
    if run != [] {
      var next := Step(cfg, db, run[0]);
      forall k | 0 <= k < n
        ensures Takes(cfg, next, run[1..], k) && (Assigns(cfg, db, run[0]) ==> !Skips(cfg, db, run[0], k))
      {
        assert Takes(cfg, db, run, k);
      }
      ShareByDistance(cfg, next, run[1..], i);
      if Assigns(cfg, db, run[0]) {
        FrontIsChosen(cfg, db, run[0], i);
        var m := Assignments(cfg, next, run[1..]);
        if Away(db.cursor, i, n) == 0 { OneRoundMore(m, n); }
      } else {
        OnlyAssignmentsMoveCursor(cfg, db, run[0]);
      }
    } else {
      AwayInRange(db.cursor, i, n);
      DivSmall(n - 1 - Away(db.cursor, i, n), n);
    }
  }

  lemma AwayInRange(cursor: int, i: int, n: int)
    requires n > 0
    ensures 0 <= Away(cursor, i, n) < n
  {
  }

  lemma DivSmall(x: int, n: int)
    requires 0 <= x < n
    ensures x / n == 0
  {
    ModUnique(x, 0, x, n);
    assert x == (x / n) * n + x;
    MulApart(x / n, n);
  }

  lemma OneRoundMore(m: nat, n: int)
    requires n > 0
    ensures 1 + m / n == (m + n) / n
  {
    ModUnique(m + n, m / n + 1, m % n, n);
    var d := (m + n) / n - m / n - 1;
    assert d * n == 0;
    MulApart(d, n);
  }

  /** Fairness: with everybody willing, any two shares differ by at most one, over any run. */
  lemma SharesAreEven(cfg: Config, db: Db, run: seq<Event>, i: nat, j: nat)
    requires i < |cfg.staff| && j < |cfg.staff| && AllTake(cfg, db, run)
    ensures -1 <= Share(cfg, db, run, i) - Share(cfg, db, run, j) <= 1
  {
    hide AllTake, Share, Assignments;
    var n := |cfg.staff|;
    ShareByDistance(cfg, db, run, i);
    ShareByDistance(cfg, db, run, j);
    DivsAreClose(Assignments(cfg, db, run), Away(db.cursor, i, n), Away(db.cursor, j, n), n);
  }

  lemma DivsAreClose(m: nat, a: int, b: int, n: int)
    requires 0 <= a < n && 0 <= b < n
    ensures -1 <= (m + n - 1 - a) / n - (m + n - 1 - b) / n <= 1
  {
    var x, y := m + n - 1 - a, m + n - 1 - b;
    var d := x / n - y / n;
    assert d * n == (x - x % n) - (y - y % n);
    assert (d - 1) * n == d * n - n && (d + 1) * n == d * n + n;
    MulApart(d - 1, n);
    MulApart(d + 1, n);
  }
}
