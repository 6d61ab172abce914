/** Holds shorter than 15 minutes let callers tell whether expireHolds ran. */
module ShortHolds {
  import opened Prelude
  import opened Store
  import opened Availability
  import opened Lifecycle
  import opened UniqueSlots
  import opened Expiry
  import opened Counterexamples

  /** One sweep added to one careful run, and nobody hears a difference. */
  ghost predicate Unheard(cfg: Config, cursor: int, start: int, before: seq<Event>, sweep: int, after: seq<Event>) {
    var eager := before + [At(sweep, ExpireHolds)] + after;
    Timeline(start, eager) && Timeline(start, before + after) && Careful(cfg, Fresh(cursor), WithoutSweeps(before + after))
    ==> Heard(cfg, Fresh(cursor), eager) == Heard(cfg, Fresh(cursor), before + after)
  }

  lemma HeardNext(cfg: Config, db: Db, e: Event, rest: seq<Event>)
    ensures Heard(cfg, db, [e] + rest) ==
      (if e.op.ExpireHolds? then [] else [VerdictOf(AnswerTo(cfg, db, e))]) + Heard(cfg, Step(cfg, db, e), rest)
  {
    hide Step, AnswerTo, VerdictOf;
    assert ([e] + rest)[1..] == rest;
  }

  lemma HeardTwo(cfg: Config, db: Db, a: Event, b: Event)
    requires !a.op.ExpireHolds? && !b.op.ExpireHolds?
    ensures Heard(cfg, db, [a, b]) == [VerdictOf(AnswerTo(cfg, db, a)), VerdictOf(AnswerTo(cfg, Step(cfg, db, a), b))]
  {
    hide Step, AnswerTo, VerdictOf;
    HeardNext(cfg, db, a, [b]);
    HeardNext(cfg, Step(cfg, db, a), b, []);
    assert [a] + [b] == [a, b] && [b] + [] == [b];
  }

  lemma HeardAcrossSweep(cfg: Config, db: Db, a: Event, t: int, b: Event)
    requires !a.op.ExpireHolds? && !b.op.ExpireHolds?
    ensures Heard(cfg, db, [a, At(t, ExpireHolds), b])
         == [VerdictOf(AnswerTo(cfg, db, a)), VerdictOf(AnswerTo(cfg, Apply(Step(cfg, db, a), t, Sweep), b))]
  {
    var s := At(t, ExpireHolds);
    SweepStep(cfg, Step(cfg, db, a), t);
    hide Step, AnswerTo, VerdictOf, Apply;
    HeardNext(cfg, db, a, [s, b]);
    HeardNext(cfg, Step(cfg, db, a), s, [b]);
    HeardNext(cfg, Step(cfg, Step(cfg, db, a), s), b, []);
    assert [a] + [s, b] == [a, s, b] && [s] + [b] == [s, b] && [b] + [] == [b];
  }

  function SpentHold(cfg: Config, p: Person): Db {
    Db(map[0 := Row(p, 0, HOUR, Hold, "a", None, 0)], map[0 := cfg.ttl], map[0 := 1], {}, 0, 1)
  }

  /** The two answers to a late confirmation by id. */
  lemma LateConfirm(cfg: Config, p: Person)
    requires cfg.ttl + 1 < BY_ID_WINDOW
    ensures var db := SpentHold(cfg, p);
            var t := cfg.ttl + 1;
            var ev := At(t, ConfirmBookingById(0, 1, "b"));
      AnswerTo(cfg, db, ev) == Accepted(0) && AnswerTo(cfg, Apply(db, t, Sweep), ev) == Rejected(Conflict)
  {
    assert Stale(SpentHold(cfg, p), 0, cfg.ttl + 1);
  }

  lemma TwoInOrder(now: int, b: Event, c: Event)
    requires now <= b.time <= c.time
    ensures Timeline(now, [b, c])
  {
    assert [b, c][1..] == [c] && [c][1..] == [];
  }

  lemma ThreeInOrder(a: Event, b: Event, c: Event)
    requires 0 <= a.time <= b.time <= c.time
    ensures Timeline(0, [a, b, c])
  {
    TwoInOrder(a.time, b, c);
    assert [a, b, c][1..] == [b, c];
  }

  lemma TwoAnswers(cfg: Config, hold: Event, byId: Event)
    requires cfg.staff != [] && cfg.ttl < BY_ID_WINDOW
    requires hold == At(0, HoldOp(cfg.staff[0], 0, HOUR, "a", AnyOf)) && byId == At(cfg.ttl + 1, ConfirmBookingById(0, 1, "b"))
    ensures var first := VerdictOf(AnswerTo(cfg, Fresh(0), hold));
      && Heard(cfg, Fresh(0), [hold, byId]) == [first, Yes(Accepted(0))]
      && Heard(cfg, Fresh(0), [hold, At(cfg.ttl + 1, ExpireHolds), byId]) == [first, No]
  {
    hide Step, AnswerTo, Heard, Apply, Timeline, Sound;
    var p := cfg.staff[0];
    FirstHold(cfg, 0, p, 0, HOUR, "a", AnyOf);
    assert Step(cfg, Fresh(0), hold) == SpentHold(cfg, p);
    hide SpentHold, HoldOp, Fresh;
    WholeMinutes(cfg);
    LateConfirm(cfg, p);
    HeardTwo(cfg, Fresh(0), hold, byId);
    HeardAcrossSweep(cfg, Fresh(0), hold, cfg.ttl + 1, byId);
  }

  /** A hold younger than 15 minutes that has run out is confirmed by id, unless a sweep came first. */
  lemma SweepIsHeard(cfg: Config, hold: Event, byId: Event)
    requires cfg.staff != [] && cfg.ttl < BY_ID_WINDOW
    requires hold == At(0, HoldOp(cfg.staff[0], 0, HOUR, "a", AnyOf)) && byId == At(cfg.ttl + 1, ConfirmBookingById(0, 1, "b"))
    ensures !Unheard(cfg, 0, 0, [hold], cfg.ttl + 1, [byId])
  {
    hide Heard, AnswerTo, VerdictOf, Fresh, Unheard;
    TwoAnswers(cfg, hold, byId);
    AroundSweep(cfg, hold, cfg.ttl + 1, byId);
  }

  /** What the three calls around and at a sweep amount to. */
  lemma AroundSweep(cfg: Config, a: Event, t: int, b: Event)
    requires 0 <= a.time <= t <= b.time && !a.op.Reschedule? && !b.op.Reschedule?
    ensures Unheard(cfg, 0, 0, [a], t, [b]) <==>
      Heard(cfg, Fresh(0), [a, At(t, ExpireHolds), b]) == Heard(cfg, Fresh(0), [a, b])
  {
    assert NoReschedule([a, b]) && Fit(cfg, Fresh(0), 0);
    hide Heard, Timeline, NoReschedule, Sound, Fresh, Fit, Careful, WithoutSweeps;
    ThreeInOrder(a, At(t, ExpireHolds), b);
    TwoInOrder(0, a, b);
    UnmovedIsCareful(cfg, Fresh(0), 0, [a, b]);
    assert [a] + [At(t, ExpireHolds)] + [b] == [a, At(t, ExpireHolds), b] && [a] + [b] == [a, b];
  }

  lemma WholeMinutes(cfg: Config)
    requires cfg.ttl < BY_ID_WINDOW
    ensures cfg.ttl + 1 < BY_ID_WINDOW
  {
    assert cfg.ttl == (cfg.ttl / MINUTE) * MINUTE;
  }

  /** Over careful runs expiring eagerly or lazily is the same to every caller exactly when holds last at least 15 minutes. */
  lemma LazyEqualsEagerIff(cfg: Config)
    requires cfg.staff != []
    ensures (forall cursor, start, before, sweep, after :: Unheard(cfg, cursor, start, before, sweep, after))
            <==> cfg.ttl >= BY_ID_WINDOW
  {
    if cfg.ttl >= BY_ID_WINDOW {
      forall cursor, start, before, sweep, after
        ensures Unheard(cfg, cursor, start, before, sweep, after)
      {
        if Timeline(start, before + [At(sweep, ExpireHolds)] + after) && Timeline(start, before + after)
           && Careful(cfg, Fresh(cursor), WithoutSweeps(before + after)) {
          LazyEqualsEager(cfg, cursor, start, before, sweep, after);
        }
      }
    } else {
      var hold := At(0, HoldOp(cfg.staff[0], 0, HOUR, "a", AnyOf));
      SweepIsHeard(cfg, hold, At(cfg.ttl + 1, ConfirmBookingById(0, 1, "b")));
    }
  }
}
