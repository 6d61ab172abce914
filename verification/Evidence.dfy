/**
 What each change of a booking takes: which call, with which credentials and at
 which state of the tables; and what therefore lies behind every booking of a run.
 */
module Evidence {
  import opened Prelude
  import opened Store
  import opened Availability
  import opened Lifecycle
  import opened Invariants
  import opened Coherence
  import opened CacheLaw
  import opened OneCall
  import opened IndexHandler
  import opened Credentials

  /** How a row comes to a status it did not have, and to another interval. */
  lemma TurnsBy(db: Db, now: int, e: Effect, x: RowId)
    requires x in db.rows && db.nextId !in db.rows
    requires e.Void? || e.Unhold? || e.Seal? || e.MarkVerify? || e.Expire? || e.Move? || e.Revive? ==> e.id in db.rows
    requires e.Move? ==> (db.rows[e.id].start, db.rows[e.id].end) != (e.start, e.end)
    ensures x in Apply(db, now, e).rows
    ensures var before, after := db.rows[x], Apply(db, now, e).rows[x];
      && (after.status.Canceled? && !before.status.Canceled? <==> e == Void(x) && !before.status.Canceled?)
      && (after.status.Confirmed? && !before.status.Confirmed? <==> e == Seal(x) && !before.status.Confirmed?)
      && (after.status.PendingVerify? && !before.status.PendingVerify? <==> e == MarkVerify(x) && !before.status.PendingVerify?)
      && (after.status.Expired? && !before.status.Expired? <==>
            !before.status.Expired? && (e == Expire(x) || (e.Sweep? && before.status.Waiting() && x in db.holds && db.holds[x] < now)))
      && ((after.start, after.end) != (before.start, before.end) <==> e.Move? && e.id == x)
  {
  }

  lemma Effects(cfg: Config, db: Db, ev: Event, x: RowId)
    requires x in db.rows && db.nextId !in db.rows
    ensures x in Step(cfg, db, ev).rows
    ensures Step(cfg, db, ev).rows == Apply(db, ev.time, Decide(cfg, db, ev.time, ev.op).effect).rows
    ensures var e := Decide(cfg, db, ev.time, ev.op).effect;
      && (e.Void? || e.Unhold? || e.Seal? || e.MarkVerify? || e.Expire? || e.Move? || e.Revive? ==> e.id in db.rows)
  {
    StepRows(cfg, db, ev);
    DecisionIsLawful(cfg, db, ev.time, ev.op);
    var e := Decide(cfg, db, ev.time, ev.op).effect;
    hide Decide, Step, Checked, IndexOk;
    RowStays(db, ev.time, e, x);
  }

  lemma RowStays(db: Db, now: int, e: Effect, x: RowId)
    requires x in db.rows
    ensures x in Apply(db, now, e).rows
  {
  }

  lemma MovesElsewhere(cfg: Config, db: Db, now: int, op: Op)
    ensures var e := Decide(cfg, db, now, op).effect;
      e.Move? ==> e.id in db.rows && (db.rows[e.id].start, db.rows[e.id].end) != (e.start, e.end)
  {
    EffectFitsCall(cfg, db, now, op);
    if op.Reschedule? { hide IndexOk, TargetClear; } else { hide Decide; }
  }

  // ---- what makes a call write ----

  /** The call is a cancellation by the booking's own token, under a new key, confirmed and a day or more ahead. */
  predicate Cancels(db: Db, now: int, op: Op, x: RowId) {
    && op.CancelBooking? && op.id == x && Proves(op.token, CancelIt, x, now)
    && op.key != "" && (ForCancel, op.key) !in db.used
    && x in db.rows && db.rows[x].status.Confirmed? && now + Days(1) <= db.rows[x].start
  }

  /** A confirmation by token that reaches the booking's state: mailed, and under the token name it carries. */
  predicate Presents(db: Db, now: int, op: Op, x: RowId) {
    && op.ConfirmBooking? && Proves(op.token, Verify, x, now) && op.key != "" && (ForConfirm, op.key) !in db.used
    && x in db.rows && db.rows[x].status.PendingVerify? && db.rows[x].jti == Some(op.token.jti)
  }

  predicate Unspent(db: Db, x: RowId, now: int) { x in db.holds && db.holds[x] > now }

  predicate OthersLive(db: Db, x: RowId, now: int)
    requires x in db.rows
  {
    Blocked(db, {x}, db.rows[x].person, db.rows[x].start, db.rows[x].end, now)
  }

  /** A confirmation: by token on an unspent hold nobody else overlaps, or by id with the booking's secret. */
  predicate Confirms(db: Db, now: int, op: Op, x: RowId) {
    || (Presents(db, now, op, x) && Unspent(db, x, now) && !OthersLive(db, x, now))
    || (op.ConfirmBookingById? && op.id == x && ByIdPasses(db, now, x, op.given, op.key))
  }

  predicate MailCall(db: Db, now: int, op: Op, x: RowId) {
    && op.SendVerification? && op.id == x && op.key != "" && x in db.rows && db.rows[x].status.Waiting() && x in db.holds
  }

  /** A call that finds the booking's hold spent, or gone, and says so on its row. */
  predicate FindsSpent(db: Db, now: int, op: Op, x: RowId) {
    (MailCall(db, now, op, x) || Presents(db, now, op, x)) && !Unspent(db, x, now)
  }

  lemma VoidIff(cfg: Config, db: Db, now: int, op: Op, x: RowId)
    ensures Decide(cfg, db, now, op).effect == Void(x) <==> Cancels(db, now, op, x)
  {
    if op.CancelBooking? {
      ProvesIff(op.token, CancelIt, op.id, now);
      hide Unexpired, TokenFits, Proves;
    } else {
      EffectFitsCall(cfg, db, now, op);
      hide Decide;
    }
  }

  lemma SealIff(cfg: Config, db: Db, now: int, op: Op, x: RowId)
    ensures Decide(cfg, db, now, op).effect == Seal(x) <==> Confirms(db, now, op, x)
  {
    if op.ConfirmBooking? {
      ProvesIff(op.token, Verify, op.token.booking, now);
      hide Unexpired, Blocked, ByIdPasses;
    } else if op.ConfirmBookingById? {
      ByIdDecides(cfg, db, now, op);
      hide Decide, ByIdPasses;
    } else {
      EffectFitsCall(cfg, db, now, op);
      hide Decide;
    }
  }

  lemma MarkIff(cfg: Config, db: Db, now: int, op: Op, x: RowId)
    ensures Decide(cfg, db, now, op).effect == MarkVerify(x) <==>
      MailCall(db, now, op, x) && (ForVerify, op.key) !in db.used && Unspent(db, x, now)
  {
    if !op.SendVerification? {
      EffectFitsCall(cfg, db, now, op);
      hide Decide;
    }
  }

  lemma ExpireIff(cfg: Config, db: Db, now: int, op: Op, x: RowId)
    ensures Decide(cfg, db, now, op).effect == Expire(x) <==> FindsSpent(db, now, op, x)
  {
    if op.ConfirmBooking? {
      ProvesIff(op.token, Verify, op.token.booking, now);
      hide Unexpired, Blocked;
    } else if !op.SendVerification? {
      EffectFitsCall(cfg, db, now, op);
      hide Decide;
    }
  }

  // ---- what each change of a booking takes ----

  /** One call and one booking: exactly which calls change its status, and how. */
  lemma ChangesIff(cfg: Config, db: Db, ev: Event, x: RowId)
    requires x in db.rows && db.nextId !in db.rows
    ensures x in Step(cfg, db, ev).rows
    ensures var before, after := db.rows[x], Step(cfg, db, ev).rows[x];
      && (after.status.Canceled? && !before.status.Canceled? <==> Cancels(db, ev.time, ev.op, x))
      && (after.status.Confirmed? && !before.status.Confirmed? <==> Confirms(db, ev.time, ev.op, x) && !before.status.Confirmed?)
      && (after.status.PendingVerify? && !before.status.PendingVerify? <==>
            before.status.Hold? && MailCall(db, ev.time, ev.op, x) && (ForVerify, ev.op.key) !in db.used && Unspent(db, x, ev.time))
      && (after.status.Expired? && !before.status.Expired? <==>
            FindsSpent(db, ev.time, ev.op, x)
            || (ev.op.ExpireHolds? && before.status.Waiting() && x in db.holds && db.holds[x] < ev.time))
  {
    var e := Decide(cfg, db, ev.time, ev.op).effect;
    Effects(cfg, db, ev, x);
    MovesElsewhere(cfg, db, ev.time, ev.op);
    TurnsBy(db, ev.time, e, x);
    VoidIff(cfg, db, ev.time, ev.op, x);
    SealIff(cfg, db, ev.time, ev.op, x);
    MarkIff(cfg, db, ev.time, ev.op, x);
    ExpireIff(cfg, db, ev.time, ev.op, x);
    SweepIff(cfg, db, ev.time, ev.op);
    hide Decide, Step, Apply, OthersLive, ByIdPasses, Proves, Unspent;
  }

  lemma SweepIff(cfg: Config, db: Db, now: int, op: Op)
    ensures Decide(cfg, db, now, op).effect.Sweep? <==> op.ExpireHolds?
  {
    if !op.ExpireHolds? {
      EffectFitsCall(cfg, db, now, op);
      hide Decide;
    }
  }

  /** A booking is moved exactly by its own token, with every other test passed, to the interval asked for. */
  lemma MovedIff(cfg: Config, db: Db, ev: Event, x: RowId)
    requires x in db.rows && db.nextId !in db.rows && IndexOk(db.rows)
    ensures x in Step(cfg, db, ev).rows
    ensures var before, after := db.rows[x], Step(cfg, db, ev).rows[x];
      var moves := ev.op.Reschedule? && ev.op.id == x
                   && MovePasses(db, ev.time, x, ev.op.token, ev.op.start, ev.op.end, ev.op.key, ev.op.pick);
      && ((after.start, after.end) != (before.start, before.end) <==> moves)
      && (moves ==> after == before.(start := ev.op.start, end := ev.op.end))
  {
    var e := Decide(cfg, db, ev.time, ev.op).effect;
    Effects(cfg, db, ev, x);
    MovesElsewhere(cfg, db, ev.time, ev.op);
    TurnsBy(db, ev.time, e, x);
    EffectFitsCall(cfg, db, ev.time, ev.op);
    if ev.op.Reschedule? { MoveDecides(cfg, db, ev.time, ev.op); }
    hide Decide, Step, MovePasses, IndexOk;
  }

  /** And what they leave: the row they name in its new state with its hold and secret, and no other row changed. */
  lemma ChangesLeave(cfg: Config, db: Db, ev: Event, x: RowId)
    requires x in db.rows
    ensures var before, next := db.rows[x], Step(cfg, db, ev);
      && (Cancels(db, ev.time, ev.op, x) ==>
            next.rows == db.rows[x := before.(status := Canceled)] && next.holds == db.holds - {x} && next.secrets == db.secrets)
      && (Confirms(db, ev.time, ev.op, x) ==>
            && next.rows == db.rows[x := before.(status := Confirmed, jti := None)]
            && next.holds == db.holds - {x} && next.secrets == db.secrets - {x})
      && (MailCall(db, ev.time, ev.op, x) && (ForVerify, ev.op.key) !in db.used && Unspent(db, x, ev.time) ==>
            && next.rows == db.rows[x := before.(status := PendingVerify, jti := Some(if before.jti.Some? then before.jti.value else x))]
            && next.holds == db.holds && next.secrets == db.secrets)
      && (FindsSpent(db, ev.time, ev.op, x) ==>
            next.rows == db.rows[x := before.(status := Expired)] && next.holds == db.holds && next.secrets == db.secrets)
  {
    StepLeaves(cfg, db, ev);
    VoidIff(cfg, db, ev.time, ev.op, x);
    SealIff(cfg, db, ev.time, ev.op, x);
    MarkIff(cfg, db, ev.time, ev.op, x);
    ExpireIff(cfg, db, ev.time, ev.op, x);
    hide Decide, Step, OthersLive, ByIdPasses, Proves, Unspent;
  }

  lemma StepLeaves(cfg: Config, db: Db, ev: Event)
    ensures var d := Decide(cfg, db, ev.time, ev.op);
            var after := Apply(db, ev.time, d.effect);
      && Step(cfg, db, ev).rows == after.rows && Step(cfg, db, ev).holds == after.holds
      && Step(cfg, db, ev).secrets == d.mint + after.secrets && (!ev.op.CreateHold? ==> d.mint == map[])
  {
    hide Apply, IndexOk, Allocate, Blocked, TargetClear;
  }

  // ---- what an accepted hold leaves ----

  /** The row an attempt for `p` would write: the dead one found at the interval, or a new one. */
  function HeldId(db: Db, op: Op, p: Person): RowId
    requires op.CreateHold?
  {
    var found := FindFirst(op.pick, SlotRows(db.rows, p, op.start, op.end));
    if found.Some? then found.value else db.nextId
  }

  lemma AttemptLeaves(cfg: Config, db: Db, now: int, op: Op, p: Person)
    requires op.CreateHold? && db.nextId !in db.rows
    ensures var a, id := Attempted(cfg, db, now, op, p), HeldId(db, op, p);
      a.Held? ==>
        && a.id == id
        && Apply(db, now, a.effect).rows == db.rows[id := Row(p, op.start, op.end, Hold, op.key, None,
                                                              if id in db.rows then db.rows[id].created else now)]
        && Apply(db, now, a.effect).holds == db.holds[id := now + cfg.ttl]
  {
    var same := SlotRows(db.rows, p, op.start, op.end);
    if same != {} { assert op.pick(same) in same; }
    hide IndexOk, Live, Blocked;
  }

  /**
   A new hold that is granted goes to the salesperson in turn, for the interval and under the key asked for and until
   one time to live from now, on the dead row found there or on a new one; no other booking or hold changes.
   */
  lemma HoldLeaves(cfg: Config, db: Db, ev: Event, o: nat)
    requires Good(cfg, db, ev.time) && NewRequest(cfg, db, ev.op) && Served(cfg, db, ev.time, ev.op, o)
    ensures var p := Candidate(cfg, db, ev.op, o);
            var id, next := HeldId(db, ev.op, p), Step(cfg, db, ev);
      && AnswerTo(cfg, db, ev) == Accepted(id)
      && next.rows == db.rows[id := Row(p, ev.op.start, ev.op.end, Hold, ev.op.key, None,
                                        if id in db.rows then db.rows[id].created else ev.time)]
      && next.holds == db.holds[id := ev.time + cfg.ttl]
  {
    InTurnIsHeld(cfg, db, ev.time, ev.op, o);
    NextIdIsFree(cfg, db, ev.time);
    AttemptLeaves(cfg, db, ev.time, ev.op, Candidate(cfg, db, ev.op, o));
    StepRows(cfg, db, ev);
    hide Decide, Step, Apply, Attempted, Served, Good, Candidate, NewRequest, HeldId;
  }

  /** A request under a known key is answered with the booking that has it and changes no booking. */
  lemma KnownKeyLeaves(cfg: Config, db: Db, ev: Event, id: RowId)
    requires KeyUnique(db.rows) && id in db.rows && ev.op.CreateHold? && ev.op.key == db.rows[id].key
    requires ev.op.key != "" && ev.op.start < ev.op.end && Targets(cfg, ev.op.who) != []
    ensures AnswerTo(cfg, db, ev) == Accepted(id)
    ensures Step(cfg, db, ev).rows == db.rows && Step(cfg, db, ev).holds == db.holds && Step(cfg, db, ev).cursor == db.cursor
  {
    assert KeyRows(db.rows, ev.op.key) == {id};
    hide Allocate, KeyRows, Minted;
  }

  // ---- the secret of a booking ----

  /** A secret comes with an accepted hold of a booking that has none, never changes, and goes with its confirmation. */
  lemma SecretsIff(cfg: Config, db: Db, ev: Event, x: RowId, v: int)
    ensures x in Step(cfg, db, ev).secrets && Step(cfg, db, ev).secrets[x] == v <==>
      if x in db.secrets then db.secrets[x] == v && !Confirms(db, ev.time, ev.op, x)
      else ev.op.CreateHold? && ev.op.secret == v && AnswerTo(cfg, db, ev) == Accepted(x)
  {
    StepLeaves(cfg, db, ev);
    SealIff(cfg, db, ev.time, ev.op, x);
    EffectFitsCall(cfg, db, ev.time, ev.op);
    if ev.op.CreateHold? { MintIff(cfg, db, ev.time, ev.op); }
    var e := Decide(cfg, db, ev.time, ev.op).effect;
    SecretsAfter(db, ev.time, e);
    hide Decide, Step, Apply, Confirms;
  }

  lemma SecretsAfter(db: Db, now: int, e: Effect)
    ensures Apply(db, now, e).secrets == if e.Seal? && e.id in db.rows then db.secrets - {e.id} else db.secrets
  {
  }

  lemma MintIff(cfg: Config, db: Db, now: int, op: Op)
    requires op.CreateHold?
    ensures var d := Decide(cfg, db, now, op);
      if d.answer.Accepted? then d.mint == Minted(db, d.answer.id, op.secret) else d.mint == map[]
  {
    hide Minted, Allocate, KeyRows;
  }

  // ---- what lies behind a booking at the end of a run ----

  /** The tables before the i-th call. */
  function Before(cfg: Config, db: Db, run: seq<Event>, i: nat): Db
    requires i <= |run|
  {
    Exec(cfg, db, run[..i])
  }

  lemma {:induction false} BeforeNext(cfg: Config, db: Db, run: seq<Event>, i: nat)
    requires i < |run|
    ensures Before(cfg, db, run, i + 1) == Step(cfg, Before(cfg, db, run, i), run[i])
    decreases i
  {
    hide Step;
    if i > 0 {
      BeforeNext(cfg, Step(cfg, db, run[0]), run[1..], i - 1);
      assert run[..i][1..] == run[1..][..i - 1] && run[..i + 1][1..] == run[1..][..i];
    } else {
      assert run[..0] == [] && run[..1][1..] == [] && run[..1][0] == run[0];
      assert Exec(cfg, db, run[..1]) == Exec(cfg, Step(cfg, db, run[0]), []);
    }
  }

  predicate IdsBelow(db: Db) { forall id :: id in db.rows ==> id < db.nextId }

  lemma StepKeepsIds(cfg: Config, db: Db, ev: Event)
    requires IdsBelow(db)
    ensures IdsBelow(Step(cfg, db, ev))
  {
    hide Decide;
  }

  lemma {:induction false} IdsStayBelow(cfg: Config, db: Db, run: seq<Event>, i: nat)
    requires IdsBelow(db) && i <= |run|
    ensures IdsBelow(Before(cfg, db, run, i))
    decreases i
  {
    hide Step, IdsBelow;
    if i > 0 {
      IdsStayBelow(cfg, db, run, i - 1);
      BeforeNext(cfg, db, run, i - 1);
      StepKeepsIds(cfg, Before(cfg, db, run, i - 1), run[i - 1]);
    } else {
      assert Before(cfg, db, run, 0) == db by { assert run[..0] == []; }
    }
  }

  /** The i-th call of the run confirms `x`. */
  predicate ConfirmedAt(cfg: Config, db: Db, run: seq<Event>, x: RowId, i: nat)
    requires i < |run|
  {
    Confirms(Before(cfg, db, run, i), run[i].time, run[i].op, x)
  }

  predicate CanceledAt(cfg: Config, db: Db, run: seq<Event>, x: RowId, i: nat)
    requires i < |run|
  {
    Cancels(Before(cfg, db, run, i), run[i].time, run[i].op, x)
  }

  /** The i-th call is an accepted request for a hold that is answered with `x` and brings the secret `v`. */
  predicate SecretFrom(cfg: Config, db: Db, run: seq<Event>, x: RowId, v: int, i: nat)
    requires i < |run|
  {
    run[i].op.CreateHold? && run[i].op.secret == v && AnswerTo(cfg, Before(cfg, db, run, i), run[i]) == Accepted(x)
  }

  lemma {:induction false} ConfirmedSince(cfg: Config, cursor: int, run: seq<Event>, x: RowId, n: nat)
    requires n <= |run| && x in Before(cfg, Fresh(cursor), run, n).rows && Before(cfg, Fresh(cursor), run, n).rows[x].status.Confirmed?
    ensures exists i :: 0 <= i < n && ConfirmedAt(cfg, Fresh(cursor), run, x, i)
    decreases n
  {
    hide Step, Before, Confirms;
    var db := Fresh(cursor);
    if n > 0 {
      var was, ev := Before(cfg, db, run, n - 1), run[n - 1];
      BeforeNext(cfg, db, run, n - 1);
      IdsStayBelow(cfg, db, run, n - 1);
      if x in was.rows && was.rows[x].status.Confirmed? {
        ConfirmedSince(cfg, cursor, run, x, n - 1);
      } else if x in was.rows {
        ChangesIff(cfg, was, ev, x);
        assert ConfirmedAt(cfg, db, run, x, n - 1);
      } else {
        NewIsHold(cfg, was, ev, x);
      }
    } else {
      FirstTables(cfg, db, run);
    }
  }

  lemma FirstTables(cfg: Config, db: Db, run: seq<Event>)
    ensures Before(cfg, db, run, 0) == db
  {
    assert run[..0] == [];
  }

  /** A row that was not there before is a hold. */
  lemma NewIsHold(cfg: Config, db: Db, ev: Event, x: RowId)
    requires x !in db.rows && x in Step(cfg, db, ev).rows
    ensures Step(cfg, db, ev).rows[x].status.Hold?
  {
    StepLeaves(cfg, db, ev);
    DecisionIsLawful(cfg, db, ev.time, ev.op);
    hide Decide, Step, Checked;
  }

  lemma {:induction false} CanceledSince(cfg: Config, cursor: int, run: seq<Event>, x: RowId, n: nat)
    requires n <= |run| && x in Before(cfg, Fresh(cursor), run, n).rows && Before(cfg, Fresh(cursor), run, n).rows[x].status.Canceled?
    ensures exists i :: 0 <= i < n && CanceledAt(cfg, Fresh(cursor), run, x, i)
    decreases n
  {
    hide Step, Before, Cancels;
    var db := Fresh(cursor);
    if n > 0 {
      var was, ev := Before(cfg, db, run, n - 1), run[n - 1];
      BeforeNext(cfg, db, run, n - 1);
      IdsStayBelow(cfg, db, run, n - 1);
      if x in was.rows && was.rows[x].status.Canceled? {
        CanceledSince(cfg, cursor, run, x, n - 1);
      } else if x in was.rows {
        ChangesIff(cfg, was, ev, x);
        assert CanceledAt(cfg, db, run, x, n - 1);
      } else {
        NewIsHold(cfg, was, ev, x);
      }
    } else {
      FirstTables(cfg, db, run);
    }
  }

  lemma {:induction false} SecretSince(cfg: Config, cursor: int, run: seq<Event>, x: RowId, v: int, n: nat)
    requires n <= |run| && x in Before(cfg, Fresh(cursor), run, n).secrets && Before(cfg, Fresh(cursor), run, n).secrets[x] == v
    ensures exists i :: 0 <= i < n && SecretFrom(cfg, Fresh(cursor), run, x, v, i)
    decreases n
  {
    hide Step, Before, AnswerTo;
    var db := Fresh(cursor);
    if n > 0 {
      var was, ev := Before(cfg, db, run, n - 1), run[n - 1];
      BeforeNext(cfg, db, run, n - 1);
      SecretsIff(cfg, was, ev, x, v);
      if x in was.secrets && was.secrets[x] == v {
        SecretSince(cfg, cursor, run, x, v, n - 1);
      } else {
        assert SecretFrom(cfg, db, run, x, v, n - 1);
      }
    } else {
      FirstTables(cfg, db, run);
    }
  }

  /** The i-th call confirms `x`, and when by id, with a secret that an earlier hold answered with `x` brought. */
  predicate ProvenAt(cfg: Config, db: Db, run: seq<Event>, x: RowId, i: nat)
    requires i < |run|
  {
    && ConfirmedAt(cfg, db, run, x, i)
    && (run[i].op.ConfirmBookingById? ==> exists j :: 0 <= j < i && SecretFrom(cfg, db, run, x, run[i].op.given, j))
  }

  /**
   After any run: a confirmed booking was confirmed by a call of the run that showed its own unexpired verify token and
   token name, or by one that showed, within 15 minutes, a secret brought by an earlier hold answered with it.
   */
  lemma ConfirmedWasProven(cfg: Config, cursor: int, run: seq<Event>, x: RowId)
    requires x in Exec(cfg, Fresh(cursor), run).rows && Exec(cfg, Fresh(cursor), run).rows[x].status.Confirmed?
    ensures exists i :: 0 <= i < |run| && ProvenAt(cfg, Fresh(cursor), run, x, i)
  {
    hide Exec, SecretFrom;
    assert run[..|run|] == run;
    ConfirmedSince(cfg, cursor, run, x, |run|);
    var i :| 0 <= i < |run| && ConfirmedAt(cfg, Fresh(cursor), run, x, i);
    if run[i].op.ConfirmBookingById? {
      assert ByIdPasses(Before(cfg, Fresh(cursor), run, i), run[i].time, x, run[i].op.given, run[i].op.key);
      SecretSince(cfg, cursor, run, x, run[i].op.given, i);
    }
    assert ProvenAt(cfg, Fresh(cursor), run, x, i);
  }

  /** And a canceled booking was canceled by a call that showed its own unexpired token a day or more ahead, and confirmed before. */
  lemma CanceledWasProven(cfg: Config, cursor: int, run: seq<Event>, x: RowId)
    requires x in Exec(cfg, Fresh(cursor), run).rows && Exec(cfg, Fresh(cursor), run).rows[x].status.Canceled?
    ensures exists i, j :: 0 <= j < i < |run| && CanceledAt(cfg, Fresh(cursor), run, x, i) && ConfirmedAt(cfg, Fresh(cursor), run, x, j)
  {
    hide Exec;
    assert run[..|run|] == run;
    CanceledSince(cfg, cursor, run, x, |run|);
    var i :| 0 <= i < |run| && CanceledAt(cfg, Fresh(cursor), run, x, i);
    ConfirmedSince(cfg, cursor, run, x, i);
  }
}
