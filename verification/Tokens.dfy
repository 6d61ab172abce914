/** A verify token never outlives the hold it was issued for. */
module Tokens {
  import opened Store
  import opened Availability
  import opened Lifecycle
  import opened Invariants
  import opened Coherence

  /** The token's expiry lies within any hold its booking has, now or after a revival. */
  predicate Covered(cfg: Config, db: Db, now: int, t: Token) {
    && t.exp * 1000 <= now + cfg.ttl
    && (t.booking in db.holds ==> t.exp * 1000 <= db.holds[t.booking])
  }

  lemma EffectKeepsCovered(cfg: Config, db: Db, now: int, e: Effect, t: Token)
    requires Local(cfg, db, now, e) && Covered(cfg, db, now, t)
    ensures Covered(cfg, Apply(db, now, e), now, t)
  {
  }

  lemma StepKeepsCovered(cfg: Config, db: Db, now: int, ev: Event, t: Token)
    requires Covered(cfg, db, now, t) && now <= ev.time
    ensures Covered(cfg, Step(cfg, db, ev), ev.time, t)
  {
    DecisionIsLawful(cfg, db, ev.time, ev.op);
    EffectKeepsCovered(cfg, db, ev.time, Decide(cfg, db, ev.time, ev.op).effect, t);
  }

  lemma {:induction false} RunKeepsCovered(cfg: Config, db: Db, now: int, run: seq<Event>, t: Token)
    requires Covered(cfg, db, now, t) && Timeline(now, run)
    ensures Covered(cfg, Exec(cfg, db, run), EndTime(now, run), t)
    decreases |run|
  {
    if run != [] {
      StepKeepsCovered(cfg, db, now, run[0], t);
      RunKeepsCovered(cfg, Step(cfg, db, run[0]), run[0].time, run[1..], t);
    }
  }

  lemma IssuedIsCovered(cfg: Config, db: Db, now: int, ev: Event, t: Token)
    requires Good(cfg, db, now) && now <= ev.time && AnswerTo(cfg, db, ev) == Sent(t)
    ensures t.genuine && Covered(cfg, Step(cfg, db, ev), ev.time, t)
  {
    SentIsVerifyToken(cfg, db, ev, t);
    assert Covered(cfg, db, ev.time, t);
    StepKeepsCovered(cfg, db, ev.time, ev, t);
  }

  lemma SentIsVerifyToken(cfg: Config, db: Db, ev: Event, t: Token)
    requires AnswerTo(cfg, db, ev) == Sent(t)
    ensures t.booking in db.rows && t.booking in db.holds && t == VerifyToken(db, t.booking)
  {
  }

  /** An unexpired token with a covered booking finds its hold alive, and confirming never reports it spent. */
  lemma CoveredIsLive(cfg: Config, db: Db, end: int, t: Token, now: int)
    requires Covered(cfg, db, end, t) && now < t.exp * 1000 && Coherent(db)
    ensures t.booking in db.rows && db.rows[t.booking].status.PendingVerify?
            ==> t.booking in db.holds && db.holds[t.booking] > now
    ensures forall key :: !DecideConfirm(db, now, t, key).effect.Expire?
  {
    if t.booking in db.rows { assert RowCoherent(db, t.booking); }
  }

  /** What is left to say when the booking may have lost its hold row. */
  lemma CoveredIsLiveIff(cfg: Config, db: Db, end: int, t: Token, now: int)
    requires Covered(cfg, db, end, t) && now < t.exp * 1000
    ensures t.booking in db.rows && db.rows[t.booking].status.PendingVerify?
            ==> (Live(db, t.booking, now) <==> t.booking in db.holds)
    ensures forall key :: DecideConfirm(db, now, t, key).effect.Expire? ==> t.booking !in db.holds
  {
    hide Blocked;
  }

  /**
   Over any run before and after the mail: a token that passes its expiry test finds the hold of its
   waiting booking unexpired or gone, and gone is the one reason for which confirming with it marks
   the booking expired.
   */
  lemma TokenOutlivesLostHoldsOnly(cfg: Config, cursor: int, start: int, before: seq<Event>, send: Event,
                                   after: seq<Event>, t: Token, now: int)
    requires Timeline(start, before) && EndTime(start, before) <= send.time
    requires AnswerTo(cfg, Exec(cfg, Fresh(cursor), before), send) == Sent(t) && Timeline(send.time, after)
    requires EndTime(send.time, after) <= now && now < t.exp * 1000
    ensures var db := Exec(cfg, Step(cfg, Exec(cfg, Fresh(cursor), before), send), after);
            && (t.booking in db.rows && db.rows[t.booking].status.PendingVerify?
                ==> (Live(db, t.booking, now) <==> t.booking in db.holds))
            && (forall key :: DecideConfirm(db, now, t, key).effect.Expire? ==> t.booking !in db.holds)
  {
    var first := Exec(cfg, Fresh(cursor), before);
    RunKeepsGood(cfg, Fresh(cursor), start, before);
    IssuedIsCovered(cfg, first, EndTime(start, before), send, t);
    RunKeepsCovered(cfg, Step(cfg, first, send), send.time, after, t);
    CoveredIsLiveIff(cfg, Exec(cfg, Step(cfg, first, send), after), EndTime(send.time, after), t, now);
    hide Exec, Step, AnswerTo, DecideConfirm;
  }

  /**
   Whatever happens after a token was mailed, including expiry and reuse of the
   row: while the token passes its own expiry test and its booking still waits
   for verification, the booking's hold exists and has not run out; so confirming
   with it never takes the branch that marks the booking expired.
   */
  lemma TokenNeverOutlivesHold(cfg: Config, cursor: int, start: int, before: seq<Event>, send: Event,
                               after: seq<Event>, t: Token, now: int)
    requires Timeline(start, before) && Disciplined(cfg, Fresh(cursor), before)
    requires var db := Exec(cfg, Fresh(cursor), before);
             && EndTime(start, before) <= send.time && AnswerTo(cfg, db, send) == Sent(t)
             && Timeline(send.time, after) && Disciplined(cfg, Step(cfg, db, send), after)
    requires EndTime(send.time, after) <= now && now < t.exp * 1000
    ensures var db := Exec(cfg, Step(cfg, Exec(cfg, Fresh(cursor), before), send), after);
            && (t.booking in db.rows && db.rows[t.booking].status.PendingVerify?
                ==> t.booking in db.holds && db.holds[t.booking] > now)
            && (forall key :: !DecideConfirm(db, now, t, key).effect.Expire?)
  {
    var first := Exec(cfg, Fresh(cursor), before);
    RunIsSound(cfg, Fresh(cursor), start, before);
    SendKeepsSound(cfg, first, EndTime(start, before), send, t);
    var second := Step(cfg, first, send);
    RunKeepsCovered(cfg, second, send.time, after, t);
    RunIsSound(cfg, second, send.time, after);
    CoveredIsLive(cfg, Exec(cfg, second, after), EndTime(send.time, after), t, now);
  }

  lemma SendKeepsSound(cfg: Config, db: Db, now: int, send: Event, t: Token)
    requires Good(cfg, db, now) && Coherent(db) && now <= send.time && AnswerTo(cfg, db, send) == Sent(t)
    ensures var after := Step(cfg, db, send);
            Good(cfg, after, send.time) && Coherent(after) && Covered(cfg, after, send.time, t)
  {
    IssuedIsCovered(cfg, db, now, send, t);
    StepKeepsGood(cfg, db, now, send);
    StepKeepsCoherent(cfg, db, now, send);
  }
}
