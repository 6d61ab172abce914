/** From the hold to the confirmed booking: nothing the other customers do can get in between. */
module Journey {
  import opened Prelude
  import opened Store
  import opened Availability
  import opened Lifecycle
  import opened Invariants
  import opened DoubleBooking
  import opened Occupancy
  import opened CacheLaw
  import opened Acceptance
  import opened OneCall
  import opened IndexHandler
  import opened Credentials

  /** No call of the run writes booking `x`; sweeps may come in between. */
  ghost predicate Spares(cfg: Config, db: Db, run: seq<Event>, x: RowId)
    decreases |run|
  {
    run == []
    || (var e := Decide(cfg, db, run[0].time, run[0].op).effect;
        (e.Nothing? || e.Sweep? || Touched(db, e) != x) && Spares(cfg, Step(cfg, db, run[0]), run[1..], x))
  }

  /** The booking as it stands: its status, its token name, and a hold until `until`. */
  predicate Stands(db: Db, x: RowId, status: Status, jti: Option<RowId>, until: int) {
    && x in db.rows && x < db.nextId && db.rows[x].status == status && db.rows[x].jti == jti
    && x in db.holds && db.holds[x] == until
  }

  /** A step that spares the booking leaves it standing until its hold has run out. */
  lemma StepSpares(cfg: Config, db: Db, ev: Event, x: RowId, status: Status, jti: Option<RowId>, until: int)
    requires Stands(db, x, status, jti, until) && ev.time <= until
    requires var e := Decide(cfg, db, ev.time, ev.op).effect; e.Nothing? || e.Sweep? || Touched(db, e) != x
    ensures Stands(Step(cfg, db, ev), x, status, jti, until) && Step(cfg, db, ev).rows[x] == db.rows[x]
  {
    var e := Decide(cfg, db, ev.time, ev.op).effect;
    StepRows(cfg, db, ev);
    RowsRemain(db, ev.time, e, x);
    OthersStay(db, ev.time, e, x);
    hide Decide;
  }

  lemma RowsRemain(db: Db, now: int, e: Effect, x: RowId)
    requires x in db.rows
    ensures x in Apply(db, now, e).rows && Apply(db, now, e).nextId >= db.nextId
  {
  }

  lemma {:induction false} RunSpares(cfg: Config, db: Db, now: int, run: seq<Event>, x: RowId,
                                     status: Status, jti: Option<RowId>, until: int)
    requires Stands(db, x, status, jti, until) && Spares(cfg, db, run, x)
    requires Timeline(now, run) && EndTime(now, run) <= until
    ensures Stands(Exec(cfg, db, run), x, status, jti, until) && Exec(cfg, db, run).rows[x] == db.rows[x]
    decreases |run|
  {
    hide Stands, Step, Decide;
    if run != [] {
      TimesAscend(run);
      StepSpares(cfg, db, run[0], x, status, jti, until);
      RunSpares(cfg, Step(cfg, db, run[0]), run[0].time, run[1..], x, status, jti, until);
    }
  }

  /** A granted hold stands for its time to live, at the interval asked for. */
  lemma GrantedStands(cfg: Config, db: Db, now: int, hold: Event, id: RowId)
    requires Good(cfg, db, now) && hold.op.CreateHold?
    requires var d := Decide(cfg, db, hold.time, hold.op);
             (d.effect.Insert? || d.effect.Revive?) && d.answer == Accepted(id)
    ensures Stands(Step(cfg, db, hold), id, Hold, None, hold.time + cfg.ttl)
    ensures Step(cfg, db, hold).rows[id].start == hold.op.start && Step(cfg, db, hold).rows[id].end == hold.op.end
  {
    PlacedAsAsked(cfg, db, hold.time, hold.op);
    DecisionIsLawful(cfg, db, hold.time, hold.op);
    StepRows(cfg, db, hold);
    hide Decide, IndexOk, Checked;
  }

  /** The first mail of a held booking, under a new key: the token names the hold's end. */
  lemma MailStands(cfg: Config, db: Db, send: Event, id: RowId, key: string, until: int)
    requires Stands(db, id, Hold, None, until) && send == At(send.time, SendVerification(id, key))
    requires key != "" && (ForVerify, key) !in db.used && send.time < until
    ensures AnswerTo(cfg, db, send) == Sent(Token(true, Verify, true, id, id, until / 1000))
    ensures Stands(Step(cfg, db, send), id, PendingVerify, Some(id), until)
    ensures Step(cfg, db, send).rows[id].SameSlot(db.rows[id].person, db.rows[id].start, db.rows[id].end)
  {
    SentIff(cfg, db, send.time, id, key);
  }

  /** The two facts about the tables that the end of the journey needs. */
  ghost predicate Tiled(cfg: Config, db: Db, now: int, f: iset<(int, int)>) { Good(cfg, db, now) && RowsWithin(f, db.rows) }

  /** With all intervals from one tiling, a standing mailed booking is confirmed by its token. */
  lemma TokenConfirms(cfg: Config, db: Db, end: int, f: iset<(int, int)>, id: RowId, until: int, now: int, key: string)
    requires Tiled(cfg, db, end, f) && Tiling(f) && end <= now
    requires Stands(db, id, PendingVerify, Some(id), until)
    requires now / 1000 < until / 1000 && key != "" && (ForConfirm, key) !in db.used
    ensures var t := Token(true, Verify, true, id, id, until / 1000);
            var ev := At(now, ConfirmBooking(t, key));
      && AnswerTo(cfg, db, ev) == Accepted(id) && id in db.rows && id in Step(cfg, db, ev).rows
      && Step(cfg, db, ev).rows[id] == db.rows[id].(status := Confirmed, jti := None) && id !in Step(cfg, db, ev).holds
  {
    TiledIsFree(cfg, db, end, f, id, now);
    hide IndexOk, Blocked, Tiling;
  }

  lemma TiledIsFree(cfg: Config, db: Db, end: int, f: iset<(int, int)>, id: RowId, now: int)
    requires Good(cfg, db, end) && RowsWithin(f, db.rows) && Tiling(f) && Live(db, id, now)
    ensures !Blocked(db, {id}, db.rows[id].person, db.rows[id].start, db.rows[id].end, now)
  {
    TiledIsApart(cfg, db, end, f, now);
    hide IndexOk, Tiling, RowsWithin;
  }

  lemma TiledStep(cfg: Config, db: Db, now: int, ev: Event, f: iset<(int, int)>)
    requires Tiled(cfg, db, now, f) && now <= ev.time && AsksWithin(f, ev.op)
    ensures Tiled(cfg, Step(cfg, db, ev), ev.time, f)
  {
    StepKeepsGood(cfg, db, now, ev);
    StepStaysWithin(cfg, db, ev, f);
    hide Step, Good, RowsWithin;
  }

  lemma TiledRun(cfg: Config, db: Db, now: int, run: seq<Event>, f: iset<(int, int)>)
    requires Tiled(cfg, db, now, f) && Timeline(now, run) && AllAsk(f, run)
    ensures Tiled(cfg, Exec(cfg, db, run), EndTime(now, run), f)
  {
    RunKeepsGood(cfg, db, now, run);
    RunStaysWithin(cfg, db, run, f);
    hide Exec, Good, RowsWithin;
  }

  /** The call writes a hold for booking `id`. */
  predicate Grants(cfg: Config, db: Db, hold: Event, id: RowId) {
    && hold.op.CreateHold?
    && var d := Decide(cfg, db, hold.time, hold.op);
       (d.effect.Insert? || d.effect.Revive?) && d.answer == Accepted(id)
  }

  /** A run of others' calls on an instant's tables, over by `end`. */
  ghost predicate Others(cfg: Config, db: Db, now: int, run: seq<Event>, end: int, f: iset<(int, int)>, x: RowId) {
    Timeline(now, run) && EndTime(now, run) <= end && AllAsk(f, run) && Spares(cfg, db, run, x)
  }

  lemma OthersSpare(cfg: Config, db: Db, now: int, run: seq<Event>, end: int, f: iset<(int, int)>, x: RowId,
                    status: Status, jti: Option<RowId>, until: int)
    requires Tiled(cfg, db, now, f) && Stands(db, x, status, jti, until) && Others(cfg, db, now, run, end, f, x) && end <= until
    ensures var last := Exec(cfg, db, run);
      Tiled(cfg, last, EndTime(now, run), f) && Stands(last, x, status, jti, until) && last.rows[x] == db.rows[x]
  {
    TiledRun(cfg, db, now, run, f);
    RunSpares(cfg, db, now, run, x, status, jti, until);
    hide Exec, Spares, Tiled, AllAsk;
  }

  /** The tables after a call and the others' calls that follow it. */
  function Since(cfg: Config, db: Db, ev: Event, run: seq<Event>): Db { Exec(cfg, Step(cfg, db, ev), run) }

  lemma HeldUntilMail(cfg: Config, db: Db, now: int, f: iset<(int, int)>, hold: Event, id: RowId,
                      between: seq<Event>, end: int)
    requires Tiled(cfg, db, now, f) && Grants(cfg, db, hold, id) && now <= hold.time && AsksWithin(f, hold.op)
    requires Others(cfg, Step(cfg, db, hold), hold.time, between, end, f, id) && end < hold.time + cfg.ttl
    ensures var mail := Since(cfg, db, hold, between);
      && Tiled(cfg, mail, EndTime(hold.time, between), f) && Stands(mail, id, Hold, None, hold.time + cfg.ttl) && id in mail.rows
      && mail.rows[id].start == hold.op.start && mail.rows[id].end == hold.op.end
    ensures EndTime(hold.time, between) <= end
  {
    assert Good(cfg, db, now);
    GrantedStands(cfg, db, now, hold, id);
    TiledStep(cfg, db, now, hold, f);
    OthersSpare(cfg, Step(cfg, db, hold), hold.time, between, end, f, id, Hold, None, hold.time + cfg.ttl);
    hide Exec, Step, Others, Tiled, Grants;
  }

  lemma MailedUntilConfirm(cfg: Config, mail: Db, now: int, f: iset<(int, int)>, send: Event, id: RowId, key: string,
                           until: int, after: seq<Event>, end: int)
    requires Tiled(cfg, mail, now, f) && Stands(mail, id, Hold, None, until) && now <= send.time < until
    requires send == At(send.time, SendVerification(id, key)) && key != "" && (ForVerify, key) !in mail.used
    requires Others(cfg, Step(cfg, mail, send), send.time, after, end, f, id) && end <= until
    ensures AnswerTo(cfg, mail, send) == Sent(Token(true, Verify, true, id, id, until / 1000))
    ensures var last := Exec(cfg, Step(cfg, mail, send), after);
      && id in mail.rows && id in last.rows
      && Tiled(cfg, last, EndTime(send.time, after), f) && Stands(last, id, PendingVerify, Some(id), until)
      && last.rows[id].start == mail.rows[id].start && last.rows[id].end == mail.rows[id].end
  {
    MailStands(cfg, mail, send, id, key, until);
    TiledStep(cfg, mail, now, send, f);
    OthersSpare(cfg, Step(cfg, mail, send), send.time, after, end, f, id, PendingVerify, Some(id), until);
    hide Exec, Step, Others, Tiled, AnswerTo;
  }

  /** A request for the verification mail of `id`, under a new key and before `until`. */
  predicate Mails(db: Db, send: Event, id: RowId, key: string, until: int) {
    send.op == SendVerification(id, key) && key != "" && (ForVerify, key) !in db.used && send.time < until
  }

  function MailedToken(id: RowId, until: int): Token { Token(true, Verify, true, id, id, until / 1000) }

  /** Confirming with the token is accepted and leaves the booking confirmed, at the given interval. */
  predicate ConfirmsAt(cfg: Config, db: Db, now: int, t: Token, key: string, s: int, e: int) {
    var ev := At(now, ConfirmBooking(t, key));
    var next := Step(cfg, db, ev);
    && AnswerTo(cfg, db, ev) == Accepted(t.booking)
    && t.booking in next.rows && next.rows[t.booking].status.Confirmed?
    && next.rows[t.booking].start == s && next.rows[t.booking].end == e
  }

  lemma MailsInTime(db: Db, send: Event, id: RowId, key: string, until: int)
    requires Mails(db, send, id, key, until)
    ensures send.time < until
  {
  }

  lemma MailedIsConfirmed(cfg: Config, mail: Db, start: int, f: iset<(int, int)>, send: Event, id: RowId, mailKey: string,
                          until: int, after: seq<Event>, now: int, key: string)
    requires Tiling(f) && Tiled(cfg, mail, start, f) && Stands(mail, id, Hold, None, until) && start <= send.time < until
    requires Mails(mail, send, id, mailKey, until)
    requires Others(cfg, Step(cfg, mail, send), send.time, after, now, f, id) && now / 1000 < until / 1000
    requires key != "" && (ForConfirm, key) !in Since(cfg, mail, send, after).used
    ensures AnswerTo(cfg, mail, send) == Sent(MailedToken(id, until))
    ensures id in mail.rows
    ensures ConfirmsAt(cfg, Since(cfg, mail, send, after), now, MailedToken(id, until), key, mail.rows[id].start, mail.rows[id].end)
  {
    var last := Since(cfg, mail, send, after);
    assert EndTime(send.time, after) <= now;
    hide Exec, Step, AnswerTo, Others, Tiling, EndTime, Tiled, Stands, Decide, Sound;
    MailedUntilConfirm(cfg, mail, start, f, send, id, mailKey, until, after, now);
    TokenConfirms(cfg, last, EndTime(send.time, after), f, id, until, now, key);
  }

  /**
   A granted hold, mailed under a new key before it runs out, is confirmed by the mailed token under a
   new key at any instant at which the token is unexpired, whatever calls that do not
   write that booking come between and after, as long as all intervals come from one tiling.
   */
  lemma HoldMailConfirm(cfg: Config, db: Db, start: int, f: iset<(int, int)>, hold: Event, id: RowId,
                        between: seq<Event>, send: Event, mailKey: string, after: seq<Event>, now: int, key: string)
    requires Tiling(f) && Tiled(cfg, db, start, f)
    requires Grants(cfg, db, hold, id) && start <= hold.time && AsksWithin(f, hold.op)
    requires Others(cfg, Step(cfg, db, hold), hold.time, between, send.time, f, id)
    requires var mail := Since(cfg, db, hold, between);
      && Mails(mail, send, id, mailKey, hold.time + cfg.ttl)
      && Others(cfg, Step(cfg, mail, send), send.time, after, now, f, id)
      && key != "" && (ForConfirm, key) !in Since(cfg, mail, send, after).used
    requires now / 1000 < (hold.time + cfg.ttl) / 1000
    ensures var mail := Since(cfg, db, hold, between);
            var t := MailedToken(id, hold.time + cfg.ttl);
      && AnswerTo(cfg, mail, send) == Sent(t)
      && ConfirmsAt(cfg, Since(cfg, mail, send, after), now, t, key, hold.op.start, hold.op.end)
  {
    hide *;
    var mail, until := Since(cfg, db, hold, between), hold.time + cfg.ttl;
    MailsInTime(mail, send, id, mailKey, until);
    HeldUntilMail(cfg, db, start, f, hold, id, between, send.time);
    MailedIsConfirmed(cfg, mail, EndTime(hold.time, between), f, send, id, mailKey, until, after, now, key);
  }

  // ---- and back: the cancellation ----

  /** A confirmed booking, as it is. */
  predicate Booked(db: Db, x: RowId, row: Row) { x in db.rows && x < db.nextId && db.rows[x] == row && row.status.Confirmed? }

  lemma StepKeepsBooked(cfg: Config, db: Db, ev: Event, x: RowId, row: Row)
    requires Booked(db, x, row)
    requires var e := Decide(cfg, db, ev.time, ev.op).effect; e.Nothing? || e.Sweep? || Touched(db, e) != x
    ensures Booked(Step(cfg, db, ev), x, row)
  {
    var e := Decide(cfg, db, ev.time, ev.op).effect;
    StepRows(cfg, db, ev);
    RowsRemain(db, ev.time, e, x);
    OthersStay(db, ev.time, e, x);
    hide Decide;
  }

  /** Whatever the others do, and however long it takes. */
  lemma {:induction false} RunKeepsBooked(cfg: Config, db: Db, run: seq<Event>, x: RowId, row: Row)
    requires Booked(db, x, row) && Spares(cfg, db, run, x)
    ensures Booked(Exec(cfg, db, run), x, row)
    decreases |run|
  {
    hide Booked, Step, Decide;
    if run != [] {
      StepKeepsBooked(cfg, db, run[0], x, row);
      RunKeepsBooked(cfg, Step(cfg, db, run[0]), run[1..], x, row);
    }
  }

  /** After an accepted cancellation nothing live overlaps the interval. */
  lemma CanceledIsFree(cfg: Config, db: Db, end: int, f: iset<(int, int)>, x: RowId, row: Row, cancel: Event, pick: Pick)
    requires Tiled(cfg, db, end, f) && Tiling(f) && Booked(db, x, row)
    requires Decide(cfg, db, cancel.time, cancel.op).effect == Void(x)
    ensures !Refuses(Step(cfg, db, cancel), cancel.time, row.person, row.start, row.end, pick)
  {
    hide Decide, Step, IndexOk, Tiling, RowsWithin;
    var now, after := cancel.time, Step(cfg, db, cancel);
    StepRows(cfg, db, cancel);
    TiledIsApart(cfg, db, end, f, now);
    assert Live(db, x, now) && row.start < row.end;
    forall o | o in after.rows && after.rows[o].Overlaps(row.person, row.start, row.end) ensures !Live(after, o, now) {
      VoidLeaves(db, now, x, o);
    }
    hide Decide, Step, Good, Tiling, RowsWithin, Apply, Live;
  }

  lemma VoidLeaves(db: Db, now: int, x: RowId, o: RowId)
    requires x in db.rows
    ensures var after := Apply(db, now, Void(x));
      o in after.rows && Live(after, o, now) ==> o != x && o in db.rows && Live(db, o, now) && after.rows[o] == db.rows[o]
  {
  }

  /** A named request for one salesperson is his turn at once. */
  lemma NamedIsInTurn(cfg: Config, db: Db, now: int, op: Op, p: Person)
    requires op.CreateHold? && op.who == Some(p) && p in cfg.staff && op.busy == {}
    requires !Refuses(db, now, p, op.start, op.end, op.pick)
    ensures Targets(cfg, op.who) != [] && InTurn(cfg, db, now, op, 0) && Candidate(cfg, db, op, 0) == p
  {
    hide Refuses;
    assert Targets(cfg, op.who) == [p];
  }

  /**
   With intervals from one tiling: a confirmed booking outlasts whatever calls that do not write it; under a new
   key it can then be canceled exactly with its token and a day or more ahead; and once it is canceled the interval can be
   held again at once, by name and under a new key, unless the row found for it has an active twin.
   */
  lemma CancelUndoesConfirm(cfg: Config, db: Db, now: int, f: iset<(int, int)>, x: RowId, row: Row, between: seq<Event>,
                            cancel: Event, t: Token, key: string, hold: Op)
    requires Tiling(f) && Tiled(cfg, db, now, f) && Booked(db, x, row) && row.person in cfg.staff
    requires Others(cfg, db, now, between, cancel.time, f, x) && cancel.op == CancelBooking(x, t, key)
    requires (ForCancel, key) !in Exec(cfg, db, between).used
    requires hold.CreateHold? && hold.who == Some(row.person) && (hold.start, hold.end) == (row.start, row.end)
    requires hold.busy == {} && hold.key != "" && KeyRows(Exec(cfg, db, between).rows, hold.key) == {}
    ensures var last := Exec(cfg, db, between);
            var after := Step(cfg, last, cancel);
            var accepted := AnswerTo(cfg, last, cancel).Accepted?;
      && (accepted <==> key != "" && Proves(t, CancelIt, x, cancel.time) && cancel.time + Days(1) <= row.start)
      && (accepted ==> (AnswerTo(cfg, after, At(cancel.time, hold)).Accepted? <==>
                          !RevivesOverTwin(after, cancel.time, row.person, row.start, row.end, hold.pick)))
  {
    var last := Exec(cfg, db, between);
    var after := Step(cfg, last, cancel);
    assert EndTime(now, between) <= cancel.time && AsksWithin(f, cancel.op);
    hide Exec, Spares, Tiled, AllAsk, Timeline, EndTime, Tiling, Proves, KeyRows, RevivesOverTwin, Sound;
    TiledRun(cfg, db, now, between, f);
    RunKeepsBooked(cfg, db, between, x, row);
    assert x in last.rows && last.rows[x] == row;
    CancelAcceptedIff(cfg, last, cancel.time, x, t, key);
    if AnswerTo(cfg, last, cancel).Accepted? {
      CancelVoidsRow(cfg, last, cancel, x, t, key);
      TiledStep(cfg, last, EndTime(now, between), cancel, f);
      CanceledKeys(cfg, last, cancel, x, hold.key);
      hide Step, Decide;
      FreedIsGranted(cfg, last, EndTime(now, between), f, x, row, cancel, hold);
    }
  }

  lemma CancelVoidsRow(cfg: Config, db: Db, cancel: Event, x: RowId, t: Token, key: string)
    requires cancel.op == CancelBooking(x, t, key) && x in db.rows && db.rows[x].status.Confirmed?
    requires (ForCancel, key) !in db.used && AnswerTo(cfg, db, cancel).Accepted?
    ensures Decide(cfg, db, cancel.time, cancel.op).effect == Void(x)
  {
  }

  lemma CanceledKeys(cfg: Config, db: Db, cancel: Event, x: RowId, key: string)
    requires Decide(cfg, db, cancel.time, cancel.op).effect == Void(x) && KeyRows(db.rows, key) == {}
    ensures KeyRows(Step(cfg, db, cancel).rows, key) == {}
  {
    StepRows(cfg, db, cancel);
    hide Step, Decide;
    assert forall o :: o in db.rows ==> o !in KeyRows(db.rows, key);
  }

  lemma FreedIsGranted(cfg: Config, last: Db, end: int, f: iset<(int, int)>, x: RowId, row: Row, cancel: Event, hold: Op)
    requires Tiled(cfg, last, end, f) && Tiling(f) && Booked(last, x, row) && row.person in cfg.staff
    requires Decide(cfg, last, cancel.time, cancel.op).effect == Void(x)
    requires Tiled(cfg, Step(cfg, last, cancel), cancel.time, f)
    requires hold.CreateHold? && hold.who == Some(row.person) && (hold.start, hold.end) == (row.start, row.end)
    requires hold.busy == {} && hold.key != "" && KeyRows(Step(cfg, last, cancel).rows, hold.key) == {}
    ensures var after := Step(cfg, last, cancel);
      AnswerTo(cfg, after, At(cancel.time, hold)).Accepted? <==>
        !RevivesOverTwin(after, cancel.time, row.person, row.start, row.end, hold.pick)
  {
    var after := Step(cfg, last, cancel);
    assert row.start < row.end && Good(cfg, after, cancel.time);
    hide Step, Decide, Tiled, Tiling, KeyRows, RevivesOverTwin, Refuses, InTurn, Candidate, Attempted, Sound;
    CanceledIsFree(cfg, last, end, f, x, row, cancel, hold.pick);
    NamedIsInTurn(cfg, after, cancel.time, hold, row.person);
    InTurnIsHeld(cfg, after, cancel.time, hold, 0);
  }
}
