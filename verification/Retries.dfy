/** What a client gets who sends an accepted request again, later, under the same key. */
module Retries {
  import opened Prelude
  import opened Store
  import opened Availability
  import opened Lifecycle
  import opened Invariants
  import opened Coherence
  import opened Acceptance
  import opened OneCall
  import opened Credentials
  import opened Evidence

  /** The call is answered with the booking again, and leaves all bookings as they are. */
  predicate Repeats(cfg: Config, db: Db, ev: Event, id: RowId) {
    AnswerTo(cfg, db, ev) == Accepted(id) && Step(cfg, db, ev).rows == db.rows
  }

  /** What the tables remember of an accepted call: its key, or for a hold the key on the row. */
  predicate Remembered(db: Db, op: Op, id: RowId) {
    match op
    case CreateHold(_, _, _, key, _, _, _) => id in db.rows && db.rows[id].key == key
    case ConfirmBooking(_, key) => (ForConfirm, key) in db.used
    case ConfirmBookingById(_, _, key) => (ForConfirmById, key) in db.used
    case CancelBooking(_, _, key) => (ForCancel, key) in db.used || (id in db.rows && db.rows[id].status.Canceled?)
    case Reschedule(_, _, _, _, key, _) => (ForReschedule, key) in db.used
    case SendVerification(_, _) => false
    case ExpireHolds => false
    case Query(_, _) => false
  }

  /** The tests that precede the look at the key. */
  predicate Admitted(op: Op, id: RowId, now: int) {
    match op
    case ConfirmBooking(t, _) => now < t.exp * 1000
    case Reschedule(_, t, _, _, _, _) => now < t.exp * 1000
    case _ => true
  }

  /** An accepted call names its booking, which is there, and is remembered. */
  lemma AcceptedIsRemembered(cfg: Config, db: Db, call: Event, id: RowId)
    requires Good(cfg, db, call.time) && AnswerTo(cfg, db, call) == Accepted(id)
    ensures id in Step(cfg, db, call).rows && Remembered(Step(cfg, db, call), call.op, id)
  {
    if call.op.CreateHold? {
      HeldIsRemembered(cfg, db, call, id);
      hide *;
    } else {
      KeysOfAccepted(cfg, db, call.time, call.op, id);
      hide Decide;
    }
  }

  /** An accepted call other than a hold has its key in the books, before or after. */
  lemma KeysOfAccepted(cfg: Config, db: Db, now: int, op: Op, id: RowId)
    requires !op.CreateHold? && Decide(cfg, db, now, op).answer == Accepted(id)
    ensures id in db.rows && id in Apply(db, now, Decide(cfg, db, now, op).effect).rows
    ensures Remembered(Commit(db, now, Decide(cfg, db, now, op)), op, id)
  {
    hide IndexOk, Blocked, TargetClear, Unexpired, TokenFits;
  }

  lemma HeldIsRemembered(cfg: Config, db: Db, call: Event, id: RowId)
    requires Good(cfg, db, call.time) && call.op.CreateHold? && AnswerTo(cfg, db, call) == Accepted(id)
    ensures id in Step(cfg, db, call).rows && Step(cfg, db, call).rows[id].key == call.op.key
  {
    GrantedIff(cfg, db, call.time, call.op);
    hide Step, Served, KeyUnique, ActiveUnique, Candidate, HeldId, Targets;
    if x :| x in KeyRows(db.rows, call.op.key) {
      KnownKeyLeaves(cfg, db, call, x);
    } else {
      var o :| Served(cfg, db, call.time, call.op, o);
      HoldLeaves(cfg, db, call, o);
    }
  }

  /** The key is recorded: by a mail that goes out, an accepted confirmation or move, or a cancellation that cancels. */
  predicate Records(cfg: Config, db: Db, ev: Event, scope: Scope, key: string) {
    var answer := AnswerTo(cfg, db, ev);
    match scope
    case ForVerify => ev.op.SendVerification? && ev.op.key == key && answer.Sent?
    case ForConfirm => ev.op.ConfirmBooking? && ev.op.key == key && answer.Accepted?
    case ForConfirmById => ev.op.ConfirmBookingById? && ev.op.key == key && answer.Accepted?
    case ForCancel => ev.op.CancelBooking? && ev.op.key == key && Cancels(db, ev.time, ev.op, ev.op.id)
    case ForReschedule => ev.op.Reschedule? && ev.op.key == key && answer.Accepted?
  }

  /** Keys are recorded exactly so. */
  lemma RecordedIff(cfg: Config, db: Db, ev: Event, scope: Scope, key: string)
    ensures (scope, key) in Step(cfg, db, ev).used <==> (scope, key) in db.used || Records(cfg, db, ev, scope, key)
  {
    var d := Decide(cfg, db, ev.time, ev.op);
    SpendsIff(cfg, db, ev, scope, key);
    assert Apply(db, ev.time, d.effect).used == db.used;
    hide Decide, Records;
  }

  lemma SpendsIff(cfg: Config, db: Db, ev: Event, scope: Scope, key: string)
    ensures (scope, key) in db.used || (scope, key) in Decide(cfg, db, ev.time, ev.op).spend
            <==> (scope, key) in db.used || Records(cfg, db, ev, scope, key)
  {
    if ev.op.CancelBooking? {
      VoidIff(cfg, db, ev.time, ev.op, ev.op.id);
      hide Cancels, Unexpired, TokenFits;
    } else if ev.op.CreateHold? {
      CreateSpends(cfg, db, ev.time, ev.op);
      hide Decide, Cancels;
    } else {
      hide IndexOk, TargetClear, Blocked, Unexpired, TokenFits, FreshSlots, Cancels;
    }
  }

  lemma CreateSpends(cfg: Config, db: Db, now: int, op: Op)
    requires op.CreateHold?
    ensures Decide(cfg, db, now, op).spend == {}
  {
    hide Allocate, KeyRows, Minted;
  }

  // ---- the runs in between ----

  /** No key that was used is forgotten, and no row is lost. */
  predicate Grown(before: Db, after: Db) { before.used <= after.used && before.rows.Keys <= after.rows.Keys }

  lemma StepGrows(cfg: Config, db: Db, ev: Event)
    ensures Grown(db, Step(cfg, db, ev))
  {
    hide Decide;
  }

  lemma {:induction false} RunGrows(cfg: Config, db: Db, run: seq<Event>)
    ensures Grown(db, Exec(cfg, db, run))
    decreases |run|
  {
    hide Step;
    if run != [] {
      StepGrows(cfg, db, run[0]);
      RunGrows(cfg, Step(cfg, db, run[0]), run[1..]);
    }
  }

  /** The booking an accepted call names, as the request says it. */
  predicate Names(op: Op, id: RowId) {
    match op
    case ConfirmBooking(t, _) => t.booking == id
    case ConfirmBookingById(x, _, _) => x == id
    case CancelBooking(x, _, _) => x == id
    case Reschedule(x, _, _, _, _, _) => x == id
    case CreateHold(_, _, _, _, _, _, _) => true
    case _ => false
  }

  /** What an accepted call has shown of itself, whatever the tables are. */
  predicate WellFormed(cfg: Config, op: Op, id: RowId) {
    match op
    case CreateHold(who, s, e, key, _, _, _) => key != "" && s < e && Targets(cfg, who) != []
    case ConfirmBooking(t, key) => key != "" && t.genuine && t.purpose == Verify && t.ours
    case ConfirmBookingById(_, _, key) => key != ""
    case CancelBooking(_, _, key) => key != ""
    case Reschedule(x, t, s, e, key, _) => key != "" && t.genuine && t.purpose == RescheduleIt && t.booking == x && t.ours && s < e
    case _ => true
  }

  lemma AcceptedIsWellFormed(cfg: Config, db: Db, now: int, op: Op, id: RowId)
    requires Good(cfg, db, now) && Decide(cfg, db, now, op).answer == Accepted(id)
    ensures Names(op, id) && WellFormed(cfg, op, id)
  {
    AcceptedNames(cfg, db, now, op, id);
    match op {
      case CreateHold(_, _, _, _, _, _, _) => GrantedIff(cfg, db, now, op);
      case ConfirmBooking(t, key) => ConfirmAcceptedIff(cfg, db, now, t, key);
      case ConfirmBookingById(x, given, key) => ByIdAcceptedIff(cfg, db, now, x, given, key);
      case CancelBooking(x, t, key) => CancelAcceptedIff(cfg, db, now, x, t, key);
      case Reschedule(x, t, s, e, key, pick) => RescheduleAcceptedIff(cfg, db, now, x, t, s, e, key, pick);
      case _ =>
    }
    hide Decide, IndexOk, Targets, MoveClear, Blocked;
  }

  lemma AcceptedNames(cfg: Config, db: Db, now: int, op: Op, id: RowId)
    requires Decide(cfg, db, now, op).answer == Accepted(id)
    ensures Names(op, id)
  {
    hide IndexOk, Blocked, TargetClear, Unexpired, TokenFits, Allocate;
  }

  /** A remembered call repeats itself. */
  lemma RememberedRepeats(cfg: Config, db: Db, ev: Event, id: RowId)
    requires Good(cfg, db, ev.time) && WellFormed(cfg, ev.op, id) && Names(ev.op, id) && id in db.rows
    requires Remembered(db, ev.op, id) && Admitted(ev.op, id, ev.time)
    ensures Repeats(cfg, db, ev, id)
  {
    if ev.op.CreateHold? {
      KnownKeyLeaves(cfg, db, ev, id);
      hide Step, Decide, ActiveUnique, Targets;
    } else {
      hide IndexOk, Blocked, TargetClear;
    }
  }

  /** And one that is not remembered, or whose token has run out, does not. */
  lemma ForgottenDoesNotRepeat(cfg: Config, db: Db, ev: Event, id: RowId)
    requires Good(cfg, db, ev.time) && Repeats(cfg, db, ev, id) && id in db.rows
    requires ev.op.CreateHold? || ev.op.CancelBooking?
    ensures Remembered(db, ev.op, id)
  {
    if ev.op.CreateHold? {
      HeldIsRemembered(cfg, db, ev, id);
    } else {
      VoidChanges(cfg, db, ev);
    }
    hide Step, Decide;
  }

  lemma VoidChanges(cfg: Config, db: Db, ev: Event)
    requires ev.op.CancelBooking? && AnswerTo(cfg, db, ev).Accepted? && Step(cfg, db, ev).rows == db.rows
    ensures ev.op.id in db.rows && ((ForCancel, ev.op.key) in db.used || db.rows[ev.op.id].status.Canceled?)
  {
    hide Unexpired, TokenFits;
  }

  lemma UnadmittedIsRefused(cfg: Config, db: Db, ev: Event, id: RowId)
    requires !Admitted(ev.op, id, ev.time)
    ensures AnswerTo(cfg, db, ev).Rejected?
  {
    UnprovenIsRefused(cfg, db, ev);
    hide Decide;
  }

  /** In every reachable state: the call is answered as before without changing a booking exactly when it is remembered and admitted. */
  lemma RepeatsIff(cfg: Config, db: Db, ev: Event, id: RowId)
    requires Good(cfg, db, ev.time) && WellFormed(cfg, ev.op, id) && Names(ev.op, id) && id in db.rows
    requires ev.op.CreateHold? || ev.op.CancelBooking? || Remembered(db, ev.op, id)
    ensures Repeats(cfg, db, ev, id) <==> Remembered(db, ev.op, id) && Admitted(ev.op, id, ev.time)
  {
    if !Admitted(ev.op, id, ev.time) {
      UnadmittedIsRefused(cfg, db, ev, id);
    } else if Remembered(db, ev.op, id) {
      RememberedRepeats(cfg, db, ev, id);
    } else if Repeats(cfg, db, ev, id) {
      ForgottenDoesNotRepeat(cfg, db, ev, id);
    }
    hide Step, Decide, Good, WellFormed, Names;
  }

  // ---- the law of retries ----

  /**
   From any reachable state: a call that was accepted and named `id` is, after any run of any calls, answered so again
   and leaves all bookings as they are, if and only if a token it is tested for first is still unexpired and, for a hold, the
   booking still has its key; for a cancellation, its key was recorded or the booking is still canceled.
   */
  lemma RetryIff(cfg: Config, db: Db, call: Event, id: RowId, run: seq<Event>, again: int)
    requires Good(cfg, db, call.time) && AnswerTo(cfg, db, call) == Accepted(id)
    requires Timeline(call.time, run) && EndTime(call.time, run) <= again
    ensures var last := Exec(cfg, Step(cfg, db, call), run);
      && id in last.rows
      && (Repeats(cfg, last, At(again, call.op), id) <==>
            && Admitted(call.op, id, again)
            && (call.op.CreateHold? ==> last.rows[id].key == call.op.key)
            && (call.op.CancelBooking? ==> (ForCancel, call.op.key) in last.used || last.rows[id].status.Canceled?))
  {
    var next := Step(cfg, db, call);
    var last := Exec(cfg, next, run);
    hide Exec, Step, Decide, Repeats, Good, WellFormed;
    AcceptedIsRemembered(cfg, db, call, id);
    AcceptedIsWellFormed(cfg, db, call.time, call.op, id);
    RunGrows(cfg, next, run);
    StepKeepsGood(cfg, db, call.time, call);
    RunKeepsGood(cfg, next, call.time, run);
    LaterGood(cfg, last, EndTime(call.time, run), again);
    RepeatsIff(cfg, last, At(again, call.op), id);
  }

  /** In particular a call that canceled its booking is answered alike for ever. */
  lemma CancelRepeats(cfg: Config, db: Db, call: Event, x: RowId, run: seq<Event>, again: int)
    requires Good(cfg, db, call.time) && Cancels(db, call.time, call.op, x)
    requires Timeline(call.time, run) && EndTime(call.time, run) <= again
    ensures Repeats(cfg, Exec(cfg, Step(cfg, db, call), run), At(again, call.op), x)
  {
    CancelIsRecorded(cfg, db, call, x);
    RunGrows(cfg, Step(cfg, db, call), run);
    RetryIff(cfg, db, call, x, run, again);
    hide Exec, Step, Repeats, Good, AnswerTo;
  }

  lemma CancelIsRecorded(cfg: Config, db: Db, call: Event, x: RowId)
    requires Cancels(db, call.time, call.op, x)
    ensures AnswerTo(cfg, db, call) == Accepted(x) && (ForCancel, call.op.key) in Step(cfg, db, call).used
  {
    CancelAcceptedIff(cfg, db, call.time, x, call.op.token, call.op.key);
  }

  // ---- when a hold's key is lost ----

  /** No later request under another key is answered with the booking. */
  ghost predicate KeepsKey(cfg: Config, db: Db, run: seq<Event>, id: RowId, key: string)
    decreases |run|
  {
    run == []
    || (!(run[0].op.CreateHold? && run[0].op.key != key && AnswerTo(cfg, db, run[0]) == Accepted(id))
        && KeepsKey(cfg, Step(cfg, db, run[0]), run[1..], id, key))
  }

  lemma StepKeepsKey(cfg: Config, db: Db, ev: Event, id: RowId)
    requires Good(cfg, db, ev.time) && id in db.rows
    ensures id in Step(cfg, db, ev).rows
    ensures Step(cfg, db, ev).rows[id].key == db.rows[id].key
            || (ev.op.CreateHold? && AnswerTo(cfg, db, ev) == Accepted(id) && Step(cfg, db, ev).rows[id].key == ev.op.key)
  {
    StepGrows(cfg, db, ev);
    NextIdIsFree(cfg, db, ev.time);
    if ev.op.CreateHold? {
      RequestDecides(cfg, db, ev.time, ev.op);
      GrantedIff(cfg, db, ev.time, ev.op);
      HeldKeepsKeys(cfg, db, ev, id);
    } else {
      EffectFitsCall(cfg, db, ev.time, ev.op);
      StepLeaves(cfg, db, ev);
    }
    hide Decide, Step, Good, IndexOk;
  }

  lemma HeldKeepsKeys(cfg: Config, db: Db, ev: Event, id: RowId)
    requires Good(cfg, db, ev.time) && id in db.rows && ev.op.CreateHold?
    ensures id in Step(cfg, db, ev).rows
    ensures Step(cfg, db, ev).rows[id].key == db.rows[id].key
            || (AnswerTo(cfg, db, ev) == Accepted(id) && Step(cfg, db, ev).rows[id].key == ev.op.key)
  {
    StepGrows(cfg, db, ev);
    StepLeaves(cfg, db, ev);
    RequestDecides(cfg, db, ev.time, ev.op);
    GrantedIff(cfg, db, ev.time, ev.op);
    hide Decide, Step, Good, Served, Allocated, KeyRows, Candidate, HeldId, Targets;
    if AnswerTo(cfg, db, ev).Accepted? && KeyRows(db.rows, ev.op.key) == {} {
      var o :| Served(cfg, db, ev.time, ev.op, o);
      HoldLeaves(cfg, db, ev, o);
    }
  }

  lemma {:induction false} KeyStays(cfg: Config, db: Db, now: int, run: seq<Event>, id: RowId, key: string)
    requires Good(cfg, db, now) && Timeline(now, run) && id in db.rows && db.rows[id].key == key && KeepsKey(cfg, db, run, id, key)
    ensures id in Exec(cfg, db, run).rows && Exec(cfg, db, run).rows[id].key == key
    decreases |run|
  {
    hide Step, Good, AnswerTo;
    if run != [] {
      LaterGood(cfg, db, now, run[0].time);
      StepKeepsGood(cfg, db, now, run[0]);
      StepKeepsKey(cfg, db, run[0], id);
      KeyStays(cfg, Step(cfg, db, run[0]), run[0].time, run[1..], id, key);
    }
  }

  /** So a hold repeats itself until another customer is given its dead row. */
  lemma HoldRepeats(cfg: Config, db: Db, call: Event, id: RowId, run: seq<Event>, again: int)
    requires Good(cfg, db, call.time) && call.op.CreateHold? && AnswerTo(cfg, db, call) == Accepted(id)
    requires Timeline(call.time, run) && EndTime(call.time, run) <= again && KeepsKey(cfg, Step(cfg, db, call), run, id, call.op.key)
    ensures Repeats(cfg, Exec(cfg, Step(cfg, db, call), run), At(again, call.op), id)
  {
    hide Exec, Step, Good, AnswerTo, KeepsKey, Repeats;
    HeldIsRemembered(cfg, db, call, id);
    StepKeepsGood(cfg, db, call.time, call);
    KeyStays(cfg, Step(cfg, db, call), call.time, run, id, call.op.key);
    RetryIff(cfg, db, call, id, run, again);
  }

  // ---- the mail ----

  /** The token of a booking's mail: its own name, and the end of its hold in whole seconds. */
  function MailToken(db: Db, x: RowId): Token
    requires x in db.rows && x in db.holds
  {
    Token(true, Verify, true, x, if db.rows[x].jti.Some? then db.rows[x].jti.value else x, db.holds[x] / 1000)
  }

  lemma MailAnswers(cfg: Config, db: Db, now: int, x: RowId, key: string)
    ensures var d := Decide(cfg, db, now, SendVerification(x, key));
      && (d.answer.Sent? <==> key != "" && x in db.rows && db.rows[x].status.Waiting() && Unspent(db, x, now))
      && (d.answer.Sent? ==> d.answer == Sent(MailToken(db, x)) && (ForVerify, key) in Commit(db, now, d).used)
      && ((ForVerify, key) in db.used && d.answer.Sent? ==> d.effect.Nothing?)
  {
  }

  /**
   A mail that was sent is, after any run, sent again under its key exactly while the booking waits on an unspent hold, with
   its token for that hold, and without a change to any booking.
   */
  lemma MailRetryIff(cfg: Config, db: Db, call: Event, run: seq<Event>, again: int)
    requires call.op.SendVerification? && AnswerTo(cfg, db, call).Sent?
    ensures var last := Exec(cfg, Step(cfg, db, call), run);
            var x, retry := call.op.id, At(again, call.op);
            var sent := AnswerTo(cfg, last, retry).Sent?;
      && (sent <==> x in last.rows && last.rows[x].status.Waiting() && Unspent(last, x, again))
      && (sent ==> AnswerTo(cfg, last, retry) == Sent(MailToken(last, x)) && Step(cfg, last, retry).rows == last.rows)
  {
    var next := Step(cfg, db, call);
    MailAnswers(cfg, db, call.time, call.op.id, call.op.key);
    RunGrows(cfg, next, run);
    MailAnswers(cfg, Exec(cfg, next, run), again, call.op.id, call.op.key);
    StepLeaves(cfg, Exec(cfg, next, run), At(again, call.op));
    hide Exec, Decide, Unspent;
  }
}
