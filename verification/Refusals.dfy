/** Which error a caller gets: that of the first test his request does not pass. */
module Refusals {
  import opened Prelude
  import opened Store
  import opened Availability
  import opened Lifecycle
  import opened Invariants
  import opened IndexHandler
  import opened OneCall
  import opened Credentials
  import opened Evidence

  /** How far a call has come in its tests. */
  datatype Verdict = Passed | Failed(error: Error) {
    /** The next test, which only counts when the ones before it were passed. */
    function Need(passed: bool, error: Error): Verdict {
      if Failed? then this else if passed then Passed else Failed(error)
    }
  }

  /** The tests of a call in order. A key that was used before, or a state already reached, excuses from the later ones. */
  ghost function TestsOf(cfg: Config, db: Db, now: int, op: Op): Verdict {
    match op
    case CreateHold(who, s, e, key, _, _, _) =>
      Passed
        .Need(key != "" && s < e, BadRequest)
        .Need(who.Some? ==> who.value in cfg.staff, NotFound)
        .Need(cfg.staff != [], Conflict)
        .Need(KeyRows(db.rows, key) != {} || (Targets(cfg, who) != [] && exists o :: Served(cfg, db, now, op, o)), Conflict)
    case SendVerification(id, key) =>
      Passed
        .Need(key != "", BadRequest)
        .Need(id in db.rows && id in db.holds, NotFound)
        .Need(id in db.rows && (db.rows[id].status.Hold? || db.rows[id].status.PendingVerify?), Conflict)
        .Need(id in db.holds && db.holds[id] > now, Conflict)
    case ConfirmBooking(t, key) =>
      var id := t.booking;
      var replay := (ForConfirm, key) in db.used;
      var settled := replay || (id in db.rows && db.rows[id].status.Confirmed?);
      Passed
        .Need(key != "", BadRequest)
        .Need(t.genuine && now < t.exp * 1000, Unauthorized)
        .Need(t.purpose == Verify && t.ours, Forbidden)
        .Need(id in db.rows, NotFound)
        .Need(settled || (id in db.rows && db.rows[id].jti == Some(t.jti)), Forbidden)
        .Need(settled || (id in db.rows && db.rows[id].status.PendingVerify?), Conflict)
        .Need(settled || (Unspent(db, id, now) && id in db.rows && !OthersLive(db, id, now)), Conflict)
    case ConfirmBookingById(id, given, key) =>
      var replay := (ForConfirmById, key) in db.used;
      Passed
        .Need(key != "", BadRequest)
        .Need(id in db.rows, NotFound)
        .Need(replay || (id in db.rows && db.rows[id].status.Hold?), Conflict)
        .Need(replay || (id in db.secrets && db.secrets[id] == given), BadRequest)
        .Need(replay || (id in db.rows && now < db.rows[id].created + Minutes(15)), BadRequest)
    case CancelBooking(id, t, key) =>
      var settled := (ForCancel, key) in db.used || (id in db.rows && db.rows[id].status.Canceled?);
      Passed
        .Need(key != "", BadRequest)
        .Need(id in db.rows, NotFound)
        .Need(settled || (t.genuine && now < t.exp * 1000), Unauthorized)
        .Need(settled || Proves(t, CancelIt, id, now), Forbidden)
        .Need(settled || (id in db.rows && db.rows[id].status.Confirmed?), Conflict)
        .Need(settled || (id in db.rows && now + Days(1) <= db.rows[id].start), Conflict)
    case Reschedule(id, t, s, e, key, pick) =>
      var replay := (ForReschedule, key) in db.used;
      var settled := replay || (id in db.rows && (db.rows[id].start, db.rows[id].end) == (s, e));
      Passed
        .Need(key != "", BadRequest)
        .Need(t.genuine && now < t.exp * 1000, Unauthorized)
        .Need(Proves(t, RescheduleIt, id, now), Forbidden)
        .Need(id in db.rows, NotFound)
        .Need(s < e, BadRequest)
        .Need(replay || (id in db.rows && db.rows[id].status.Confirmed?), Conflict)
        .Need(replay || (id in db.rows && now + Days(1) <= db.rows[id].start), Conflict)
        .Need(settled || (id in db.rows && TargetClear(db, id, s, e, now, pick)), Conflict)
        .Need(settled || (id in db.rows && !ActiveTwin(db.rows, id, db.rows[id].person, s, e)), Internal)
    case ExpireHolds => Passed
    case Query(who, _) => Passed.Need(who.Some? ==> who.value in cfg.staff, NotFound)
  }

  /** The answer agrees with the tests. */
  predicate Agrees(answer: Answer, verdict: Verdict) {
    match verdict
    case Passed => !answer.Rejected?
    case Failed(error) => answer == Rejected(error)
  }

  lemma CreateAgrees(cfg: Config, db: Db, now: int, op: Op)
    requires Good(cfg, db, now) && op.CreateHold?
    ensures Agrees(Decide(cfg, db, now, op).answer, TestsOf(cfg, db, now, op))
  {
    GrantedIff(cfg, db, now, op);
    CreateErrors(cfg, db, now, op);
    hide InTurn, RevivesOverTwin, Candidate, KeyRows, Good, Decide;
  }

  function FirstError(cfg: Config, op: Op): Error
    requires op.CreateHold?
  {
    if op.key == "" || op.end <= op.start then BadRequest
    else if op.who.Some? && op.who.value !in cfg.staff then NotFound else Conflict
  }

  lemma CreateErrors(cfg: Config, db: Db, now: int, op: Op)
    requires op.CreateHold?
    ensures var a := Decide(cfg, db, now, op).answer;
      && (a.Accepted? || a.Rejected?)
      && (a.Rejected? ==> a.error == FirstError(cfg, op))
  {
    hide Allocate, KeyRows, Minted;
  }

  /** In every reachable state a call is refused exactly when it fails a test, and with the error of the first one it fails. */
  lemma RefusedByTestsOf(cfg: Config, db: Db, now: int, op: Op)
    requires Good(cfg, db, now)
    ensures Agrees(Decide(cfg, db, now, op).answer, TestsOf(cfg, db, now, op))
  {
    match op {
      case CreateHold(_, _, _, _, _, _, _) => CreateAgrees(cfg, db, now, op);
      case SendVerification(_, _) => MailAgrees(cfg, db, now, op);
      case ConfirmBooking(t, _) => ConfirmAgrees(cfg, db, now, op);
      case ConfirmBookingById(_, _, _) => ByIdAgrees(cfg, db, now, op);
      case CancelBooking(_, _, _) => CancelAgrees(cfg, db, now, op);
      case Reschedule(_, _, _, _, _, _) => MoveAgrees(cfg, db, now, op);
      case ExpireHolds =>
      case Query(_, _) => hide FreshSlots;
    }
  }

  lemma MailAgrees(cfg: Config, db: Db, now: int, op: Op)
    requires op.SendVerification?
    ensures Agrees(Decide(cfg, db, now, op).answer, TestsOf(cfg, db, now, op))
  {
  }

  lemma ConfirmAgrees(cfg: Config, db: Db, now: int, op: Op)
    requires op.ConfirmBooking?
    ensures Agrees(Decide(cfg, db, now, op).answer, TestsOf(cfg, db, now, op))
  {
    hide Blocked;
  }

  lemma ByIdAgrees(cfg: Config, db: Db, now: int, op: Op)
    requires op.ConfirmBookingById?
    ensures Agrees(Decide(cfg, db, now, op).answer, TestsOf(cfg, db, now, op))
  {
  }

  lemma CancelAgrees(cfg: Config, db: Db, now: int, op: Op)
    requires op.CancelBooking?
    ensures Agrees(Decide(cfg, db, now, op).answer, TestsOf(cfg, db, now, op))
  {
  }

  lemma MoveAgrees(cfg: Config, db: Db, now: int, op: Op)
    requires Good(cfg, db, now) && op.Reschedule?
    ensures Agrees(Decide(cfg, db, now, op).answer, TestsOf(cfg, db, now, op))
  {
    hide *;
    NextIdIsFree(cfg, db, now);
    if op.id in db.rows && db.rows[op.id].status.Confirmed? { MoveIndexIff(db, now, op.id, op.start, op.end); }
    MoveTests(cfg, db, now, op);
  }

  lemma MoveTests(cfg: Config, db: Db, now: int, op: Op)
    requires op.Reschedule?
    requires op.id in db.rows && db.rows[op.id].status.Confirmed? ==>
      (IndexOk(Apply(db, now, Move(op.id, op.start, op.end)).rows)
       <==> !ActiveTwin(db.rows, op.id, db.rows[op.id].person, op.start, op.end))
    ensures Agrees(Decide(cfg, db, now, op).answer, TestsOf(cfg, db, now, op))
  {
    hide IndexOk, Apply, TargetClear, ActiveTwin;
  }

  /** A refused call changes nothing, unless it marks the booking whose hold it found spent. */
  lemma RefusedChangesNothing(cfg: Config, db: Db, ev: Event)
    requires AnswerTo(cfg, db, ev).Rejected?
    ensures Step(cfg, db, ev) == db || exists x :: FindsSpent(db, ev.time, ev.op, x)
  {
    var d := Decide(cfg, db, ev.time, ev.op);
    RefusalWrites(cfg, db, ev.time, ev.op);
    if d.effect.Expire? {
      ExpireIff(cfg, db, ev.time, ev.op, d.effect.id);
    }
    assert map[] + db.secrets == db.secrets && db.used + {} == db.used;
    hide Decide;
  }

  lemma RefusalWrites(cfg: Config, db: Db, now: int, op: Op)
    ensures var d := Decide(cfg, db, now, op);
      d.answer.Rejected? ==> (d.effect.Nothing? || d.effect.Expire?) && d.spend == {} && d.cursor == db.cursor && d.mint == map[]
  {
    hide Blocked, IndexOk, TargetClear, Allocate, FreshSlots;
  }
}
