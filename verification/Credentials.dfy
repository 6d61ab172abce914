/** What a caller has to show: the rights a signed token gives, in its own fields. */
module Credentials {
  import opened Store
  import opened Availability
  import opened Lifecycle

  /** A genuine token for that purpose, that booking and this tenant, still before its expiry. */
  predicate Proves(t: Token, purpose: Purpose, id: RowId, now: int) {
    t.genuine && t.purpose == purpose && t.booking == id && t.ours && now < t.exp * 1000
  }

  lemma ProvesIff(t: Token, purpose: Purpose, id: RowId, now: int)
    ensures Proves(t, purpose, id, now) <==> Unexpired(t, now) && TokenFits(t, purpose, id)
    ensures Proves(t, purpose, t.booking, now) <==> Unexpired(t, now) && t.purpose == purpose && t.ours
  {
  }

  /** Without such a token a confirmation, a cancellation that is no replay, and a move are refused and change nothing. */
  lemma UnprovenIsRefused(cfg: Config, db: Db, ev: Event)
    requires match ev.op
             case ConfirmBooking(t, _) => !Proves(t, Verify, t.booking, ev.time)
             case CancelBooking(id, t, key) =>
               !Proves(t, CancelIt, id, ev.time) && (ForCancel, key) !in db.used && !(id in db.rows && db.rows[id].status.Canceled?)
             case Reschedule(id, t, _, _, _, _) => !Proves(t, RescheduleIt, id, ev.time)
             case _ => false
    ensures AnswerTo(cfg, db, ev).Rejected? && Step(cfg, db, ev) == db
  {
    hide IndexOk, TargetClear, ConfirmTx;
  }
}
