/** server/src/controllers/admin-operations.controller.ts: forced assignment, which writes the
    status without consulting the transition table, and the administrator's cancellation. */
module AdminOperations {
  import opened Schema
  import opened BookingStateMachine
  import opened DispatchController
  import opened BookingController

  predicate Terminal(status: BookingStatus) {
    status == Completed || status == Settled || status == Cancelled
  }

  /** The worker a forced assignment takes off the booking, if it is not the one put on it. */
  function Displaced(previous: Option<WorkerId>, w: WorkerId): Option<WorkerId> {
    if previous == Some(w) then None else previous
  }

  function ForceAssign(s: State, b: BookingId, w: WorkerId): (State, Reply) {
    if b >= |s.bookings| then (s, NotFound)
    else if Terminal(s.bookings[b].status) then (s, InvalidState)
    else if w >= |s.workers| || !s.workers[w].approved then (s, NotFound)
    else
      var freed := Release(s, Displaced(s.bookings[b].assignee, w));
      var written := freed.(bookings := s.bookings[b := WriteAssignee(s.bookings[b], w, s.now)]);
      var busy := SetWorker(written, w, OnJob, Some(b));
      (busy.(offers := s.offers + [Offer(b, w, AdminOverride, s.now, Outcome.Accepted)],
             audit := s.audit + [AuditRow(b, AdminForceAssign(w))]), Ok)
  }

  function AdminCancel(s: State, b: BookingId): (State, Reply) {
    if b >= |s.bookings| then (s, NotFound)
    else if !Cancellable(s.bookings[b].status) then (s, InvalidState)
    else
      var released := Release(ApplyTransition(s, b, Cancelled), s.bookings[b].assignee);
      (released.(audit := released.audit + [AuditRow(b, AdminBookingCancelled)]), Ok)
  }

  method ForceAssignBooking(db: Database, b: BookingId, w: WorkerId) returns (reply: Reply)
    modifies db
    ensures (db.Snapshot(), reply) == ForceAssign(old(db.Snapshot()), b, w)
  {
    if b >= |db.bookings| {
      return NotFound;
    }
    var booking := db.bookings[b];
    if Terminal(booking.status) {
      return InvalidState;
    }
    if w >= |db.workers| || !db.workers[w].approved {
      return NotFound;
    }
    var previous := booking.assignee;
    if previous.Some? && previous.value != w {
      ReleaseWorker(db, previous.value);
    }
    db.bookings := db.bookings[b := booking.(status := Assigned, assignee := Some(w), updatedAt := db.now)];
    db.workers := db.workers[w := db.workers[w].(availability := OnJob, current := Some(b))];
    db.offers := db.offers + [Offer(b, w, AdminOverride, db.now, Outcome.Accepted)];
    db.audit := db.audit + [AuditRow(b, AdminForceAssign(w))];
    return Ok;
  }

  method AdminCancelBooking(db: Database, b: BookingId) returns (reply: Reply)
    modifies db
    ensures (db.Snapshot(), reply) == AdminCancel(old(db.Snapshot()), b)
  {
    if b >= |db.bookings| {
      return NotFound;
    }
    var booking := db.bookings[b];
    if !Cancellable(booking.status) {
      return InvalidState;
    }
    var done := TransitionBookingStatus(db, b, Cancelled);
    if booking.assignee.Some? {
      ReleaseWorker(db, booking.assignee.value);
    }
    db.audit := db.audit + [AuditRow(b, AdminBookingCancelled)];
    return Ok;
  }
}
