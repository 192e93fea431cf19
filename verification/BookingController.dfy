/** server/src/controllers/booking.controller.ts: creating, cancelling and starting a booking. */
module BookingController {
  import opened Schema
  import opened BookingStateMachine
  import opened DispatchController

  datatype Canceller = ByCustomer(customer: CustomerId) | ByWorker(worker: WorkerId)

  function Request(s: State, customer: CustomerId, total: nat): State {
    s.(bookings := s.bookings + [Booking(customer, Requested, None, total, s.now, None, None, None, None, None)],
       audit := s.audit + [AuditRow(|s.bookings|, BookingCreated)])
  }

  predicate MayCancel(booking: Booking, who: Canceller) {
    match who
    case ByCustomer(c) => booking.customer == c
    case ByWorker(w) => booking.assignee == Some(w)
  }

  /** The assigned worker, if there is one, becomes available with no current booking. */
  function Release(s: State, assignee: Option<WorkerId>): State {
    match assignee
    case Some(w) => SetWorker(s, w, Available, None)
    case None => s
  }

  function Cancel(s: State, b: BookingId, who: Canceller): (State, Reply) {
    if b >= |s.bookings| || !MayCancel(s.bookings[b], who) then (s, NotFound)
    else if !Cancellable(s.bookings[b].status) then (s, InvalidState)
    else (Release(ApplyTransition(s, b, Cancelled), s.bookings[b].assignee), Ok)
  }

  function Start(s: State, b: BookingId, caller: WorkerId): (State, Reply) {
    if b >= |s.bookings| || s.bookings[b].assignee != Some(caller) then (s, NotFound)
    else if s.bookings[b].status != Confirmed then (s, InvalidState)
    else (ApplyTransition(s, b, InProgress), Ok)
  }

  method RequestBooking(db: Database, customer: CustomerId, total: nat) returns (b: BookingId)
    modifies db
    ensures b == old(|db.bookings|)
    ensures db.Snapshot() == Request(old(db.Snapshot()), customer, total)
  {
    b := |db.bookings|;
    db.bookings := db.bookings + [Booking(customer, Requested, None, total, db.now, None, None, None, None, None)];
    db.audit := db.audit + [AuditRow(b, BookingCreated)];
  }

  method ReleaseWorker(db: Database, w: WorkerId)
    modifies db`workers
    ensures db.Snapshot() == SetWorker(old(db.Snapshot()), w, Available, None)
  {
    if w < |db.workers| {
      db.workers := db.workers[w := db.workers[w].(availability := Available, current := None)];
    }
  }

  method CancelBooking(db: Database, b: BookingId, who: Canceller) returns (reply: Reply)
    modifies db
    ensures (db.Snapshot(), reply) == Cancel(old(db.Snapshot()), b, who)
  {
    if b >= |db.bookings| || !MayCancel(db.bookings[b], who) {
      return NotFound;
    }
    var booking := db.bookings[b];
    if !Cancellable(booking.status) {
      return InvalidState;
    }
    var done := TransitionBookingStatus(db, b, Cancelled);
    if booking.assignee.Some? {
      ReleaseWorker(db, booking.assignee.value);
    }
    return Ok;
  }

  method StartBooking(db: Database, b: BookingId, caller: WorkerId) returns (reply: Reply)
    modifies db
    ensures (db.Snapshot(), reply) == Start(old(db.Snapshot()), b, caller)
  {
    if b >= |db.bookings| || db.bookings[b].assignee != Some(caller) {
      return NotFound;
    }
    if db.bookings[b].status != Confirmed {
      return InvalidState;
    }
    var done := TransitionBookingStatus(db, b, InProgress);
    return Ok;
  }
}
