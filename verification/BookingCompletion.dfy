/** server/src/controllers/booking-completion.controller.ts: commission, invoice and release
    of the worker, in one transaction. */
module BookingCompletion {
  import opened Schema
  import opened BookingStateMachine
  import opened DispatchController
  import opened BookingController

  /** total * percent / 100, rounded half up to cents when it is stored in Decimal(10,2). */
  function PlatformFee(total: nat, commission: BasisPoints): nat {
    (total * commission + 5000) / 10000
  }

  function Complete(s: State, b: BookingId, caller: WorkerId, commission: BasisPoints): (State, Reply) {
    if b >= |s.bookings| || caller >= |s.workers| || s.bookings[b].assignee != Some(caller) then (s, NotFound)
    else if s.bookings[b].status != InProgress then (s, InvalidState)
    else
      var total := s.bookings[b].total;
      var moved := ApplyTransition(s, b, Completed);
      var billed := moved.(invoices := s.invoices[b := Invoice(PlatformFee(total, commission), total)]);
      (SetWorker(billed, caller, Available, None), Ok)
  }

  method CompleteBooking(db: Database, b: BookingId, caller: WorkerId, commission: BasisPoints) returns (reply: Reply)
    modifies db
    ensures (db.Snapshot(), reply) == Complete(old(db.Snapshot()), b, caller, commission)
  {
    if b >= |db.bookings| || caller >= |db.workers| || db.bookings[b].assignee != Some(caller) {
      return NotFound;
    }
    var booking := db.bookings[b];
    if booking.status != InProgress {
      return InvalidState;
    }
    var fee := (booking.total * commission + 5000) / 10000;
    var done := TransitionBookingStatus(db, b, Completed);
    db.invoices := db.invoices[b := Invoice(fee, booking.total)];
    ReleaseWorker(db, caller);
    return Ok;
  }
}
