/** server/src/services/booking-state-machine.service.ts: the transition table and the one
    function that applies it, stamping the time and appending an audit row. */
module BookingStateMachine {
  import opened Schema

  function LegalTransitions(from: BookingStatus): set<BookingStatus> {
    match from
    case Requested => {DispatchingTop3, Cancelled}
    case DispatchingTop3 => {Assigned, DispatchingPool, Cancelled}
    case DispatchingPool => {Assigned, Cancelled}
    case Assigned => {Confirmed, Cancelled}
    case Confirmed => {InProgress, Cancelled}
    case InProgress => {Completed}
    case Completed => {Settled}
    case Settled => {}
    case Cancelled => {}
  }

  /** The booking row after a status write: the new status's timestamp column, if it has one, is set. */
  function Stamped(booking: Booking, next: BookingStatus, now: nat): Booking {
    var moved := booking.(status := next, updatedAt := now);
    match next
    case Confirmed => moved.(confirmedAt := Some(now))
    case InProgress => moved.(startedAt := Some(now))
    case Completed => moved.(completedAt := Some(now))
    case Settled => moved.(settledAt := Some(now))
    case Cancelled => moved.(cancelledAt := Some(now))
    case _ => moved
  }

  predicate CanTransition(s: State, b: BookingId, next: BookingStatus) {
    b < |s.bookings| && next in LegalTransitions(s.bookings[b].status)
  }

  function ApplyTransition(s: State, b: BookingId, next: BookingStatus): State
    requires CanTransition(s, b, next)
  {
    s.(bookings := s.bookings[b := Stamped(s.bookings[b], next, s.now)],
       audit := s.audit + [AuditRow(b, StatusChanged(s.bookings[b].status, next))])
  }

  /** The transaction as its callers see it: an illegal transition throws and changes nothing. */
  function Transition(s: State, b: BookingId, next: BookingStatus): State {
    if CanTransition(s, b, next) then ApplyTransition(s, b, next) else s
  }

  method TransitionBookingStatus(db: Database, b: BookingId, next: BookingStatus) returns (done: bool)
    modifies db
    ensures done == CanTransition(old(db.Snapshot()), b, next)
    ensures db.Snapshot() == Transition(old(db.Snapshot()), b, next)
  {
    if b >= |db.bookings| {
      return false;
    }
    var booking := db.bookings[b];
    if next !in LegalTransitions(booking.status) {
      return false;
    }
    db.bookings := db.bookings[b := Stamped(booking, next, db.now)];
    db.audit := db.audit + [AuditRow(b, StatusChanged(booking.status, next))];
    return true;
  }
}
