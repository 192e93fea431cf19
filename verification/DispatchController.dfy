/** server/src/controllers/dispatch.controller.ts and server/src/lib/redis-lock.ts:
    a worker's answer to an offer. */
module DispatchController {
  import opened Schema

  const LOCK_TTL_MS: nat := 5000

  datatype Reply =
    | Ok
    | NotFound
    | OfferNoLongerActive
    | LostLock
    | AlreadyAssigned
    | InvalidState
    | AccountSuspended
    | ValidationError
    | ServerError

  predicate LockHeld(s: State, b: BookingId) {
    b in s.locks && s.now < s.locks[b]
  }

  /** Writes the outcome of one offer row. */
  function SetOutcome(s: State, o: OfferId, outcome: Outcome): State
    requires o < |s.offers|
  {
    s.(offers := s.offers[o := s.offers[o].(outcome := outcome)])
  }

  /** Updates a worker row, which a foreign key guarantees to exist. */
  function SetWorker(s: State, w: WorkerId, availability: Availability, current: Option<BookingId>): State {
    if w < |s.workers|
    then s.(workers := s.workers[w := s.workers[w].(availability := availability, current := current)])
    else s
  }

  function WriteAssignee(booking: Booking, w: WorkerId, now: nat): Booking {
    booking.(status := Assigned, assignee := Some(w), updatedAt := now)
  }

  /** Whether the offer exists, belongs to the caller and is still open. */
  function Screen(s: State, o: OfferId, caller: WorkerId): Reply {
    if o >= |s.offers| || caller >= |s.workers| || s.offers[o].worker != caller then NotFound
    else if s.offers[o].outcome != Offered then OfferNoLongerActive
    else Ok
  }

  function Decline(s: State, o: OfferId, caller: WorkerId): (State, Reply) {
    match Screen(s, o, caller)
    case Ok => (SetOutcome(s, o, Declined), Ok)
    case reply => (s, reply)
  }

  /** The accept transaction, run after the lock was taken. */
  function AcceptTransaction(s: State, o: OfferId): State
    requires o < |s.offers| && s.offers[o].booking < |s.bookings|
  {
    var b, w := s.offers[o].booking, s.offers[o].worker;
    var answered := SetOutcome(s, o, Outcome.Accepted);
    var written := answered.(bookings := s.bookings[b := WriteAssignee(s.bookings[b], w, s.now)]);
    var busy := SetWorker(written, w, OnJob, Some(b));
    busy.(audit := s.audit + [AuditRow(b, BookingAccepted(w))])
  }

  function Accept(s: State, o: OfferId, caller: WorkerId): (State, Reply) {
    match Screen(s, o, caller)
    case Ok =>
      var b := s.offers[o].booking;
      if LockHeld(s, b) then (SetOutcome(s, o, Outcome.LockLost), LostLock)
      else
        // The lock is left to expire, whether or not the transaction goes through.
        var locked := s.(locks := s.locks[b := s.now + LOCK_TTL_MS]);
        if b >= |s.bookings| || s.bookings[b].assignee.Some? then (locked, AlreadyAssigned)
        else (AcceptTransaction(locked, o), Ok)
    case reply => (s, reply)
  }

  /** The accept handler when the answer to its SET does not arrive in time: the key may be taken, and
      nothing else is done. */
  function AcceptUnanswered(s: State, o: OfferId, caller: WorkerId): (State, Reply) {
    match Screen(s, o, caller)
    case Ok =>
      var b := s.offers[o].booking;
      (if LockHeld(s, b) then s else s.(locks := s.locks[b := s.now + LOCK_TTL_MS]), ServerError)
    case reply => (s, reply)
  }

  /** SET lock:booking:<b> NX PX 5000, raced against a timeout of 3000 ms: with `inTime` false the key is
      set all the same and the call is rejected. */
  method AcquireBookingLock(db: Database, b: BookingId, inTime: bool) returns (acquired: Option<bool>)
    modifies db`locks
    ensures acquired == if inTime then Some(!old(LockHeld(db.Snapshot(), b))) else None
    ensures db.locks ==
            if old(LockHeld(db.Snapshot(), b)) then old(db.locks) else old(db.locks)[b := db.now + LOCK_TTL_MS]
  {
    var free := b !in db.locks || db.locks[b] <= db.now;
    if free {
      db.locks := db.locks[b := db.now + LOCK_TTL_MS];
    }
    return if inTime then Some(free) else None;
  }

  /** The accept transaction after its check of the assignee. */
  method WriteAcceptance(db: Database, o: OfferId)
    requires o < |db.offers| && db.offers[o].booking < |db.bookings|
    modifies db
    ensures db.Snapshot() == AcceptTransaction(old(db.Snapshot()), o)
  {
    var b, w := db.offers[o].booking, db.offers[o].worker;
    db.offers := db.offers[o := db.offers[o].(outcome := Outcome.Accepted)];
    db.bookings := db.bookings[b := db.bookings[b].(status := Assigned, assignee := Some(w), updatedAt := db.now)];
    if w < |db.workers| {
      db.workers := db.workers[w := db.workers[w].(availability := OnJob, current := Some(b))];
    }
    db.audit := db.audit + [AuditRow(b, BookingAccepted(w))];
  }

  method RespondToDispatch(db: Database, o: OfferId, caller: WorkerId, accept: bool, inTime: bool)
    returns (reply: Reply)
    modifies db
    ensures (db.Snapshot(), reply) ==
            if !accept then Decline(old(db.Snapshot()), o, caller)
            else if inTime then Accept(old(db.Snapshot()), o, caller)
            else AcceptUnanswered(old(db.Snapshot()), o, caller)
  {
    if o >= |db.offers| || caller >= |db.workers| || db.offers[o].worker != caller {
      return NotFound;
    }
    var offer := db.offers[o];
    if offer.outcome != Offered {
      return OfferNoLongerActive;
    }
    if !accept {
      db.offers := db.offers[o := offer.(outcome := Declined)];
      return Ok;
    }
    var acquired := AcquireBookingLock(db, offer.booking, inTime);
    if acquired.None? {
      return ServerError;
    }
    if !acquired.value {
      db.offers := db.offers[o := offer.(outcome := Outcome.LockLost)];
      return LostLock;
    }
    if offer.booking >= |db.bookings| || db.bookings[offer.booking].assignee.Some? {
      return AlreadyAssigned;
    }
    WriteAcceptance(db, o);
    return Ok;
  }
}
