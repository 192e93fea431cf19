/** The writes to the bookings and audit tables, by event: whatever else a step does, it makes at most
    one of three kinds of write to one booking, together with the audit row that goes with it. */
module BookingChanges {
  import opened Schema
  import opened BookingStateMachine
  import opened DispatchController
  import opened BookingController
  import opened AdminOperations
  import BookingCompletion
  import ReviewController
  import opened Steps

  datatype Change =
    | Unchanged
    | Created(customer: CustomerId, total: nat)
    | Moved(booking: BookingId, next: BookingStatus)
    | Handed(booking: BookingId, worker: WorkerId, forced: bool)

  function ChangeOf(s: State, e: Event): Change {
    match e
    case RequestBooking(customer, total) => Created(customer, total)
    case StartDispatch(b) => MoveIf(s, b, DispatchingTop3)
    case OpenPool(b) => MoveFrom(s, b, DispatchingTop3, DispatchingPool)
    case ExhaustPool(b) => MoveFrom(s, b, DispatchingPool, Cancelled)
    case AutoConfirm(b) => MoveIf(s, b, Confirmed)
    case Respond(o, w, accept) =>
      if accept && Accept(s, o, w).1 == Ok then Handed(s.offers[o].booking, w, false) else Unchanged
    case ForceAssign(b, w) => if AdminOperations.ForceAssign(s, b, w).1 == Ok then Handed(b, w, true) else Unchanged
    case CancelBooking(b, who) => if Cancel(s, b, who).1 == Ok then Moved(b, Cancelled) else Unchanged
    case AdminCancel(b) => if AdminOperations.AdminCancel(s, b).1 == Ok then Moved(b, Cancelled) else Unchanged
    case StartWork(b, w) => if Start(s, b, w).1 == Ok then Moved(b, InProgress) else Unchanged
    case CompleteWork(b, w, commission) =>
      if BookingCompletion.Complete(s, b, w, commission).1 == Ok then Moved(b, Completed) else Unchanged
    case SubmitReview(b, customer, stars) =>
      if ReviewController.ScreenReview(s, b, customer, stars) == Ok then Moved(b, Settled) else Unchanged
    case _ => Unchanged
  }

  function MoveIf(s: State, b: BookingId, next: BookingStatus): Change {
    if CanTransition(s, b, next) then Moved(b, next) else Unchanged
  }

  function MoveFrom(s: State, b: BookingId, from: BookingStatus, next: BookingStatus): Change {
    if b < |s.bookings| && s.bookings[b].status == from then Moved(b, next) else Unchanged
  }

  /** When the change may happen. */
  predicate Enabled(s: State, change: Change) {
    match change
    case Moved(b, next) => CanTransition(s, b, next) && next != Assigned
    case Handed(b, w, forced) =>
      && b < |s.bookings| && w < |s.workers|
      && (if forced then !Terminal(s.bookings[b].status) else s.bookings[b].assignee.None?)
    case _ => true
  }

  function NewBookings(s: State, change: Change): seq<Booking>
    requires Enabled(s, change)
  {
    match change
    case Unchanged => s.bookings
    case Created(customer, total) =>
      s.bookings + [Booking(customer, Requested, None, total, s.now, None, None, None, None, None)]
    case Moved(b, next) => s.bookings[b := Stamped(s.bookings[b], next, s.now)]
    case Handed(b, w, _) => s.bookings[b := WriteAssignee(s.bookings[b], w, s.now)]
  }

  /** The audit row that goes with the change; an administrator's cancellation adds a note after it. */
  function NewAudit(s: State, change: Change, noted: bool): seq<AuditRow>
    requires Enabled(s, change)
  {
    match change
    case Unchanged => s.audit
    case Created(_, _) => s.audit + [AuditRow(|s.bookings|, BookingCreated)]
    case Moved(b, next) =>
      var moved := s.audit + [AuditRow(b, StatusChanged(s.bookings[b].status, next))];
      if noted then moved + [AuditRow(b, AdminBookingCancelled)] else moved
    case Handed(b, w, forced) =>
      s.audit + [AuditRow(b, if forced then AdminForceAssign(w) else BookingAccepted(w))]
  }

  predicate Makes(s: State, e: Event, t: State) {
    var change := ChangeOf(s, e);
    && Enabled(s, change)
    && t.bookings == NewBookings(s, change)
    && t.audit == NewAudit(s, change, e.AdminCancel?)
    && |s.workers| <= |t.workers|
    && (!e.Tick? ==> t.now == s.now) && s.now <= t.now
  }

  lemma RespondMakesChange(s: State, o: OfferId, w: WorkerId, accept: bool)
    ensures Makes(s, Respond(o, w, accept), Step(s, Respond(o, w, accept)))
  {
  }

  lemma ForceAssignMakesChange(s: State, b: BookingId, w: WorkerId)
    ensures Makes(s, Event.ForceAssign(b, w), Step(s, Event.ForceAssign(b, w)))
  {
  }

  lemma CancelMakesChange(s: State, b: BookingId, who: Canceller)
    ensures Makes(s, CancelBooking(b, who), Step(s, CancelBooking(b, who)))
  {
  }

  lemma AdminCancelMakesChange(s: State, b: BookingId)
    ensures Makes(s, Event.AdminCancel(b), Step(s, Event.AdminCancel(b)))
  {
  }

  lemma CompleteMakesChange(s: State, b: BookingId, w: WorkerId, commission: BasisPoints)
    ensures Makes(s, CompleteWork(b, w, commission), Step(s, CompleteWork(b, w, commission)))
  {
  }

  lemma ReviewMakesChange(s: State, b: BookingId, customer: CustomerId, stars: ReviewController.Stars)
    ensures Makes(s, SubmitReview(b, customer, stars), Step(s, SubmitReview(b, customer, stars)))
  {
  }

  lemma GuardedMovesMakeChange(s: State, e: Event)
    requires e.StartDispatch? || e.AutoConfirm?
    ensures Makes(s, e, Step(s, e))
  {
  }

  lemma PoolMovesMakeChange(s: State, e: Event)
    requires e.OpenPool? || e.ExhaustPool?
    ensures Makes(s, e, Step(s, e))
  {
  }

  lemma RequestAndStartMakeChange(s: State, e: Event)
    requires e.RequestBooking? || e.StartWork?
    ensures Makes(s, e, Step(s, e))
  {
  }

  lemma WorkerEventsChangeNothing(s: State, e: Event)
    requires e.RegisterWorker? || e.VerifyWorker? || e.SetAvailability? || e.SetSuspension?
    ensures Makes(s, e, Step(s, e))
  {
  }

  lemma TableEventsChangeNothing(s: State, e: Event)
    requires e.Tick? || e.SendOffer? || e.ExpireOffer? || e.RecordPayment? || e.PostCredit? || e.SettleCredit?
             || e.ReconcileRecord? || e.LoseLockReply?
    ensures Makes(s, e, Step(s, e))
  {
  }

  lemma StepMakesChange(s: State, e: Event)
    ensures Makes(s, e, Step(s, e))
  {
    match e
    case Respond(o, w, accept) => RespondMakesChange(s, o, w, accept);
    case ForceAssign(b, w) => ForceAssignMakesChange(s, b, w);
    case CancelBooking(b, who) => CancelMakesChange(s, b, who);
    case AdminCancel(b) => AdminCancelMakesChange(s, b);
    case CompleteWork(b, w, commission) => CompleteMakesChange(s, b, w, commission);
    case SubmitReview(b, customer, stars) => ReviewMakesChange(s, b, customer, stars);
    case StartDispatch(_) => GuardedMovesMakeChange(s, e);
    case OpenPool(_) => PoolMovesMakeChange(s, e);
    case ExhaustPool(_) => PoolMovesMakeChange(s, e);
    case AutoConfirm(_) => GuardedMovesMakeChange(s, e);
    case RequestBooking(_, _) => RequestAndStartMakeChange(s, e);
    case StartWork(_, _) => RequestAndStartMakeChange(s, e);
    case RegisterWorker => WorkerEventsChangeNothing(s, e);
    case VerifyWorker(_, _) => WorkerEventsChangeNothing(s, e);
    case SetAvailability(_, _) => WorkerEventsChangeNothing(s, e);
    case SetSuspension(_, _) => WorkerEventsChangeNothing(s, e);
    case _ => TableEventsChangeNothing(s, e);
  }
}
