/** A worker's duty over whole runs: what puts workers on a job, takes them off it, and whether suspension keeps
    them from being found for the next one. */
module WorkerDuty {
  import opened Schema
  import opened DispatchController
  import opened BookingController
  import AdminOperations
  import BookingCompletion
  import ReviewController
  import Ratings
  import opened Steps

  /** The booking that the event puts the worker on. */
  function TakesOn(s: State, e: Event, w: WorkerId): Option<BookingId> {
    match e
    case Respond(o, v, accept) =>
      if accept && v == w && Accept(s, o, v).1 == Ok then Some(s.offers[o].booking) else None
    case ForceAssign(b, v) => if v == w && AdminOperations.ForceAssign(s, b, v).1 == Ok then Some(b) else None
    case _ => None
  }

  predicate AssignedTo(s: State, b: BookingId, w: WorkerId) {
    b < |s.bookings| && s.bookings[b].assignee == Some(w)
  }

  /** The worker's booking is cancelled, completed, or given to another worker. */
  predicate LetsGo(s: State, e: Event, w: WorkerId) {
    match e
    case CancelBooking(b, who) => AssignedTo(s, b, w) && Cancel(s, b, who).1 == Ok
    case AdminCancel(b) => AssignedTo(s, b, w) && AdminOperations.AdminCancel(s, b).1 == Ok
    case CompleteWork(b, v, commission) => v == w && BookingCompletion.Complete(s, b, v, commission).1 == Ok
    case ForceAssign(b, v) => v != w && AssignedTo(s, b, w) && AdminOperations.ForceAssign(s, b, v).1 == Ok
    case _ => false
  }

  /** The worker goes on or off duty; going on is refused to the suspended. */
  predicate Switches(s: State, e: Event, w: WorkerId)
    requires w < |s.workers|
  {
    && e.SetAvailability? && e.worker == w
    && (e.availability == OffDuty || (e.availability == Available && !s.workers[w].suspended))
  }

  /** Every write to the duty columns of a worker's row, and to its two flags. */
  predicate DutyIs(s: State, e: Event, w: WorkerId, after: Worker)
    requires w < |s.workers|
  {
    var before, b := s.workers[w], TakesOn(s, e, w);
    && after.availability ==
       (if b.Some? then OnJob
        else if LetsGo(s, e, w) then Available
        else if e == SetSuspension(w, true) then OffDuty
        else if Switches(s, e, w) then e.availability
        else before.availability)
    && after.current == (if b.Some? then b else if LetsGo(s, e, w) then None else before.current)
    && after.approved == (if e.VerifyWorker? && e.worker == w then e.approve else before.approved)
    && after.suspended == (if e.SetSuspension? && e.worker == w then e.suspend else before.suspended)
  }

  // The workers table after each handler.

  function OnBooking(worker: Worker, b: BookingId): Worker { worker.(availability := OnJob, current := Some(b)) }

  function OffBooking(worker: Worker): Worker { worker.(availability := Available, current := None) }

  lemma AcceptRows(s: State, o: OfferId, v: WorkerId)
    ensures var (t, reply) := Accept(s, o, v);
            && (reply == Ok ==> v < |s.workers| && o < |s.offers|)
            && t.workers ==
               if reply == Ok then s.workers[v := OnBooking(s.workers[v], s.offers[o].booking)] else s.workers
  {
  }

  lemma DeclineRows(s: State, o: OfferId, v: WorkerId)
    ensures Decline(s, o, v).0.workers == s.workers
  {
  }

  function Freed(s: State, b: BookingId): seq<Worker>
    requires b < |s.bookings|
  {
    var assignee := s.bookings[b].assignee;
    if assignee.Some? && assignee.value < |s.workers|
    then s.workers[assignee.value := OffBooking(s.workers[assignee.value])] else s.workers
  }

  lemma CancelRows(s: State, b: BookingId, who: Canceller)
    ensures var (t, reply) := Cancel(s, b, who);
            && (reply == Ok ==> b < |s.bookings|)
            && t.workers == if reply == Ok then Freed(s, b) else s.workers
  {
  }

  lemma AdminCancelRows(s: State, b: BookingId)
    ensures var (t, reply) := AdminOperations.AdminCancel(s, b);
            && (reply == Ok ==> b < |s.bookings|)
            && t.workers == if reply == Ok then Freed(s, b) else s.workers
  {
  }

  lemma CompleteRows(s: State, b: BookingId, v: WorkerId, commission: BasisPoints)
    ensures var (t, reply) := BookingCompletion.Complete(s, b, v, commission);
            && (reply == Ok ==> v < |s.workers|)
            && t.workers == if reply == Ok then s.workers[v := OffBooking(s.workers[v])] else s.workers
  {
  }

  lemma ForceAssignRows(s: State, b: BookingId, v: WorkerId)
    ensures var (t, reply) := AdminOperations.ForceAssign(s, b, v);
            && (reply == Ok ==> v < |s.workers| && b < |s.bookings|)
            && t.workers ==
               if reply != Ok then s.workers
               else if s.bookings[b].assignee == Some(v) then s.workers[v := OnBooking(s.workers[v], b)]
               else Freed(s, b)[v := OnBooking(s.workers[v], b)]
  {
  }

  lemma ReviewRows(s: State, b: BookingId, c: CustomerId, stars: ReviewController.Stars)
    ensures var t := ReviewController.SubmitReview(s, b, c, stars).0;
            && |t.workers| == |s.workers|
            && forall w | 0 <= w < |s.workers| ::
                 t.workers[w] == s.workers[w].(ratingAverage := t.workers[w].ratingAverage,
                                               ratingCount := t.workers[w].ratingCount)
  {
    if ReviewController.ScreenReview(s, b, c, stars) == Ok {
      Ratings.SubmitReviewEffect(s, b, c, stars);
      hide ReviewController.SubmitReview;
    }
  }

  lemma AnswerDuty(s: State, e: Event, w: WorkerId)
    requires w < |s.workers| && e.Respond?
    ensures |Step(s, e).workers| == |s.workers| && DutyIs(s, e, w, Step(s, e).workers[w])
  {
    hide Accept, Decline;
    AcceptRows(s, e.offer, e.worker);
    DeclineRows(s, e.offer, e.worker);
    assert Step(s, e) == if e.accept then Accept(s, e.offer, e.worker).0 else Decline(s, e.offer, e.worker).0;
    hide Step;
  }

  lemma ForcedDuty(s: State, e: Event, w: WorkerId)
    requires w < |s.workers| && e.ForceAssign?
    ensures |Step(s, e).workers| == |s.workers| && DutyIs(s, e, w, Step(s, e).workers[w])
  {
    hide AdminOperations.ForceAssign;
    ForceAssignRows(s, e.booking, e.worker);
    assert Step(s, e) == AdminOperations.ForceAssign(s, e.booking, e.worker).0;
    hide Step;
  }

  lemma CancelDuty(s: State, e: Event, w: WorkerId)
    requires w < |s.workers| && (e.CancelBooking? || e.AdminCancel?)
    ensures |Step(s, e).workers| == |s.workers| && DutyIs(s, e, w, Step(s, e).workers[w])
  {
    hide Cancel, AdminOperations.AdminCancel;
    if e.CancelBooking? {
      CancelRows(s, e.booking, e.who);
      assert Step(s, e) == Cancel(s, e.booking, e.who).0;
    } else {
      AdminCancelRows(s, e.booking);
      assert Step(s, e) == AdminOperations.AdminCancel(s, e.booking).0;
    }
    hide Step;
  }

  lemma CompleteDuty(s: State, e: Event, w: WorkerId)
    requires w < |s.workers| && e.CompleteWork?
    ensures |Step(s, e).workers| == |s.workers| && DutyIs(s, e, w, Step(s, e).workers[w])
  {
    hide BookingCompletion.Complete;
    CompleteRows(s, e.booking, e.worker, e.commission);
    assert Step(s, e) == BookingCompletion.Complete(s, e.booking, e.worker, e.commission).0;
    hide Step;
  }

  lemma ReviewDuty(s: State, e: Event, w: WorkerId)
    requires w < |s.workers| && e.SubmitReview?
    ensures |Step(s, e).workers| == |s.workers| && DutyIs(s, e, w, Step(s, e).workers[w])
  {
    hide ReviewController.SubmitReview;
    ReviewRows(s, e.booking, e.customer, e.stars);
    assert Step(s, e) == ReviewController.SubmitReview(s, e.booking, e.customer, e.stars).0;
    hide Step;
  }

  lemma AvailabilityDuty(s: State, e: Event, w: WorkerId)
    requires w < |s.workers| && e.SetAvailability?
    ensures |Step(s, e).workers| == |s.workers| && DutyIs(s, e, w, Step(s, e).workers[w])
  {
  }

  lemma SuspensionDuty(s: State, e: Event, w: WorkerId)
    requires w < |s.workers| && e.SetSuspension?
    ensures |Step(s, e).workers| == |s.workers| && DutyIs(s, e, w, Step(s, e).workers[w])
  {
  }

  lemma VerificationDuty(s: State, e: Event, w: WorkerId)
    requires w < |s.workers| && e.VerifyWorker?
    ensures |Step(s, e).workers| == |s.workers| && DutyIs(s, e, w, Step(s, e).workers[w])
  {
  }

  /** The other events at most add a worker. */
  lemma OtherRows(s: State, e: Event)
    requires !(e.Respond? || e.ForceAssign? || e.CancelBooking? || e.AdminCancel? || e.CompleteWork? || e.SubmitReview?)
    requires !(e.SetAvailability? || e.SetSuspension? || e.VerifyWorker?)
    ensures Step(s, e).workers ==
            if e.RegisterWorker? then s.workers + [Worker(OffDuty, None, false, false, 0.0, 0)] else s.workers
  {
  }

  /** Every event does to every worker's row exactly what DutyIs says. */
  lemma StepChangesDuty(s: State, e: Event, w: WorkerId)
    requires w < |s.workers|
    ensures w < |Step(s, e).workers| && DutyIs(s, e, w, Step(s, e).workers[w])
  {
    hide Step, DutyIs;
    match e
    case Respond(_, _, _) => AnswerDuty(s, e, w);
    case ForceAssign(_, _) => ForcedDuty(s, e, w);
    case CancelBooking(_, _) => CancelDuty(s, e, w);
    case AdminCancel(_) => CancelDuty(s, e, w);
    case CompleteWork(_, _, _) => CompleteDuty(s, e, w);
    case SubmitReview(_, _, _) => ReviewDuty(s, e, w);
    case SetAvailability(_, _) => AvailabilityDuty(s, e, w);
    case SetSuspension(_, _) => SuspensionDuty(s, e, w);
    case VerifyWorker(_, _) => VerificationDuty(s, e, w);
    case _ => OtherDuty(s, e, w);
  }

  lemma OtherDuty(s: State, e: Event, w: WorkerId)
    requires w < |s.workers|
    requires !(e.Respond? || e.ForceAssign? || e.CancelBooking? || e.AdminCancel? || e.CompleteWork? || e.SubmitReview?)
    requires !(e.SetAvailability? || e.SetSuspension? || e.VerifyWorker?)
    ensures w < |Step(s, e).workers| && DutyIs(s, e, w, Step(s, e).workers[w])
  {
    OtherRows(s, e);
    hide Step;
  }

  predicate AvailableThoughSuspended(s: State, w: WorkerId) {
    w < |s.workers| && s.workers[w].suspended && s.workers[w].availability == Available
  }

  /** Suspension blocks the switch to AVAILABLE, but not the release from a booking: a step makes a suspended worker
      available exactly when it lets the worker go. */
  lemma SuspendedGoesAvailableIff(s: State, e: Event, w: WorkerId)
    requires w < |s.workers| && s.workers[w].suspended && s.workers[w].availability != Available
    ensures AvailableThoughSuspended(Step(s, e), w) <==> LetsGo(s, e, w)
  {
    hide Step;
    StepChangesDuty(s, e, w);
  }

  /** Nobody starts out available. */
  lemma NewcomersAreOff(s: State, e: Event, w: WorkerId)
    requires |s.workers| <= w < |Step(s, e).workers|
    ensures Step(s, e).workers[w] == Worker(OffDuty, None, false, false, 0.0, 0)
  {
    RowsStay(s, e);
    hide Step;
    OtherRows(s, RegisterWorker);
  }

  lemma RowsStay(s: State, e: Event)
    ensures e.RegisterWorker? || |Step(s, e).workers| == |s.workers|
  {
    hide Accept, Decline, AdminOperations.ForceAssign, Cancel, AdminOperations.AdminCancel, BookingCompletion.Complete;
    hide ReviewController.SubmitReview;
    match e
    case Respond(o, v, _) => AcceptRows(s, o, v); DeclineRows(s, o, v);
    case ForceAssign(b, v) => ForceAssignRows(s, b, v);
    case CancelBooking(b, who) => CancelRows(s, b, who);
    case AdminCancel(b) => AdminCancelRows(s, b);
    case CompleteWork(b, v, commission) => CompleteRows(s, b, v, commission);
    case SubmitReview(b, c, stars) => ReviewRows(s, b, c, stars);
    case _ =>
  }

  /** Some suspended worker is let go at some point of the run. */
  ghost predicate LetsSuspendedGo(s: State, events: seq<Event>)
    decreases |events|
  {
    events != [] &&
    (|| (exists w: WorkerId :: w < |s.workers| && s.workers[w].suspended && LetsGo(s, events[0], w))
     || LetsSuspendedGo(Step(s, events[0]), events[1..]))
  }

  lemma BecomesAvailable(s: State, e: Event, w: WorkerId)
    requires w < |s.workers| && !AvailableThoughSuspended(s, w) && AvailableThoughSuspended(Step(s, e), w)
    ensures s.workers[w].suspended && LetsGo(s, e, w)
  {
    hide Step;
    StepChangesDuty(s, e, w);
  }

  /** In every run in which no suspended worker is let go, no suspended worker is ever available. */
  lemma {:induction false} OtherwiseSuspensionHolds(s: State, events: seq<Event>, w: WorkerId)
    requires !LetsSuspendedGo(s, events) && forall v: WorkerId :: !AvailableThoughSuspended(s, v)
    ensures !AvailableThoughSuspended(Run(s, events), w)
    decreases |events|
  {
    hide Step, LetsGo;
    if events != [] {
      var e, t := events[0], Step(s, events[0]);
      forall v: WorkerId
        ensures !AvailableThoughSuspended(t, v)
      {
        if |s.workers| <= v < |t.workers| {
          NewcomersAreOff(s, e, v);
        } else if v < |s.workers| && AvailableThoughSuspended(t, v) {
          BecomesAvailable(s, e, v);
        }
      }
      OtherwiseSuspensionHolds(t, events[1..], w);
    }
  }
}
