/** A worker's currentBookingId, which location broadcasts rely on without looking the booking up
    (server/src/controllers/location.controller.ts:84-90). */
module Occupancy {
  import opened Schema
  import opened BookingStateMachine
  import opened DispatchController
  import opened BookingController
  import opened AdminOperations
  import BookingCompletion
  import ReviewController
  import opened Steps
  import opened BookingChanges
  import opened Lifecycle

  /** A current booking is assigned to that worker and active, and ON_JOB comes with a current booking. */
  predicate WorkerOccupied(worker: Worker, w: WorkerId, bookings: seq<Booking>) {
    && (worker.current.Some? ==>
          var b := worker.current.value;
          b < |bookings| && bookings[b].assignee == Some(w) && Active(bookings[b].status))
    && (worker.availability == OnJob ==> worker.current.Some?)
  }

  predicate Occupied(s: State) {
    forall w | 0 <= w < |s.workers| :: WorkerOccupied(s.workers[w], w, s.bookings)
  }

  lemma AcceptKeepsOccupied(s: State, o: OfferId, w: WorkerId)
    requires Occupied(s)
    ensures Occupied(Accept(s, o, w).0)
  {
  }

  lemma ForceAssignKeepsOccupied(s: State, b: BookingId, w: WorkerId)
    requires Occupied(s)
    ensures Occupied(AdminOperations.ForceAssign(s, b, w).0)
  {
    var (t, reply) := AdminOperations.ForceAssign(s, b, w);
    if reply == Ok {
      forall v | 0 <= v < |t.workers|
        ensures WorkerOccupied(t.workers[v], v, t.bookings)
      {
        assert WorkerOccupied(s.workers[v], v, s.bookings);
        ForceAssignKeepsWorkerOccupied(s, b, w, v);
      }
    }
  }

  lemma ForceAssignKeepsWorkerOccupied(s: State, b: BookingId, w: WorkerId, v: WorkerId)
    requires AdminOperations.ForceAssign(s, b, w).1 == Ok
    requires v < |s.workers| && WorkerOccupied(s.workers[v], v, s.bookings)
    ensures var t := AdminOperations.ForceAssign(s, b, w).0;
            |t.workers| == |s.workers| && WorkerOccupied(t.workers[v], v, t.bookings)
  {
    ForceAssignTables(s, b, w);
    hide AdminOperations.ForceAssign;
  }

  lemma ForceAssignTables(s: State, b: BookingId, w: WorkerId)
    requires AdminOperations.ForceAssign(s, b, w).1 == Ok
    ensures var t := AdminOperations.ForceAssign(s, b, w).0;
            && b < |s.bookings| && w < |s.workers| == |t.workers|
            && t.bookings == s.bookings[b := WriteAssignee(s.bookings[b], w, s.now)]
            && (forall v | 0 <= v < |s.workers| ::
                  t.workers[v] ==
                  if v == w then s.workers[v].(availability := OnJob, current := Some(b))
                  else if s.bookings[b].assignee == Some(v)
                  then s.workers[v].(availability := Available, current := None)
                  else s.workers[v])
  {
  }

  lemma ReleaseKeepsOccupied(s: State, b: BookingId, next: BookingStatus)
    requires Occupied(s) && CanTransition(s, b, next) && s.bookings[b].assignee.Some?
    ensures Occupied(SetWorker(ApplyTransition(s, b, next), s.bookings[b].assignee.value, Available, None))
  {
  }

  lemma CancelKeepsOccupied(s: State, b: BookingId, who: Canceller)
    requires Occupied(s)
    ensures Occupied(Cancel(s, b, who).0) && Occupied(AdminOperations.AdminCancel(s, b).0)
  {
    if b < |s.bookings| && Cancellable(s.bookings[b].status) && s.bookings[b].assignee.Some? {
      ReleaseKeepsOccupied(s, b, Cancelled);
    }
  }

  lemma CompleteKeepsOccupied(s: State, b: BookingId, w: WorkerId, commission: BasisPoints)
    requires Occupied(s)
    ensures Occupied(BookingCompletion.Complete(s, b, w, commission).0)
  {
  }

  lemma ReviewKeepsOccupied(s: State, b: BookingId, customer: CustomerId, stars: ReviewController.Stars)
    requires Occupied(s)
    ensures Occupied(ReviewController.SubmitReview(s, b, customer, stars).0)
  {
  }

  /** The events that leave every worker's current booking alone. */
  predicate Quiet(e: Event) {
    !(e.ForceAssign? || (e.Respond? && e.accept) || e.CancelBooking? || e.AdminCancel? || e.CompleteWork?)
  }

  lemma QuietStepsKeepOccupied(s: State, e: Event)
    requires Occupied(s) && Quiet(e) && !e.SubmitReview?
    ensures Occupied(Step(s, e))
  {
    hide Accept, AdminOperations.ForceAssign, Cancel, AdminOperations.AdminCancel;
    hide BookingCompletion.Complete, ReviewController.SubmitReview;
  }

  lemma StepKeepsOccupied(s: State, e: Event)
    requires Occupied(s)
    ensures Occupied(Step(s, e))
  {
    hide Accept, AdminOperations.ForceAssign, Cancel, AdminOperations.AdminCancel;
    hide BookingCompletion.Complete, ReviewController.SubmitReview, Occupied;
    match e
    case Respond(o, w, accept) =>
      if accept {
        AcceptKeepsOccupied(s, o, w);
      } else {
        QuietStepsKeepOccupied(s, e);
      }
    case ForceAssign(b, w) => ForceAssignKeepsOccupied(s, b, w);
    case CancelBooking(b, who) => CancelKeepsOccupied(s, b, who);
    case AdminCancel(b) => CancelKeepsOccupied(s, b, ByCustomer(0));
    case CompleteWork(b, w, commission) => CompleteKeepsOccupied(s, b, w, commission);
    case SubmitReview(b, customer, stars) => ReviewKeepsOccupied(s, b, customer, stars);
    case _ => QuietStepsKeepOccupied(s, e);
  }

  lemma {:induction false} RunKeepsOccupied(s: State, events: seq<Event>)
    requires Occupied(s)
    ensures Occupied(Run(s, events))
    decreases |events|
  {
    hide Step;
    if events != [] {
      StepKeepsOccupied(s, events[0]);
      RunKeepsOccupied(Step(s, events[0]), events[1..]);
    }
  }

  /** In every reachable state; hence no two workers share a current booking. */
  lemma ReachableStatesAreOccupied(s: State)
    requires Reachable(s)
    ensures Occupied(s)
    ensures forall v, w | 0 <= v < w < |s.workers| && s.workers[v].current.Some? ::
              s.workers[v].current != s.workers[w].current
  {
    var events :| Run(EmptyState, events) == s;
    RunKeepsOccupied(EmptyState, events);
  }

  /** The converse: every active booking is its worker's current one. */
  predicate Engaged(s: State) {
    forall b | 0 <= b < |s.bookings| && Active(s.bookings[b].status) ::
      EngagedIn(s, b)
  }

  predicate EngagedIn(s: State, b: BookingId)
    requires b < |s.bookings|
  {
    var assignee := s.bookings[b].assignee;
    assignee.Some? && assignee.value < |s.workers| && s.workers[assignee.value].current == Some(b)
  }

  /** The step gives the worker a booking while another one is still current. */
  predicate Overbooks(s: State, e: Event) {
    match ChangeOf(s, e)
    case Handed(b, w, _) => w < |s.workers| && s.workers[w].current.Some? && s.workers[w].current != Some(b)
    case _ => false
  }

  lemma AcceptTables(s: State, o: OfferId, w: WorkerId)
    requires Accept(s, o, w).1 == Ok
    ensures var (t, b) := (Accept(s, o, w).0, s.offers[o].booking);
            && b < |s.bookings| && w < |s.workers| && s.bookings[b].assignee.None?
            && t.bookings == s.bookings[b := WriteAssignee(s.bookings[b], w, s.now)]
            && t.workers == s.workers[w := s.workers[w].(availability := OnJob, current := Some(b))]
  {
  }

  lemma UnansweredTables(s: State, o: OfferId, w: WorkerId)
    requires Accept(s, o, w).1 != Ok
    ensures Accept(s, o, w).0.bookings == s.bookings && Accept(s, o, w).0.workers == s.workers
  {
  }

  lemma AcceptEngagesUnlessOverbooked(s: State, o: OfferId, w: WorkerId)
    requires Occupied(s) && Shape(s) && Engaged(s)
    ensures Engaged(Accept(s, o, w).0) <==> !Overbooks(s, Respond(o, w, true))
  {
    var (t, reply) := Accept(s, o, w);
    if reply == Ok {
      AcceptTables(s, o, w);
    } else {
      UnansweredTables(s, o, w);
    }
    hide Accept;
    if Overbooks(s, Respond(o, w, true)) {
      var left := s.workers[w].current.value;
      assert t.bookings[left] == s.bookings[left] && !EngagedIn(t, left);
    } else if reply == Ok {
      forall b | 0 <= b < |t.bookings| && Active(t.bookings[b].status)
        ensures EngagedIn(t, b)
      {
        assert b != s.offers[o].booking ==> EngagedIn(s, b);
      }
    } else {
      assert forall b | 0 <= b < |s.bookings| && EngagedIn(s, b) :: EngagedIn(t, b);
    }
  }

  lemma ForceAssignEngagesUnlessOverbooked(s: State, b: BookingId, w: WorkerId)
    requires Occupied(s) && Shape(s) && Engaged(s)
    ensures Engaged(AdminOperations.ForceAssign(s, b, w).0) <==> !Overbooks(s, Event.ForceAssign(b, w))
  {
    var (t, reply) := AdminOperations.ForceAssign(s, b, w);
    if reply == Ok {
      ForceAssignTables(s, b, w);
    } else {
      assert t == s;
    }
    hide AdminOperations.ForceAssign;
    if Overbooks(s, Event.ForceAssign(b, w)) {
      var left := s.workers[w].current.value;
      assert t.bookings[left] == s.bookings[left] && !EngagedIn(t, left);
    } else if reply == Ok {
      forall c | 0 <= c < |t.bookings| && Active(t.bookings[c].status)
        ensures EngagedIn(t, c)
      {
        assert c != b ==> EngagedIn(s, c);
        assert Active(s.bookings[b].status) ==> EngagedIn(s, b);
      }
    }
  }

  lemma ReleaseKeepsEngaged(s: State, b: BookingId, next: BookingStatus)
    requires Engaged(s) && Shape(s) && CanTransition(s, b, next) && next in {Cancelled, Completed}
    ensures Engaged(Release(ApplyTransition(s, b, next), s.bookings[b].assignee))
  {
  }

  lemma CancelKeepsEngaged(s: State, b: BookingId, who: Canceller)
    requires Engaged(s) && Shape(s)
    ensures Engaged(Cancel(s, b, who).0) && Engaged(AdminOperations.AdminCancel(s, b).0)
  {
    if b < |s.bookings| && Cancellable(s.bookings[b].status) {
      ReleaseKeepsEngaged(s, b, Cancelled);
      var released := Release(ApplyTransition(s, b, Cancelled), s.bookings[b].assignee);
      var t := AdminOperations.AdminCancel(s, b).0;
      forall c | 0 <= c < |t.bookings| && Active(t.bookings[c].status)
        ensures EngagedIn(t, c)
      {
        assert EngagedIn(released, c);
      }
    }
  }

  lemma CompleteKeepsEngaged(s: State, b: BookingId, w: WorkerId, commission: BasisPoints)
    requires Engaged(s) && Shape(s)
    ensures Engaged(BookingCompletion.Complete(s, b, w, commission).0)
  {
  }

  lemma QuietStepsKeepCurrent(s: State, e: Event)
    requires Quiet(e)
    ensures |s.workers| <= |Step(s, e).workers|
    ensures forall w | 0 <= w < |s.workers| :: Step(s, e).workers[w].current == s.workers[w].current
  {
    hide Stamped, LegalTransitions;
  }

  lemma QuietStepsKeepEngaged(s: State, e: Event)
    requires Engaged(s) && Quiet(e)
    ensures Engaged(Step(s, e)) && !Overbooks(s, e)
  {
    hide Step;
    QuietStepsKeepCurrent(s, e);
    StepMakesChange(s, e);
    var change, t := ChangeOf(s, e), Step(s, e);
    assert !change.Handed?;
    forall c | 0 <= c < |t.bookings| && Active(t.bookings[c].status)
      ensures EngagedIn(t, c)
    {
      assert EngagedIn(s, c);
    }
  }

  lemma OthersKeepEngaged(s: State, e: Event)
    requires Occupied(s) && Shape(s) && Engaged(s) && !e.ForceAssign? && !(e.Respond? && e.accept)
    ensures Engaged(Step(s, e)) && !Overbooks(s, e)
  {
    match e
    case CancelBooking(b, who) => CancelKeepsEngaged(s, b, who);
    case AdminCancel(b) => CancelKeepsEngaged(s, b, ByCustomer(0));
    case CompleteWork(b, w, commission) => CompleteKeepsEngaged(s, b, w, commission);
    case _ => QuietStepsKeepEngaged(s, e);
  }

  /** Every step keeps the converse except exactly the assignments that overbook a worker, which a
      look at the worker's currentBookingId beforehand would show. */
  lemma EngagedUnlessOverbooked(s: State, e: Event)
    requires Occupied(s) && Shape(s) && Engaged(s)
    ensures Engaged(Step(s, e)) <==> !Overbooks(s, e)
  {
    if e.ForceAssign? {
      ForceAssignEngagesUnlessOverbooked(s, e.booking, e.worker);
    } else if e.Respond? && e.accept {
      AcceptEngagesUnlessOverbooked(s, e.offer, e.worker);
    } else {
      OthersKeepEngaged(s, e);
    }
  }

  /** Cancelling without releasing the worker, as the pool deadline does, keeps the invariant exactly when the
      cancellation is refused or the booking is not its worker's current one. */
  lemma BareCancellationIsSafeIff(s: State, b: BookingId)
    requires Occupied(s)
    ensures Occupied(Transition(s, b, Cancelled)) <==>
            !(&& b < |s.bookings| && s.bookings[b].status !in {InProgress, Completed, Settled, Cancelled}
              && s.bookings[b].assignee.Some?
              && var w := s.bookings[b].assignee.value;
                 w < |s.workers| && s.workers[w].current == Some(b))
  {
    var t := Transition(s, b, Cancelled);
    if CanTransition(s, b, Cancelled) && s.bookings[b].assignee.Some? && s.bookings[b].assignee.value < |s.workers|
       && s.workers[s.bookings[b].assignee.value].current == Some(b) {
      assert !WorkerOccupied(t.workers[s.bookings[b].assignee.value], s.bookings[b].assignee.value, t.bookings);
    } else {
      forall w | 0 <= w < |t.workers|
        ensures WorkerOccupied(t.workers[w], w, t.bookings)
      {
        assert WorkerOccupied(s.workers[w], w, s.bookings);
      }
    }
  }

  /** The pool deadline and the two cancelling handlers read the booking before they cancel it. If a worker accepts
      in between, they release nobody, or whoever they had read: the table still allows ASSIGNED to
      CANCELLED, and the worker is left on a cancelled booking. */
  lemma SplitPoolDeadlineStrandsWorker(s: State, o: OfferId, w: WorkerId)
    requires o < |s.offers| && s.offers[o].booking < |s.bookings|
    requires Accept(s, o, w).1 == Ok
    ensures var b, t := s.offers[o].booking, Accept(s, o, w).0;
            CanTransition(t, b, Cancelled) && !Occupied(Transition(t, b, Cancelled))
  {
    var b, t := s.offers[o].booking, Accept(s, o, w).0;
    assert !WorkerOccupied(Transition(t, b, Cancelled).workers[w], w, Transition(t, b, Cancelled).bookings);
  }
}
