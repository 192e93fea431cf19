/** Who may do what to a booking, and when, in every reachable state: the handlers' checks together with what
    the other handlers leave behind. */
module Permissions {
  import opened Schema
  import opened BookingStateMachine
  import opened DispatchController
  import opened BookingController
  import AdminOperations
  import BookingCompletion
  import ReviewController
  import opened Steps
  import Lifecycle
  import MoneySplit

  /** What the tables of a reachable state have in common for these checks. */
  lemma ReachableTables(s: State, b: BookingId)
    requires Reachable(s) && b < |s.bookings|
    ensures s.bookings[b].assignee.Some? ==> s.bookings[b].assignee.value < |s.workers|
    ensures s.bookings[b].status in {Requested, DispatchingTop3, DispatchingPool} ==> s.bookings[b].assignee == None
    ensures s.bookings[b].status in {Assigned, Confirmed, InProgress, Completed, Settled} ==>
              s.bookings[b].assignee.Some?
    ensures b in s.invoices <==> s.bookings[b].status in {Completed, Settled}
    ensures b in s.invoices ==> s.invoices[b].totalAmount == s.bookings[b].total
    ensures ReviewController.Reviewed(s, b) <==> s.bookings[b].status == Settled
    ensures s.bookings[b].status == Settled ==> b in s.payments
  {
    hide Run, Reachable;
    RunsKeepShape(s);
    MoneySplit.ReachableMoneyIsRight(s);
    assert MoneySplit.Billed(s, b) || !MoneySplit.Billed(s, b);
    assert MoneySplit.IsSettled(s, b) || !MoneySplit.IsSettled(s, b);
  }

  lemma RunsKeepShape(s: State)
    requires Reachable(s)
    ensures Lifecycle.Shape(s)
  {
    var events :| Run(EmptyState, events) == s;
    Lifecycle.RunKeepsShape(EmptyState, events);
  }

  /** An offer is taken by the worker it was made to, while it is open, nobody has the booking, and no attempt on the
      booking's lock was made within its time. Any answer at all needs the first two. */
  lemma AnswerAllowedIff(s: State, o: OfferId, w: WorkerId)
    ensures Decline(s, o, w).1 == Ok <==>
              o < |s.offers| && s.offers[o].worker == w && s.offers[o].outcome == Offered && w < |s.workers|
    ensures Accept(s, o, w).1 == Ok <==>
              && Decline(s, o, w).1 == Ok
              && var b := s.offers[o].booking;
                 b < |s.bookings| && s.bookings[b].assignee == None && (b in s.locks ==> s.locks[b] <= s.now)
    ensures AcceptUnanswered(s, o, w).1 == ServerError <==> Decline(s, o, w).1 == Ok
  {
  }

  /** The customer and the assigned worker may cancel until the work starts; an administrator likewise. */
  lemma CancellationAllowedIff(s: State, b: BookingId, c: CustomerId, w: WorkerId)
    requires Reachable(s)
    ensures Cancel(s, b, ByCustomer(c)).1 == Ok <==>
              && b < |s.bookings| && s.bookings[b].customer == c
              && s.bookings[b].status !in {InProgress, Completed, Settled, Cancelled}
    ensures Cancel(s, b, ByWorker(w)).1 == Ok <==>
              b < |s.bookings| && s.bookings[b].assignee == Some(w) && s.bookings[b].status in {Assigned, Confirmed}
    ensures AdminOperations.AdminCancel(s, b).1 == Ok <==>
              b < |s.bookings| && s.bookings[b].status !in {InProgress, Completed, Settled, Cancelled}
  {
    if b < |s.bookings| {
      ReachableTables(s, b);
    }
  }

  /** Any approved worker can be put on any booking that is not over. */
  lemma ForceAssignmentAllowedIff(s: State, b: BookingId, w: WorkerId)
    ensures AdminOperations.ForceAssign(s, b, w).1 == Ok <==>
              && b < |s.bookings| && s.bookings[b].status !in {Completed, Settled, Cancelled}
              && w < |s.workers| && s.workers[w].approved
  {
  }

  /** The assigned worker alone starts a confirmed booking and completes a started one. */
  lemma WorkAllowedIff(s: State, b: BookingId, w: WorkerId, commission: BasisPoints)
    requires Reachable(s)
    ensures Start(s, b, w).1 == Ok <==>
              b < |s.bookings| && s.bookings[b].assignee == Some(w) && s.bookings[b].status == Confirmed
    ensures BookingCompletion.Complete(s, b, w, commission).1 == Ok <==>
              b < |s.bookings| && s.bookings[b].assignee == Some(w) && s.bookings[b].status == InProgress
  {
    if b < |s.bookings| {
      ReachableTables(s, b);
    }
  }

  /** The customer alone pays and reviews. A completed booking can always be reviewed, once; a payment is recorded
      at most once, between completion and the review that records one itself. */
  lemma SettlingAllowedIff(s: State, b: BookingId, c: CustomerId, stars: ReviewController.Stars,
                           paymentMethod: PaymentMethod)
    requires Reachable(s)
    ensures ReviewController.SubmitReview(s, b, c, stars).1 == Ok <==>
              && b < |s.bookings| && s.bookings[b].customer == c && s.bookings[b].status == Completed
              && stars.punctuality in {1, 2, 3, 4, 5} && stars.quality in {1, 2, 3, 4, 5}
              && stars.professionalism in {1, 2, 3, 4, 5} && stars.communication in {1, 2, 3, 4, 5}
    ensures ReviewController.RecordPayment(s, b, c, paymentMethod).1 == Ok <==>
              b < |s.bookings| && s.bookings[b].customer == c && s.bookings[b].status == Completed && b !in s.payments
    ensures ReviewController.RecordPayment(s, b, c, paymentMethod).0 ==
            if ReviewController.RecordPayment(s, b, c, paymentMethod).1 == Ok
            then s.(payments := s.payments[b := Payment(paymentMethod, s.bookings[b].total)]) else s
  {
    hide ReviewController.Reviewed, Reachable, ReviewController.OverallScore, ReviewController.ReviewPosted;
    hide ReviewController.IssueFeedbackCredit, Stamped;
    if b < |s.bookings| {
      ReachableTables(s, b);
    }
  }
}
