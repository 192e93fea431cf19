/** Taking a booking, giving it back, and seeing it through. */
module Assignments {
  import opened Schema
  import opened DispatchController
  import opened BookingController
  import AdminOperations
  import BookingCompletion
  import ReviewController
  import opened Steps
  import MoneySplit
  import Ratings
  import BookingChanges
  import Timeline
  import opened Permissions

  /** An acceptance, column by column. */
  lemma AcceptIs(s: State, o: OfferId, w: WorkerId)
    requires Accept(s, o, w).1 == Ok
    ensures o < |s.offers| && s.offers[o].booking < |s.bookings| && w < |s.workers|
    ensures var (b, t) := (s.offers[o].booking, Accept(s, o, w).0);
            var booking := s.bookings[b].(status := Assigned, assignee := Some(w), updatedAt := s.now);
            t == s.(locks := s.locks[b := s.now + 5000],
                    offers := s.offers[o := s.offers[o].(outcome := Outcome.Accepted)],
                    bookings := s.bookings[b := booking],
                    workers := s.workers[w := s.workers[w].(availability := OnJob, current := Some(b))],
                    audit := s.audit + [AuditRow(b, BookingAccepted(w))])
  {
  }

  /** After an acceptance, other answers to open offers of the booking lose the lock for five seconds, which closes
      their offers, and after that find it assigned, which leaves them open. */
  lemma LockTurnsOthersAway(s: State, o: OfferId, w: WorkerId, ms: nat, p: OfferId, v: WorkerId)
    requires Accept(s, o, w).1 == Ok
    requires var t := Step(Accept(s, o, w).0, Tick(ms));
             Decline(t, p, v).1 == Ok && t.offers[p].booking == s.offers[o].booking
    ensures var t := Step(Accept(s, o, w).0, Tick(ms));
            var (after, reply) := Accept(t, p, v);
            && reply == (if ms < 5000 then LostLock else AlreadyAssigned)
            && after.offers[p].outcome == (if ms < 5000 then Outcome.LockLost else Offered)
            && after.bookings == t.bookings && after.workers == t.workers
  {
    AcceptIs(s, o, w);
    hide AcceptTransaction;
  }

  /** An attempt whose Redis answer is late keeps everybody off the booking for the same five seconds, although
      nobody has it; after that the next answer gets it. */
  lemma LostReplyBlocksFiveSeconds(s: State, o: OfferId, w: WorkerId, ms: nat, p: OfferId, v: WorkerId)
    requires AcceptUnanswered(s, o, w).1 == ServerError && Accept(s, o, w).1 == Ok
    requires Decline(s, p, v).1 == Ok && s.offers[p].booking == s.offers[o].booking
    ensures var t := Step(AcceptUnanswered(s, o, w).0, Tick(ms));
            Accept(t, p, v).1 == if ms < 5000 then LostLock else Ok
  {
  }

  /** A forced assignment, column by column: whoever had the booking is freed, and the log gets a row of its own. */
  lemma ForceAssignIs(s: State, b: BookingId, w: WorkerId)
    requires AdminOperations.ForceAssign(s, b, w).1 == Ok
    ensures b < |s.bookings| && w < |s.workers|
    ensures var (t, had) := (AdminOperations.ForceAssign(s, b, w).0, s.bookings[b].assignee);
            var booking := s.bookings[b].(status := Assigned, assignee := Some(w), updatedAt := s.now);
            var left := if had.Some? && had.value < |s.workers|
                        then s.workers[had.value := s.workers[had.value].(availability := Available, current := None)]
                        else s.workers;
            t == s.(bookings := s.bookings[b := booking],
                    workers := left[w := s.workers[w].(availability := OnJob, current := Some(b))],
                    offers := s.offers + [Offer(b, w, AdminOverride, s.now, Outcome.Accepted)],
                    audit := s.audit + [AuditRow(b, AdminForceAssign(w))])
  {
  }

  /** The worker of a free row: neither on a booking nor unavailable. */
  predicate Free(worker: Worker) { worker.availability == Available && worker.current == None }

  /** Accepting and then cancelling, whoever may do it and however much later, gives the worker back: free again,
      and all worker rows as before if the worker was free. The booking remembers who had it. */
  lemma CancellationGivesBack(s: State, o: OfferId, w: WorkerId, ms: nat, cancel: Event)
    requires Accept(s, o, w).1 == Ok
    requires var b := s.offers[o].booking;
             var c := s.bookings[b].customer;
             cancel in {CancelBooking(b, ByCustomer(c)), CancelBooking(b, ByWorker(w)), AdminCancel(b)}
    ensures var b := s.offers[o].booking;
            var t := Step(Step(Accept(s, o, w).0, Tick(ms)), cancel);
            && t.workers == s.workers[w := s.workers[w].(availability := Available, current := None)]
            && (Free(s.workers[w]) ==> t.workers == s.workers)
            && t.bookings == s.bookings[b := s.bookings[b].(status := Cancelled, assignee := Some(w),
                                                            updatedAt := s.now + ms, cancelledAt := Some(s.now + ms))]
  {
    hide Accept, Step;
    AcceptIs(s, o, w);
    var t := Step(Accept(s, o, w).0, Tick(ms));
    TimePasses(Accept(s, o, w).0, ms);
    CancelIs(t, s.offers[o].booking, w, cancel);
  }

  lemma CancelIs(s: State, b: BookingId, w: WorkerId, cancel: Event)
    requires b < |s.bookings| && s.bookings[b].status == Assigned
    requires s.bookings[b].assignee == Some(w) && w < |s.workers|
    requires var c := s.bookings[b].customer;
             cancel in {CancelBooking(b, ByCustomer(c)), CancelBooking(b, ByWorker(w)), AdminCancel(b)}
    ensures var t := Step(s, cancel);
            && t.workers == s.workers[w := s.workers[w].(availability := Available, current := None)]
            && t.bookings == s.bookings[b := s.bookings[b].(status := Cancelled, updatedAt := s.now,
                                                            cancelledAt := Some(s.now))]
  {
  }

  // A job from acceptance to review, with any delays in between.

  lemma ConfirmIs(s: State, b: BookingId, ms: nat)
    requires b < |s.bookings| && s.bookings[b].status == Assigned
    ensures var t := Step(Step(s, Tick(ms)), AutoConfirm(b));
            var at := s.now + ms;
            var booking := s.bookings[b].(status := Confirmed, updatedAt := at, confirmedAt := Some(at));
            t == s.(now := s.now + ms, bookings := s.bookings[b := booking],
                    audit := s.audit + [AuditRow(b, StatusChanged(Assigned, Confirmed))])
  {
  }

  lemma StartIs(s: State, b: BookingId, w: WorkerId, ms: nat)
    requires b < |s.bookings| && s.bookings[b].status == Confirmed && s.bookings[b].assignee == Some(w)
    ensures var t := Step(Step(s, Tick(ms)), StartWork(b, w));
            var booking := s.bookings[b].(status := InProgress, updatedAt := s.now + ms, startedAt := Some(s.now + ms));
            t == s.(now := s.now + ms, bookings := s.bookings[b := booking],
                    audit := s.audit + [AuditRow(b, StatusChanged(Confirmed, InProgress))])
  {
  }

  lemma CompletionIs(s: State, b: BookingId, w: WorkerId, commission: BasisPoints, ms: nat)
    requires b < |s.bookings| && s.bookings[b].status == InProgress
    requires s.bookings[b].assignee == Some(w) && w < |s.workers|
    ensures var t := Step(Step(s, Tick(ms)), CompleteWork(b, w, commission));
            var at := s.now + ms;
            var booking := s.bookings[b].(status := Completed, updatedAt := at, completedAt := Some(at));
            && b in t.invoices
            && t == s.(now := s.now + ms, bookings := s.bookings[b := booking],
                       invoices := s.invoices[b := t.invoices[b]],
                       workers := s.workers[w := s.workers[w].(availability := Available, current := None)],
                       audit := s.audit + [AuditRow(b, StatusChanged(InProgress, Completed))])
            && t.invoices[b].totalAmount == s.bookings[b].total
            && -5000 <= 10000 * t.invoices[b].platformFee - s.bookings[b].total * commission <= 5000
  {
    MoneySplit.FeeIsRoundedCommission(s.bookings[b].total, commission);
  }

  function StarSum(stars: ReviewController.Stars): int {
    stars.punctuality + stars.quality + stars.professionalism + stars.communication
  }

  /** What a review writes: the review itself with the mean of its stars, a payment if there is none, the payout, and
      a fifth of the fee on top if the stars come to eighteen or more and it is worth half a cent. */
  predicate Settles(s: State, t: State, b: BookingId, w: WorkerId, sum: int)
    requires b < |s.bookings| && b in s.invoices
  {
    var invoice := s.invoices[b];
    var payout := CreditRow(w, JobPayout, invoice.totalAmount - invoice.platformFee, Complete, Some(b), s.now);
    && t.bookings == s.bookings[b := s.bookings[b].(status := Settled, updatedAt := s.now, settledAt := Some(s.now))]
    && t.invoices == s.invoices
    && t.payments == (if b in s.payments then s.payments else s.payments[b := Payment(Cash, invoice.totalAmount)])
    && |t.reviews| == |s.reviews| + 1 && s.reviews <= t.reviews
    && t.reviews[|s.reviews|] == Review(b, w, sum as real / 4.0)
    && s.ledger + [payout] <= t.ledger
    && Thanks(t.ledger[|s.ledger| + 1..], w, b, if sum >= 18 then invoice.platformFee else 0, s.now)
  }

  predicate Thanks(rows: seq<CreditRow>, w: WorkerId, b: BookingId, fee: nat, now: nat) {
    if 2 * fee < 5 then rows == []
    else
      && |rows| == 1 && rows[0] == CreditRow(w, FeedbackCredit, rows[0].amount, Complete, Some(b), now)
      && -5 <= 10 * rows[0].amount - 2 * fee <= 5
  }

  lemma ReviewSettles(s: State, b: BookingId, w: WorkerId, c: CustomerId, stars: ReviewController.Stars)
    requires ReviewController.ScreenReview(s, b, c, stars) == Ok && s.bookings[b].assignee == Some(w)
    ensures var t := Step(s, SubmitReview(b, c, stars));
            && Settles(s, t, b, w, StarSum(stars)) && t.now == s.now
            && |t.workers| == |s.workers| && w < |t.workers|
            && t.workers[w].availability == s.workers[w].availability && t.workers[w].current == s.workers[w].current
  {
    assert Step(s, SubmitReview(b, c, stars)) == ReviewController.SubmitReview(s, b, c, stars).0;
    MoneySplit.ReviewSettlesBooking(s, b, c, stars);
    Ratings.SubmitReviewEffect(s, b, c, stars);
    MoneySplit.ShareIsRoundedFifth(s.invoices[b].platformFee);
    var t := Step(s, SubmitReview(b, c, stars));
    ReviewLeavesClock(s, SubmitReview(b, c, stars));
    hide Step, ReviewController.SubmitReview, ReviewController.Reviewed, ReviewController.Credited;
    if t.ledger[|s.ledger| + 1..] != [] {
      assert t.ledger[|s.ledger| + 1..] == [t.ledger[|s.ledger| + 1]];
    }
  }

  lemma ReviewLeavesClock(s: State, e: Event)
    requires e.SubmitReview?
    ensures Step(s, e).now == s.now
  {
    hide Step;
    BookingChanges.StepMakesChange(s, e);
  }

  function Then(s: State, ms: nat, e: Event): State { Step(Step(s, Tick(ms)), e) }

  /** How long after one another the booking is confirmed, started, completed and reviewed. */
  datatype Delays = Delays(confirm: nat, start: nat, complete: nat, review: nat)

  /** The booking is accepted, confirmed, started, completed and reviewed. */
  function Job(s: State, o: OfferId, w: WorkerId, delays: Delays, commission: BasisPoints, c: CustomerId,
               stars: ReviewController.Stars): State
    requires o < |s.offers|
  {
    var b := s.offers[o].booking;
    var confirmed := Then(Step(s, Respond(o, w, true)), delays.confirm, AutoConfirm(b));
    var started := Then(confirmed, delays.start, StartWork(b, w));
    Then(Then(started, delays.complete, CompleteWork(b, w, commission)), delays.review, SubmitReview(b, c, stars))
  }

  /** The columns that a job leaves of an accepted booking. */
  predicate IsDone(s: State, t: State, b: BookingId, w: WorkerId, delays: Delays, commission: BasisPoints, sum: int)
    requires b < |s.bookings|
  {
    var accepted, total := s.now, s.bookings[b].total;
    var confirmed := accepted + delays.confirm;
    var started := confirmed + delays.start;
    var completed := started + delays.complete;
    var settled := completed + delays.review;
    && t.bookings == s.bookings[b := Booking(s.bookings[b].customer, Settled, Some(w), total, settled, Some(confirmed),
                                             Some(started), Some(completed), Some(settled), s.bookings[b].cancelledAt)]
    && b in t.invoices && t.invoices[b].totalAmount == total
    && var fee := t.invoices[b].platformFee;
       && -5000 <= 10000 * fee - total * commission <= 5000
       && b in t.payments && t.payments[b] == Payment(Cash, total)
       && t.reviews == s.reviews + [Review(b, w, sum as real / 4.0)]
       && s.ledger + [CreditRow(w, JobPayout, total - fee, Complete, Some(b), settled)] <= t.ledger
       && Thanks(t.ledger[|s.ledger| + 1..], w, b, if sum >= 18 then fee else 0, settled)
       && w < |t.workers| && Free(t.workers[w])
  }

  /** The same before the review. */
  predicate IsWorked(s: State, t: State, b: BookingId, w: WorkerId, delays: Delays, commission: BasisPoints)
    requires b < |s.bookings|
  {
    var confirmed := s.now + delays.confirm;
    var started := confirmed + delays.start;
    && t.now == started + delays.complete
    && t.bookings == s.bookings[b := Booking(s.bookings[b].customer, Completed, Some(w), s.bookings[b].total, t.now,
                                             Some(confirmed), Some(started), Some(t.now), s.bookings[b].settledAt,
                                             s.bookings[b].cancelledAt)]
    && b in t.invoices && t.invoices[b].totalAmount == s.bookings[b].total
    && -5000 <= 10000 * t.invoices[b].platformFee - s.bookings[b].total * commission <= 5000
    && t.payments == s.payments && t.reviews == s.reviews && t.ledger == s.ledger
    && w < |t.workers| && Free(t.workers[w])
  }

  /** And before the work is completed. */
  predicate IsStarted(s: State, t: State, b: BookingId, w: WorkerId, confirmed: nat)
    requires b < |s.bookings|
  {
    && t.bookings == s.bookings[b := Booking(s.bookings[b].customer, InProgress, Some(w), s.bookings[b].total, t.now,
                                             Some(confirmed), Some(t.now), s.bookings[b].completedAt,
                                             s.bookings[b].settledAt, s.bookings[b].cancelledAt)]
    && t.payments == s.payments && t.reviews == s.reviews && t.ledger == s.ledger && w < |t.workers|
  }

  lemma AcceptedIsStarted(s: State, o: OfferId, w: WorkerId, delays: Delays)
    requires Accept(s, o, w).1 == Ok
    ensures o < |s.offers| && s.offers[o].booking < |s.bookings|
    ensures var b := s.offers[o].booking;
            var t := Then(Then(Accept(s, o, w).0, delays.confirm, AutoConfirm(b)), delays.start, StartWork(b, w));
            t.now == s.now + delays.confirm + delays.start && IsStarted(s, t, b, w, s.now + delays.confirm)
  {
    hide Step, Accept, Then, IsStarted;
    AcceptIs(s, o, w);
    var b := s.offers[o].booking;
    var accepted := Accept(s, o, w).0;
    AssignedIsStarted(accepted, b, w, delays);
    StartedSince(s, accepted, Then(Then(accepted, delays.confirm, AutoConfirm(b)), delays.start, StartWork(b, w)), b, w,
                 s.now + delays.confirm);
  }

  lemma StartedSince(s: State, accepted: State, t: State, b: BookingId, w: WorkerId, confirmed: nat)
    requires b < |s.bookings|
    requires accepted.bookings ==
             s.bookings[b := s.bookings[b].(status := Assigned, assignee := Some(w), updatedAt := s.now)]
    requires accepted.payments == s.payments && accepted.reviews == s.reviews && accepted.ledger == s.ledger
    requires IsStarted(accepted, t, b, w, confirmed)
    ensures IsStarted(s, t, b, w, confirmed)
  {
  }

  lemma AssignedIsStarted(s: State, b: BookingId, w: WorkerId, delays: Delays)
    requires b < |s.bookings| && s.bookings[b].status == Assigned
    requires s.bookings[b].assignee == Some(w) && w < |s.workers|
    ensures var t := Then(Then(s, delays.confirm, AutoConfirm(b)), delays.start, StartWork(b, w));
            t.now == s.now + delays.confirm + delays.start && IsStarted(s, t, b, w, s.now + delays.confirm)
  {
    hide Step;
    ConfirmIs(s, b, delays.confirm);
    StartIs(Then(s, delays.confirm, AutoConfirm(b)), b, w, delays.start);
  }

  lemma StartedIsWorked(s: State, t: State, b: BookingId, w: WorkerId, delays: Delays, commission: BasisPoints)
    requires b < |s.bookings| && IsStarted(s, t, b, w, s.now + delays.confirm)
    requires t.now == s.now + delays.confirm + delays.start
    ensures IsWorked(s, Then(t, delays.complete, CompleteWork(b, w, commission)), b, w, delays, commission)
  {
    hide Step;
    CompletionIs(t, b, w, commission, delays.complete);
  }

  /** Whatever reachable state an offer is accepted in, and however long everything takes: the job can be seen
      through, and its time stamps, its money and its worker come out as they should. */
  lemma JobIsDone(s: State, o: OfferId, w: WorkerId, delays: Delays, commission: BasisPoints,
                  stars: ReviewController.Stars)
    requires Reachable(s) && Accept(s, o, w).1 == Ok && ReviewController.ValidStars(stars)
    ensures o < |s.offers| && s.offers[o].booking < |s.bookings|
    ensures var b := s.offers[o].booking;
            IsDone(s, Job(s, o, w, delays, commission, s.bookings[b].customer, stars), b, w, delays, commission,
                   StarSum(stars))
  {
    hide Step, Accept, ReviewController.Reviewed, Reachable, Settles, IsStarted, IsDone, IsWorked, Then;
    AcceptIsStep(s, o, w);
    UnassignedIsUnsettled(s, o, w);
    var b := s.offers[o].booking;
    var c := s.bookings[b].customer;
    var confirmed := Then(Step(s, Respond(o, w, true)), delays.confirm, AutoConfirm(b));
    var started := Then(confirmed, delays.start, StartWork(b, w));
    var completed := Then(started, delays.complete, CompleteWork(b, w, commission));
    AcceptedIsStarted(s, o, w, delays);
    StartedIsWorked(s, started, b, w, delays, commission);
    WorkedIsReviewed(s, completed, b, w, delays, commission, stars);
  }

  lemma AcceptIsStep(s: State, o: OfferId, w: WorkerId)
    requires Accept(s, o, w).1 == Ok
    ensures o < |s.offers| && s.offers[o].booking < |s.bookings|
    ensures Step(s, Respond(o, w, true)) == Accept(s, o, w).0
  {
  }

  lemma WorkedIsReviewed(s: State, t: State, b: BookingId, w: WorkerId, delays: Delays, commission: BasisPoints,
                         stars: ReviewController.Stars)
    requires b < |s.bookings| && IsWorked(s, t, b, w, delays, commission)
    requires !ReviewController.Reviewed(s, b) && b !in s.payments && ReviewController.ValidStars(stars)
    ensures IsDone(s, Then(t, delays.review, SubmitReview(b, s.bookings[b].customer, stars)), b, w, delays, commission,
                   StarSum(stars))
  {
    hide Step, Then, Settles, ReviewController.Reviewed, IsDone;
    var c := s.bookings[b].customer;
    ReviewFollows(s, t, b, w, c, stars, delays.review);
    WorkedAndSettledIsDone(s, t, Then(t, delays.review, SubmitReview(b, c, stars)), b, w, delays, commission,
                           StarSum(stars));
  }

  lemma WorkedAndSettledIsDone(s: State, t: State, u: State, b: BookingId, w: WorkerId, delays: Delays,
                               commission: BasisPoints, sum: int)
    requires b < |s.bookings| && IsWorked(s, t, b, w, delays, commission) && b !in s.payments
    requires Settles(t.(now := t.now + delays.review), u, b, w, sum) && w < |u.workers| && Free(u.workers[w])
    ensures IsDone(s, u, b, w, delays, commission, sum)
  {
  }

  lemma UnassignedIsUnsettled(s: State, o: OfferId, w: WorkerId)
    requires Reachable(s) && Accept(s, o, w).1 == Ok
    ensures var b := s.offers[o].booking; !ReviewController.Reviewed(s, b) && b !in s.payments
  {
    AcceptIs(s, o, w);
    hide Reachable, ReviewController.Reviewed;
    ReachableTables(s, s.offers[o].booking);
    PaidOnlyIfBilled(s, s.offers[o].booking);
  }

  lemma PaidOnlyIfBilled(s: State, b: BookingId)
    requires Reachable(s)
    ensures b in s.payments ==> b in s.invoices
  {
    hide Reachable;
    MoneySplit.ReachableMoneyIsRight(s);
  }

  lemma ReviewFollows(s: State, t: State, b: BookingId, w: WorkerId, c: CustomerId, stars: ReviewController.Stars,
                      ms: nat)
    requires t.reviews == s.reviews && !ReviewController.Reviewed(s, b) && b in t.invoices
    requires b < |t.bookings| && t.bookings[b].status == Completed && t.bookings[b].assignee == Some(w)
    requires t.bookings[b].customer == c && w < |t.workers| && ReviewController.ValidStars(stars)
    ensures var u := Then(t, ms, SubmitReview(b, c, stars));
            && Settles(t.(now := t.now + ms), u, b, w, StarSum(stars)) && w < |u.workers|
            && u.workers[w].availability == t.workers[w].availability && u.workers[w].current == t.workers[w].current
  {
    var later := Step(t, Tick(ms));
    assert later == t.(now := t.now + ms);
    hide Step;
    assert ReviewController.ScreenReview(later, b, c, stars) == Ok;
    ReviewSettles(later, b, w, c, stars);
  }

  /** Such a job adds to its worker's hours exactly the time from start to completion, if it was completed in the
      period, and to nobody else's. */
  lemma JobCountsItsHours(s: State, o: OfferId, w: WorkerId, delays: Delays, commission: BasisPoints,
                          stars: ReviewController.Stars, v: WorkerId, cutoff: nat)
    requires Reachable(s) && Accept(s, o, w).1 == Ok && ReviewController.ValidStars(stars)
    ensures o < |s.offers| && s.offers[o].booking < |s.bookings|
    ensures var t := Job(s, o, w, delays, commission, s.bookings[s.offers[o].booking].customer, stars);
            Timeline.TimeWorkedSince(t.bookings, v, cutoff) ==
            Timeline.TimeWorkedSince(s.bookings, v, cutoff)
            + if v == w && cutoff <= s.now + delays.confirm + delays.start + delays.complete then delays.complete else 0
  {
    hide Accept, Reachable, Job;
    JobIsDone(s, o, w, delays, commission, stars);
    var b := s.offers[o].booking;
    var t := Job(s, o, w, delays, commission, s.bookings[b].customer, stars);
    assert s.bookings[b].assignee == None by {
      AnswerAllowedIff(s, o, w);
    }
    Timeline.TimeOfUpdate(s.bookings, b, t.bookings[b], v, cutoff);
  }
}
