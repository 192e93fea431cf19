/** The rating kept incrementally on the worker row is the mean of the worker's reviews. */
module Ratings {
  import opened Schema
  import opened BookingStateMachine
  import opened DispatchController
  import opened BookingController
  import AdminOperations
  import ReviewController
  import opened Steps

  function ReviewCount(reviews: seq<Review>, w: WorkerId): nat {
    if reviews == [] then 0
    else
      var n := |reviews| - 1;
      ReviewCount(reviews[..n], w) + if reviews[n].worker == w then 1 else 0
  }

  function ScoreSum(reviews: seq<Review>, w: WorkerId): real {
    if reviews == [] then 0.0
    else
      var n := |reviews| - 1;
      ScoreSum(reviews[..n], w) + if reviews[n].worker == w then reviews[n].overallScore else 0.0
  }

  function MeanScore(reviews: seq<Review>, w: WorkerId): real {
    var n := ReviewCount(reviews, w);
    if n == 0 then 0.0 else ScoreSum(reviews, w) / n as real
  }

  /** Every worker's rating is the mean of all reviews of that worker, each between 1 and 5. */
  predicate RatingsRight(s: State) {
    && (forall w | 0 <= w < |s.workers| ::
          && s.workers[w].ratingCount == ReviewCount(s.reviews, w)
          && s.workers[w].ratingAverage == MeanScore(s.reviews, w))
    && (forall i | 0 <= i < |s.reviews| :: s.reviews[i].worker < |s.workers| && 1.0 <= s.reviews[i].overallScore <= 5.0)
  }

  lemma AppendReview(reviews: seq<Review>, review: Review, w: WorkerId)
    ensures ReviewCount(reviews + [review], w) == ReviewCount(reviews, w) + if review.worker == w then 1 else 0
    ensures ScoreSum(reviews + [review], w) ==
            ScoreSum(reviews, w) + if review.worker == w then review.overallScore else 0.0
  {
  }

  lemma {:induction false} UnreviewedIsZero(reviews: seq<Review>, w: WorkerId)
    requires forall i | 0 <= i < |reviews| :: reviews[i].worker != w
    ensures ReviewCount(reviews, w) == 0
  {
    if reviews != [] {
      UnreviewedIsZero(reviews[..|reviews| - 1], w);
    }
  }

  lemma NextAverageIsMean(sum: real, count: nat, average: real, score: real)
    requires average == if count == 0 then 0.0 else sum / count as real
    requires count == 0 ==> sum == 0.0
    ensures ReviewController.NextAverage(average, count, score) == (sum + score) / (count + 1) as real
  {
  }

  lemma {:induction false} NoReviewsNoScore(reviews: seq<Review>, w: WorkerId)
    requires ReviewCount(reviews, w) == 0
    ensures ScoreSum(reviews, w) == 0.0
  {
    if reviews != [] {
      NoReviewsNoScore(reviews[..|reviews| - 1], w);
    }
  }

  lemma ReviewKeepsRatings(s: State, b: BookingId, customer: CustomerId, stars: ReviewController.Stars)
    requires RatingsRight(s) && ReviewController.ScreenReview(s, b, customer, stars) == Ok
    ensures RatingsRight(ReviewController.SubmitReview(s, b, customer, stars).0)
  {
    var t := ReviewController.SubmitReview(s, b, customer, stars).0;
    var reviewed, score := s.bookings[b].assignee.value, ReviewController.OverallScore(stars);
    var review := Review(b, reviewed, score);
    SubmitReviewEffect(s, b, customer, stars);
    ScoreIsBounded(stars);
    forall w | 0 <= w < |t.workers|
      ensures t.workers[w].ratingCount == ReviewCount(t.reviews, w)
      ensures t.workers[w].ratingAverage == MeanScore(t.reviews, w)
    {
      AppendReview(s.reviews, review, w);
      if w == reviewed {
        if s.workers[w].ratingCount == 0 {
          NoReviewsNoScore(s.reviews, w);
        }
        NextAverageIsMean(ScoreSum(s.reviews, w), s.workers[w].ratingCount, s.workers[w].ratingAverage, score);
      }
    }
  }

  lemma ScoreIsBounded(stars: ReviewController.Stars)
    requires ReviewController.ValidStars(stars)
    ensures 1.0 <= ReviewController.OverallScore(stars) <= 5.0
  {
  }

  lemma SubmitReviewEffect(s: State, b: BookingId, customer: CustomerId, stars: ReviewController.Stars)
    requires ReviewController.ScreenReview(s, b, customer, stars) == Ok
    ensures var t := ReviewController.SubmitReview(s, b, customer, stars).0;
            var w, score := s.bookings[b].assignee.value, ReviewController.OverallScore(stars);
            && t.reviews == s.reviews + [Review(b, w, score)]
            && t.workers == s.workers[w := ReviewController.Rated(s.workers[w], score)]
  {
  }

  /** The steps that add no review leave ratings alone; a new worker starts unrated. */
  predicate SameRatings(s: State, t: State) {
    && t.reviews == s.reviews
    && |s.workers| <= |t.workers|
    && (forall w | 0 <= w < |s.workers| ::
          && t.workers[w].ratingCount == s.workers[w].ratingCount
          && t.workers[w].ratingAverage == s.workers[w].ratingAverage)
    && (forall w | |s.workers| <= w < |t.workers| :: t.workers[w].ratingCount == 0 && t.workers[w].ratingAverage == 0.0)
  }

  lemma AcceptKeepsRatings(s: State, o: OfferId, w: WorkerId)
    ensures SameRatings(s, Accept(s, o, w).0)
  {
  }

  lemma ForceAssignKeepsRatings(s: State, b: BookingId, w: WorkerId)
    ensures SameRatings(s, AdminOperations.ForceAssign(s, b, w).0)
  {
  }

  lemma SetWorkerKeepsRatings(s: State, w: WorkerId, availability: Availability, current: Option<BookingId>)
    ensures SameRatings(s, SetWorker(s, w, availability, current))
  {
  }

  lemma CancellationsKeepRatings(s: State, b: BookingId, who: Canceller)
    ensures SameRatings(s, Cancel(s, b, who).0) && SameRatings(s, AdminOperations.AdminCancel(s, b).0)
  {
    hide SetWorker, Stamped;
    if b < |s.bookings| && Cancellable(s.bookings[b].status) && s.bookings[b].assignee.Some? {
      SetWorkerKeepsRatings(ApplyTransition(s, b, Cancelled), s.bookings[b].assignee.value, Available, None);
    }
  }

  lemma MovesKeepRatings(s: State, e: Event)
    requires e.StartDispatch? || e.OpenPool? || e.ExhaustPool? || e.AutoConfirm? || e.StartWork? || e.CompleteWork?
    ensures SameRatings(s, Step(s, e))
  {
    hide Stamped, LegalTransitions;
  }

  lemma WorkerStepsKeepRatings(s: State, e: Event)
    requires e.RegisterWorker? || e.VerifyWorker? || e.SetAvailability? || e.SetSuspension?
    ensures SameRatings(s, Step(s, e))
  {
  }

  lemma LogStepsKeepRatings(s: State, e: Event)
    requires e.SendOffer? || e.ExpireOffer? || (e.Respond? && !e.accept) || e.LoseLockReply?
    ensures SameRatings(s, Step(s, e))
  {
  }

  lemma LedgerStepsKeepRatings(s: State, e: Event)
    requires e.Tick? || e.RequestBooking? || e.RecordPayment? || e.PostCredit? || e.SettleCredit? || e.ReconcileRecord?
    ensures SameRatings(s, Step(s, e))
  {
  }

  lemma OthersKeepRatings(s: State, e: Event)
    requires !e.SubmitReview?
    ensures SameRatings(s, Step(s, e))
  {
    hide Accept, Decline, AdminOperations.ForceAssign, Cancel, AdminOperations.AdminCancel, SameRatings;
    match e
    case Respond(o, w, accept) =>
      if accept {
        AcceptKeepsRatings(s, o, w);
      } else {
        LogStepsKeepRatings(s, e);
      }
    case ForceAssign(b, w) => ForceAssignKeepsRatings(s, b, w);
    case CancelBooking(b, who) => CancellationsKeepRatings(s, b, who);
    case AdminCancel(b) => CancellationsKeepRatings(s, b, ByCustomer(0));
    case StartDispatch(_) => MovesKeepRatings(s, e);
    case OpenPool(_) => MovesKeepRatings(s, e);
    case ExhaustPool(_) => MovesKeepRatings(s, e);
    case AutoConfirm(_) => MovesKeepRatings(s, e);
    case StartWork(_, _) => MovesKeepRatings(s, e);
    case CompleteWork(_, _, _) => MovesKeepRatings(s, e);
    case SendOffer(_, _, _) => LogStepsKeepRatings(s, e);
    case ExpireOffer(_) => LogStepsKeepRatings(s, e);
    case LoseLockReply(_, _) => LogStepsKeepRatings(s, e);
    case RegisterWorker => WorkerStepsKeepRatings(s, e);
    case VerifyWorker(_, _) => WorkerStepsKeepRatings(s, e);
    case SetAvailability(_, _) => WorkerStepsKeepRatings(s, e);
    case SetSuspension(_, _) => WorkerStepsKeepRatings(s, e);
    case _ => LedgerStepsKeepRatings(s, e);
  }

  lemma SameRatingsKeepRight(s: State, t: State)
    requires RatingsRight(s) && SameRatings(s, t)
    ensures RatingsRight(t)
  {
    forall w | |s.workers| <= w < |t.workers|
      ensures ReviewCount(t.reviews, w) == 0
    {
      UnreviewedIsZero(t.reviews, w);
    }
  }

  lemma StepKeepsRatings(s: State, e: Event)
    requires RatingsRight(s)
    ensures RatingsRight(Step(s, e))
  {
    hide RatingsRight, SameRatings, ReviewController.ScreenReview;
    if e.SubmitReview? {
      if ReviewController.ScreenReview(s, e.booking, e.customer, e.stars) == Ok {
        ReviewKeepsRatings(s, e.booking, e.customer, e.stars);
      }
    } else {
      OthersKeepRatings(s, e);
      SameRatingsKeepRight(s, Step(s, e));
    }
  }

  lemma {:induction false} RunKeepsRatings(s: State, events: seq<Event>)
    requires RatingsRight(s)
    ensures RatingsRight(Run(s, events))
    decreases |events|
  {
    hide Step;
    if events != [] {
      StepKeepsRatings(s, events[0]);
      RunKeepsRatings(Step(s, events[0]), events[1..]);
    }
  }

  lemma {:induction false} SumIsBetween(reviews: seq<Review>, w: WorkerId)
    requires forall i | 0 <= i < |reviews| :: 1.0 <= reviews[i].overallScore <= 5.0
    ensures ReviewCount(reviews, w) as real <= ScoreSum(reviews, w) <= 5.0 * ReviewCount(reviews, w) as real
  {
    if reviews != [] {
      SumIsBetween(reviews[..|reviews| - 1], w);
    }
  }

  lemma QuotientBounds(sum: real, n: real)
    requires n > 0.0 && n <= sum <= 5.0 * n
    ensures 1.0 <= sum / n <= 5.0
  {
  }

  /** In every reachable state a rating is the mean of the worker's reviews: 0 without any, else in [1, 5]. */
  lemma ReachableRatingsAreMeans(s: State, w: WorkerId)
    requires Reachable(s) && w < |s.workers|
    ensures s.workers[w].ratingAverage == MeanScore(s.reviews, w)
    ensures if ReviewCount(s.reviews, w) == 0 then s.workers[w].ratingAverage == 0.0
            else 1.0 <= s.workers[w].ratingAverage <= 5.0
  {
    var events :| Run(EmptyState, events) == s;
    RunKeepsRatings(EmptyState, events);
    SumIsBetween(s.reviews, w);
    if ReviewCount(s.reviews, w) > 0 {
      QuotientBounds(ScoreSum(s.reviews, w), ReviewCount(s.reviews, w) as real);
    }
  }
}
