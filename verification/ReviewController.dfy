/** server/src/controllers/review.controller.ts with server/src/services/feedback-credit.service.ts
    and server/src/controllers/payment.controller.ts: payment, rating, payout, settlement and the
    feedback credit. */
module ReviewController {
  import opened Schema
  import opened BookingStateMachine
  import opened DispatchController

  datatype Stars = Stars(punctuality: int, quality: int, professionalism: int, communication: int)

  predicate ValidStars(stars: Stars) {
    && 1 <= stars.punctuality <= 5
    && 1 <= stars.quality <= 5
    && 1 <= stars.professionalism <= 5
    && 1 <= stars.communication <= 5
  }

  function OverallScore(stars: Stars): real {
    (stars.punctuality + stars.quality + stars.professionalism + stars.communication) as real / 4.0
  }

  /** Math.round(fee * 0.2 * 100) / 100, in cents. */
  function FeedbackShare(platformFee: nat): nat {
    (2 * platformFee + 5) / 10
  }

  /** The running average after one more score. */
  function NextAverage(average: real, count: nat, score: real): real {
    (average * count as real + score) / (count + 1) as real
  }

  function Rated(worker: Worker, score: real): Worker {
    worker.(ratingAverage := NextAverage(worker.ratingAverage, worker.ratingCount, score),
            ratingCount := worker.ratingCount + 1)
  }

  function Credited(totals: map<WorkerId, FeedbackTotals>, w: WorkerId, credit: int): map<WorkerId, FeedbackTotals> {
    if w in totals
    then totals[w := FeedbackTotals(totals[w].commissionPool + credit, totals[w].distributed + credit)]
    else totals[w := FeedbackTotals(credit, credit)]
  }

  function IssueFeedbackCredit(s: State, w: WorkerId, b: BookingId, platformFee: nat): State {
    var credit := FeedbackShare(platformFee);
    if credit <= 0 then s
    else s.(feedbackTotals := Credited(s.feedbackTotals, w, credit),
            ledger := s.ledger + [CreditRow(w, FeedbackCredit, credit, Complete, Some(b), s.now)])
  }

  /** Review.bookingId is unique. */
  predicate Reviewed(s: State, b: BookingId) {
    exists i | 0 <= i < |s.reviews| :: s.reviews[i].booking == b
  }

  /** Whether the review transaction can go through: the handler's own checks, the unique and
      foreign keys its inserts rely on, and the transition it applies. */
  function ScreenReview(s: State, b: BookingId, customer: CustomerId, stars: Stars): Reply {
    if !ValidStars(stars) then ValidationError
    else if b >= |s.bookings| || s.bookings[b].customer != customer then NotFound
    else if s.bookings[b].status != Completed || b !in s.invoices then InvalidState
    else if s.bookings[b].assignee.None? || s.bookings[b].assignee.value >= |s.workers| || Reviewed(s, b)
    then InvalidState
    else Ok
  }

  /** The review, the rating, the payment if none is recorded yet, and the payout. */
  function ReviewPosted(s: State, b: BookingId, w: WorkerId, invoice: Invoice, score: real): State
    requires w < |s.workers|
  {
    s.(reviews := s.reviews + [Review(b, w, score)],
       workers := s.workers[w := Rated(s.workers[w], score)],
       payments := if b in s.payments then s.payments else s.payments[b := Payment(Cash, invoice.totalAmount)],
       ledger := s.ledger
         + [CreditRow(w, JobPayout, invoice.totalAmount - invoice.platformFee, Complete, Some(b), s.now)])
  }

  function SubmitReview(s: State, b: BookingId, customer: CustomerId, stars: Stars): (State, Reply) {
    match ScreenReview(s, b, customer, stars)
    case Ok =>
      var w, invoice, score := s.bookings[b].assignee.value, s.invoices[b], OverallScore(stars);
      var settled := ApplyTransition(ReviewPosted(s, b, w, invoice, score), b, Settled);
      (if score >= 4.5 then IssueFeedbackCredit(settled, w, b, invoice.platformFee) else settled, Ok)
    case reply => (s, reply)
  }

  function RecordPayment(s: State, b: BookingId, customer: CustomerId, paymentMethod: PaymentMethod): (State, Reply) {
    if b >= |s.bookings| || s.bookings[b].customer != customer then (s, NotFound)
    else if b !in s.invoices || b in s.payments then (s, InvalidState)
    else (s.(payments := s.payments[b := Payment(paymentMethod, s.invoices[b].totalAmount)]), Ok)
  }

  method IssueCredit(db: Database, w: WorkerId, b: BookingId, platformFee: nat) returns (credit: nat)
    modifies db`feedbackTotals, db`ledger
    ensures credit == FeedbackShare(platformFee)
    ensures db.Snapshot() == IssueFeedbackCredit(old(db.Snapshot()), w, b, platformFee)
  {
    credit := (2 * platformFee + 5) / 10;
    if credit <= 0 {
      return 0;
    }
    if w in db.feedbackTotals {
      var totals := db.feedbackTotals[w];
      db.feedbackTotals :=
        db.feedbackTotals[w := FeedbackTotals(totals.commissionPool + credit, totals.distributed + credit)];
    } else {
      db.feedbackTotals := db.feedbackTotals[w := FeedbackTotals(credit, credit)];
    }
    db.ledger := db.ledger + [CreditRow(w, FeedbackCredit, credit, Complete, Some(b), db.now)];
  }

  /** The first writes of the review transaction. */
  method PostReview(db: Database, b: BookingId, w: WorkerId, invoice: Invoice, score: real)
    requires w < |db.workers|
    modifies db
    ensures db.Snapshot() == ReviewPosted(old(db.Snapshot()), b, w, invoice, score)
  {
    db.reviews := db.reviews + [Review(b, w, score)];

    var worker := db.workers[w];
    var newRatingAverage := NextAverage(worker.ratingAverage, worker.ratingCount, score);
    db.workers := db.workers[w := worker.(ratingAverage := newRatingAverage, ratingCount := worker.ratingCount + 1)];

    if b !in db.payments {
      db.payments := db.payments[b := Payment(Cash, invoice.totalAmount)];
    }
    var payout := invoice.totalAmount - invoice.platformFee;
    db.ledger := db.ledger + [CreditRow(w, JobPayout, payout, Complete, Some(b), db.now)];
  }

  method ReviewBooking(db: Database, b: BookingId, customer: CustomerId, stars: Stars) returns (reply: Reply)
    modifies db
    ensures (db.Snapshot(), reply) == SubmitReview(old(db.Snapshot()), b, customer, stars)
  {
    hide Reviewed, OverallScore, IssueFeedbackCredit;
    reply := ScreenReview(db.Snapshot(), b, customer, stars);
    if reply != Ok {
      return;
    }
    var score := OverallScore(stars);
    var invoice := db.invoices[b];
    var w := db.bookings[b].assignee.value;
    PostReview(db, b, w, invoice, score);
    var _ := TransitionBookingStatus(db, b, Settled);
    if score >= 4.5 {
      var _ := IssueCredit(db, w, b, invoice.platformFee);
    }
  }
}
