/** What atomic steps do to the dispatch log: rows are only appended, an open row at most gets an outcome, and a
    row once answered or timed out never changes again. */
module OfferLog {
  import opened Schema
  import opened BookingStateMachine
  import opened DispatchController
  import opened Steps

  predicate Top3(attempt: Attempt) {
    attempt == Attempt1 || attempt == Attempt2 || attempt == Attempt3
  }

  predicate OpenTop3(offer: Offer, b: BookingId) {
    offer.booking == b && Top3(offer.attempt) && offer.outcome == Offered
  }

  predicate SameOffer(before: Offer, after: Offer) {
    after == before || (before.outcome == Offered && after == before.(outcome := after.outcome))
  }

  /** The row a forced assignment adds. */
  predicate Override(offer: Offer) {
    offer.attempt == AdminOverride && offer.outcome == Outcome.Accepted
  }

  /** The log after steps that send nothing for booking b. */
  predicate Continues(before: seq<Offer>, after: seq<Offer>, b: BookingId) {
    && |before| <= |after|
    && (forall i: nat | i < |before| :: SameOffer(before[i], after[i]))
    && (forall i: nat | |before| <= i < |after| :: after[i].booking != b || Override(after[i]))
  }

  /** Events other than those by which the engine or the sweep sends, opens or closes for booking b. */
  predicate Outside(e: Event, b: BookingId) {
    match e
    case StartDispatch(c) => c != b
    case SendOffer(c, _, _) => c != b
    case OpenPool(c) => c != b
    case ExhaustPool(c) => c != b
    case Tick(_) => false
    case _ => true
  }

  lemma AnsweredContinues(s: State, o: OfferId, outcome: Outcome, b: BookingId)
    requires o < |s.offers| && s.offers[o].outcome == Offered
    ensures Continues(s.offers, SetOutcome(s, o, outcome).offers, b)
  {
  }

  lemma RespondAnswers(s: State, o: OfferId, w: WorkerId, accept: bool)
    ensures var offers := Step(s, Respond(o, w, accept)).offers;
            || offers == s.offers
            || (o < |s.offers| && s.offers[o].outcome == Offered
                && (|| offers == SetOutcome(s, o, Declined).offers
                    || offers == SetOutcome(s, o, LockLost).offers
                    || offers == SetOutcome(s, o, Outcome.Accepted).offers))
  {
    hide WriteAssignee;
  }

  lemma RespondContinues(s: State, o: OfferId, w: WorkerId, accept: bool, b: BookingId)
    ensures Continues(s.offers, Step(s, Respond(o, w, accept)).offers, b)
  {
    hide Step, SetOutcome;
    RespondAnswers(s, o, w, accept);
    if Step(s, Respond(o, w, accept)).offers != s.offers {
      AnsweredContinues(s, o, Declined, b);
      AnsweredContinues(s, o, LockLost, b);
      AnsweredContinues(s, o, Outcome.Accepted, b);
    }
  }

  lemma ForceAssignContinues(s: State, c: BookingId, w: WorkerId, b: BookingId)
    ensures Continues(s.offers, Step(s, ForceAssign(c, w)).offers, b)
  {
  }

  lemma SentElsewhereContinues(s: State, c: BookingId, w: WorkerId, attempt: Attempt, b: BookingId)
    requires c != b
    ensures Continues(s.offers, OfferSent(s, c, w, attempt).offers, b)
  {
  }

  lemma SendContinues(s: State, c: BookingId, w: WorkerId, attempt: Attempt, b: BookingId)
    requires c != b
    ensures Continues(s.offers, Step(s, SendOffer(c, w, attempt)).offers, b)
  {
    hide Continues;
    SentElsewhereContinues(s, c, w, attempt, b);
  }

  lemma ExpireContinues(s: State, o: OfferId, b: BookingId)
    ensures Continues(s.offers, Step(s, ExpireOffer(o)).offers, b)
  {
  }

  lemma ExhaustContinues(s: State, c: BookingId, b: BookingId)
    ensures Continues(s.offers, Step(s, ExhaustPool(c)).offers, b)
  {
  }

  lemma BookingEventKeepsLog(s: State, e: Event)
    requires e.CancelBooking? || e.AdminCancel? || e.CompleteWork?
    ensures Step(s, e).offers == s.offers
  {
    hide Stamped;
  }

  lemma MoveEventKeepsLog(s: State, e: Event)
    requires e.StartWork? || e.AutoConfirm? || e.StartDispatch? || e.OpenPool?
    ensures Step(s, e).offers == s.offers
  {
    hide Stamped;
  }

  lemma ReviewEventKeepsLog(s: State, e: Event)
    requires e.SubmitReview? || e.RecordPayment?
    ensures Step(s, e).offers == s.offers
  {
  }

  lemma OtherEventKeepsLog(s: State, e: Event)
    requires e.Tick? || e.RegisterWorker? || e.VerifyWorker? || e.SetAvailability? || e.SetSuspension?
      || e.RequestBooking? || e.PostCredit? || e.SettleCredit? || e.ReconcileRecord? || e.LoseLockReply?
    ensures Step(s, e).offers == s.offers
  {
  }

  lemma StepContinues(s: State, e: Event, b: BookingId)
    requires Outside(e, b) || e.Tick?
    ensures Continues(s.offers, Step(s, e).offers, b)
  {
    hide Step;
    match e
    case Respond(o, w, accept) => RespondContinues(s, o, w, accept, b);
    case ForceAssign(c, w) => ForceAssignContinues(s, c, w, b);
    case SendOffer(c, w, attempt) => SendContinues(s, c, w, attempt, b);
    case ExpireOffer(o) => ExpireContinues(s, o, b);
    case ExhaustPool(c) => ExhaustContinues(s, c, b);
    case SubmitReview(_, _, _) => ReviewEventKeepsLog(s, e);
    case RecordPayment(_, _, _) => ReviewEventKeepsLog(s, e);
    case CancelBooking(_, _) => BookingEventKeepsLog(s, e);
    case AdminCancel(_) => BookingEventKeepsLog(s, e);
    case StartWork(_, _) => MoveEventKeepsLog(s, e);
    case CompleteWork(_, _, _) => BookingEventKeepsLog(s, e);
    case AutoConfirm(_) => MoveEventKeepsLog(s, e);
    case StartDispatch(_) => MoveEventKeepsLog(s, e);
    case OpenPool(_) => MoveEventKeepsLog(s, e);
    case _ => OtherEventKeepsLog(s, e);
  }

  /** The offers sent for a booking by the engine or the sweep, in the order sent. */
  function SentFor(offers: seq<Offer>, b: BookingId): seq<(WorkerId, Attempt)> {
    if offers == [] then []
    else
      var last := offers[|offers| - 1];
      SentFor(offers[..|offers| - 1], b)
      + (if last.booking == b && last.attempt != AdminOverride then [(last.worker, last.attempt)] else [])
  }

  lemma {:induction false} SentForContinues(before: seq<Offer>, after: seq<Offer>, b: BookingId)
    requires Continues(before, after, b)
    ensures SentFor(after, b) == SentFor(before, b)
    decreases |after|
  {
    if |before| < |after| {
      SentForContinues(before, after[..|after| - 1], b);
    } else if before != [] {
      var n := |before| - 1;
      assert SameOffer(before[n], after[n]);
      SentForContinues(before[..n], after[..n], b);
    }
  }

  lemma {:induction false} SentForFindsRow(offers: seq<Offer>, b: BookingId, i: nat)
    requires i < |offers| && offers[i].booking == b && offers[i].attempt != AdminOverride
    ensures (offers[i].worker, offers[i].attempt) in SentFor(offers, b)
    decreases |offers|
  {
    if i < |offers| - 1 {
      SentForFindsRow(offers[..|offers| - 1], b, i);
    }
  }
}
