/** Every handler, timer callback and sweep action on bookings as one step of a transition system,
    each step atomic, and runs of such steps in any order. */
module Steps {
  import opened Schema
  import opened BookingStateMachine
  import opened DispatchController
  import opened BookingController
  import opened AdminOperations
  import BookingCompletion
  import opened ReviewController
  import WorkerController
  import Settlement
  import WalletBalance

  datatype Event =
    | Tick(ms: nat)
    | RegisterWorker
    | VerifyWorker(worker: WorkerId, approve: bool)
    | SetAvailability(worker: WorkerId, availability: Availability)
    | SetSuspension(worker: WorkerId, suspend: bool)
    | RequestBooking(customer: CustomerId, total: nat)
    | StartDispatch(booking: BookingId)
    | SendOffer(booking: BookingId, worker: WorkerId, attempt: Attempt)
    | ExpireOffer(offer: OfferId)
    | OpenPool(booking: BookingId)
    | ExhaustPool(booking: BookingId)
    | AutoConfirm(booking: BookingId)
    | Respond(offer: OfferId, worker: WorkerId, accept: bool)
    | LoseLockReply(offer: OfferId, worker: WorkerId)
    | ForceAssign(booking: BookingId, worker: WorkerId)
    | CancelBooking(booking: BookingId, who: Canceller)
    | AdminCancel(booking: BookingId)
    | StartWork(booking: BookingId, worker: WorkerId)
    | CompleteWork(booking: BookingId, worker: WorkerId, commission: BasisPoints)
    | RecordPayment(booking: BookingId, customer: CustomerId, paymentMethod: PaymentMethod)
    | SubmitReview(booking: BookingId, customer: CustomerId, stars: Stars)
    | PostCredit(row: CreditRow)
    | SettleCredit(index: nat)
    | ReconcileRecord(record: nat)

  /** An offer row, written by the dispatch engine or the sweep whatever the booking's status is by then. */
  function OfferSent(s: State, b: BookingId, w: WorkerId, attempt: Attempt): State {
    if b < |s.bookings| && w < |s.workers| && attempt != AdminOverride
    then s.(offers := s.offers + [Offer(b, w, attempt, s.now, Offered)])
    else s
  }

  function OfferExpired(s: State, o: OfferId): State {
    if o < |s.offers| && s.offers[o].outcome == Offered then SetOutcome(s, o, TimedOut) else s
  }

  /** The top-3 phase is over and the booking is read as still waiting. */
  function PoolOpened(s: State, b: BookingId): State {
    if b < |s.bookings| && s.bookings[b].status == DispatchingTop3 then Transition(s, b, DispatchingPool) else s
  }

  predicate OpenPoolOffer(offer: Offer, b: BookingId) {
    offer.booking == b && offer.attempt == Pool && offer.outcome == Offered
  }

  /** Every pool offer of the booking that is still open is written TIMEOUT. */
  function CloseWhere(offers: seq<Offer>, closes: Offer -> bool): seq<Offer> {
    seq(|offers|, i requires 0 <= i < |offers| =>
      if closes(offers[i]) then offers[i].(outcome := TimedOut) else offers[i])
  }

  /** The pool deadline has passed and the booking is read as still in the pool. */
  function PoolExhausted(s: State, b: BookingId): State {
    if b < |s.bookings| && s.bookings[b].status == DispatchingPool
    then Transition(s.(offers := CloseWhere(s.offers, o => OpenPoolOffer(o, b))), b, Cancelled)
    else s
  }

  /** The 60-second timer and its sweep: an illegal transition is swallowed. */
  function AutoConfirmed(s: State, b: BookingId): State {
    Transition(s, b, Confirmed)
  }

  /** A ledger row from outside the booking flow: adjustments, redemptions, dividends, refunds, reversals.
      A redemption is inserted PROCESSING, every other row COMPLETED. */
  predicate Postable(row: CreditRow) {
    && row.kind != JobPayout && row.kind != FeedbackCredit
    && row.status == if row.kind == Redemption then Processing else Complete
  }

  function CreditPosted(s: State, row: CreditRow): State {
    if Postable(row) then s.(ledger := s.ledger + [row]) else s
  }

  /** A pending redemption is paid out and gets its settlement record. */
  function CreditSettled(s: State, i: nat): State {
    if Settlement.ScreenSettle(s.ledger, i) == Settlement.Done && !Settlement.Recorded(s.settlements, i)
    then s.(ledger := s.ledger[i := WalletBalance.SettledRow(s.ledger[i])],
            settlements := s.settlements + [SettlementRecord(i, false)])
    else s
  }

  function RecordReconciled(s: State, k: nat): State {
    if Settlement.ScreenReconcile(s.settlements, k) == Settlement.Done
    then s.(settlements := s.settlements[k := s.settlements[k].(reconciled := true)])
    else s
  }

  function Step(s: State, e: Event): State {
    match e
    case Tick(ms) => s.(now := s.now + ms)
    case RegisterWorker => WorkerController.Register(s)
    case VerifyWorker(w, approve) => WorkerController.Verify(s, w, approve).0
    case SetAvailability(w, availability) => WorkerController.SetAvailability(s, w, availability).0
    case SetSuspension(w, suspend) => WorkerController.SetSuspension(s, w, suspend).0
    case RequestBooking(customer, total) => Request(s, customer, total)
    case StartDispatch(b) => Transition(s, b, DispatchingTop3)
    case SendOffer(b, w, attempt) => OfferSent(s, b, w, attempt)
    case ExpireOffer(o) => OfferExpired(s, o)
    case OpenPool(b) => PoolOpened(s, b)
    case ExhaustPool(b) => PoolExhausted(s, b)
    case AutoConfirm(b) => AutoConfirmed(s, b)
    case Respond(o, w, accept) => if accept then Accept(s, o, w).0 else Decline(s, o, w).0
    case LoseLockReply(o, w) => AcceptUnanswered(s, o, w).0
    case ForceAssign(b, w) => AdminOperations.ForceAssign(s, b, w).0
    case CancelBooking(b, who) => Cancel(s, b, who).0
    case AdminCancel(b) => AdminOperations.AdminCancel(s, b).0
    case StartWork(b, w) => Start(s, b, w).0
    case CompleteWork(b, w, commission) => BookingCompletion.Complete(s, b, w, commission).0
    case RecordPayment(b, customer, paymentMethod) => ReviewController.RecordPayment(s, b, customer, paymentMethod).0
    case SubmitReview(b, customer, stars) => ReviewController.SubmitReview(s, b, customer, stars).0
    case PostCredit(row) => CreditPosted(s, row)
    case SettleCredit(i) => CreditSettled(s, i)
    case ReconcileRecord(k) => RecordReconciled(s, k)
  }

  function Run(s: State, events: seq<Event>): State
    decreases |events|
  {
    if events == [] then s else Run(Step(s, events[0]), events[1..])
  }

  lemma {:induction false} RunJoins(s: State, first: seq<Event>, second: seq<Event>)
    ensures Run(s, first + second) == Run(Run(s, first), second)
    decreases |first|
  {
    hide Step;
    if first == [] {
      assert first + second == second;
    } else {
      assert (first + second)[1..] == first[1..] + second;
      RunJoins(Step(s, first[0]), first[1..], second);
    }
  }

  lemma RunOfTwo(s: State, first: Event, second: Event)
    ensures Run(s, [first, second]) == Step(Step(s, first), second)
  {
    hide Step;
    assert [first, second][1..] == [second] && [second][1..] == [];
    assert Run(Step(Step(s, first), second), []) == Step(Step(s, first), second);
  }

  lemma RunOfThree(s: State, first: Event, second: Event, third: Event)
    ensures Run(s, [first, second, third]) == Step(Step(Step(s, first), second), third)
  {
    hide Step;
    assert [first, second, third][1..] == [second, third];
    RunOfTwo(Step(s, first), second, third);
  }

  lemma TimePasses(s: State, ms: nat)
    ensures Step(s, Tick(ms)) == s.(now := s.now + ms)
  {
  }

  /** Some run of steps leads from s to t. */
  ghost predicate IsRun(s: State, t: State) {
    exists events: seq<Event> :: Run(s, events) == t
  }

  lemma RunThenRun(s: State, t: State, u: State)
    requires IsRun(s, t) && IsRun(t, u)
    ensures IsRun(s, u)
  {
    hide Run;
    var first: seq<Event> :| Run(s, first) == t;
    var second: seq<Event> :| Run(t, second) == u;
    RunJoins(s, first, second);
  }

  lemma StepIsRun(s: State, e: Event)
    ensures IsRun(s, Step(s, e))
  {
    hide Step;
    assert Run(s, [e]) == Run(Step(s, e), []);
  }

  /** The states a server started on empty tables can reach. */
  ghost predicate Reachable(s: State) {
    exists events: seq<Event> :: Run(EmptyState, events) == s
  }
}
