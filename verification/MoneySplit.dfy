/** Where the money of a settled booking goes: invoices, payouts, platform fees and feedback credits
    over whole runs of the server. */
module MoneySplit {
  import opened Schema
  import opened Sums
  import opened BookingStateMachine
  import opened DispatchController
  import opened BookingController
  import opened AdminOperations
  import BookingCompletion
  import ReviewController
  import WalletBalance
  import opened Steps
  import opened BookingChanges
  import opened Lifecycle

  predicate Billed(s: State, b: BookingId) {
    b < |s.bookings| && (s.bookings[b].status == Completed || s.bookings[b].status == Settled)
  }

  predicate IsSettled(s: State, b: BookingId) {
    b < |s.bookings| && s.bookings[b].status == Settled
  }

  // Column sums, as the terms of Sums.Sum.

  function AmountOf(s: State, b: BookingId): int {
    if IsSettled(s, b) && b in s.invoices then s.invoices[b].totalAmount else 0
  }

  function FeeOf(s: State, b: BookingId): int {
    if IsSettled(s, b) && b in s.invoices then s.invoices[b].platformFee else 0
  }

  function SettledAmount(s: State): nat -> int { (b: nat) => AmountOf(s, b) }

  function SettledFee(s: State): nat -> int { (b: nat) => FeeOf(s, b) }

  function RowOfKind(ledger: seq<CreditRow>, kind: CreditKind): nat -> int {
    (i: nat) => if i < |ledger| && ledger[i].kind == kind then ledger[i].amount else 0
  }

  function RowOfWorker(ledger: seq<CreditRow>, kind: CreditKind, w: WorkerId): nat -> int {
    (i: nat) => if i < |ledger| && ledger[i].kind == kind && ledger[i].worker == w then ledger[i].amount else 0
  }

  function PayoutRow(ledger: seq<CreditRow>, b: BookingId): nat -> int {
    (i: nat) => if i < |ledger| && ledger[i].kind == JobPayout && ledger[i].booking == Some(b) then 1 else 0
  }

  /** What the feedback rule owes for the reviews of 4.5 and more. */
  function FeedbackOwed(s: State): nat -> int {
    (i: nat) => if i < |s.reviews| && s.reviews[i].overallScore >= 4.5 && s.reviews[i].booking in s.invoices
         then ReviewController.FeedbackShare(s.invoices[s.reviews[i].booking].platformFee) else 0
  }

  function SettledTotal(s: State): int { Sum(SettledAmount(s), |s.bookings|) }

  function SettledFees(s: State): int { Sum(SettledFee(s), |s.bookings|) }

  function LedgerTotal(ledger: seq<CreditRow>, kind: CreditKind): int { Sum(RowOfKind(ledger, kind), |ledger|) }

  function WorkerTotal(ledger: seq<CreditRow>, kind: CreditKind, w: WorkerId): int {
    Sum(RowOfWorker(ledger, kind, w), |ledger|)
  }

  function PayoutCount(ledger: seq<CreditRow>, b: BookingId): int { Sum(PayoutRow(ledger, b), |ledger|) }

  function FeedbackDue(s: State): int { Sum(FeedbackOwed(s), |s.reviews|) }

  // The invariant, one clause per table.

  ghost predicate InvoicesRight(s: State) {
    && (forall b: BookingId :: b in s.invoices <==> Billed(s, b))
    && (forall b | b in s.invoices ::
          s.invoices[b].platformFee <= s.invoices[b].totalAmount == s.bookings[b].total)
  }

  ghost predicate PayoutsRight(s: State) {
    && (forall b: BookingId :: PayoutCount(s.ledger, b) == if IsSettled(s, b) then 1 else 0)
    && (forall i | 0 <= i < |s.ledger| && s.ledger[i].kind == JobPayout :: PayoutRight(s, s.ledger[i]))
  }

  predicate PayoutRight(s: State, row: CreditRow) {
    && row.status == Complete && row.booking.Some?
    && var b := row.booking.value;
       IsSettled(s, b) && b in s.invoices && s.bookings[b].assignee == Some(row.worker)
       && row.amount == s.invoices[b].totalAmount - s.invoices[b].platformFee
  }

  ghost predicate PaymentsRight(s: State) {
    && (forall b | b in s.payments :: b in s.invoices && s.payments[b].amount == s.invoices[b].totalAmount)
    && (forall b: BookingId | IsSettled(s, b) :: b in s.payments)
  }

  ghost predicate FeedbackRight(s: State) {
    && LedgerTotal(s.ledger, FeedbackCredit) == FeedbackDue(s) <= SettledFees(s)
    && (forall w: WorkerId :: TotalsOf(s, w) ==
          FeedbackTotals(WorkerTotal(s.ledger, FeedbackCredit, w), WorkerTotal(s.ledger, FeedbackCredit, w)))
  }

  function TotalsOf(s: State, w: WorkerId): FeedbackTotals {
    if w in s.feedbackTotals then s.feedbackTotals[w] else FeedbackTotals(0, 0)
  }

  ghost predicate ReviewsRight(s: State) {
    && (forall b: BookingId :: ReviewController.Reviewed(s, b) <==> IsSettled(s, b))
    && (forall i | 0 <= i < |s.reviews| ::
          IsSettled(s, s.reviews[i].booking) && s.bookings[s.reviews[i].booking].assignee == Some(s.reviews[i].worker))
  }

  /** Nothing is lost between the customer and the two payees. */
  predicate Conserved(s: State) {
    SettledTotal(s) == LedgerTotal(s.ledger, JobPayout) + SettledFees(s)
  }

  ghost predicate MoneyRight(s: State) {
    && InvoicesRight(s) && PayoutsRight(s) && PaymentsRight(s) && FeedbackRight(s) && ReviewsRight(s) && Conserved(s)
  }

  lemma LedgerAppend(ledger: seq<CreditRow>, row: CreditRow, kind: CreditKind, w: WorkerId, b: BookingId)
    ensures LedgerTotal(ledger + [row], kind) == LedgerTotal(ledger, kind) + if row.kind == kind then row.amount else 0
    ensures WorkerTotal(ledger + [row], kind, w) ==
            WorkerTotal(ledger, kind, w) + if row.kind == kind && row.worker == w then row.amount else 0
    ensures PayoutCount(ledger + [row], b) ==
            PayoutCount(ledger, b) + if row.kind == JobPayout && row.booking == Some(b) then 1 else 0
  {
    var n := |ledger|;
    SumSame(RowOfKind(ledger, kind), RowOfKind(ledger + [row], kind), n);
    SumSame(RowOfWorker(ledger, kind, w), RowOfWorker(ledger + [row], kind, w), n);
    SumSame(PayoutRow(ledger, b), PayoutRow(ledger + [row], b), n);
  }

  /** The ledger and review tables are as before, and so is everything they say about settled bookings. */
  ghost predicate SettledKept(s: State, t: State) {
    && t.reviews == s.reviews && t.ledger == s.ledger && t.feedbackTotals == s.feedbackTotals
    && |s.bookings| <= |t.bookings| <= |s.bookings| + 1
    && (forall b: BookingId :: IsSettled(t, b) <==> IsSettled(s, b))
    && (forall b: BookingId | IsSettled(s, b) :: SameBill(s, t, b))
  }

  predicate SameBill(s: State, t: State, b: BookingId) {
    && b < |s.bookings| && b < |t.bookings| && t.bookings[b].assignee == s.bookings[b].assignee
    && (b in t.invoices <==> b in s.invoices)
    && (b in s.invoices ==> t.invoices[b] == s.invoices[b])
  }

  lemma SettledKeptKeepsSums(s: State, t: State)
    requires SettledKept(s, t)
    ensures SettledTotal(t) == SettledTotal(s) && SettledFees(t) == SettledFees(s)
  {
    forall b: BookingId
      ensures SettledAmount(t)(b) == SettledAmount(s)(b) && SettledFee(t)(b) == SettledFee(s)(b)
      ensures b >= |s.bookings| ==> SettledAmount(t)(b) == 0 == SettledFee(t)(b)
    {
      assert IsSettled(t, b) <==> IsSettled(s, b);
      assert IsSettled(s, b) ==> SameBill(s, t, b);
    }
    SumSame(SettledAmount(s), SettledAmount(t), |s.bookings|);
    SumSame(SettledFee(s), SettledFee(t), |s.bookings|);
  }

  lemma SettledKeptKeepsReviews(s: State, t: State)
    requires ReviewsRight(s) && SettledKept(s, t)
    ensures ReviewsRight(t) && FeedbackDue(t) == FeedbackDue(s)
  {
    forall b: BookingId
      ensures ReviewController.Reviewed(t, b) <==> IsSettled(t, b)
    {
      assert ReviewController.Reviewed(t, b) <==> ReviewController.Reviewed(s, b);
    }
    forall i: nat | i < |s.reviews|
      ensures SameBill(s, t, s.reviews[i].booking)
    {
      assert IsSettled(s, s.reviews[i].booking);
    }
    SumSame(FeedbackOwed(s), FeedbackOwed(t), |s.reviews|);
  }

  lemma SettledKeptKeepsPayouts(s: State, t: State)
    requires PayoutsRight(s) && SettledKept(s, t)
    ensures PayoutsRight(t)
  {
  }

  /** What SettledKept leaves to check is the invoices and the payments. */
  lemma SettledKeptKeepsMoneyRight(s: State, t: State)
    requires MoneyRight(s) && SettledKept(s, t)
    requires InvoicesRight(t) && PaymentsRight(t)
    ensures MoneyRight(t)
  {
    SettledKeptKeepsSums(s, t);
    SettledKeptKeepsReviews(s, t);
    SettledKeptKeepsPayouts(s, t);
    assert forall w: WorkerId :: TotalsOf(t, w) == TotalsOf(s, w);
  }

  predicate MovesMoney(e: Event) {
    e.CompleteWork? || e.SubmitReview? || e.RecordPayment? || e.PostCredit? || e.SettleCredit? || e.ReconcileRecord?
  }

  predicate SameTables(s: State, t: State) {
    && t.invoices == s.invoices && t.payments == s.payments && t.reviews == s.reviews
    && t.ledger == s.ledger && t.feedbackTotals == s.feedbackTotals && t.settlements == s.settlements
  }

  lemma AnswerKeepsMoneyTables(s: State, o: OfferId, w: WorkerId)
    ensures SameTables(s, Accept(s, o, w).0) && SameTables(s, Decline(s, o, w).0)
  {
  }

  lemma SetWorkerKeepsMoneyTables(s: State, w: WorkerId, availability: Availability, current: Option<BookingId>)
    ensures SameTables(s, SetWorker(s, w, availability, current))
  {
  }

  lemma ForceAssignKeepsMoneyTables(s: State, b: BookingId, w: WorkerId)
    ensures SameTables(s, AdminOperations.ForceAssign(s, b, w).0)
  {
    hide SetWorker, WriteAssignee;
    if AdminOperations.ForceAssign(s, b, w).1 == Ok {
      var displaced := Displaced(s.bookings[b].assignee, w);
      if displaced.Some? {
        SetWorkerKeepsMoneyTables(s, displaced.value, Available, None);
      }
      var written := Release(s, displaced).(bookings := s.bookings[b := WriteAssignee(s.bookings[b], w, s.now)]);
      SetWorkerKeepsMoneyTables(written, w, OnJob, Some(b));
    }
  }

  lemma PhasesKeepMoneyTables(s: State, b: BookingId)
    ensures SameTables(s, PoolOpened(s, b)) && SameTables(s, PoolExhausted(s, b)) && SameTables(s, AutoConfirmed(s, b))
    ensures SameTables(s, Transition(s, b, DispatchingTop3))
  {
    hide Stamped, LegalTransitions, CloseWhere;
  }

  lemma CancelKeepsMoneyTables(s: State, b: BookingId, who: Canceller)
    ensures SameTables(s, Cancel(s, b, who).0) && SameTables(s, AdminOperations.AdminCancel(s, b).0)
  {
    hide SetWorker, Stamped;
    if b < |s.bookings| && Cancellable(s.bookings[b].status) && s.bookings[b].assignee.Some? {
      SetWorkerKeepsMoneyTables(ApplyTransition(s, b, Cancelled), s.bookings[b].assignee.value, Available, None);
    }
  }

  lemma WorkerStepsKeepMoneyTables(s: State, e: Event)
    requires e.RegisterWorker? || e.VerifyWorker? || e.SetAvailability? || e.SetSuspension?
    ensures SameTables(s, Step(s, e))
  {
  }

  lemma QuietStepsKeepMoneyTables(s: State, e: Event)
    requires e.Tick? || e.RequestBooking? || e.SendOffer? || e.ExpireOffer? || e.StartWork? || e.LoseLockReply?
    ensures SameTables(s, Step(s, e))
  {
    hide Accept, AdminOperations.ForceAssign, Cancel, AdminOperations.AdminCancel, Stamped, LegalTransitions;
  }

  lemma OthersKeepMoneyTables(s: State, e: Event)
    requires !MovesMoney(e)
    ensures SameTables(s, Step(s, e))
  {
    hide Accept, Decline, AdminOperations.ForceAssign, Cancel, AdminOperations.AdminCancel, SameTables;
    hide PoolOpened, PoolExhausted, AutoConfirmed, Transition;
    match e
    case Respond(o, w, _) => AnswerKeepsMoneyTables(s, o, w);
    case ForceAssign(b, w) => ForceAssignKeepsMoneyTables(s, b, w);
    case StartDispatch(b) => PhasesKeepMoneyTables(s, b);
    case OpenPool(b) => PhasesKeepMoneyTables(s, b);
    case ExhaustPool(b) => PhasesKeepMoneyTables(s, b);
    case AutoConfirm(b) => PhasesKeepMoneyTables(s, b);
    case CancelBooking(b, who) => CancelKeepsMoneyTables(s, b, who);
    case AdminCancel(b) => CancelKeepsMoneyTables(s, b, ByCustomer(0));
    case RegisterWorker => WorkerStepsKeepMoneyTables(s, e);
    case VerifyWorker(_, _) => WorkerStepsKeepMoneyTables(s, e);
    case SetAvailability(_, _) => WorkerStepsKeepMoneyTables(s, e);
    case SetSuspension(_, _) => WorkerStepsKeepMoneyTables(s, e);
    case _ => QuietStepsKeepMoneyTables(s, e);
  }

  lemma OthersKeepBilledBookings(s: State, t: State, change: Change)
    requires Shape(s) && Enabled(s, change) && t.bookings == NewBookings(s, change)
    requires change.Moved? ==> change.next != Completed && change.next != Settled
    requires SameTables(s, t)
    ensures SettledKept(s, t)
    ensures InvoicesRight(s) ==> InvoicesRight(t)
    ensures PaymentsRight(s) ==> PaymentsRight(t)
  {
  }

  lemma ChangesOfOthers(s: State, e: Event)
    requires !MovesMoney(e)
    ensures var change := ChangeOf(s, e); change.Moved? ==> change.next != Completed && change.next != Settled
  {
    hide Step;
  }

  lemma OthersKeepMoneyRight(s: State, e: Event)
    requires Shape(s) && MoneyRight(s) && !MovesMoney(e)
    ensures MoneyRight(Step(s, e))
  {
    hide Step, SettledKept, SameTables;
    StepMakesChange(s, e);
    ChangesOfOthers(s, e);
    OthersKeepMoneyTables(s, e);
    OthersKeepBilledBookings(s, Step(s, e), ChangeOf(s, e));
    SettledKeptKeepsMoneyRight(s, Step(s, e));
  }

  /** A fee is within half a cent of the commission and never more than the total. */
  lemma FeeIsRoundedCommission(total: nat, commission: BasisPoints)
    ensures var fee := BookingCompletion.PlatformFee(total, commission);
            fee <= total && -5000 <= 10000 * fee - total * commission <= 5000
  {
  }

  /** A feedback share is within half a cent of a fifth of the fee and never more than the fee. */
  lemma ShareIsRoundedFifth(fee: nat)
    ensures var share := ReviewController.FeedbackShare(fee);
            share <= fee && -5 <= 10 * share - 2 * fee <= 5
  {
  }

  lemma SameBookingsKeepSums(s: State, t: State)
    requires t.bookings == s.bookings && t.invoices == s.invoices && t.reviews == s.reviews
    ensures SettledTotal(t) == SettledTotal(s) && SettledFees(t) == SettledFees(s) && FeedbackDue(t) == FeedbackDue(s)
  {
    SumSame(SettledAmount(s), SettledAmount(t), |s.bookings|);
    SumSame(SettledFee(s), SettledFee(t), |s.bookings|);
    SumSame(FeedbackOwed(s), FeedbackOwed(t), |s.reviews|);
  }

  lemma SameBookingsKeepReviewsRight(s: State, t: State)
    requires ReviewsRight(s) && t.bookings == s.bookings && t.reviews == s.reviews
    ensures ReviewsRight(t)
  {
    forall b: BookingId
      ensures ReviewController.Reviewed(t, b) <==> IsSettled(t, b)
    {
      assert ReviewController.Reviewed(t, b) <==> ReviewController.Reviewed(s, b);
    }
  }

  lemma OtherRowKeepsPayoutsRight(s: State, t: State, row: CreditRow)
    requires PayoutsRight(s) && row.kind != JobPayout
    requires t.bookings == s.bookings && t.invoices == s.invoices
    requires t.ledger == s.ledger || t.ledger == s.ledger + [row]
    ensures PayoutsRight(t) && LedgerTotal(t.ledger, JobPayout) == LedgerTotal(s.ledger, JobPayout)
  {
    forall b: BookingId
      ensures PayoutCount(t.ledger, b) == if IsSettled(t, b) then 1 else 0
    {
      LedgerAppend(s.ledger, row, JobPayout, 0, b);
    }
    LedgerAppend(s.ledger, row, JobPayout, 0, 0);
    forall i | 0 <= i < |t.ledger| && t.ledger[i].kind == JobPayout
      ensures PayoutRight(t, t.ledger[i])
    {
      assert t.ledger[i] == s.ledger[i] && PayoutRight(s, s.ledger[i]);
    }
  }

  lemma OtherRowKeepsFeedbackRight(s: State, t: State, row: CreditRow)
    requires FeedbackRight(s) && row.kind != FeedbackCredit
    requires t.bookings == s.bookings && t.invoices == s.invoices && t.reviews == s.reviews
    requires t.feedbackTotals == s.feedbackTotals
    requires t.ledger == s.ledger || t.ledger == s.ledger + [row]
    ensures FeedbackRight(t)
  {
    SameBookingsKeepSums(s, t);
    forall w: WorkerId
      ensures TotalsOf(t, w) ==
              FeedbackTotals(WorkerTotal(t.ledger, FeedbackCredit, w), WorkerTotal(t.ledger, FeedbackCredit, w))
    {
      LedgerAppend(s.ledger, row, FeedbackCredit, w, 0);
    }
    LedgerAppend(s.ledger, row, FeedbackCredit, 0, 0);
  }

  lemma PostCreditKeepsMoneyRight(s: State, row: CreditRow)
    requires MoneyRight(s)
    ensures MoneyRight(CreditPosted(s, row))
  {
    var t := CreditPosted(s, row);
    if t != s {
      OtherRowKeepsPayoutsRight(s, t, row);
      OtherRowKeepsFeedbackRight(s, t, row);
      SameBookingsKeepSums(s, t);
      SameBookingsKeepReviewsRight(s, t);
    }
  }

  lemma ReconcilingKeepsMoneyRight(s: State, k: nat)
    requires MoneyRight(s)
    ensures MoneyRight(RecordReconciled(s, k))
  {
    hide MoneyRight;
    RecordsAreNoMoney(s, RecordReconciled(s, k).settlements);
  }

  lemma RecordsAreNoMoney(s: State, settlements: seq<SettlementRecord>)
    requires MoneyRight(s)
    ensures MoneyRight(s.(settlements := settlements))
  {
    var t := s.(settlements := settlements);
    var none := CreditRow(0, Adjustment, 0, Complete, None, 0);
    OtherRowKeepsPayoutsRight(s, t, none);
    OtherRowKeepsFeedbackRight(s, t, none);
    SameBookingsKeepSums(s, t);
    SameBookingsKeepReviewsRight(s, t);
  }

  lemma SettlingRowKeepsSums(ledger: seq<CreditRow>, i: nat, kind: CreditKind, w: WorkerId, b: BookingId)
    requires i < |ledger| && ledger[i].kind == Redemption
    ensures var settled := ledger[i := WalletBalance.SettledRow(ledger[i])];
            && LedgerTotal(settled, kind) == LedgerTotal(ledger, kind)
            && WorkerTotal(settled, kind, w) == WorkerTotal(ledger, kind, w)
            && PayoutCount(settled, b) == PayoutCount(ledger, b)
  {
    var settled := ledger[i := WalletBalance.SettledRow(ledger[i])];
    SumSame(RowOfKind(ledger, kind), RowOfKind(settled, kind), |ledger|);
    SumSame(RowOfWorker(ledger, kind, w), RowOfWorker(settled, kind, w), |ledger|);
    SumSame(PayoutRow(ledger, b), PayoutRow(settled, b), |ledger|);
  }

  lemma SettleCreditKeepsMoneyRight(s: State, i: nat)
    requires MoneyRight(s)
    ensures MoneyRight(CreditSettled(s, i))
  {
    var t := CreditSettled(s, i);
    if t != s {
      SettlingRowKeepsSums(s.ledger, i, JobPayout, 0, 0);
      SettlingRowKeepsPayouts(s, t, i);
      SettlingRowKeepsFeedback(s, t, i);
      SameBookingsKeepSums(s, t);
      SameBookingsKeepReviewsRight(s, t);
    }
  }

  lemma SettlingRowKeepsPayouts(s: State, t: State, i: nat)
    requires PayoutsRight(s) && i < |s.ledger| && s.ledger[i].kind == Redemption
    requires t == s.(ledger := s.ledger[i := WalletBalance.SettledRow(s.ledger[i])], settlements := t.settlements)
    ensures PayoutsRight(t)
  {
    forall b: BookingId
      ensures PayoutCount(t.ledger, b) == if IsSettled(t, b) then 1 else 0
    {
      SettlingRowKeepsSums(s.ledger, i, JobPayout, 0, b);
    }
    forall j | 0 <= j < |t.ledger| && t.ledger[j].kind == JobPayout
      ensures PayoutRight(t, t.ledger[j])
    {
      assert PayoutRight(s, s.ledger[j]);
    }
  }

  lemma SettlingRowKeepsFeedback(s: State, t: State, i: nat)
    requires FeedbackRight(s) && i < |s.ledger| && s.ledger[i].kind == Redemption
    requires t == s.(ledger := s.ledger[i := WalletBalance.SettledRow(s.ledger[i])], settlements := t.settlements)
    ensures FeedbackRight(t)
  {
    SameBookingsKeepSums(s, t);
    SettlingRowKeepsSums(s.ledger, i, FeedbackCredit, 0, 0);
    forall w: WorkerId
      ensures TotalsOf(t, w) ==
              FeedbackTotals(WorkerTotal(t.ledger, FeedbackCredit, w), WorkerTotal(t.ledger, FeedbackCredit, w))
    {
      SettlingRowKeepsSums(s.ledger, i, FeedbackCredit, w, 0);
    }
  }

  lemma RecordPaymentAddsPayment(s: State, b: BookingId, customer: CustomerId, paymentMethod: PaymentMethod)
    requires InvoicesRight(s) && PaymentsRight(s)
    ensures var t := ReviewController.RecordPayment(s, b, customer, paymentMethod).0;
            SettledKept(s, t) && InvoicesRight(t) && PaymentsRight(t)
  {
  }

  lemma CompletionWrites(s: State, b: BookingId, w: WorkerId, commission: BasisPoints)
    ensures var (t, reply) := BookingCompletion.Complete(s, b, w, commission);
            if reply != Ok then t == s
            else
              && CanTransition(s, b, Completed)
              && t.bookings == s.bookings[b := Stamped(s.bookings[b], Completed, s.now)]
              && t.invoices ==
                 s.invoices[b := Invoice(BookingCompletion.PlatformFee(s.bookings[b].total, commission),
                                         s.bookings[b].total)]
              && t.payments == s.payments && t.reviews == s.reviews && t.ledger == s.ledger
              && t.feedbackTotals == s.feedbackTotals
  {
    hide Stamped;
  }

  /** Completion: the booking becomes billed, with its invoice, and nothing settled changes. */
  lemma CompleteAddsInvoice(s: State, b: BookingId, w: WorkerId, commission: BasisPoints)
    requires InvoicesRight(s) && PaymentsRight(s)
    ensures var t := BookingCompletion.Complete(s, b, w, commission).0;
            SettledKept(s, t) && InvoicesRight(t) && PaymentsRight(t)
  {
    hide BookingCompletion.Complete, BookingCompletion.PlatformFee;
    CompletionWrites(s, b, w, commission);
    var (t, reply) := BookingCompletion.Complete(s, b, w, commission);
    if reply == Ok {
      FeeIsRoundedCommission(s.bookings[b].total, commission);
      assert !Billed(s, b) && Billed(t, b) && !IsSettled(t, b);
      forall c: BookingId
        ensures c != b ==> (Billed(t, c) <==> Billed(s, c)) && (IsSettled(t, c) <==> IsSettled(s, c))
      {
      }
    }
  }

  function FeedbackEarned(score: real, platformFee: nat): nat {
    if score >= 4.5 then ReviewController.FeedbackShare(platformFee) else 0
  }

  /** What a review that goes through does to the tables: booking b, completed and billed, is settled. */
  ghost predicate SettlesBooking(s: State, t: State, b: BookingId, w: WorkerId, score: real) {
    && Billed(s, b) && !IsSettled(s, b) && s.bookings[b].assignee == Some(w) && b in s.invoices
    && var fee, total := s.invoices[b].platformFee, s.invoices[b].totalAmount;
       var credit := FeedbackEarned(score, fee);
       var payout := CreditRow(w, JobPayout, total - fee, Complete, Some(b), s.now);
       var bonus := CreditRow(w, FeedbackCredit, credit, Complete, Some(b), s.now);
       && |t.bookings| == |s.bookings|
       && t.bookings == s.bookings[b := Stamped(s.bookings[b], Settled, s.now)]
       && t.invoices == s.invoices
       && t.payments == (if b in s.payments then s.payments else s.payments[b := Payment(Cash, total)])
       && t.reviews == s.reviews + [Review(b, w, score)]
       && t.ledger == (if credit > 0 then s.ledger + [payout] + [bonus] else s.ledger + [payout])
       && t.feedbackTotals ==
          if credit > 0 then ReviewController.Credited(s.feedbackTotals, w, credit) else s.feedbackTotals
  }

  lemma ReviewSettlesBooking(s: State, b: BookingId, customer: CustomerId, stars: ReviewController.Stars)
    requires ReviewController.ScreenReview(s, b, customer, stars) == Ok
    ensures SettlesBooking(s, ReviewController.SubmitReview(s, b, customer, stars).0, b,
                           s.bookings[b].assignee.value, ReviewController.OverallScore(stars))
  {
  }

  lemma SettlingSettlesOne(s: State, t: State, b: BookingId, w: WorkerId, score: real, c: BookingId)
    requires SettlesBooking(s, t, b, w, score)
    ensures IsSettled(t, c) <==> c == b || IsSettled(s, c)
    ensures Billed(t, c) <==> Billed(s, c)
    ensures c < |s.bookings| ==>
              t.bookings[c].assignee == s.bookings[c].assignee && t.bookings[c].total == s.bookings[c].total
  {
  }

  lemma SettlingRaisesSums(s: State, t: State, b: BookingId, w: WorkerId, score: real)
    requires SettlesBooking(s, t, b, w, score)
    ensures SettledTotal(t) == SettledTotal(s) + s.invoices[b].totalAmount
    ensures SettledFees(t) == SettledFees(s) + s.invoices[b].platformFee
  {
    forall c: BookingId
      ensures c != b ==> SettledAmount(t)(c) == SettledAmount(s)(c) && SettledFee(t)(c) == SettledFee(s)(c)
      ensures SettledAmount(s)(b) == 0 == SettledFee(s)(b)
      ensures SettledAmount(t)(b) == s.invoices[b].totalAmount && SettledFee(t)(b) == s.invoices[b].platformFee
    {
      SettlingSettlesOne(s, t, b, w, score, c);
    }
    SumRaised(SettledAmount(s), SettledAmount(t), |s.bookings|, b);
    SumRaised(SettledFee(s), SettledFee(t), |s.bookings|, b);
  }

  lemma SettlingKeepsInvoicesAndPayments(s: State, t: State, b: BookingId, w: WorkerId, score: real)
    requires SettlesBooking(s, t, b, w, score) && InvoicesRight(s) && PaymentsRight(s)
    ensures InvoicesRight(t) && PaymentsRight(t)
  {
    forall c: BookingId
      ensures IsSettled(t, c) <==> c == b || IsSettled(s, c)
      ensures Billed(t, c) <==> Billed(s, c)
      ensures c < |s.bookings| ==> t.bookings[c].total == s.bookings[c].total
    {
      SettlingSettlesOne(s, t, b, w, score, c);
    }
  }

  lemma SettlingKeepsPayouts(s: State, t: State, b: BookingId, w: WorkerId, score: real)
    requires SettlesBooking(s, t, b, w, score) && PayoutsRight(s)
    ensures PayoutsRight(t)
    ensures LedgerTotal(t.ledger, JobPayout) ==
            LedgerTotal(s.ledger, JobPayout) + s.invoices[b].totalAmount - s.invoices[b].platformFee
  {
    var payout, paid := t.ledger[|s.ledger|], s.ledger + [t.ledger[|s.ledger|]];
    LedgerAppend(s.ledger, payout, JobPayout, 0, 0);
    if t.ledger != paid {
      LedgerAppend(paid, t.ledger[|paid|], JobPayout, 0, 0);
    }
    forall c: BookingId
      ensures PayoutCount(t.ledger, c) == if IsSettled(t, c) then 1 else 0
    {
      SettlingSettlesOne(s, t, b, w, score, c);
      LedgerAppend(s.ledger, payout, JobPayout, 0, c);
      if t.ledger != paid {
        LedgerAppend(paid, t.ledger[|paid|], JobPayout, 0, c);
      }
    }
    forall i | 0 <= i < |t.ledger| && t.ledger[i].kind == JobPayout
      ensures PayoutRight(t, t.ledger[i])
    {
      if i < |s.ledger| {
        assert PayoutRight(s, s.ledger[i]);
        SettlingSettlesOne(s, t, b, w, score, s.ledger[i].booking.value);
      }
    }
  }

  lemma SettlingKeepsReviews(s: State, t: State, b: BookingId, w: WorkerId, score: real)
    requires SettlesBooking(s, t, b, w, score) && ReviewsRight(s)
    ensures ReviewsRight(t)
    ensures FeedbackDue(t) == FeedbackDue(s) + FeedbackEarned(score, s.invoices[b].platformFee)
  {
    var n := |s.reviews|;
    forall c: BookingId
      ensures ReviewController.Reviewed(t, c) <==> IsSettled(t, c)
    {
      SettlingSettlesOne(s, t, b, w, score, c);
      assert t.reviews[n].booking == b;
      if ReviewController.Reviewed(s, c) {
        var i :| 0 <= i < n && s.reviews[i].booking == c;
        assert t.reviews[i] == s.reviews[i];
      }
    }
    forall i | 0 <= i < |t.reviews|
      ensures IsSettled(t, t.reviews[i].booking)
      ensures t.bookings[t.reviews[i].booking].assignee == Some(t.reviews[i].worker)
    {
      SettlingSettlesOne(s, t, b, w, score, t.reviews[i].booking);
    }
    SumSame(FeedbackOwed(s), FeedbackOwed(t), n);
  }

  lemma SettlingKeepsFeedback(s: State, t: State, b: BookingId, w: WorkerId, score: real)
    requires SettlesBooking(s, t, b, w, score) && FeedbackRight(s) && ReviewsRight(s)
    ensures FeedbackRight(t)
  {
    hide Sum, LedgerTotal, WorkerTotal, PayoutCount, SettledTotal, SettledFees, FeedbackDue, ReviewsRight;
    var fee := s.invoices[b].platformFee;
    var payout, paid := t.ledger[|s.ledger|], s.ledger + [t.ledger[|s.ledger|]];
    SettlingRaisesSums(s, t, b, w, score);
    SettlingKeepsReviews(s, t, b, w, score);
    ShareIsRoundedFifth(fee);
    LedgerAppend(s.ledger, payout, FeedbackCredit, 0, 0);
    if t.ledger != paid {
      LedgerAppend(paid, t.ledger[|paid|], FeedbackCredit, 0, 0);
    }
    forall v: WorkerId
      ensures TotalsOf(t, v) ==
              FeedbackTotals(WorkerTotal(t.ledger, FeedbackCredit, v), WorkerTotal(t.ledger, FeedbackCredit, v))
    {
      LedgerAppend(s.ledger, payout, FeedbackCredit, v, 0);
      if t.ledger != paid {
        LedgerAppend(paid, t.ledger[|paid|], FeedbackCredit, v, 0);
      }
    }
  }

  lemma ReviewKeepsMoneyRight(s: State, b: BookingId, customer: CustomerId, stars: ReviewController.Stars)
    requires MoneyRight(s)
    ensures MoneyRight(ReviewController.SubmitReview(s, b, customer, stars).0)
  {
    if ReviewController.ScreenReview(s, b, customer, stars) == Ok {
      var t := ReviewController.SubmitReview(s, b, customer, stars).0;
      var w, score := s.bookings[b].assignee.value, ReviewController.OverallScore(stars);
      ReviewSettlesBooking(s, b, customer, stars);
      SettlingKeepsInvoicesAndPayments(s, t, b, w, score);
      SettlingKeepsPayouts(s, t, b, w, score);
      SettlingKeepsReviews(s, t, b, w, score);
      SettlingKeepsFeedback(s, t, b, w, score);
      SettlingRaisesSums(s, t, b, w, score);
    }
  }

  lemma CompletionKeepsMoneyRight(s: State, e: Event)
    requires e.CompleteWork? && MoneyRight(s)
    ensures MoneyRight(Step(s, e))
  {
    hide SettledKept, BookingCompletion.Complete;
    CompleteAddsInvoice(s, e.booking, e.worker, e.commission);
    SettledKeptKeepsMoneyRight(s, Step(s, e));
  }

  lemma PaymentKeepsMoneyRight(s: State, e: Event)
    requires e.RecordPayment? && MoneyRight(s)
    ensures MoneyRight(Step(s, e))
  {
    hide SettledKept, ReviewController.RecordPayment;
    RecordPaymentAddsPayment(s, e.booking, e.customer, e.paymentMethod);
    SettledKeptKeepsMoneyRight(s, Step(s, e));
  }

  lemma LedgerEventsKeepMoneyRight(s: State, e: Event)
    requires (e.SubmitReview? || e.PostCredit? || e.SettleCredit? || e.ReconcileRecord?) && MoneyRight(s)
    ensures MoneyRight(Step(s, e))
  {
    hide MoneyRight, ReviewController.SubmitReview, CreditPosted, CreditSettled, RecordReconciled;
    match e
    case SubmitReview(b, customer, stars) => ReviewKeepsMoneyRight(s, b, customer, stars);
    case PostCredit(row) => PostCreditKeepsMoneyRight(s, row);
    case SettleCredit(i) => SettleCreditKeepsMoneyRight(s, i);
    case ReconcileRecord(k) => ReconcilingKeepsMoneyRight(s, k);
  }

  lemma StepKeepsMoneyRight(s: State, e: Event)
    requires Shape(s) && MoneyRight(s)
    ensures MoneyRight(Step(s, e))
  {
    hide Step, MoneyRight, Shape;
    match e
    case CompleteWork(_, _, _) => CompletionKeepsMoneyRight(s, e);
    case RecordPayment(_, _, _) => PaymentKeepsMoneyRight(s, e);
    case SubmitReview(_, _, _) => LedgerEventsKeepMoneyRight(s, e);
    case PostCredit(_) => LedgerEventsKeepMoneyRight(s, e);
    case SettleCredit(_) => LedgerEventsKeepMoneyRight(s, e);
    case ReconcileRecord(_) => LedgerEventsKeepMoneyRight(s, e);
    case _ => OthersKeepMoneyRight(s, e);
  }

  lemma {:induction false} RunKeepsMoneyRight(s: State, events: seq<Event>)
    requires Shape(s) && MoneyRight(s)
    ensures MoneyRight(Run(s, events))
    decreases |events|
  {
    hide Step;
    if events != [] {
      StepKeepsShape(s, events[0]);
      StepKeepsMoneyRight(s, events[0]);
      RunKeepsMoneyRight(Step(s, events[0]), events[1..]);
    }
  }

  /** In every run: an invoice exactly for completed and settled bookings; one payout, one payment and
      one review exactly for settled ones; totals equal payouts plus fees to the cent; feedback
      credits are what the rule owes, match the running totals and never exceed the fees. */
  lemma ReachableMoneyIsRight(s: State)
    requires Reachable(s)
    ensures MoneyRight(s)
  {
    var events :| Run(EmptyState, events) == s;
    RunKeepsMoneyRight(EmptyState, events);
  }
}
