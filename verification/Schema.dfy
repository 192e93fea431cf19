/** The tables of server/prisma/schema.prisma that the transactional core reads and writes.
    Rows of an append-only table are numbered by position, so a row's id is its index.
    Money is in integer cents, time in integer milliseconds. */
module Schema {

  datatype Option<+T> = None | Some(value: T)

  type BookingId = nat
  type WorkerId = nat
  type OfferId = nat
  type CustomerId = nat

  /** PlatformConfig.commissionPercent is Decimal(5,2) validated to 0..100: hundredths of a percent. */
  type BasisPoints = x: nat | x <= 10000

  datatype BookingStatus =
    | Requested
    | DispatchingTop3
    | DispatchingPool
    | Assigned
    | Confirmed
    | InProgress
    | Completed
    | Settled
    | Cancelled

  datatype Booking = Booking(
    customer: CustomerId,
    status: BookingStatus,
    assignee: Option<WorkerId>,
    total: nat,
    updatedAt: nat,
    confirmedAt: Option<nat>,
    startedAt: Option<nat>,
    completedAt: Option<nat>,
    settledAt: Option<nat>,
    cancelledAt: Option<nat>)

  datatype Availability = Available | OnJob | Travelling | OffDuty

  datatype Worker = Worker(
    availability: Availability,
    current: Option<BookingId>,
    approved: bool,
    suspended: bool,
    ratingAverage: real,
    ratingCount: nat)

  datatype Attempt = Attempt1 | Attempt2 | Attempt3 | Pool | AdminOverride

  datatype Outcome = Offered | Accepted | Declined | TimedOut | LockLost

  /** A DispatchLog row. */
  datatype Offer = Offer(
    booking: BookingId,
    worker: WorkerId,
    attempt: Attempt,
    offeredAt: nat,
    outcome: Outcome)

  datatype AuditAction =
    | BookingCreated
    | StatusChanged(from: BookingStatus, to: BookingStatus)
    | BookingAccepted(worker: WorkerId)
    | AdminForceAssign(worker: WorkerId)
    | AdminBookingCancelled

  datatype AuditRow = AuditRow(booking: BookingId, action: AuditAction)

  datatype Invoice = Invoice(platformFee: nat, totalAmount: nat)

  datatype PaymentMethod = Cash | DirectPay

  datatype Payment = Payment(paymentMethod: PaymentMethod, amount: nat)

  datatype Review = Review(booking: BookingId, worker: WorkerId, overallScore: real)

  datatype CreditKind =
    | JobPayout
    | FeedbackCredit
    | IncentiveBonus
    | Redemption
    | Adjustment
    | Refund
    | Reversal
    | DividendPayout

  datatype CreditStatus = Processing | Complete | Failed

  /** A CreditTransaction row; `amount` is the stored value, whose effect on the balance
      depends on `kind` and `status`. */
  datatype CreditRow = CreditRow(
    worker: WorkerId,
    kind: CreditKind,
    amount: int,
    status: CreditStatus,
    booking: Option<BookingId>,
    createdAt: nat)

  /** A SettlementRecord row: the settled ledger row, and whether an administrator reconciled it. */
  datatype SettlementRecord = SettlementRecord(row: nat, reconciled: bool)

  /** A FeedbackCredit row. */
  datatype FeedbackTotals = FeedbackTotals(commissionPool: int, distributed: int)

  /** The contents of every table, the Redis lock keys (booking to expiry) and the clock. */
  datatype State = State(
    now: nat,
    bookings: seq<Booking>,
    workers: seq<Worker>,
    offers: seq<Offer>,
    locks: map<BookingId, nat>,
    audit: seq<AuditRow>,
    invoices: map<BookingId, Invoice>,
    payments: map<BookingId, Payment>,
    reviews: seq<Review>,
    ledger: seq<CreditRow>,
    feedbackTotals: map<WorkerId, FeedbackTotals>,
    settlements: seq<SettlementRecord>)

  const EmptyState := State(0, [], [], [], map[], [], map[], map[], [], [], map[], [])

  predicate Dispatching(status: BookingStatus) {
    status == DispatchingTop3 || status == DispatchingPool
  }

  /** The statuses in which a worker is on the booking. */
  predicate Active(status: BookingStatus) {
    status == Assigned || status == Confirmed || status == InProgress
  }

  predicate Cancellable(status: BookingStatus) {
    status in {Requested, DispatchingTop3, DispatchingPool, Assigned, Confirmed}
  }

  /** The database the controllers write to, one field per table. */
  class Database {
    var now: nat
    var bookings: seq<Booking>
    var workers: seq<Worker>
    var offers: seq<Offer>
    var locks: map<BookingId, nat>
    var audit: seq<AuditRow>
    var invoices: map<BookingId, Invoice>
    var payments: map<BookingId, Payment>
    var reviews: seq<Review>
    var ledger: seq<CreditRow>
    var feedbackTotals: map<WorkerId, FeedbackTotals>
    var settlements: seq<SettlementRecord>

    function Snapshot(): State
      reads this
    {
      State(now, bookings, workers, offers, locks, audit,
            invoices, payments, reviews, ledger, feedbackTotals, settlements)
    }

    constructor ()
      ensures Snapshot() == EmptyState
    {
      now := 0;
      bookings, workers, offers, locks, audit := [], [], [], map[], [];
      invoices, payments, reviews, ledger, feedbackTotals, settlements := map[], map[], [], [], map[], [];
    }
  }
}
