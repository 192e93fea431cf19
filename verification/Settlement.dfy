/** The settlement part of server/src/controllers/admin-payment.controller.ts: paying a redemption out,
    reconciling the record against the bank, and the report. The status check and the
    transaction that follows it are separate steps, so calls may overlap. */
module Settlement {
  import opened Schema
  import opened Sums
  import opened WalletBalance

  type CallId = nat

  /** What an overlapping call has established so far. */
  datatype Call = MaySettle(row: nat) | MayReconcile(record: nat)

  datatype Books = Books(ledger: seq<CreditRow>, settlements: seq<SettlementRecord>, calls: map<CallId, Call>)

  datatype Action =
    | AddRow(row: CreditRow)
    | CheckSettle(call: CallId, index: nat)
    | FinishSettle(call: CallId)
    | CheckReconcile(call: CallId, record: nat)
    | FinishReconcile(call: CallId)

  datatype Reply = Done | NotFound | InvalidState

  function ScreenSettle(ledger: seq<CreditRow>, i: nat): Reply {
    if i >= |ledger| || ledger[i].kind != Redemption then NotFound
    else if ledger[i].status != Processing then InvalidState
    else Done
  }

  function ScreenReconcile(settlements: seq<SettlementRecord>, k: nat): Reply {
    if k >= |settlements| then NotFound
    else if settlements[k].reconciled then InvalidState
    else Done
  }

  /** SettlementRecord.creditTransactionId is unique. */
  predicate Recorded(settlements: seq<SettlementRecord>, i: nat) {
    exists k | 0 <= k < |settlements| :: settlements[k].row == i
  }

  /** The settle transaction: a second record for the same row violates the unique key and rolls it back. */
  function SettleTransaction(books: Books, i: nat): Books
    requires i < |books.ledger|
  {
    if Recorded(books.settlements, i) then books
    else books.(settlements := books.settlements + [SettlementRecord(i, false)],
                ledger := books.ledger[i := SettledRow(books.ledger[i])])
  }

  function ReconcileUpdate(books: Books, k: nat): Books
    requires k < |books.settlements|
  {
    books.(settlements := books.settlements[k := books.settlements[k].(reconciled := true)])
  }

  /** Redemptions are created PROCESSING. */
  predicate Possible(books: Books, action: Action) {
    match action
    case AddRow(row) => row.kind == Redemption ==> row.status == Processing
    case CheckSettle(call, _) => call !in books.calls
    case CheckReconcile(call, _) => call !in books.calls
    case FinishSettle(call) =>
      call in books.calls && books.calls[call].MaySettle? && books.calls[call].row < |books.ledger|
    case FinishReconcile(call) =>
      call in books.calls && books.calls[call].MayReconcile? && books.calls[call].record < |books.settlements|
  }

  function Act(books: Books, action: Action): Books
    requires Possible(books, action)
  {
    match action
    case AddRow(row) => books.(ledger := books.ledger + [row])
    case CheckSettle(call, i) =>
      if ScreenSettle(books.ledger, i) == Done then books.(calls := books.calls[call := MaySettle(i)]) else books
    case CheckReconcile(call, k) =>
      if ScreenReconcile(books.settlements, k) == Done then books.(calls := books.calls[call := MayReconcile(k)])
      else books
    case FinishSettle(call) => SettleTransaction(books, books.calls[call].row).(calls := books.calls - {call})
    case FinishReconcile(call) => ReconcileUpdate(books, books.calls[call].record).(calls := books.calls - {call})
  }

  // The report, and what it should add up to.

  function ReportTerm(settlements: seq<SettlementRecord>, ledger: seq<CreditRow>, reconciled: bool): nat -> int {
    (k: nat) =>
      if k < |settlements| && settlements[k].reconciled == reconciled && settlements[k].row < |ledger|
      then ledger[settlements[k].row].amount else 0
  }

  /** One of the two totals of getReconciliationReport without a date filter. */
  function ReportTotal(settlements: seq<SettlementRecord>, ledger: seq<CreditRow>, reconciled: bool): int {
    Sum(ReportTerm(settlements, ledger, reconciled), |settlements|)
  }

  function PaidOutTerm(ledger: seq<CreditRow>): nat -> int {
    (i: nat) => if i < |ledger| && PaidOut(ledger[i]) then ledger[i].amount else 0
  }

  predicate PaidOut(row: CreditRow) { row.kind == Redemption && row.status == Complete }

  function PaidOutTotal(ledger: seq<CreditRow>): int { Sum(PaidOutTerm(ledger), |ledger|) }

  ghost predicate Reconcilable(books: Books) {
    && (forall i: nat | i < |books.ledger| :: PaidOut(books.ledger[i]) <==> Recorded(books.settlements, i))
    && (forall i: nat | i < |books.ledger| && books.ledger[i].kind == Redemption :: books.ledger[i].status != Failed)
    && (forall k: nat | k < |books.settlements| :: books.settlements[k].row < |books.ledger|)
    && (forall j: nat, k: nat | j < k < |books.settlements| :: books.settlements[j].row != books.settlements[k].row)
    && (forall call | call in books.calls :: CallRight(books, books.calls[call]))
    && ReportTotal(books.settlements, books.ledger, false) + ReportTotal(books.settlements, books.ledger, true)
       == PaidOutTotal(books.ledger)
  }

  predicate CallRight(books: Books, call: Call) {
    match call
    case MaySettle(i) => i < |books.ledger| && books.ledger[i].kind == Redemption
    case MayReconcile(k) => k < |books.settlements|
  }

  lemma AddRowKeepsTotals(books: Books, row: CreditRow)
    requires Reconcilable(books) && Possible(books, AddRow(row))
    ensures var t := Act(books, AddRow(row));
            ReportTotal(t.settlements, t.ledger, false) + ReportTotal(t.settlements, t.ledger, true) ==
            PaidOutTotal(t.ledger)
  {
    var t := Act(books, AddRow(row));
    hide Recorded;
    SumSame(ReportTerm(books.settlements, books.ledger, false), ReportTerm(t.settlements, t.ledger, false),
            |t.settlements|);
    SumSame(ReportTerm(books.settlements, books.ledger, true), ReportTerm(t.settlements, t.ledger, true),
            |t.settlements|);
    SumSame(PaidOutTerm(books.ledger), PaidOutTerm(t.ledger), |books.ledger|);
  }

  lemma AddRowKeepsReconcilable(books: Books, row: CreditRow)
    requires Reconcilable(books) && Possible(books, AddRow(row))
    ensures Reconcilable(Act(books, AddRow(row)))
  {
    var t := Act(books, AddRow(row));
    AddRowKeepsTotals(books, row);
    hide ReportTotal, PaidOutTotal;
    forall call | call in t.calls
      ensures CallRight(t, t.calls[call])
    {
      assert CallRight(books, books.calls[call]);
    }
  }

  lemma SettleKeepsTotals(books: Books, i: nat)
    requires Reconcilable(books) && i < |books.ledger|
    requires books.ledger[i].kind == Redemption && !Recorded(books.settlements, i)
    ensures var t := SettleTransaction(books, i);
            ReportTotal(t.settlements, t.ledger, false) + ReportTotal(t.settlements, t.ledger, true) ==
            PaidOutTotal(t.ledger)
  {
    var t := SettleTransaction(books, i);
    var n := |books.settlements|;
    SumSame(ReportTerm(books.settlements, books.ledger, false), ReportTerm(t.settlements, t.ledger, false), n);
    SumSame(ReportTerm(books.settlements, books.ledger, true), ReportTerm(t.settlements, t.ledger, true), n);
    SumRaised(PaidOutTerm(books.ledger), PaidOutTerm(t.ledger), |books.ledger|, i);
  }

  lemma SettleKeepsReconcilable(books: Books, i: nat)
    requires Reconcilable(books) && i < |books.ledger| && books.ledger[i].kind == Redemption
    ensures Reconcilable(SettleTransaction(books, i))
  {
    if !Recorded(books.settlements, i) {
      var t := SettleTransaction(books, i);
      SettleKeepsTotals(books, i);
      assert t.settlements[|books.settlements|].row == i;
      forall j: nat | j < |t.ledger|
        ensures PaidOut(t.ledger[j]) <==> Recorded(t.settlements, j)
      {
        if Recorded(books.settlements, j) {
          var k: nat :| k < |books.settlements| && books.settlements[k].row == j;
          assert t.settlements[k].row == j;
        }
      }
      forall call | call in t.calls
        ensures CallRight(t, t.calls[call])
      {
        assert CallRight(books, books.calls[call]);
      }
    }
  }

  lemma ReconcileKeepsTotals(books: Books, k: nat)
    requires Reconcilable(books) && k < |books.settlements|
    ensures var t := ReconcileUpdate(books, k);
            ReportTotal(t.settlements, t.ledger, false) + ReportTotal(t.settlements, t.ledger, true) ==
            PaidOutTotal(t.ledger)
  {
    var t := ReconcileUpdate(books, k);
    var n := |books.settlements|;
    hide Recorded;
    SumRaised(ReportTerm(books.settlements, books.ledger, false), ReportTerm(t.settlements, t.ledger, false), n, k);
    SumRaised(ReportTerm(books.settlements, books.ledger, true), ReportTerm(t.settlements, t.ledger, true), n, k);
  }

  lemma ReconcileKeepsReconcilable(books: Books, k: nat)
    requires Reconcilable(books) && k < |books.settlements|
    ensures Reconcilable(ReconcileUpdate(books, k))
  {
    var t := ReconcileUpdate(books, k);
    var n := |books.settlements|;
    ReconcileKeepsTotals(books, k);
    hide ReportTotal, PaidOutTotal;
    forall i: nat | i < |t.ledger|
      ensures PaidOut(t.ledger[i]) <==> Recorded(t.settlements, i)
    {
      if Recorded(books.settlements, i) {
        var j: nat :| j < n && books.settlements[j].row == i;
        assert t.settlements[j].row == i;
      }
      if Recorded(t.settlements, i) {
        var j: nat :| j < n && t.settlements[j].row == i;
        assert books.settlements[j].row == i;
      }
    }
    forall call | call in t.calls
      ensures CallRight(t, t.calls[call])
    {
      assert CallRight(books, books.calls[call]);
    }
  }

  lemma ActKeepsReconcilable(books: Books, action: Action)
    requires Reconcilable(books) && Possible(books, action)
    ensures Reconcilable(Act(books, action))
  {
    match action
    case AddRow(row) => AddRowKeepsReconcilable(books, row);
    case FinishSettle(call) =>
      assert CallRight(books, books.calls[call]);
      SettleKeepsReconcilable(books, books.calls[call].row);
      ForgetCall(SettleTransaction(books, books.calls[call].row), Act(books, action));
    case FinishReconcile(call) =>
      ReconcileKeepsReconcilable(books, books.calls[call].record);
      ForgetCall(ReconcileUpdate(books, books.calls[call].record), Act(books, action));
    case CheckSettle(_, _) => RememberCall(books, Act(books, action));
    case CheckReconcile(_, _) => RememberCall(books, Act(books, action));
  }

  lemma ForgetCall(books: Books, t: Books)
    requires Reconcilable(books) && t.ledger == books.ledger && t.settlements == books.settlements
    requires t.calls.Keys <= books.calls.Keys && forall call | call in t.calls :: t.calls[call] == books.calls[call]
    ensures Reconcilable(t)
  {
  }

  lemma RememberCall(books: Books, t: Books)
    requires Reconcilable(books) && t.ledger == books.ledger && t.settlements == books.settlements
    requires forall call | call in t.calls ::
               (call in books.calls && t.calls[call] == books.calls[call]) || CallRight(t, t.calls[call])
    ensures Reconcilable(t)
  {
  }

  ghost predicate Trace(states: seq<Books>, actions: seq<Action>) {
    && |states| == |actions| + 1
    && states[0] == Books([], [], map[])
    && forall i: nat | i < |actions| :: Possible(states[i], actions[i]) && states[i + 1] == Act(states[i], actions[i])
  }

  /** However settle and reconcile calls overlap: a redemption is COMPLETED exactly when it has its one
      record, and the two totals of the report add up to everything paid out. */
  lemma {:induction false} BooksAlwaysReconcile(states: seq<Books>, actions: seq<Action>, n: nat)
    requires Trace(states, actions) && n < |states|
    ensures Reconcilable(states[n])
  {
    if n > 0 {
      BooksAlwaysReconcile(states, actions, n - 1);
      ActKeepsReconcilable(states[n - 1], actions[n - 1]);
    }
  }

  /** A settlement, or a reconciliation, with nothing in between its check and its transaction. */
  lemma AloneIsAtomic(books: Books, call: CallId, i: nat)
    requires call !in books.calls
    ensures var checked := Act(books, CheckSettle(call, i));
            if i < |books.ledger| && books.ledger[i].kind == Redemption && books.ledger[i].status == Processing
            then && Possible(checked, FinishSettle(call))
                 && Act(checked, FinishSettle(call)) == SettleTransaction(books, i)
            else checked == books
    ensures var checked := Act(books, CheckReconcile(call, i));
            if i < |books.settlements| && !books.settlements[i].reconciled
            then && Possible(checked, FinishReconcile(call))
                 && Act(checked, FinishReconcile(call)) == ReconcileUpdate(books, i)
            else checked == books
  {
    hide Recorded;
    assert books.calls[call := MaySettle(i)] - {call} == books.calls;
    assert books.calls[call := MayReconcile(i)] - {call} == books.calls;
  }

  method SettleRedemption(db: Database, i: nat) returns (reply: Reply)
    modifies db`ledger, db`settlements
    ensures var before := Books(old(db.ledger), old(db.settlements), map[]);
            reply == (if ScreenSettle(before.ledger, i) != Done then ScreenSettle(before.ledger, i)
                      else if Recorded(before.settlements, i) then InvalidState else Done) &&
            Books(db.ledger, db.settlements, map[]) ==
            if ScreenSettle(before.ledger, i) == Done then SettleTransaction(before, i) else before
  {
    reply := ScreenSettle(db.ledger, i);
    if reply != Done {
      return;
    }
    if exists k | 0 <= k < |db.settlements| :: db.settlements[k].row == i {
      return InvalidState;
    }
    db.settlements := db.settlements + [SettlementRecord(i, false)];
    db.ledger := db.ledger[i := db.ledger[i].(status := Complete)];
  }

  method ReconcileSettlement(db: Database, k: nat) returns (reply: Reply)
    modifies db`settlements
    ensures reply == ScreenReconcile(old(db.settlements), k)
    ensures Books(db.ledger, db.settlements, map[]) ==
            var before := Books(old(db.ledger), old(db.settlements), map[]);
            if reply == Done then ReconcileUpdate(before, k) else before
  {
    reply := ScreenReconcile(db.settlements, k);
    if reply == Done {
      db.settlements := db.settlements[k := db.settlements[k].(reconciled := true)];
    }
  }
}
