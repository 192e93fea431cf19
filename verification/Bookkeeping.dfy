/** The ledger and the settlement records over whole runs of module Steps. */
module Bookkeeping {
  import opened Schema
  import BookingStateMachine
  import ReviewController
  import Dividends
  import MoneySplit
  import opened Settlement
  import opened Steps
  import opened Wallet
  import opened WalletBalance

  function BooksOf(s: State): Books { Books(s.ledger, s.settlements, map[]) }

  // What the wallet, dividend and settlement handlers do is what the ledger events of module Steps do.

  /** Nothing, or one row posted. */
  ghost predicate Posts(s: State, t: State) {
    t == s || exists row: CreditRow :: Postable(row) && t == Step(s, PostCredit(row))
  }

  lemma PostingPosts(s: State, row: CreditRow)
    requires Postable(row)
    ensures Posts(s, s.(ledger := s.ledger + [row]))
  {
    assert Step(s, PostCredit(row)) == CreditPosted(s, row) == s.(ledger := s.ledger + [row]);
    hide Step;
  }

  /** redeemWallet and an administrator's debit, an adjustment, a reversal and a refund. */
  lemma WalletHandlersPost(s: State, withdrawal: Withdrawal, w: WorkerId, requested: real, direction: Direction, i: nat)
    ensures Posts(s, s.(ledger := Withdraw(s.ledger, withdrawal, w, requested, s.now).0))
    ensures Posts(s, Adjust(s, w, requested, direction).0)
    ensures Posts(s, Reverse(s, i).0)
    ensures i < |s.ledger| ==> Posts(s, s.(ledger := s.ledger + [RefundRow(s.ledger[i], s.now)]))
  {
    hide Step, Posts, Redeemable;
    WithdrawalPosts(s, withdrawal, w, requested);
    WithdrawalPosts(s, AdminDebit, w, requested);
    PostingPosts(s, CreditRow(w, Adjustment, ToCents(requested), Complete, None, s.now));
    NothingPosts(s);
    if i < |s.ledger| {
      PostingPosts(s, ReversalOf(s.ledger[i], s.now));
      PostingPosts(s, RefundRow(s.ledger[i], s.now));
    }
  }

  lemma NothingPosts(s: State)
    ensures Posts(s, s)
  {
  }

  lemma WithdrawalPosts(s: State, withdrawal: Withdrawal, w: WorkerId, requested: real)
    ensures Posts(s, s.(ledger := Withdraw(s.ledger, withdrawal, w, requested, s.now).0))
  {
    hide Step, Posts, Redeemable;
    PostingPosts(s, WithdrawalRow(withdrawal, w, requested, s.now));
    NothingPosts(s);
  }

  /** A dividend run is a run of postings, from whatever reading of the ledger its rows were computed. */
  lemma {:induction false} DistributionIsRun(s: State, seen: seq<CreditRow>, members: seq<WorkerId>, percent: nat,
                                             now: nat)
    ensures IsRun(s, s.(ledger := s.ledger + Dividends.DividendRows(seen, members, percent, now)))
    decreases |members|
  {
    hide Step, Dividends.DividendRow;
    if members == [] {
      assert s.ledger + [] == s.ledger;
      assert Run(s, []) == s;
    } else {
      var n := |members| - 1;
      var rows := Dividends.DividendRows(seen, members[..n], percent, now);
      var t := s.(ledger := s.ledger + rows);
      DistributionIsRun(s, seen, members[..n], percent, now);
      match Dividends.DividendRow(seen, members[n], percent, now)
      case None =>
      case Some(row) =>
        DividendIsPosting(t, seen, members[n], percent, now);
        assert s.ledger + (rows + [row]) == t.ledger + [row];
        StepIsRun(t, PostCredit(row));
        RunThenRun(s, t, Step(t, PostCredit(row)));
    }
  }

  lemma DividendIsPosting(s: State, seen: seq<CreditRow>, w: WorkerId, percent: nat, now: nat)
    requires Dividends.DividendRow(seen, w, percent, now).Some?
    ensures var row := Dividends.DividendRow(seen, w, percent, now).value;
            Postable(row) && Step(s, PostCredit(row)) == s.(ledger := s.ledger + [row])
  {
  }

  /** Settling and reconciling one after the other are the two settlement events. */
  lemma SettlementHandlersAreSteps(s: State, i: nat, k: nat)
    ensures Step(s, SettleCredit(i)) ==
            var books := if ScreenSettle(s.ledger, i) == Done then SettleTransaction(BooksOf(s), i) else BooksOf(s);
            s.(ledger := books.ledger, settlements := books.settlements)
    ensures Step(s, ReconcileRecord(k)) ==
            if ScreenReconcile(s.settlements, k) == Done
            then s.(settlements := ReconcileUpdate(BooksOf(s), k).settlements) else s
  {
    assert Step(s, SettleCredit(i)) == CreditSettled(s, i);
    assert Step(s, ReconcileRecord(k)) == RecordReconciled(s, k);
    hide Step, Recorded;
  }

  // What every run keeps of the books.

  /** How every handler inserts a row. */
  predicate AsInserted(row: CreditRow) {
    row.status == if row.kind == Redemption then Processing else Complete
  }

  /** At most two rows were inserted and no settlement record changed. */
  predicate Inserts(s: State, t: State) {
    && t.settlements == s.settlements
    && |t.ledger| <= |s.ledger| + 2 && s.ledger <= t.ledger
    && (forall i | |s.ledger| <= i < |t.ledger| :: AsInserted(t.ledger[i]))
  }

  lemma ReviewInserts(s: State, b: BookingId, customer: CustomerId, stars: ReviewController.Stars)
    ensures Inserts(s, ReviewController.SubmitReview(s, b, customer, stars).0)
  {
    hide BookingStateMachine.Stamped, ReviewController.Rated, ReviewController.Credited, ReviewController.FeedbackShare;
  }

  lemma CompletionInserts(s: State, e: Event)
    requires e.CompleteWork? || e.RecordPayment? || e.PostCredit?
    ensures Inserts(s, Step(s, e))
  {
    hide BookingStateMachine.Stamped;
  }

  lemma StepInserts(s: State, e: Event)
    requires !e.SettleCredit? && !e.ReconcileRecord?
    ensures Inserts(s, Step(s, e))
  {
    hide ReviewController.SubmitReview;
    match e
    case SubmitReview(b, customer, stars) => ReviewInserts(s, b, customer, stars);
    case CompleteWork(_, _, _) => CompletionInserts(s, e);
    case RecordPayment(_, _, _) => CompletionInserts(s, e);
    case PostCredit(_) => CompletionInserts(s, e);
    case _ => MoneySplit.OthersKeepMoneyTables(s, e);
  }

  lemma InsertKeepsReconcilable(books: Books, row: CreditRow)
    requires Reconcilable(books) && AsInserted(row)
    ensures Reconcilable(books.(ledger := books.ledger + [row]))
  {
    AddRowKeepsReconcilable(books, row);
  }

  lemma InsertsKeepReconcilable(s: State, t: State)
    requires Reconcilable(BooksOf(s)) && Inserts(s, t)
    ensures Reconcilable(BooksOf(t))
  {
    hide Reconcilable;
    var n := |s.ledger|;
    if |t.ledger| == n {
      assert t.ledger == s.ledger;
    } else {
      var first := BooksOf(s).(ledger := s.ledger + [t.ledger[n]]);
      InsertKeepsReconcilable(BooksOf(s), t.ledger[n]);
      if |t.ledger| == n + 1 {
        assert t.ledger == s.ledger + [t.ledger[n]];
      } else {
        InsertKeepsReconcilable(first, t.ledger[n + 1]);
        assert t.ledger == s.ledger + [t.ledger[n]] + [t.ledger[n + 1]];
      }
    }
  }

  lemma StepKeepsReconcilable(s: State, e: Event)
    requires Reconcilable(BooksOf(s))
    ensures Reconcilable(BooksOf(Step(s, e)))
  {
    hide Reconcilable;
    match e
    case SettleCredit(i) =>
      if ScreenSettle(s.ledger, i) == Done {
        SettleKeepsReconcilable(BooksOf(s), i);
      }
    case ReconcileRecord(k) =>
      if ScreenReconcile(s.settlements, k) == Done {
        ReconcileKeepsReconcilable(BooksOf(s), k);
      }
    case _ =>
      StepInserts(s, e);
      InsertsKeepReconcilable(s, Step(s, e));
  }

  predicate LedgerCounted(s: State) {
    forall i | 0 <= i < |s.ledger| :: Counted(s.ledger[i])
  }

  lemma StepKeepsLedgerCounted(s: State, e: Event)
    requires LedgerCounted(s)
    ensures LedgerCounted(Step(s, e))
  {
    if !e.SettleCredit? && !e.ReconcileRecord? {
      StepInserts(s, e);
      hide Step;
    }
  }

  lemma {:induction false} RunKeepsBooks(s: State, events: seq<Event>)
    requires Reconcilable(BooksOf(s)) && LedgerCounted(s)
    ensures Reconcilable(BooksOf(Run(s, events))) && LedgerCounted(Run(s, events))
    decreases |events|
  {
    hide Step, Reconcilable, LedgerCounted;
    if events != [] {
      StepKeepsReconcilable(s, events[0]);
      StepKeepsLedgerCounted(s, events[0]);
      RunKeepsBooks(Step(s, events[0]), events[1..]);
    }
  }

  /** In every reachable state a redemption is COMPLETED exactly when it has its one record, and the report's
      pending and reconciled totals add up to everything paid out. */
  lemma ReachableBooksReconcile(s: State)
    requires Reachable(s)
    ensures Reconcilable(BooksOf(s))
  {
    hide Step;
    var events :| Run(EmptyState, events) == s;
    RunKeepsBooks(EmptyState, events);
  }

  lemma ReachableLedgerIsCounted(s: State)
    requires Reachable(s)
    ensures LedgerCounted(s)
  {
    hide Step;
    var events :| Run(EmptyState, events) == s;
    RunKeepsBooks(EmptyState, events);
  }

  /** In every reachable state every ledger row is counted, so that one reversal of any row that may be
      reversed leaves every worker with exactly what deleting the row would. */
  lemma ReversalAlwaysDeletes(s: State, i: nat, w: WorkerId)
    requires Reachable(s) && Reverse(s, i).1 == Posted
    ensures i < |s.ledger| && Counted(s.ledger[i])
    ensures Redeemable(Reverse(s, i).0.ledger, w) == Redeemable(s.ledger[..i] + s.ledger[i + 1..], w)
  {
    hide Reachable, Redeemable;
    ReachableLedgerIsCounted(s);
    ReversalDeletesCountedRow(s.ledger, i, s.now, w);
  }

  /** Any row but a reversal can be reversed, which posts the opposite of what it is worth. */
  lemma ReversalIs(s: State, i: nat)
    ensures Reverse(s, i).1 == Posted <==> i < |s.ledger| && s.ledger[i].kind != Reversal
    ensures Reverse(s, i).1 == Posted ==>
              var row := s.ledger[i];
              var amount := if row.kind == Redemption then row.amount else -row.amount;
              Reverse(s, i).0 ==
              s.(ledger := s.ledger + [CreditRow(row.worker, Reversal, amount, Complete, None, s.now)])
  {
  }

  /** In a reachable state exactly the pending redemptions can be settled, and each gets one new record; a record is
      reconciled once. */
  lemma SettlementActionsAre(s: State, i: nat, k: nat)
    requires Reachable(s)
    ensures ScreenSettle(s.ledger, i) == Done <==>
              i < |s.ledger| && s.ledger[i].kind == Redemption && s.ledger[i].status == Processing
    ensures ScreenReconcile(s.settlements, k) == Done <==> k < |s.settlements| && !s.settlements[k].reconciled
    ensures Step(s, SettleCredit(i)) ==
            if ScreenSettle(s.ledger, i) == Done
            then s.(ledger := s.ledger[i := s.ledger[i].(status := Complete)],
                    settlements := s.settlements + [SettlementRecord(i, false)])
            else s
    ensures Step(s, ReconcileRecord(k)) ==
            if ScreenReconcile(s.settlements, k) == Done
            then s.(settlements := s.settlements[k := SettlementRecord(s.settlements[k].row, true)])
            else s
  {
    hide Reachable, Reconcilable, Recorded;
    ReachableBooksReconcile(s);
    PendingIsUnrecorded(s, i);
    EventsAre(s, i, k);
    hide Step;
  }

  lemma EventsAre(s: State, i: nat, k: nat)
    ensures Step(s, SettleCredit(i)) == CreditSettled(s, i)
    ensures Step(s, ReconcileRecord(k)) == RecordReconciled(s, k)
  {
  }

  lemma PendingIsUnrecorded(s: State, i: nat)
    requires Reconcilable(BooksOf(s))
    ensures i < |s.ledger| && s.ledger[i].status == Processing ==> !Recorded(s.settlements, i)
  {
    if i < |s.ledger| {
      assert PaidOut(BooksOf(s).ledger[i]) <==> Recorded(BooksOf(s).settlements, i);
    }
  }
}
