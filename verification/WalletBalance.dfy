/** server/src/utils/wallet-balance.ts: the balance is never stored but derived from the ledger rows. */
module WalletBalance {
  import opened Schema

  function Where(rows: seq<CreditRow>, keep: CreditRow -> bool): seq<CreditRow> {
    if rows == [] then []
    else
      var n := |rows| - 1;
      if keep(rows[n]) then Where(rows[..n], keep) + [rows[n]] else Where(rows[..n], keep)
  }

  function Total(rows: seq<CreditRow>, amount: CreditRow -> int): int {
    if rows == [] then 0 else Total(rows[..|rows| - 1], amount) + amount(rows[|rows| - 1])
  }

  function Stored(row: CreditRow): int { row.amount }

  /** Every kind is stored with its sign but REDEMPTION, which is stored positive and counts negative. */
  function EffectiveContribution(row: CreditRow): int {
    if row.kind == Redemption then -row.amount else row.amount
  }

  predicate IsComplete(row: CreditRow) { row.status == Complete }

  predicate IsPendingRedemption(row: CreditRow) { row.status == Processing && row.kind == Redemption }

  predicate IsCompleteDividend(row: CreditRow) { row.status == Complete && row.kind == DividendPayout }

  function AvailableBalance(rows: seq<CreditRow>): int { Total(Where(rows, IsComplete), EffectiveContribution) }

  function PendingBalance(rows: seq<CreditRow>): int { Total(Where(rows, IsPendingRedemption), Stored) }

  function RedeemableBalance(rows: seq<CreditRow>): int { AvailableBalance(rows) - PendingBalance(rows) }

  function DividendTotal(rows: seq<CreditRow>): int { Total(Where(rows, IsCompleteDividend), Stored) }

  /** The rows the wallet queries select before deriving anything. */
  predicate Counted(row: CreditRow) { IsComplete(row) || IsPendingRedemption(row) }

  function RowsOf(ledger: seq<CreditRow>, w: WorkerId): seq<CreditRow> {
    Where(ledger, (row: CreditRow) => row.worker == w)
  }

  /** What redeemWallet and createWalletAdjustment compare a withdrawal with. */
  function Redeemable(ledger: seq<CreditRow>, w: WorkerId): int {
    RedeemableBalance(Where(RowsOf(ledger, w), Counted))
  }

  /** One row's weight in the redeemable balance. */
  function Signed(row: CreditRow): int {
    if IsComplete(row) then EffectiveContribution(row)
    else if IsPendingRedemption(row) then -row.amount
    else 0
  }

  lemma WhereAppend(rows: seq<CreditRow>, row: CreditRow, keep: CreditRow -> bool)
    ensures Where(rows + [row], keep) == if keep(row) then Where(rows, keep) + [row] else Where(rows, keep)
  {
  }

  lemma TotalAppend(rows: seq<CreditRow>, row: CreditRow, amount: CreditRow -> int)
    ensures Total(rows + [row], amount) == Total(rows, amount) + amount(row)
  {
  }

  /** The two filtered sums are one signed pass. */
  lemma {:induction false} RedeemableIsSignedSum(rows: seq<CreditRow>)
    ensures RedeemableBalance(rows) == Total(rows, Signed)
  {
    if rows != [] {
      var n := |rows| - 1;
      RedeemableIsSignedSum(rows[..n]);
      TotalAppend(Where(rows[..n], IsComplete), rows[n], EffectiveContribution);
      TotalAppend(Where(rows[..n], IsPendingRedemption), rows[n], Stored);
    }
  }

  /** The database pre-filter drops only rows that weigh nothing. */
  lemma {:induction false} PreFilterChangesNothing(rows: seq<CreditRow>)
    ensures RedeemableBalance(Where(rows, Counted)) == RedeemableBalance(rows)
    ensures AvailableBalance(Where(rows, Counted)) == AvailableBalance(rows)
    ensures DividendTotal(Where(rows, Counted)) == DividendTotal(rows)
  {
    if rows != [] {
      var n := |rows| - 1;
      PreFilterChangesNothing(rows[..n]);
      assert rows == rows[..n] + [rows[n]];
      PreFilterAppend(rows[..n], rows[n]);
    }
  }

  lemma PreFilterAppend(rows: seq<CreditRow>, row: CreditRow)
    requires RedeemableBalance(Where(rows, Counted)) == RedeemableBalance(rows)
    requires AvailableBalance(Where(rows, Counted)) == AvailableBalance(rows)
    requires DividendTotal(Where(rows, Counted)) == DividendTotal(rows)
    ensures RedeemableBalance(Where(rows + [row], Counted)) == RedeemableBalance(rows + [row])
    ensures AvailableBalance(Where(rows + [row], Counted)) == AvailableBalance(rows + [row])
    ensures DividendTotal(Where(rows + [row], Counted)) == DividendTotal(rows + [row])
  {
    hide Where, Total, AvailableBalance, PendingBalance, DividendTotal;
    WhereAppend(rows, row, Counted);
    AppendsTotals(rows, row);
    AppendsTotals(Where(rows, Counted), row);
  }

  lemma AppendsTotals(rows: seq<CreditRow>, row: CreditRow)
    ensures AvailableBalance(rows + [row]) ==
            AvailableBalance(rows) + if IsComplete(row) then EffectiveContribution(row) else 0
    ensures PendingBalance(rows + [row]) == PendingBalance(rows) + if IsPendingRedemption(row) then row.amount else 0
    ensures DividendTotal(rows + [row]) == DividendTotal(rows) + if IsCompleteDividend(row) then row.amount else 0
  {
  }

  lemma {:induction false} TotalWithout(rows: seq<CreditRow>, i: nat, amount: CreditRow -> int)
    requires i < |rows|
    ensures Total(rows, amount) == Total(rows[..i] + rows[i + 1..], amount) + amount(rows[i])
  {
    var n := |rows| - 1;
    if i == n {
      assert rows[..i] + rows[i + 1..] == rows[..n];
    } else {
      TotalWithout(rows[..n], i, amount);
      var shorter := rows[..n][..i] + rows[..n][i + 1..];
      assert rows[..i] + rows[i + 1..] == shorter + [rows[n]];
      TotalAppend(shorter, rows[n], amount);
    }
  }

  /** The last element of one list is somewhere in any list of the same elements, and the rest are the same again. */
  lemma SameWithoutLast<T>(a: seq<T>, b: seq<T>) returns (i: nat)
    requires multiset(a) == multiset(b) && a != []
    ensures i < |b| && b[i] == a[|a| - 1]
    ensures multiset(a[..|a| - 1]) == multiset(b[..i] + b[i + 1..])
  {
    var last := a[|a| - 1];
    assert a == a[..|a| - 1] + [last];
    assert last in multiset(b);
    i :| i < |b| && b[i] == last;
    assert b == b[..i] + [last] + b[i + 1..];
    assert multiset(b[..i] + b[i + 1..]) == multiset(b) - multiset{last};
  }

  /** A sum depends only on which rows there are, not on their order. */
  lemma {:induction false} TotalIgnoresOrder(a: seq<CreditRow>, b: seq<CreditRow>, amount: CreditRow -> int)
    requires multiset(a) == multiset(b)
    ensures Total(a, amount) == Total(b, amount)
    decreases |a|
  {
    if a == [] {
      assert |multiset(b)| == 0;
    } else {
      var i := SameWithoutLast(a, b);
      TotalWithout(b, i, amount);
      TotalIgnoresOrder(a[..|a| - 1], b[..i] + b[i + 1..], amount);
    }
  }

  function Masked(keep: CreditRow -> bool, amount: CreditRow -> int): CreditRow -> int {
    (row: CreditRow) => if keep(row) then amount(row) else 0
  }

  lemma {:induction false} FilteredTotalIsMasked(rows: seq<CreditRow>, keep: CreditRow -> bool,
                                                 amount: CreditRow -> int)
    ensures Total(Where(rows, keep), amount) == Total(rows, Masked(keep, amount))
  {
    if rows != [] {
      var n := |rows| - 1;
      FilteredTotalIsMasked(rows[..n], keep, amount);
      TotalAppend(Where(rows[..n], keep), rows[n], amount);
    }
  }

  lemma FilteredTotalIgnoresOrder(a: seq<CreditRow>, b: seq<CreditRow>, keep: CreditRow -> bool,
                                  amount: CreditRow -> int)
    requires multiset(a) == multiset(b)
    ensures Total(Where(a, keep), amount) == Total(Where(b, keep), amount)
  {
    FilteredTotalIsMasked(a, keep, amount);
    FilteredTotalIsMasked(b, keep, amount);
    TotalIgnoresOrder(a, b, Masked(keep, amount));
  }

  /** All four derived figures depend on the multiset of rows only. */
  lemma BalanceIgnoresOrder(a: seq<CreditRow>, b: seq<CreditRow>)
    requires multiset(a) == multiset(b)
    ensures AvailableBalance(a) == AvailableBalance(b)
    ensures PendingBalance(a) == PendingBalance(b)
    ensures RedeemableBalance(a) == RedeemableBalance(b)
    ensures DividendTotal(a) == DividendTotal(b)
  {
    FilteredTotalIgnoresOrder(a, b, IsComplete, EffectiveContribution);
    FilteredTotalIgnoresOrder(a, b, IsPendingRedemption, Stored);
    FilteredTotalIgnoresOrder(a, b, IsCompleteDividend, Stored);
  }

  lemma {:induction false} TotalOfUpdate(rows: seq<CreditRow>, i: nat, row: CreditRow, amount: CreditRow -> int)
    requires i < |rows|
    ensures Total(rows[i := row], amount) == Total(rows, amount) - amount(rows[i]) + amount(row)
  {
    TotalWithout(rows, i, amount);
    TotalWithout(rows[i := row], i, amount);
    assert rows[i := row][..i] + rows[i := row][i + 1..] == rows[..i] + rows[i + 1..];
  }

  function SettledRow(row: CreditRow): CreditRow { row.(status := Complete) }

  /** Settling a redemption moves its amount from pending to available and leaves what is redeemable. */
  lemma SettlingKeepsRedeemable(rows: seq<CreditRow>, i: nat)
    requires i < |rows| && IsPendingRedemption(rows[i])
    ensures RedeemableBalance(rows[i := SettledRow(rows[i])]) == RedeemableBalance(rows)
  {
    RedeemableIsSignedSum(rows);
    RedeemableIsSignedSum(rows[i := SettledRow(rows[i])]);
    TotalOfUpdate(rows, i, SettledRow(rows[i]), Signed);
  }

  /** The row reverseCreditTransaction inserts. */
  function ReversalOf(row: CreditRow, now: nat): CreditRow {
    CreditRow(row.worker, Reversal, -EffectiveContribution(row), Complete, None, now)
  }

  /** Reversing a row once amounts to deleting it exactly when the row is counted in the balance
      (or is worth nothing). The handler does not look at the status; that every row is counted comes
      from what the other handlers post (module Bookkeeping). */
  lemma ReversalDeletesExactlyCountedRows(rows: seq<CreditRow>, i: nat, now: nat)
    requires i < |rows|
    ensures RedeemableBalance(rows + [ReversalOf(rows[i], now)]) == RedeemableBalance(rows[..i] + rows[i + 1..])
            <==> Counted(rows[i]) || rows[i].amount == 0
  {
    var reversed, deleted := rows + [ReversalOf(rows[i], now)], rows[..i] + rows[i + 1..];
    RedeemableIsSignedSum(reversed);
    RedeemableIsSignedSum(deleted);
    TotalAppend(rows, ReversalOf(rows[i], now), Signed);
    TotalWithout(rows, i, Signed);
  }

  // The same facts for a worker's part of the whole ledger.

  function SignedFor(w: WorkerId): CreditRow -> int {
    (row: CreditRow) => if row.worker == w then Signed(row) else 0
  }

  lemma RedeemableIsWorkerSum(ledger: seq<CreditRow>, w: WorkerId)
    ensures Redeemable(ledger, w) == Total(ledger, SignedFor(w))
  {
  }

  lemma RedeemableAppend(ledger: seq<CreditRow>, row: CreditRow, w: WorkerId)
    ensures Redeemable(ledger + [row], w) == Redeemable(ledger, w) + if row.worker == w then Signed(row) else 0
  {
    RedeemableIsWorkerSum(ledger, w);
    RedeemableIsWorkerSum(ledger + [row], w);
    TotalAppend(ledger, row, SignedFor(w));
  }

  lemma ReversalDeletesCountedRow(ledger: seq<CreditRow>, i: nat, now: nat, w: WorkerId)
    requires i < |ledger| && Counted(ledger[i])
    ensures Redeemable(ledger + [ReversalOf(ledger[i], now)], w) == Redeemable(ledger[..i] + ledger[i + 1..], w)
  {
    RedeemableAppend(ledger, ReversalOf(ledger[i], now), w);
    RedeemableIsWorkerSum(ledger, w);
    RedeemableIsWorkerSum(ledger[..i] + ledger[i + 1..], w);
    TotalWithout(ledger, i, SignedFor(w));
  }

  lemma RedeemableSettled(ledger: seq<CreditRow>, i: nat, w: WorkerId)
    requires i < |ledger| && IsPendingRedemption(ledger[i])
    ensures Redeemable(ledger[i := SettledRow(ledger[i])], w) == Redeemable(ledger, w)
  {
    RedeemableIsWorkerSum(ledger, w);
    RedeemableIsWorkerSum(ledger[i := SettledRow(ledger[i])], w);
    TotalOfUpdate(ledger, i, SettledRow(ledger[i]), SignedFor(w));
  }
}
