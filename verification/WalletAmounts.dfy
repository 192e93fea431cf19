/** What withdrawals and adjustments are worth: by how much they move whose balance. */
module WalletAmounts {
  import opened Schema
  import opened WalletBalance
  import opened Wallet

  function Available(ledger: seq<CreditRow>, w: WorkerId): int { AvailableBalance(Where(RowsOf(ledger, w), Counted)) }

  function OnHold(ledger: seq<CreditRow>, w: WorkerId): int { PendingBalance(Where(RowsOf(ledger, w), Counted)) }

  /** The change is what was asked for, to the half cent by which it is stored, and no other balance moves. */
  ghost predicate Moves(before: seq<CreditRow>, after: seq<CreditRow>, w: WorkerId, change: real) {
    && -0.5 <= (Redeemable(after, w) - Redeemable(before, w)) as real - change <= 0.5
    && (change == change.Floor as real ==> Redeemable(after, w) - Redeemable(before, w) == change.Floor)
    && forall v: WorkerId | v != w :: Redeemable(after, v) == Redeemable(before, v)
  }

  lemma RowMoves(ledger: seq<CreditRow>, row: CreditRow, change: real)
    requires -0.5 <= Signed(row) as real - change <= 0.5
    requires change == change.Floor as real ==> Signed(row) == change.Floor
    ensures Moves(ledger, ledger + [row], row.worker, change)
  {
    hide Redeemable, Signed;
    forall v: WorkerId
      ensures Redeemable(ledger + [row], v) == Redeemable(ledger, v) + if row.worker == v then Signed(row) else 0
    {
      RedeemableAppend(ledger, row, v);
    }
  }

  /** A withdrawal goes through exactly when it is positive and covered, and then takes what was asked for from
      its worker alone. */
  lemma WithdrawalTakesWhatWasAsked(ledger: seq<CreditRow>, withdrawal: Withdrawal, w: WorkerId, requested: real,
                                    now: nat)
    ensures var (after, reply) := Withdraw(ledger, withdrawal, w, requested, now);
            && (reply == Posted <==> 0.0 < requested <= Redeemable(ledger, w) as real)
            && (if reply == Posted then Moves(ledger, after, w, -requested) else after == ledger)
  {
    hide Redeemable;
    if Withdraw(ledger, withdrawal, w, requested, now).1 == Posted {
      RowMoves(ledger, WithdrawalRow(withdrawal, w, requested, now), -requested);
    }
  }

  /** A redemption is on hold until it is settled; an administrator's debit is taken at once. */
  lemma RedemptionIsHeld(ledger: seq<CreditRow>, withdrawal: Withdrawal, w: WorkerId, requested: real, now: nat)
    requires Withdraw(ledger, withdrawal, w, requested, now).1 == Posted
    ensures var after := Withdraw(ledger, withdrawal, w, requested, now).0;
            var taken := Redeemable(ledger, w) - Redeemable(after, w);
            && Available(after, w) == Available(ledger, w) - (if withdrawal == AdminDebit then taken else 0)
            && OnHold(after, w) == OnHold(ledger, w) + (if withdrawal == Redeem then taken else 0)
            && after[|ledger|].createdAt == now
  {
    var row := WithdrawalRow(withdrawal, w, requested, now);
    WhereAppend(ledger, row, (r: CreditRow) => r.worker == w);
    WhereAppend(RowsOf(ledger, w), row, Counted);
    AppendsTotals(Where(RowsOf(ledger, w), Counted), row);
    hide Where, Total;
  }

  /** An adjustment goes through exactly when it is positive, its worker exists and a debit is covered, and then
      adds or takes what was asked for. */
  lemma AdjustmentMovesWhatWasAsked(s: State, w: WorkerId, requested: real, direction: Direction)
    ensures var (t, reply) := Adjust(s, w, requested, direction);
            && (reply == Posted <==>
                  && 0.0 < requested && w < |s.workers|
                  && (direction == Debit ==> requested <= Redeemable(s.ledger, w) as real))
            && (if reply == Posted
                then Moves(s.ledger, t.ledger, w, if direction == Credit then requested else -requested)
                else t == s)
  {
    hide Redeemable, Moves;
    if direction == Debit {
      WithdrawalTakesWhatWasAsked(s.ledger, AdminDebit, w, requested, s.now);
    } else {
      RowMoves(s.ledger, CreditRow(w, Adjustment, ToCents(requested), Complete, None, s.now), requested);
    }
  }

  /** A refund is meant to take the payout back, as if its row were not there. It is stored positive, so it adds the
      payout once more, and takes it back exactly when the payout is worth nothing. */
  lemma RefundClawsBackIff(ledger: seq<CreditRow>, i: nat, now: nat)
    requires i < |ledger| && ledger[i].kind == JobPayout && ledger[i].status == Complete
    ensures var (payout, after) := (ledger[i], ledger + [RefundRow(ledger[i], now)]);
            && after[|ledger|].booking == payout.booking && after[|ledger|].createdAt == now
            && Moves(ledger, after, payout.worker, payout.amount as real)
            && (Redeemable(after, payout.worker) == Redeemable(ledger[..i] + ledger[i + 1..], payout.worker)
                <==> payout.amount == 0)
  {
    var payout := ledger[i];
    RowMoves(ledger, RefundRow(payout, now), payout.amount as real);
    RedeemableIsWorkerSum(ledger, payout.worker);
    RedeemableIsWorkerSum(ledger[..i] + ledger[i + 1..], payout.worker);
    TotalWithout(ledger, i, SignedFor(payout.worker));
    hide Redeemable, Total;
  }
}
