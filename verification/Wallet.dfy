/** server/src/controllers/wallet.controller.ts, admin-wallet-ops.controller.ts and the settlement part of
    admin-payment.controller.ts: the handlers that post to the ledger, each as one transaction. */
module Wallet {
  import opened Schema
  import opened WalletBalance

  datatype Reply =
    | Posted
    | InsufficientBalance
    | InvalidAmount
    | WorkerNotFound
    | RowNotFound
    | InvalidState

  datatype Direction = Credit | Debit

  /** What a worker or an administrator takes out. */
  datatype Withdrawal = Redeem | AdminDebit

  /** The database stores cents, rounding half away from zero; requests carry any positive number. */
  function ToCents(requested: real): int {
    (requested + 0.5).Floor
  }

  function WithdrawalRow(withdrawal: Withdrawal, w: WorkerId, requested: real, now: nat): CreditRow {
    match withdrawal
    case Redeem => CreditRow(w, Redemption, ToCents(requested), Processing, None, now)
    case AdminDebit => CreditRow(w, Adjustment, -ToCents(requested), Complete, None, now)
  }

  /** redeemWallet, and createWalletAdjustment with direction DEBIT. */
  function Withdraw(ledger: seq<CreditRow>, withdrawal: Withdrawal, w: WorkerId, requested: real, now: nat)
    : (seq<CreditRow>, Reply)
  {
    if requested <= 0.0 then (ledger, InvalidAmount)
    else if requested > Redeemable(ledger, w) as real then (ledger, InsufficientBalance)
    else (ledger + [WithdrawalRow(withdrawal, w, requested, now)], Posted)
  }

  function Adjust(s: State, w: WorkerId, requested: real, direction: Direction): (State, Reply) {
    if requested <= 0.0 then (s, InvalidAmount)
    else if w >= |s.workers| then (s, WorkerNotFound)
    else if direction == Debit then
      var (ledger, reply) := Withdraw(s.ledger, AdminDebit, w, requested, s.now);
      (s.(ledger := ledger), reply)
    else (s.(ledger := s.ledger + [CreditRow(w, Adjustment, ToCents(requested), Complete, None, s.now)]), Posted)
  }

  function Reverse(s: State, i: nat): (State, Reply) {
    if i >= |s.ledger| then (s, RowNotFound)
    else if s.ledger[i].kind == Reversal then (s, InvalidState)
    else (s.(ledger := s.ledger + [ReversalOf(s.ledger[i], s.now)]), Posted)
  }

  /** The row refundBooking inserts for a booking's payout. */
  function RefundRow(payout: CreditRow, now: nat): CreditRow {
    CreditRow(payout.worker, Refund, payout.amount, Complete, payout.booking, now)
  }

  method RedeemWallet(db: Database, w: WorkerId, requested: real) returns (reply: Reply)
    modifies db`ledger
    ensures (db.ledger, reply) == Withdraw(old(db.ledger), Redeem, w, requested, db.now)
  {
    if requested <= 0.0 {
      return InvalidAmount;
    }
    var relevant := Where(RowsOf(db.ledger, w), Counted);
    var balance := RedeemableBalance(relevant);
    if requested > balance as real {
      return InsufficientBalance;
    }
    db.ledger := db.ledger + [CreditRow(w, Redemption, ToCents(requested), Processing, None, db.now)];
    return Posted;
  }

  method CreateWalletAdjustment(db: Database, w: WorkerId, requested: real, direction: Direction) returns (reply: Reply)
    modifies db`ledger
    ensures (db.Snapshot(), reply) == Adjust(old(db.Snapshot()), w, requested, direction)
  {
    if requested <= 0.0 {
      return InvalidAmount;
    }
    if w >= |db.workers| {
      return WorkerNotFound;
    }
    if direction == Debit {
      var balance := RedeemableBalance(Where(RowsOf(db.ledger, w), Counted));
      if requested > balance as real {
        return InsufficientBalance;
      }
    }
    var amount := ToCents(requested);
    db.ledger := db.ledger
      + [CreditRow(w, Adjustment, if direction == Credit then amount else -amount, Complete, None, db.now)];
    return Posted;
  }

  method ReverseCreditTransaction(db: Database, i: nat) returns (reply: Reply)
    modifies db`ledger
    ensures (db.Snapshot(), reply) == Reverse(old(db.Snapshot()), i)
  {
    if i >= |db.ledger| {
      return RowNotFound;
    }
    var original := db.ledger[i];
    if original.kind == Reversal {
      return InvalidState;
    }
    var contribution := if original.kind == Redemption then -original.amount else original.amount;
    db.ledger := db.ledger + [CreditRow(original.worker, Reversal, -contribution, Complete, None, db.now)];
    return Posted;
  }
}
