/** Concurrent withdrawals. Each withdrawal transaction is five steps (lock the worker row, read the ledger,
    check, insert, commit) interleaved in any way with other withdrawals and with postings that
    take no lock. Reads see committed rows only. */
module WalletRace {
  import opened Schema
  import opened WalletBalance
  import opened Wallet

  type TxId = nat

  datatype Phase =
    | Waiting
    | Locked
    | HasRead(balance: int)
    | Checked
    | Inserted(row: CreditRow)
    | Done(reply: Reply)
    | RolledBack

  datatype Tx = Tx(withdrawal: Withdrawal, worker: WorkerId, requested: real, phase: Phase)

  /** `owners` holds the row locks taken by SELECT ... FOR UPDATE. */
  datatype Race = Race(now: nat, ledger: seq<CreditRow>, owners: map<WorkerId, TxId>, txs: map<TxId, Tx>)

  datatype Action =
    | Begin(id: TxId, withdrawal: Withdrawal, worker: WorkerId, requested: real)
    | TakeLock(id: TxId)
    | ReadLedger(id: TxId)
    | Check(id: TxId)
    | Insert(id: TxId)
    | Commit(id: TxId)
    | Abort(id: TxId)
    | PostUnlocked(row: CreditRow)
    | Settle(index: nat)
    | Pass(ms: nat)

  /** Holding the row lock. */
  predicate InsideLock(tx: Tx) {
    tx.phase.Locked? || tx.phase.HasRead? || tx.phase.Checked? || tx.phase.Inserted?
  }

  /** What is posted without the lock: payouts, feedback credits, credit adjustments, dividends and bonuses. */
  predicate UnlockedPosting(row: CreditRow) {
    row.kind in {JobPayout, FeedbackCredit, IncentiveBonus, Adjustment, DividendPayout} && 0 <= row.amount
  }

  function SetPhase(r: Race, id: TxId, phase: Phase): Race
    requires id in r.txs
  {
    r.(txs := r.txs[id := r.txs[id].(phase := phase)])
  }

  /** The transaction ends and its row lock is released. */
  function End(r: Race, id: TxId, phase: Phase): Race
    requires id in r.txs
  {
    var ended := SetPhase(r, id, phase);
    var w := r.txs[id].worker;
    if w in r.owners && r.owners[w] == id then ended.(owners := r.owners - {w}) else ended
  }

  predicate Possible(r: Race, action: Action) {
    match action
    case Begin(id, _, _, requested) => id !in r.txs && requested > 0.0
    case TakeLock(id) => id in r.txs && r.txs[id].phase.Waiting? && r.txs[id].worker !in r.owners
    case ReadLedger(id) => id in r.txs && r.txs[id].phase.Locked?
    case Check(id) => id in r.txs && r.txs[id].phase.HasRead?
    case Insert(id) => id in r.txs && r.txs[id].phase.Checked?
    case Commit(id) => id in r.txs && r.txs[id].phase.Inserted?
    case Abort(id) => id in r.txs && !r.txs[id].phase.Done? && !r.txs[id].phase.RolledBack?
    case PostUnlocked(row) => UnlockedPosting(row)
    case Settle(i) => i < |r.ledger| && IsPendingRedemption(r.ledger[i])
    case Pass(_) => true
  }

  function Act(r: Race, action: Action): Race
    requires Possible(r, action)
  {
    match action
    case Begin(id, withdrawal, w, requested) => r.(txs := r.txs[id := Tx(withdrawal, w, requested, Waiting)])
    case TakeLock(id) => SetPhase(r, id, Locked).(owners := r.owners[r.txs[id].worker := id])
    case ReadLedger(id) => SetPhase(r, id, HasRead(Redeemable(r.ledger, r.txs[id].worker)))
    case Check(id) =>
      if r.txs[id].requested > r.txs[id].phase.balance as real then End(r, id, Done(InsufficientBalance))
      else SetPhase(r, id, Checked)
    case Insert(id) =>
      var tx := r.txs[id];
      SetPhase(r, id, Inserted(WithdrawalRow(tx.withdrawal, tx.worker, tx.requested, r.now)))
    case Commit(id) => End(r, id, Done(Posted)).(ledger := r.ledger + [r.txs[id].phase.row])
    case Abort(id) => End(r, id, RolledBack)
    case PostUnlocked(row) => r.(ledger := r.ledger + [row])
    case Settle(i) => r.(ledger := r.ledger[i := SettledRow(r.ledger[i])])
    case Pass(ms) => r.(now := r.now + ms)
  }

  /** What a transaction inside the lock knows of the committed ledger as it is now. */
  ghost predicate StillCovered(r: Race, id: TxId)
    requires id in r.txs
  {
    var tx := r.txs[id];
    && tx.requested > 0.0
    && (InsideLock(tx) ==> tx.worker in r.owners && r.owners[tx.worker] == id)
    && (tx.phase.HasRead? ==> tx.phase.balance <= Redeemable(r.ledger, tx.worker))
    && (tx.phase.Checked? || tx.phase.Inserted? ==> tx.requested <= Redeemable(r.ledger, tx.worker) as real)
    && (tx.phase.Inserted? ==>
          tx.phase.row == WithdrawalRow(tx.withdrawal, tx.worker, tx.requested, tx.phase.row.createdAt))
  }

  ghost predicate Covered(r: Race) {
    && (forall id | id in r.txs :: StillCovered(r, id))
    && (forall w: WorkerId :: 0 <= Redeemable(r.ledger, w))
  }

  /** An update of the ledger that lowers nobody's balance but, at most, that of worker w. */
  ghost predicate LowersOnly(before: seq<CreditRow>, after: seq<CreditRow>, w: Option<WorkerId>) {
    forall v: WorkerId | w != Some(v) :: Redeemable(before, v) <= Redeemable(after, v)
  }

  lemma CommitLowersOnlyOwn(ledger: seq<CreditRow>, tx: Tx, row: CreditRow)
    requires row == WithdrawalRow(tx.withdrawal, tx.worker, tx.requested, row.createdAt)
    requires 0.0 < tx.requested <= Redeemable(ledger, tx.worker) as real
    ensures LowersOnly(ledger, ledger + [row], Some(tx.worker))
    ensures Redeemable(ledger + [row], tx.worker) == Redeemable(ledger, tx.worker) - ToCents(tx.requested)
    ensures 0 <= Redeemable(ledger + [row], tx.worker)
  {
  }

  lemma UnlockedLowersNothing(r: Race, action: Action)
    requires Possible(r, action) && !action.Commit?
    ensures LowersOnly(r.ledger, Act(r, action).ledger, None)
  {
    match action
    case PostUnlocked(row) =>
      forall v: WorkerId
        ensures Redeemable(r.ledger, v) <= Redeemable(r.ledger + [row], v)
      {
        RedeemableAppend(r.ledger, row, v);
      }
    case Settle(i) =>
      forall v: WorkerId
        ensures Redeemable(r.ledger, v) == Redeemable(Act(r, action).ledger, v)
      {
        RedeemableSettled(r.ledger, i, v);
      }
    case _ =>
  }

  lemma ActKeepsCovered(r: Race, action: Action)
    requires Covered(r) && Possible(r, action)
    ensures Covered(Act(r, action))
  {
    if action.Commit? {
      var tx := r.txs[action.id];
      assert StillCovered(r, action.id);
      CommitLowersOnlyOwn(r.ledger, tx, tx.phase.row);
      OthersStillCovered(r, action, Some(tx.worker));
    } else {
      UnlockedLowersNothing(r, action);
      OthersStillCovered(r, action, None);
    }
  }

  predicate SubjectOf(action: Action, id: TxId) {
    !action.PostUnlocked? && !action.Settle? && !action.Pass? && action.id == id
  }

  lemma OwnStillCovered(r: Race, action: Action, id: TxId)
    requires Covered(r) && Possible(r, action) && SubjectOf(action, id)
    requires !action.Commit? ==> LowersOnly(r.ledger, Act(r, action).ledger, None)
    ensures id in Act(r, action).txs && StillCovered(Act(r, action), id)
  {
    if id in r.txs {
      assert StillCovered(r, id);
    }
  }

  /** A transaction's step does not take another transaction's lock or balance away. */
  lemma OtherStillCovered(r: Race, action: Action, id: TxId)
    requires Covered(r) && Possible(r, action) && !SubjectOf(action, id) && id in r.txs
    requires LowersOnly(r.ledger, Act(r, action).ledger, if action.Commit? then Some(r.txs[action.id].worker) else None)
    ensures id in Act(r, action).txs && Act(r, action).txs[id] == r.txs[id]
    ensures StillCovered(Act(r, action), id)
  {
    assert StillCovered(r, id);
    if action.Commit? {
      assert StillCovered(r, action.id);
    } else if action.Check? || action.Abort? {
      assert StillCovered(r, action.id);
    }
  }

  lemma OthersStillCovered(r: Race, action: Action, w: Option<WorkerId>)
    requires Covered(r) && Possible(r, action)
    requires LowersOnly(r.ledger, Act(r, action).ledger, w)
    requires w == if action.Commit? then Some(r.txs[action.id].worker) else None
    requires w.Some? ==> 0 <= Redeemable(Act(r, action).ledger, w.value)
    ensures Covered(Act(r, action))
  {
    var t := Act(r, action);
    forall id | id in t.txs
      ensures StillCovered(t, id)
    {
      if SubjectOf(action, id) {
        OwnStillCovered(r, action, id);
      } else {
        SubjectsOnly(r, action, id);
        OtherStillCovered(r, action, id);
      }
    }
    forall v: WorkerId
      ensures 0 <= Redeemable(t.ledger, v)
    {
      assert 0 <= Redeemable(r.ledger, v);
    }
  }

  lemma SubjectsOnly(r: Race, action: Action, id: TxId)
    requires Possible(r, action) && !SubjectOf(action, id)
    ensures id in Act(r, action).txs ==> id in r.txs
  {
  }

  predicate PossibleAll(r: Race, actions: seq<Action>)
    decreases |actions|
  {
    actions != [] ==> Possible(r, actions[0]) && PossibleAll(Act(r, actions[0]), actions[1..])
  }

  function ActAll(r: Race, actions: seq<Action>): Race
    requires PossibleAll(r, actions)
    decreases |actions|
  {
    if actions == [] then r else ActAll(Act(r, actions[0]), actions[1..])
  }

  /** Whatever the interleaving, nobody's redeemable balance ever goes below zero. */
  lemma {:induction false} BalanceNeverNegative(r: Race, actions: seq<Action>, w: WorkerId)
    requires Covered(r) && PossibleAll(r, actions)
    ensures 0 <= Redeemable(ActAll(r, actions).ledger, w)
    decreases |actions|
  {
    if actions != [] {
      ActKeepsCovered(r, actions[0]);
      BalanceNeverNegative(Act(r, actions[0]), actions[1..], w);
    }
  }

  /** Each commit is the atomic withdrawal of module Wallet on the ledger as it stands at the commit,
      and each refusal is what the atomic withdrawal would have answered when the ledger was read.
      So the concurrent handlers behave as if run one at a time. */
  lemma CommitIsAtomicWithdrawal(r: Race, id: TxId)
    requires Covered(r) && Possible(r, Commit(id))
    ensures var tx := r.txs[id];
            (Act(r, Commit(id)).ledger, Posted) ==
            Withdraw(r.ledger, tx.withdrawal, tx.worker, tx.requested, tx.phase.row.createdAt)
  {
  }

  lemma RefusalIsAtomicRefusal(r: Race, id: TxId, between: seq<Action>)
    requires Covered(r) && Possible(r, ReadLedger(id))
    requires PossibleAll(Act(r, ReadLedger(id)), between)
    requires forall i | 0 <= i < |between| :: LeavesAlone(between[i], id)
    requires Possible(ActAll(Act(r, ReadLedger(id)), between), Check(id))
    ensures var tx := r.txs[id];
            var t := Act(ActAll(Act(r, ReadLedger(id)), between), Check(id));
            && id in t.txs
            && (t.txs[id].phase == Done(InsufficientBalance) <==>
                  Withdraw(r.ledger, tx.withdrawal, tx.worker, tx.requested, r.now).1 == InsufficientBalance)
            && (t.txs[id].phase.Checked? <==>
                  Withdraw(r.ledger, tx.withdrawal, tx.worker, tx.requested, r.now).1 == Posted)
  {
    assert StillCovered(r, id);
    OthersLeaveAlone(Act(r, ReadLedger(id)), between, id);
  }

  predicate LeavesAlone(action: Action, id: TxId) {
    match action
    case Begin(_, _, _, _) => true
    case PostUnlocked(_) => true
    case Settle(_) => true
    case Pass(_) => true
    case _ => action.id != id
  }

  lemma {:induction false} OthersLeaveAlone(r: Race, actions: seq<Action>, id: TxId)
    requires id in r.txs && PossibleAll(r, actions)
    requires forall i | 0 <= i < |actions| :: LeavesAlone(actions[i], id)
    ensures id in ActAll(r, actions).txs && ActAll(r, actions).txs[id] == r.txs[id]
    decreases |actions|
  {
    if actions != [] {
      assert LeavesAlone(actions[0], id);
      OthersLeaveAlone(Act(r, actions[0]), actions[1..], id);
    }
  }

  /** Why the lock is needed: two redemptions approved against the same reading overdraw the balance
      exactly when together they exceed it. */
  lemma UnlockedPairOverdraws(ledger: seq<CreditRow>, w: WorkerId, first: real, second: real, now: nat)
    requires 0.0 < first <= Redeemable(ledger, w) as real && 0.0 < second <= Redeemable(ledger, w) as real
    ensures var both := ledger + [WithdrawalRow(Redeem, w, first, now)] + [WithdrawalRow(Redeem, w, second, now)];
            Redeemable(both, w) < 0 <==> ToCents(first) + ToCents(second) > Redeemable(ledger, w)
  {
    var one := WithdrawalRow(Redeem, w, first, now);
    RedeemableAppend(ledger, one, w);
    RedeemableAppend(ledger + [one], WithdrawalRow(Redeem, w, second, now), w);
  }
}
