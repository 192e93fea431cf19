/** distributeDividends of server/src/controllers/admin-wallet-ops.controller.ts: each run pays every member a
    percentage of the job payouts since that member's last dividend. */
module Dividends {
  import opened Schema
  import opened WalletBalance

  /** The creation time of the worker's latest DIVIDEND_PAYOUT row. */
  function LastDividend(ledger: seq<CreditRow>, w: WorkerId): Option<nat> {
    if ledger == [] then None
    else
      var n := |ledger| - 1;
      var before, row := LastDividend(ledger[..n], w), ledger[n];
      if row.worker == w && row.kind == DividendPayout && (before.None? || before.value < row.createdAt)
      then Some(row.createdAt) else before
  }

  predicate CompletePayout(row: CreditRow, w: WorkerId) {
    row.worker == w && row.kind == JobPayout && row.status == Complete
  }

  predicate After(row: CreditRow, cutoff: Option<nat>) {
    cutoff.None? || row.createdAt > cutoff.value
  }

  predicate EligiblePayout(row: CreditRow, w: WorkerId, cutoff: Option<nat>) {
    CompletePayout(row, w) && After(row, cutoff)
  }

  // Terms for WalletBalance.Total.

  function NewPayout(w: WorkerId, cutoff: Option<nat>): CreditRow -> int {
    (row: CreditRow) => if EligiblePayout(row, w, cutoff) then row.amount else 0
  }

  function OldPayout(w: WorkerId, cutoff: Option<nat>): CreditRow -> int {
    (row: CreditRow) => if CompletePayout(row, w) && !After(row, cutoff) then row.amount else 0
  }

  function DividendOf(w: WorkerId): CreditRow -> int {
    (row: CreditRow) => if row.worker == w && row.kind == DividendPayout then row.amount else 0
  }

  function OneDividend(w: WorkerId): CreditRow -> int {
    (row: CreditRow) => if row.worker == w && row.kind == DividendPayout then 1 else 0
  }

  function EligibleEarnings(ledger: seq<CreditRow>, w: WorkerId): int {
    Total(ledger, NewPayout(w, LastDividend(ledger, w)))
  }

  /** The payouts that the dividends so far were paid on. */
  function ConsumedEarnings(ledger: seq<CreditRow>, w: WorkerId): int {
    Total(ledger, OldPayout(w, LastDividend(ledger, w)))
  }

  function Dividends(ledger: seq<CreditRow>, w: WorkerId): int { Total(ledger, DividendOf(w)) }

  function PayingRuns(ledger: seq<CreditRow>, w: WorkerId): int { Total(ledger, OneDividend(w)) }

  /** Math.round(earnings * percent / 100 * 100) / 100, in cents: half a cent rounds up. */
  function DividendShare(earnings: int, percent: nat): int {
    (2 * earnings * percent + 100) / 200
  }

  function DividendRow(ledger: seq<CreditRow>, w: WorkerId, percent: nat, now: nat): Option<CreditRow> {
    var earnings := EligibleEarnings(ledger, w);
    var amount := DividendShare(earnings, percent);
    if earnings <= 0 || amount <= 0 then None else Some(CreditRow(w, DividendPayout, amount, Complete, None, now))
  }

  function DividendRows(ledger: seq<CreditRow>, members: seq<WorkerId>, percent: nat, now: nat): seq<CreditRow> {
    if members == [] then []
    else
      var n := |members| - 1;
      var rows := DividendRows(ledger, members[..n], percent, now);
      match DividendRow(ledger, members[n], percent, now)
      case Some(row) => rows + [row]
      case None => rows
  }

  method DistributeDividends(db: Database, members: seq<WorkerId>, percent: nat)
    returns (distributed: seq<(WorkerId, int)>)
    modifies db`ledger
    ensures db.ledger == old(db.ledger) + DividendRows(old(db.ledger), members, percent, db.now)
    ensures |distributed| == |db.ledger| - |old(db.ledger)|
    ensures forall i | 0 <= i < |distributed| ::
              var row := db.ledger[|old(db.ledger)| + i]; distributed[i] == (row.worker, row.amount)
  {
    var rows: seq<CreditRow> := [];
    distributed := [];
    var i := 0;
    while i < |members|
      invariant i <= |members|
      invariant rows == DividendRows(db.ledger, members[..i], percent, db.now)
      invariant |distributed| == |rows|
      invariant forall k | 0 <= k < |rows| :: distributed[k] == (rows[k].worker, rows[k].amount)
    {
      var worker := members[i];
      var eligibleEarnings := EligibleEarnings(db.ledger, worker);
      assert members[..i + 1][..i] == members[..i];
      i := i + 1;
      if eligibleEarnings <= 0 {
        continue;
      }
      var amount := DividendShare(eligibleEarnings, percent);
      if amount <= 0 {
        continue;
      }
      rows := rows + [CreditRow(worker, DividendPayout, amount, Complete, None, db.now)];
      distributed := distributed + [(worker, amount)];
    }
    assert members[..i] == members;
    db.ledger := db.ledger + rows;
  }

  // Runs: payouts, distributions and other postings, each at a later instant than the one before.

  /** What one paying run paid one worker on; kept beside the tables to say which rows were used. */
  datatype Base = Base(worker: WorkerId, rows: set<nat>)

  datatype Books = Books(now: nat, ledger: seq<CreditRow>, bases: seq<Base>)

  datatype Event =
    | Payout(worker: WorkerId, amount: nat)
    | Distribute(members: seq<WorkerId>, percent: nat)
    | Posting(row: CreditRow)

  predicate Distinct(members: seq<WorkerId>) {
    forall i, j | 0 <= i < j < |members| :: members[i] != members[j]
  }

  /** A worker belongs to one cooperative, whose percentage is fixed: `share` gives it for each worker. */
  predicate Possible(event: Event, share: WorkerId -> nat) {
    match event
    case Distribute(members, percent) => Distinct(members) && forall w | w in members :: share(w) == percent
    case Posting(row) => row.kind != JobPayout && row.kind != DividendPayout
    case _ => true
  }

  function EligibleRows(ledger: seq<CreditRow>, w: WorkerId): set<nat> {
    set i: nat | i < |ledger| && EligiblePayout(ledger[i], w, LastDividend(ledger, w))
  }

  function NewBases(ledger: seq<CreditRow>, members: seq<WorkerId>, percent: nat, now: nat): seq<Base> {
    if members == [] then []
    else
      var n := |members| - 1;
      var bases := NewBases(ledger, members[..n], percent, now);
      if DividendRow(ledger, members[n], percent, now).Some?
      then bases + [Base(members[n], EligibleRows(ledger, members[n]))] else bases
  }

  function Act(books: Books, at: nat, event: Event): Books {
    match event
    case Payout(w, amount) =>
      Books(at, books.ledger + [CreditRow(w, JobPayout, amount, Complete, None, at)], books.bases)
    case Distribute(members, percent) =>
      Books(at, books.ledger + DividendRows(books.ledger, members, percent, at),
            books.bases + NewBases(books.ledger, members, percent, at))
    case Posting(row) => Books(at, books.ledger + [row.(createdAt := at)], books.bases)
  }

  /** Half a cent of rounding per paying run. */
  predicate Accurate(ledger: seq<CreditRow>, w: WorkerId, percent: nat) {
    var drift := 100 * Dividends(ledger, w) - percent * ConsumedEarnings(ledger, w);
    -50 * PayingRuns(ledger, w) <= drift <= 50 * PayingRuns(ledger, w)
  }

  predicate InBase(bases: seq<Base>, j: nat, w: WorkerId, i: nat) {
    j < |bases| && bases[j].worker == w && i in bases[j].rows
  }

  ghost predicate UsedOnce(books: Books, w: WorkerId, i: nat)
    requires i < |books.ledger|
  {
    && (CompletePayout(books.ledger[i], w) ==>
          (EligiblePayout(books.ledger[i], w, LastDividend(books.ledger, w)) <==>
           !exists j: nat :: InBase(books.bases, j, w, i)))
    && (forall j: nat, k: nat | InBase(books.bases, j, w, i) && InBase(books.bases, k, w, i) :: j == k)
  }

  ghost predicate Fair(books: Books, share: WorkerId -> nat) {
    && (forall i: nat | i < |books.ledger| :: books.ledger[i].createdAt <= books.now)
    && (forall w: WorkerId :: Accurate(books.ledger, w, share(w)))
    && (forall w: WorkerId, i: nat | i < |books.ledger| :: UsedOnce(books, w, i))
    && (forall w: WorkerId, i: nat, j: nat | InBase(books.bases, j, w, i) ::
          i < |books.ledger| && CompletePayout(books.ledger[i], w))
  }

  lemma LastDividendAppend(ledger: seq<CreditRow>, row: CreditRow, w: WorkerId)
    ensures LastDividend(ledger + [row], w) ==
            var before := LastDividend(ledger, w);
            if row.worker == w && row.kind == DividendPayout && (before.None? || before.value < row.createdAt)
            then Some(row.createdAt) else before
  {
  }

  lemma {:induction false} LastDividendBound(ledger: seq<CreditRow>, w: WorkerId, now: nat)
    requires forall i: nat | i < |ledger| :: ledger[i].createdAt <= now
    ensures LastDividend(ledger, w).Some? ==> LastDividend(ledger, w).value <= now
  {
    if ledger != [] {
      LastDividendBound(ledger[..|ledger| - 1], w, now);
    }
  }

  /** A row that is neither a payout nor a dividend of w changes nothing for w. */
  lemma UnrelatedRow(ledger: seq<CreditRow>, row: CreditRow, w: WorkerId)
    requires row.worker != w || (row.kind != DividendPayout && row.kind != JobPayout)
    ensures SameFor(ledger, ledger + [row], w)
  {
  }

  ghost predicate SameFor(before: seq<CreditRow>, after: seq<CreditRow>, w: WorkerId) {
    && LastDividend(after, w) == LastDividend(before, w)
    && Dividends(after, w) == Dividends(before, w)
    && PayingRuns(after, w) == PayingRuns(before, w)
    && ConsumedEarnings(after, w) == ConsumedEarnings(before, w)
  }

  /** A payout later than the last dividend waits for the next one. */
  lemma PayoutWaits(ledger: seq<CreditRow>, row: CreditRow, w: WorkerId)
    requires row.worker == w && row.kind == JobPayout && After(row, LastDividend(ledger, w))
    ensures SameFor(ledger, ledger + [row], w)
  {
  }

  lemma {:induction false} AllConsumed(ledger: seq<CreditRow>, w: WorkerId, cutoff: Option<nat>, now: nat)
    requires forall i: nat | i < |ledger| :: ledger[i].createdAt <= now
    ensures Total(ledger, OldPayout(w, Some(now))) ==
            Total(ledger, OldPayout(w, cutoff)) + Total(ledger, NewPayout(w, cutoff))
  {
    if ledger != [] {
      AllConsumed(ledger[..|ledger| - 1], w, cutoff, now);
    }
  }

  lemma ShareIsRounded(earnings: int, percent: nat)
    ensures -50 <= 100 * DividendShare(earnings, percent) - percent * earnings <= 50
  {
  }

  /** A dividend row at an instant after everything else turns all eligible payouts into consumed ones. */
  lemma DividendRowKeepsAccurate(ledger: seq<CreditRow>, w: WorkerId, percent: nat, now: nat)
    requires forall i: nat | i < |ledger| :: ledger[i].createdAt < now
    requires Accurate(ledger, w, percent) && DividendRow(ledger, w, percent, now).Some?
    ensures var after := ledger + [DividendRow(ledger, w, percent, now).value];
            Accurate(after, w, percent) && LastDividend(after, w) == Some(now)
  {
    var row, cutoff := DividendRow(ledger, w, percent, now).value, LastDividend(ledger, w);
    if ledger != [] {
      LastDividendBound(ledger, w, now - 1);
    }
    LastDividendAppend(ledger, row, w);
    TotalAppend(ledger, row, DividendOf(w));
    TotalAppend(ledger, row, OneDividend(w));
    TotalAppend(ledger, row, OldPayout(w, Some(now)));
    AllConsumed(ledger, w, cutoff, now);
    ShareIsRounded(EligibleEarnings(ledger, w), percent);
    DriftAdds(percent, ConsumedEarnings(ledger, w), EligibleEarnings(ledger, w));
  }

  lemma DriftAdds(percent: nat, consumed: int, earnings: int)
    ensures percent * (consumed + earnings) == percent * consumed + percent * earnings
  {
  }

  /** Where the rows of one distribution leave a worker: as before, or with one dividend row more. */
  ghost predicate PaidOnceIn(ledger: seq<CreditRow>, after: seq<CreditRow>, members: seq<WorkerId>, w: WorkerId,
                             percent: nat, now: nat)
  {
    var row := DividendRow(ledger, w, percent, now);
    if w in members && row.Some? then SameFor(ledger + [row.value], after, w) else SameFor(ledger, after, w)
  }

  lemma SameForAppended(before: seq<CreditRow>, after: seq<CreditRow>, row: CreditRow, w: WorkerId)
    requires SameFor(before, after, w)
    requires row.worker == w && row.kind == DividendPayout
    requires Total(after, OldPayout(w, Some(row.createdAt))) == Total(before, OldPayout(w, Some(row.createdAt)))
    ensures SameFor(before + [row], after + [row], w)
  {
  }

  lemma {:induction false} DistributionPaysOnce(ledger: seq<CreditRow>, members: seq<WorkerId>, w: WorkerId,
                                                percent: nat, now: nat)
    requires Distinct(members)
    ensures PaidOnceIn(ledger, ledger + DividendRows(ledger, members, percent, now), members, w, percent, now)
    ensures forall cutoff :: Total(ledger + DividendRows(ledger, members, percent, now), OldPayout(w, cutoff)) ==
                             Total(ledger, OldPayout(w, cutoff))
  {
    if members == [] {
      assert ledger + [] == ledger;
    } else {
      var n := |members| - 1;
      var member := members[n];
      var rows := DividendRows(ledger, members[..n], percent, now);
      DistributionPaysOnce(ledger, members[..n], w, percent, now);
      assert members == members[..n] + [member];
      match DividendRow(ledger, member, percent, now)
      case None =>
      case Some(row) =>
        assert ledger + (rows + [row]) == (ledger + rows) + [row];
        forall cutoff
          ensures Total(ledger + rows + [row], OldPayout(w, cutoff)) == Total(ledger, OldPayout(w, cutoff))
        {
          TotalAppend(ledger + rows, row, OldPayout(w, cutoff));
        }
        if member == w {
          SameForAppended(ledger, ledger + rows, row, w);
        } else {
          UnrelatedRow(ledger + rows, row, w);
        }
    }
  }

  predicate Pays(ledger: seq<CreditRow>, members: seq<WorkerId>, w: WorkerId, percent: nat, now: nat) {
    w in members && DividendRow(ledger, w, percent, now).Some?
  }

  /** One base per paid member, holding exactly the member's eligible payouts. */
  ghost predicate BasesFor(ledger: seq<CreditRow>, members: seq<WorkerId>, bases: seq<Base>, percent: nat, now: nat) {
    && (forall j: nat | j < |bases| ::
          && bases[j].rows == EligibleRows(ledger, bases[j].worker)
          && Pays(ledger, members, bases[j].worker, percent, now))
    && (forall j: nat, k: nat | j < k < |bases| :: bases[j].worker != bases[k].worker)
    && (forall w | Pays(ledger, members, w, percent, now) :: HasBase(bases, w))
  }

  predicate HasBase(bases: seq<Base>, w: WorkerId) {
    exists j | 0 <= j < |bases| :: bases[j].worker == w
  }

  lemma {:induction false} NewBasesAreEligible(ledger: seq<CreditRow>, members: seq<WorkerId>, percent: nat, now: nat)
    requires Distinct(members)
    ensures BasesFor(ledger, members, NewBases(ledger, members, percent, now), percent, now)
  {
    hide DividendRow, EligibleRows;
    if members != [] {
      var n := |members| - 1;
      var before := NewBases(ledger, members[..n], percent, now);
      var bases := NewBases(ledger, members, percent, now);
      NewBasesAreEligible(ledger, members[..n], percent, now);
      assert members == members[..n] + [members[n]];
      assert bases == if DividendRow(ledger, members[n], percent, now).Some?
                      then before + [Base(members[n], EligibleRows(ledger, members[n]))] else before;
      forall j: nat | j < |before|
        ensures before[j].worker in members[..n]
      {
        assert Pays(ledger, members[..n], before[j].worker, percent, now);
      }
      assert members[n] !in members[..n];
      forall w | Pays(ledger, members, w, percent, now)
        ensures HasBase(bases, w)
      {
        if w == members[n] {
          assert bases[|bases| - 1].worker == w;
        } else {
          assert Pays(ledger, members[..n], w, percent, now) && HasBase(before, w);
          var j :| 0 <= j < |before| && before[j].worker == w;
          assert bases[j].worker == w;
        }
      }
    }
  }

  lemma {:induction false} DividendRowsAreRecent(ledger: seq<CreditRow>, members: seq<WorkerId>, percent: nat, now: nat)
    ensures forall k | 0 <= k < |DividendRows(ledger, members, percent, now)| ::
              var row := DividendRows(ledger, members, percent, now)[k];
              row.kind == DividendPayout && row.createdAt == now
  {
    if members != [] {
      DividendRowsAreRecent(ledger, members[..|members| - 1], percent, now);
    }
  }

  lemma DistributionKeepsAccurate(books: Books, share: WorkerId -> nat, percent: nat, at: nat,
                                  members: seq<WorkerId>, w: WorkerId)
    requires Fair(books, share) && books.now < at && Possible(Distribute(members, percent), share)
    ensures var after := Act(books, at, Distribute(members, percent)).ledger;
            && Accurate(after, w, share(w))
            && LastDividend(after, w) ==
               if Pays(books.ledger, members, w, percent, at) then Some(at) else LastDividend(books.ledger, w)
  {
    assert Accurate(books.ledger, w, share(w));
    DistributionPaysOnce(books.ledger, members, w, percent, at);
    if Pays(books.ledger, members, w, percent, at) {
      DividendRowKeepsAccurate(books.ledger, w, percent, at);
    }
  }

  lemma DistributionUsesOnce(books: Books, share: WorkerId -> nat, percent: nat, at: nat, members: seq<WorkerId>,
                             w: WorkerId, i: nat)
    requires Fair(books, share) && books.now < at && Possible(Distribute(members, percent), share)
    requires i < |Act(books, at, Distribute(members, percent)).ledger|
    ensures UsedOnce(Act(books, at, Distribute(members, percent)), w, i)
  {
    hide Accurate, Total, DividendRow;
    var after := Act(books, at, Distribute(members, percent));
    var n, bases := |books.bases|, NewBases(books.ledger, members, percent, at);
    NewBasesAreEligible(books.ledger, members, percent, at);
    DividendRowsAreRecent(books.ledger, members, percent, at);
    DistributionKeepsAccurate(books, share, percent, at, members, w);
    var paid := Pays(books.ledger, members, w, percent, at);
    forall j: nat
      ensures j < n ==> (InBase(after.bases, j, w, i) <==> InBase(books.bases, j, w, i))
      ensures j >= n ==> (InBase(after.bases, j, w, i) <==>
                            j - n < |bases| && bases[j - n].worker == w && paid && i in EligibleRows(books.ledger, w))
    {
    }
    if i < |books.ledger| {
      assert UsedOnce(books, w, i) && after.ledger[i] == books.ledger[i];
      if paid {
        assert HasBase(bases, w);
        var k :| 0 <= k < |bases| && bases[k].worker == w;
        assert i in EligibleRows(books.ledger, w) ==> InBase(after.bases, n + k, w, i);
      }
      if exists j: nat :: InBase(books.bases, j, w, i) {
        var j: nat :| InBase(books.bases, j, w, i);
        assert InBase(after.bases, j, w, i);
      }
    }
  }

  lemma DistributionKeepsFair(books: Books, share: WorkerId -> nat, percent: nat, at: nat, members: seq<WorkerId>)
    requires Fair(books, share) && books.now < at && Possible(Distribute(members, percent), share)
    ensures Fair(Act(books, at, Distribute(members, percent)), share)
  {
    hide Accurate, UsedOnce, DividendRow;
    var after := Act(books, at, Distribute(members, percent));
    DividendRowsAreRecent(books.ledger, members, percent, at);
    NewBasesAreEligible(books.ledger, members, percent, at);
    forall w: WorkerId
      ensures Accurate(after.ledger, w, share(w))
    {
      DistributionKeepsAccurate(books, share, percent, at, members, w);
    }
    forall w: WorkerId, i: nat | i < |after.ledger|
      ensures UsedOnce(after, w, i)
    {
      DistributionUsesOnce(books, share, percent, at, members, w, i);
    }
    forall w: WorkerId, i: nat, j: nat | InBase(after.bases, j, w, i)
      ensures i < |after.ledger| && CompletePayout(after.ledger[i], w)
    {
      if j < |books.bases| {
        assert InBase(books.bases, j, w, i);
      } else {
        assert after.bases[j] == NewBases(books.ledger, members, percent, at)[j - |books.bases|];
        assert i in EligibleRows(books.ledger, w);
      }
    }
  }

  /** Any other row leaves the bases and every worker's figures alone; a new payout waits, unless it is stamped
      no later than its worker's last dividend. */
  lemma PostingKeepsFair(books: Books, share: WorkerId -> nat, now: nat, row: CreditRow)
    requires Fair(books, share) && books.now <= now && row.createdAt <= now && row.kind != DividendPayout
    requires row.kind == JobPayout ==> After(row, LastDividend(books.ledger, row.worker))
    ensures Fair(Books(now, books.ledger + [row], books.bases), share)
  {
    var after := Books(now, books.ledger + [row], books.bases);
    forall w: WorkerId
      ensures SameFor(books.ledger, after.ledger, w)
    {
      if row.worker == w && row.kind == JobPayout {
        PayoutWaits(books.ledger, row, w);
      } else {
        UnrelatedRow(books.ledger, row, w);
      }
    }
    forall w: WorkerId
      ensures Accurate(after.ledger, w, share(w))
    {
      assert Accurate(books.ledger, w, share(w)) && SameFor(books.ledger, after.ledger, w);
    }
    forall w: WorkerId, i: nat | i < |after.ledger|
      ensures UsedOnce(after, w, i)
    {
      assert SameFor(books.ledger, after.ledger, w);
      if i < |books.ledger| {
        assert UsedOnce(books, w, i);
      }
    }
  }

  lemma ActKeepsFair(books: Books, share: WorkerId -> nat, at: nat, event: Event)
    requires Fair(books, share) && Possible(event, share) && books.now < at
    ensures Fair(Act(books, at, event), share)
  {
    match event
    case Payout(w, amount) =>
      LastDividendBound(books.ledger, w, books.now);
      PostingKeepsFair(books, share, at, CreditRow(w, JobPayout, amount, Complete, None, at));
    case Distribute(members, percent) => DistributionKeepsFair(books, share, percent, at, members);
    case Posting(row) => PostingKeepsFair(books, share, at, row.(createdAt := at));
  }

  ghost predicate Trace(states: seq<Books>, share: WorkerId -> nat, times: seq<nat>, events: seq<Event>) {
    && |states| == |events| + 1 && |times| == |events|
    && states[0] == Books(0, [], [])
    && forall i: nat | i < |events| ::
         Possible(events[i], share) && states[i].now < times[i] && states[i + 1] == Act(states[i], times[i], events[i])
  }

  /** On a strictly increasing clock every completed payout is in the base of exactly one paying run or
      still eligible, and after k paying runs a worker's dividends are within k/2 cents of the
      cooperative's percentage of the consumed payouts. */
  lemma {:induction false} DistributionsAreFair(states: seq<Books>, share: WorkerId -> nat, times: seq<nat>,
                                                events: seq<Event>, n: nat)
    requires Trace(states, share, times, events) && n < |states|
    ensures Fair(states[n], share)
  {
    if n > 0 {
      DistributionsAreFair(states, share, times, events, n - 1);
      ActKeepsFair(states[n - 1], share, times[n - 1], events[n - 1]);
    }
  }

  /** Which payouts a run looks at: the completed ones made after every dividend of the worker. */
  lemma {:induction false} EligibleIff(ledger: seq<CreditRow>, w: WorkerId, row: CreditRow)
    ensures EligiblePayout(row, w, LastDividend(ledger, w)) <==>
            && row.worker == w && row.kind == JobPayout && row.status == Complete
            && forall i | 0 <= i < |ledger| && ledger[i].worker == w && ledger[i].kind == DividendPayout ::
                 ledger[i].createdAt < row.createdAt
  {
    if ledger != [] {
      var n := |ledger| - 1;
      EligibleIff(ledger[..n], w, row);
    }
  }

  /** A run pays exactly the members whose share of their eligible earnings comes to half a cent, and pays it to
      the half cent. */
  lemma PaysIff(ledger: seq<CreditRow>, members: seq<WorkerId>, w: WorkerId, percent: nat, now: nat)
    requires Distinct(members)
    ensures var after := ledger + DividendRows(ledger, members, percent, now);
            var paid := Dividends(after, w) - Dividends(ledger, w);
            && (paid > 0 <==> w in members && 2 * (percent * EligibleEarnings(ledger, w)) >= 100)
            && (w !in members ==> paid == 0)
            && (w in members && 0 <= EligibleEarnings(ledger, w) ==>
                  -50 <= 100 * paid - percent * EligibleEarnings(ledger, w) <= 50)
            && (Pays(ledger, members, w, percent, now) <==> paid > 0)
  {
    DistributionPaysOnce(ledger, members, w, percent, now);
    ShareIsRounded(EligibleEarnings(ledger, w), percent);
    ShareIsPositiveIff(EligibleEarnings(ledger, w), percent);
    if Pays(ledger, members, w, percent, now) {
      TotalAppend(ledger, DividendRow(ledger, w, percent, now).value, DividendOf(w));
    }
  }

  lemma ShareIsPositiveIff(earnings: int, percent: nat)
    ensures earnings > 0 && DividendShare(earnings, percent) > 0 <==> 2 * (percent * earnings) >= 100
    ensures 0 <= earnings && !(earnings > 0 && DividendShare(earnings, percent) > 0) ==> 0 <= percent * earnings < 50
  {
    if earnings <= 0 {
      assert percent * earnings <= 0;
    } else {
      assert percent * earnings >= 0;
    }
  }

  lemma {:induction false} DividendsAreNoEarnings(ledger: seq<CreditRow>, members: seq<WorkerId>, w: WorkerId,
                                                  percent: nat, now: nat, cutoff: Option<nat>)
    ensures Total(ledger + DividendRows(ledger, members, percent, now), NewPayout(w, cutoff)) ==
            Total(ledger, NewPayout(w, cutoff))
  {
    if members == [] {
      assert ledger + [] == ledger;
    } else {
      var n := |members| - 1;
      var rows := DividendRows(ledger, members[..n], percent, now);
      DividendsAreNoEarnings(ledger, members[..n], w, percent, now, cutoff);
      match DividendRow(ledger, members[n], percent, now)
      case None =>
      case Some(row) =>
        assert ledger + (rows + [row]) == (ledger + rows) + [row];
        TotalAppend(ledger + rows, row, NewPayout(w, cutoff));
    }
  }

  /** Right after a distribution on a strictly increasing clock, what is left eligible for a member is worth less
      than half a cent; a member who was paid has nothing left. */
  lemma DistributionLeavesLittle(books: Books, share: WorkerId -> nat, percent: nat, at: nat, members: seq<WorkerId>,
                                 w: WorkerId)
    requires Fair(books, share) && books.now < at && Possible(Distribute(members, percent), share) && w in members
    ensures var after := Act(books, at, Distribute(members, percent)).ledger;
            && 2 * (percent * EligibleEarnings(after, w)) < 100
            && (Dividends(after, w) > Dividends(books.ledger, w) ==> EligibleEarnings(after, w) == 0)
  {
    hide Fair, DividendRow;
    FairIsDated(books, share);
    DistributionKeepsAccurate(books, share, percent, at, members, w);
    PaysIff(books.ledger, members, w, percent, at);
    if Pays(books.ledger, members, w, percent, at) {
      DividendsAreNoEarnings(books.ledger, members, w, percent, at, Some(at));
      AllConsumed(books.ledger, w, Some(at), at);
    } else {
      DividendsAreNoEarnings(books.ledger, members, w, percent, at, LastDividend(books.ledger, w));
    }
  }

  lemma FairIsDated(books: Books, share: WorkerId -> nat)
    requires Fair(books, share)
    ensures forall i: nat | i < |books.ledger| :: books.ledger[i].createdAt <= books.now
  {
  }

  /** What the strict clock is for. A payout stamped no later than the present is in a base or still eligible,
      and with it everything else stays fair, exactly when it is stamped after its worker's last dividend. */
  lemma PayoutIsKeptIff(books: Books, share: WorkerId -> nat, payout: CreditRow, w: WorkerId)
    requires Fair(books, share) && CompletePayout(payout, w) && payout.createdAt <= books.now
    ensures var after := books.(ledger := books.ledger + [payout]);
            && (UsedOnce(after, w, |books.ledger|) <==> After(payout, LastDividend(books.ledger, w)))
            && (Fair(after, share) <==> After(payout, LastDividend(books.ledger, w)))
  {
    var after := books.(ledger := books.ledger + [payout]);
    LastDividendAppend(books.ledger, payout, w);
    assert after.ledger[|books.ledger|] == payout;
    if After(payout, LastDividend(books.ledger, w)) {
      PostingKeepsFair(books, share, books.now, payout);
    }
  }

  lemma {:induction false} CutoffOnlyGrows(ledger: seq<CreditRow>, more: seq<CreditRow>, w: WorkerId)
    requires LastDividend(ledger, w).Some?
    ensures LastDividend(ledger + more, w).Some?
    ensures LastDividend(ledger, w).value <= LastDividend(ledger + more, w).value
    decreases |more|
  {
    if more == [] {
      assert ledger + more == ledger;
    } else {
      var n := |more| - 1;
      CutoffOnlyGrows(ledger, more[..n], w);
      assert ledger + more == (ledger + more[..n]) + [more[n]];
      LastDividendAppend(ledger + more[..n], more[n], w);
    }
  }

  /** Otherwise it is lost for good: it is never eligible again, whatever is posted afterwards. */
  lemma PayoutAtDividendInstantIsLost(ledger: seq<CreditRow>, payout: CreditRow, more: seq<CreditRow>, w: WorkerId)
    requires CompletePayout(payout, w) && LastDividend(ledger, w).Some?
    requires payout.createdAt <= LastDividend(ledger, w).value
    ensures !EligiblePayout(payout, w, LastDividend(ledger + [payout] + more, w))
  {
    assert ledger + [payout] + more == ledger + ([payout] + more);
    CutoffOnlyGrows(ledger, [payout] + more, w);
  }

  /** One row, after a dividend computed from an earlier reading was inserted. */
  lemma StaleRow(books: Books, share: WorkerId -> nat, seen: seq<CreditRow>, w: WorkerId, row: CreditRow, i: nat)
    requires Fair(books, share) && seen <= books.ledger && books.now < row.createdAt
    requires row.worker == w && row.kind == DividendPayout && i <= |books.ledger|
    ensures var bases := books.bases + [Base(w, EligibleRows(seen, w))];
            UsedOnce(Books(row.createdAt, books.ledger + [row], bases), w, i) <==>
            (i in EligibleRows(seen, w) <==> i in EligibleRows(books.ledger, w))
  {
    var n := |books.bases|;
    var after := Books(row.createdAt, books.ledger + [row], books.bases + [Base(w, EligibleRows(seen, w))]);
    LastDividendBound(books.ledger, w, books.now);
    LastDividendAppend(books.ledger, row, w);
    hide LastDividend, Accurate;
    forall j: nat
      ensures j < n ==> (InBase(after.bases, j, w, i) <==> InBase(books.bases, j, w, i))
      ensures j >= n ==> (InBase(after.bases, j, w, i) <==> j == n && i in EligibleRows(seen, w))
    {
    }
    if i < |books.ledger| {
      assert after.ledger[i] == books.ledger[i] && UsedOnce(books, w, i);
      assert !EligiblePayout(after.ledger[i], w, LastDividend(after.ledger, w));
      if i in EligibleRows(seen, w) {
        assert InBase(after.bases, n, w, i);
        assert CompletePayout(books.ledger[i], w);
      }
      if j: nat :| InBase(books.bases, j, w, i) {
        assert InBase(after.bases, j, w, i) && j < n;
      }
    }
  }

  /** A dividend whose rows were computed from an earlier reading of the ledger, as when distributions overlap:
      every payout of the worker is still used exactly once if and only if the worker's eligible payouts
      are the same as when they were read. */
  lemma StaleDividendIsFairIff(books: Books, share: WorkerId -> nat, seen: seq<CreditRow>, w: WorkerId, percent: nat,
                               at: nat)
    requires Fair(books, share) && seen <= books.ledger && books.now < at
    requires DividendRow(seen, w, percent, at).Some?
    ensures var after := Books(at, books.ledger + [DividendRow(seen, w, percent, at).value],
                               books.bases + [Base(w, EligibleRows(seen, w))]);
            (forall i: nat | i < |after.ledger| :: UsedOnce(after, w, i)) <==>
            EligibleRows(seen, w) == EligibleRows(books.ledger, w)
  {
    var row := DividendRow(seen, w, percent, at).value;
    var after := Books(at, books.ledger + [row], books.bases + [Base(w, EligibleRows(seen, w))]);
    forall i: nat | i < |after.ledger|
      ensures UsedOnce(after, w, i) <==> (i in EligibleRows(seen, w) <==> i in EligibleRows(books.ledger, w))
    {
      StaleRow(books, share, seen, w, row, i);
    }
    hide UsedOnce;
    assert forall i | i in EligibleRows(seen, w) || i in EligibleRows(books.ledger, w) :: i < |after.ledger|;
  }
}
