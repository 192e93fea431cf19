/** What each of the three sweeps does, seen from one booking, whatever else is in the tables. */
module SweepEffects {
  import opened Schema
  import opened BookingStateMachine
  import opened DispatchController
  import opened Steps
  import opened OfferLog
  import opened ReconciliationSweep

  // The sweep over the top-3 rows, seen from one booking.

  function ClosedOffer(offer: Offer): Offer { offer.(outcome := TimedOut) }

  /** Booking b is as it was but for the rows in `closed`, and no offer of its own was added. */
  predicate Trimmed(s: State, t: State, b: BookingId, closed: set<OfferId>) {
    && t.now == s.now
    && b < |s.bookings| == |t.bookings| && t.bookings[b] == s.bookings[b]
    && |s.offers| <= |t.offers|
    && (forall i: nat | i < |s.offers| ::
          && t.offers[i].booking == s.offers[i].booking
          && (s.offers[i].booking == b ==>
                t.offers[i] == if i in closed then ClosedOffer(s.offers[i]) else s.offers[i]))
    && (forall i: nat | |s.offers| <= i < |t.offers| :: t.offers[i].booking != b)
  }

  /** The rows of booking b in the table from row n on. */
  function RowsFrom(offers: seq<Offer>, b: BookingId, n: nat): seq<Offer>
    requires n <= |offers|
    decreases |offers|
  {
    if n == |offers| then []
    else
      var last := offers[|offers| - 1];
      RowsFrom(offers[..|offers| - 1], b, n) + (if last.booking == b then [last] else [])
  }

  /** Booking b has moved on: its open top-3 rows are closed, nothing else in its old rows changed, and its new
      rows are pool offers, rank by rank, to the candidates not in its log; with none of those it is cancelled. */
  predicate MovedOn(s: State, t: State, b: BookingId, ranked: seq<WorkerId>) {
    var untried := Untried(ranked, Tried(s.offers, b));
    && t.now == s.now
    && b < |s.bookings| == |t.bookings|
    && t.bookings[b].status == (if untried == [] then Cancelled else DispatchingPool)
    && |s.offers| <= |t.offers|
    && (forall i: nat | i < |s.offers| ::
          && t.offers[i].booking == s.offers[i].booking
          && (s.offers[i].booking == b ==>
                t.offers[i] == if OpenTop3(s.offers[i], b) then ClosedOffer(s.offers[i]) else s.offers[i]))
    && RowsFrom(t.offers, b, |s.offers|) == PoolRows(b, untried, s.now)
  }

  lemma {:induction false} RowsFromSame(before: seq<Offer>, after: seq<Offer>, b: BookingId, n: nat)
    requires n <= |before| <= |after|
    requires forall i: nat | i < |before| ::
               after[i].booking == before[i].booking && (before[i].booking == b ==> after[i] == before[i])
    requires forall i: nat | |before| <= i < |after| :: after[i].booking != b
    ensures RowsFrom(after, b, n) == RowsFrom(before, b, n)
    decreases |after|
  {
    if n < |after| {
      if |before| < |after| {
        RowsFromSame(before, after[..|after| - 1], b, n);
      } else {
        RowsFromSame(before[..|before| - 1], after[..|after| - 1], b, n);
      }
    }
  }

  lemma {:induction false} RowsFromSkip(offers: seq<Offer>, b: BookingId, n: nat, m: nat)
    requires n <= m <= |offers|
    requires forall i: nat | n <= i < m :: offers[i].booking != b
    ensures RowsFrom(offers, b, n) == RowsFrom(offers, b, m)
    decreases |offers|
  {
    if n < |offers| {
      if m < |offers| {
        RowsFromSkip(offers[..|offers| - 1], b, n, m);
      } else {
        RowsFromSkip(offers[..|offers| - 1], b, n, m - 1);
      }
    }
  }

  lemma {:induction false} RowsFromPool(offers: seq<Offer>, b: BookingId, workers: seq<WorkerId>, now: nat)
    ensures RowsFrom(offers + PoolRows(b, workers, now), b, |offers|) == PoolRows(b, workers, now)
    decreases |workers|
  {
    var all := offers + PoolRows(b, workers, now);
    if workers == [] {
    } else {
      var n := |workers| - 1;
      assert all[..|all| - 1] == offers + PoolRows(b, workers[..n], now);
      RowsFromPool(offers, b, workers[..n], now);
      assert PoolRows(b, workers, now) == PoolRows(b, workers[..n], now) + [PoolRow(b, workers[n], now)];
    }
  }

  lemma TrimmedTried(s: State, t: State, b: BookingId, closed: set<OfferId>)
    requires Trimmed(s, t, b, closed)
    ensures Tried(t.offers, b) == Tried(s.offers, b)
  {
  }

  lemma TrimTwice(s: State, t: State, u: State, b: BookingId, first: set<OfferId>, second: set<OfferId>)
    requires Trimmed(s, t, b, first) && Trimmed(t, u, b, second)
    ensures Trimmed(s, u, b, first + second)
  {
  }

  lemma TrimThenMoveOn(s: State, t: State, u: State, b: BookingId, closed: set<OfferId>, ranked: seq<WorkerId>)
    requires Trimmed(s, t, b, closed) && MovedOn(t, u, b, ranked)
    requires forall o | o in closed :: o < |s.offers| && OpenTop3(s.offers[o], b)
    ensures MovedOn(s, u, b, ranked)
  {
    TrimmedTried(s, t, b, closed);
    forall i: nat | |s.offers| <= i < |t.offers|
      ensures u.offers[i].booking != b
    {
      assert u.offers[i].booking == t.offers[i].booking;
    }
    RowsFromSkip(u.offers, b, |s.offers|, |t.offers|);
  }

  lemma MoveOnThenTrim(s: State, t: State, u: State, b: BookingId, ranked: seq<WorkerId>)
    requires MovedOn(s, t, b, ranked) && Trimmed(t, u, b, {})
    ensures MovedOn(s, u, b, ranked)
  {
    RowsFromSame(t.offers, u.offers, b, |s.offers|);
  }

  lemma MoveOnElsewhere(s: State, c: BookingId, ranked: seq<WorkerId>, b: BookingId)
    requires c != b && b < |s.bookings|
    ensures Trimmed(s, MoveOn(s, c, ranked), b, {})
  {
    hide Stamped, Untried, Tried, LegalTransitions;
  }

  lemma CloseStaleElsewhere(s: State, o: OfferId, ranking: Ranking, b: BookingId)
    requires o < |s.offers| && s.offers[o].booking != b && b < |s.bookings|
    ensures Trimmed(s, CloseStale(s, o, ranking), b, {})
  {
    hide MoveOn;
    var closed := SetOutcome(s, o, TimedOut);
    MoveOnElsewhere(closed, s.offers[o].booking, ranking(s.offers[o].booking), b);
  }

  lemma CloseStaleTrims(s: State, o: OfferId, ranking: Ranking, b: BookingId)
    requires o < |s.offers| && s.offers[o].booking == b && b < |s.bookings|
    requires s.bookings[b].status == DispatchingTop3 ==>
               exists i | 0 <= i < |s.offers| :: i != o && OpenTop3(s.offers[i], b)
    ensures Trimmed(s, CloseStale(s, o, ranking), b, {o})
  {
    if s.bookings[b].status == DispatchingTop3 {
      var i :| 0 <= i < |s.offers| && i != o && OpenTop3(s.offers[i], b);
      assert OpenTop3(SetOutcome(s, o, TimedOut).offers[i], b);
    }
  }

  lemma MoveOnMoves(s: State, b: BookingId, ranked: seq<WorkerId>)
    requires b < |s.bookings| && s.bookings[b].status == DispatchingTop3 && !HasOpenTop3(s.offers, b)
    ensures MovedOn(s, MoveOn(s, b, ranked), b, ranked)
  {
    RowsFromPool(s.offers, b, Untried(ranked, Tried(s.offers, b)), s.now);
    if Untried(ranked, Tried(s.offers, b)) == [] {
      assert s.offers + PoolRows(b, [], s.now) == s.offers;
    }
  }

  lemma CloseStaleMovesOn(s: State, o: OfferId, ranking: Ranking, b: BookingId)
    requires b < |s.bookings| && s.bookings[b].status == DispatchingTop3
    requires o < |s.offers| && OpenTop3(s.offers[o], b)
    requires forall i | 0 <= i < |s.offers| && OpenTop3(s.offers[i], b) :: i == o
    ensures MovedOn(s, CloseStale(s, o, ranking), b, ranking(b))
  {
    var closed := SetOutcome(s, o, TimedOut);
    assert !HasOpenTop3(closed.offers, b);
    MoveOnMoves(closed, b, ranking(b));
    assert Trimmed(s, closed, b, {o});
    TrimThenMoveOn(s, closed, CloseStale(s, o, ranking), b, {o}, ranking(b));
  }

  /** The rows the sweep is given are open top-3 rows, each listed once. */
  predicate OpenIds(s: State, ids: seq<OfferId>) {
    && (forall i | 0 <= i < |ids| ::
          ids[i] < |s.offers| && s.offers[ids[i]].outcome == Offered && Top3(s.offers[ids[i]].attempt))
    && (forall i, j | 0 <= i < j < |ids| :: ids[i] != ids[j])
  }

  lemma CloseStaleKeepsRows(s: State, o: OfferId, ranking: Ranking)
    requires o < |s.offers|
    ensures |s.offers| <= |CloseStale(s, o, ranking).offers| && |CloseStale(s, o, ranking).bookings| == |s.bookings|
    ensures forall i: nat | i < |s.offers| && i != o :: CloseStale(s, o, ranking).offers[i] == s.offers[i]
  {
    hide Stamped, Untried, Tried, HasOpenTop3;
  }

  lemma RestIsOpen(s: State, ids: seq<OfferId>, ranking: Ranking)
    requires ids != [] && OpenIds(s, ids)
    ensures OpenIds(CloseStale(s, ids[0], ranking), ids[1..])
  {
    hide CloseStale;
    CloseStaleKeepsRows(s, ids[0], ranking);
    forall i | 0 <= i < |ids| - 1
      ensures ids[1..][i] == ids[i + 1] != ids[0]
    {
    }
  }

  /** The rows of booking b in the list. */
  function OwnIds(s: State, b: BookingId, ids: seq<OfferId>): set<OfferId> {
    set o | o in ids && o < |s.offers| && s.offers[o].booking == b
  }

  /** Whether the sweep takes booking b out of DISPATCHING_TOP3: it has an open top-3 row, and all of them are
      listed. */
  predicate WillMoveOn(s: State, b: BookingId, ids: seq<OfferId>) {
    && b < |s.bookings| && s.bookings[b].status == DispatchingTop3
    && HasOpenTop3(s.offers, b)
    && (forall i: nat | i < |s.offers| && OpenTop3(s.offers[i], b) :: i in ids)
  }

  predicate SweptFor(s: State, t: State, b: BookingId, ids: seq<OfferId>, ranking: Ranking) {
    if WillMoveOn(s, b, ids) then MovedOn(s, t, b, ranking(b)) else Trimmed(s, t, b, OwnIds(s, b, ids))
  }

  lemma TrimKeepsVerdict(s: State, t: State, b: BookingId, ids: seq<OfferId>, closed: set<OfferId>)
    requires ids != [] && OpenIds(s, ids) && Trimmed(s, t, b, closed)
    requires closed == if s.offers[ids[0]].booking == b then {ids[0]} else {}
    requires s.bookings[b].status == DispatchingTop3 && s.offers[ids[0]].booking == b ==> HasOpenTop3(t.offers, b)
    ensures WillMoveOn(t, b, ids[1..]) <==> WillMoveOn(s, b, ids)
    ensures OwnIds(s, b, ids) == closed + OwnIds(t, b, ids[1..])
  {
  }

  lemma {:induction false} RowsAreSwept(s: State, ids: seq<OfferId>, ranking: Ranking, b: BookingId)
    requires OpenIds(s, ids) && b < |s.bookings|
    ensures SweptFor(s, CloseStaleRows(s, ids, ranking), b, ids, ranking)
    decreases |ids|
  {
    hide CloseStale;
    if ids != [] {
      var o, t := ids[0], CloseStale(s, ids[0], ranking);
      RestIsOpen(s, ids, ranking);
      CloseStaleKeepsRows(s, o, ranking);
      RowsAreSwept(t, ids[1..], ranking, b);
      FirstRowThenRest(s, ids, ranking, b, CloseStaleRows(t, ids[1..], ranking));
    }
  }

  lemma FirstRowThenRest(s: State, ids: seq<OfferId>, ranking: Ranking, b: BookingId, u: State)
    requires ids != [] && OpenIds(s, ids) && b < |s.bookings|
    requires SweptFor(CloseStale(s, ids[0], ranking), u, b, ids[1..], ranking)
    ensures SweptFor(s, u, b, ids, ranking)
  {
    hide CloseStale, Trimmed, MovedOn;
    var o, t := ids[0], CloseStale(s, ids[0], ranking);
    if s.offers[o].booking != b {
      CloseStaleElsewhere(s, o, ranking, b);
      TrimThenSwept(s, t, u, b, ids, ranking, {});
    } else if && s.bookings[b].status == DispatchingTop3
              && forall i | 0 <= i < |s.offers| && OpenTop3(s.offers[i], b) :: i == o {
      CloseStaleMovesOn(s, o, ranking, b);
      MoveOnThenSwept(s, t, u, b, ids, ranking);
    } else {
      CloseStaleTrims(s, o, ranking, b);
      StillOpen(s, t, b, o);
      TrimThenSwept(s, t, u, b, ids, ranking, {o});
    }
  }

  lemma StillOpen(s: State, t: State, b: BookingId, o: OfferId)
    requires Trimmed(s, t, b, {o})
    requires s.bookings[b].status == DispatchingTop3 ==>
               exists i | 0 <= i < |s.offers| :: i != o && OpenTop3(s.offers[i], b)
    ensures s.bookings[b].status == DispatchingTop3 ==> HasOpenTop3(t.offers, b)
  {
  }

  lemma TrimThenSwept(s: State, t: State, u: State, b: BookingId, ids: seq<OfferId>, ranking: Ranking,
                      closed: set<OfferId>)
    requires ids != [] && OpenIds(s, ids) && Trimmed(s, t, b, closed)
    requires closed == if s.offers[ids[0]].booking == b then {ids[0]} else {}
    requires s.bookings[b].status == DispatchingTop3 && s.offers[ids[0]].booking == b ==> HasOpenTop3(t.offers, b)
    requires SweptFor(t, u, b, ids[1..], ranking)
    ensures SweptFor(s, u, b, ids, ranking)
  {
    TrimKeepsVerdict(s, t, b, ids, closed);
    if WillMoveOn(s, b, ids) {
      TrimThenMoveOn(s, t, u, b, closed, ranking(b));
    } else {
      TrimTwice(s, t, u, b, closed, OwnIds(t, b, ids[1..]));
    }
  }

  lemma MoveOnThenSwept(s: State, t: State, u: State, b: BookingId, ids: seq<OfferId>, ranking: Ranking)
    requires ids != [] && OpenIds(s, ids) && MovedOn(s, t, b, ranking(b))
    requires s.bookings[b].status == DispatchingTop3 && OpenTop3(s.offers[ids[0]], b)
    requires forall i | 0 <= i < |s.offers| && OpenTop3(s.offers[i], b) :: i == ids[0]
    requires SweptFor(t, u, b, ids[1..], ranking)
    ensures SweptFor(s, u, b, ids, ranking)
  {
    forall i | 0 <= i < |ids| - 1
      ensures s.offers[ids[1..][i]].booking != b
    {
      assert ids[1..][i] == ids[i + 1];
    }
    assert OwnIds(t, b, ids[1..]) == {};
    MoveOnThenTrim(s, t, u, b, ranking(b));
  }

  /** The first of the three sweeps, for any booking. */
  lemma Top3SweepIs(s: State, ms: nat, ranking: Ranking, b: BookingId)
    requires b < |s.bookings|
    ensures SweptFor(s, SweepTop3(s, ms, ranking), b, StaleTop3Ids(s, ms, |s.offers|), ranking)
    ensures WillMoveOn(s, b, StaleTop3Ids(s, ms, |s.offers|)) <==>
            && s.bookings[b].status == DispatchingTop3
            && HasOpenTop3(s.offers, b)
            && (forall i: nat | i < |s.offers| && OpenTop3(s.offers[i], b) :: s.offers[i].offeredAt + ms < s.now)
  {
    StaleIdsAreStale(s, ms, |s.offers|);
    RowsAreSwept(s, StaleTop3Ids(s, ms, |s.offers|), ranking, b);
  }

  // The pool sweep and the auto-confirm sweep, seen from one booking.

  /** Booking b was cancelled and its open pool offers closed. */
  predicate Exhausted(s: State, t: State, b: BookingId) {
    && t.now == s.now
    && b < |s.bookings| == |t.bookings| && t.bookings[b].status == Cancelled
    && |s.offers| <= |t.offers|
    && (forall i: nat | i < |s.offers| ::
          && t.offers[i].booking == s.offers[i].booking
          && (s.offers[i].booking == b ==>
                t.offers[i] == if OpenPoolOffer(s.offers[i], b) then ClosedOffer(s.offers[i]) else s.offers[i]))
    && (forall i: nat | |s.offers| <= i < |t.offers| :: t.offers[i].booking != b)
  }

  lemma PoolExhaustedElsewhere(s: State, c: BookingId, b: BookingId)
    requires b < |s.bookings| && (c != b || s.bookings[b].status != DispatchingPool)
    ensures Trimmed(s, PoolExhausted(s, c), b, {})
  {
  }

  lemma {:induction false} PoolsAreExhausted(s: State, ids: seq<BookingId>, b: BookingId)
    requires b < |s.bookings|
    ensures var t := ExhaustPools(s, ids);
            if s.bookings[b].status == DispatchingPool && b in ids then Exhausted(s, t, b) else Trimmed(s, t, b, {})
    decreases |ids|
  {
    hide PoolExhausted, Trimmed, Exhausted;
    if ids == [] {
      SelfTrimmed(s, b);
    } else {
      var t := PoolExhausted(s, ids[0]);
      if ids[0] == b && s.bookings[b].status == DispatchingPool {
        PoolExhaustedHere(s, b);
        PoolsAreExhausted(t, ids[1..], b);
        ExhaustThenTrim(s, t, ExhaustPools(t, ids[1..]), b);
      } else {
        PoolExhaustedElsewhere(s, ids[0], b);
        TrimmedBooking(s, t, b, {});
        PoolsAreExhausted(t, ids[1..], b);
        TrimThenExhaust(s, t, ExhaustPools(t, ids[1..]), b);
        assert b in ids <==> ids[0] == b || b in ids[1..];
      }
    }
  }

  lemma SelfTrimmed(s: State, b: BookingId)
    requires b < |s.bookings|
    ensures Trimmed(s, s, b, {})
  {
  }

  lemma TrimmedBooking(s: State, t: State, b: BookingId, closed: set<OfferId>)
    requires Trimmed(s, t, b, closed)
    ensures t.now == s.now && b < |s.bookings| == |t.bookings| && t.bookings[b] == s.bookings[b]
  {
  }

  lemma PoolExhaustedHere(s: State, b: BookingId)
    requires b < |s.bookings| && s.bookings[b].status == DispatchingPool
    ensures Exhausted(s, PoolExhausted(s, b), b) && b < |PoolExhausted(s, b).bookings|
    ensures PoolExhausted(s, b).bookings[b].status == Cancelled
  {
  }

  lemma ExhaustThenTrim(s: State, t: State, u: State, b: BookingId)
    requires Exhausted(s, t, b) && Trimmed(t, u, b, {})
    ensures Exhausted(s, u, b)
  {
  }

  lemma TrimThenExhaust(s: State, t: State, u: State, b: BookingId)
    requires Trimmed(s, t, b, {})
    ensures Exhausted(t, u, b) ==> Exhausted(s, u, b)
    ensures Trimmed(t, u, b, {}) ==> Trimmed(s, u, b, {})
  {
  }

  lemma {:induction false} OthersAreConfirmed(s: State, ids: seq<BookingId>, b: BookingId)
    requires b < |s.bookings| && s.bookings[b].status != Assigned
    ensures Trimmed(s, ConfirmAll(s, ids), b, {})
    decreases |ids|
  {
    if ids != [] {
      OthersAreConfirmed(AutoConfirmed(s, ids[0]), ids[1..], b);
    }
  }
}
