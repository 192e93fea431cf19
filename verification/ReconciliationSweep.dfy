/** server/src/services/dispatch-reconciliation.service.ts: the periodic sweep that finishes what a crashed
    engine left behind. Scoring is abstract: a ranked candidate list for every booking. */
module ReconciliationSweep {
  import opened Schema
  import opened BookingStateMachine
  import opened DispatchController
  import opened Steps
  import opened OfferLog

  const AUTO_CONFIRM_MS: nat := 60000

  type Ranking = BookingId -> seq<WorkerId>

  predicate StaleTop3(s: State, o: OfferId, ms: nat) {
    o < |s.offers| && s.offers[o].outcome == Offered && Top3(s.offers[o].attempt) && s.offers[o].offeredAt + ms < s.now
  }

  /** The stale top-3 rows below row n, in the order of the table. */
  function StaleTop3Ids(s: State, ms: nat, n: nat): seq<OfferId>
    requires n <= |s.offers|
  {
    if n == 0 then [] else StaleTop3Ids(s, ms, n - 1) + (if StaleTop3(s, n - 1, ms) then [n - 1] else [])
  }

  predicate HasOpenTop3(offers: seq<Offer>, b: BookingId) {
    exists i | 0 <= i < |offers| :: OpenTop3(offers[i], b)
  }

  function Tried(offers: seq<Offer>, b: BookingId): set<WorkerId> {
    set i | 0 <= i < |offers| && offers[i].booking == b :: offers[i].worker
  }

  function Untried(ranked: seq<WorkerId>, tried: set<WorkerId>): seq<WorkerId> {
    if ranked == [] then []
    else (if ranked[0] in tried then [] else [ranked[0]]) + Untried(ranked[1..], tried)
  }

  function PoolRow(b: BookingId, w: WorkerId, now: nat): Offer {
    Offer(b, w, Pool, now, Offered)
  }

  function PoolRows(b: BookingId, workers: seq<WorkerId>, now: nat): seq<Offer> {
    seq(|workers|, i requires 0 <= i < |workers| => PoolRow(b, workers[i], now))
  }

  /** A booking left without an open top-3 offer moves on to the workers not in its log yet, if there are any. */
  function MoveOn(s: State, b: BookingId, ranked: seq<WorkerId>): State {
    var untried := Untried(ranked, Tried(s.offers, b));
    var inPool := Transition(s, b, DispatchingPool);
    if untried == [] then Transition(inPool, b, Cancelled)
    else inPool.(offers := s.offers + PoolRows(b, untried, s.now))
  }

  /** One stale row. Its outcome is written whatever it is by then. */
  function CloseStale(s: State, o: OfferId, ranking: Ranking): State
    requires o < |s.offers|
  {
    var closed := SetOutcome(s, o, TimedOut);
    var b := s.offers[o].booking;
    if b >= |s.bookings| || s.bookings[b].status != DispatchingTop3 || HasOpenTop3(closed.offers, b) then closed
    else MoveOn(closed, b, ranking(b))
  }

  function CloseStaleRows(s: State, ids: seq<OfferId>, ranking: Ranking): State
    requires forall i | 0 <= i < |ids| :: ids[i] < |s.offers|
    decreases |ids|
  {
    if ids == [] then s else CloseStaleRows(CloseStale(s, ids[0], ranking), ids[1..], ranking)
  }

  predicate StalePool(offer: Offer, b: BookingId, ms: nat, now: nat) {
    OpenPoolOffer(offer, b) && offer.offeredAt + ms < now
  }

  predicate HasStalePool(s: State, b: BookingId, ms: nat) {
    exists i | 0 <= i < |s.offers| :: StalePool(s.offers[i], b, ms, s.now)
  }

  /** The bookings below n with a stale pool offer. */
  function StalePoolIds(s: State, ms: nat, n: nat): seq<BookingId> {
    if n == 0 then [] else StalePoolIds(s, ms, n - 1) + (if HasStalePool(s, n - 1, ms) then [n - 1] else [])
  }

  function ExhaustPools(s: State, ids: seq<BookingId>): State
    decreases |ids|
  {
    if ids == [] then s else ExhaustPools(PoolExhausted(s, ids[0]), ids[1..])
  }

  predicate StaleAssigned(s: State, b: BookingId) {
    b < |s.bookings| && s.bookings[b].status == Assigned && s.bookings[b].updatedAt + AUTO_CONFIRM_MS < s.now
  }

  function StaleAssignedIds(s: State, n: nat): seq<BookingId> {
    if n == 0 then [] else StaleAssignedIds(s, n - 1) + (if StaleAssigned(s, n - 1) then [n - 1] else [])
  }

  function ConfirmAll(s: State, ids: seq<BookingId>): State
    decreases |ids|
  {
    if ids == [] then s else ConfirmAll(AutoConfirmed(s, ids[0]), ids[1..])
  }

  function SweepTop3(s: State, ms: nat, ranking: Ranking): State {
    StaleIdsAreStale(s, ms, |s.offers|);
    CloseStaleRows(s, StaleTop3Ids(s, ms, |s.offers|), ranking)
  }

  function SweepPool(s: State, ms: nat): State {
    ExhaustPools(s, StalePoolIds(s, ms, |s.bookings|))
  }

  function SweepAssigned(s: State): State {
    ConfirmAll(s, StaleAssignedIds(s, |s.bookings|))
  }

  function Sweep(s: State, top3Ms: nat, poolMs: nat, ranking: Ranking): State {
    SweepAssigned(SweepPool(SweepTop3(s, top3Ms, ranking), poolMs))
  }

  lemma {:induction false} StaleIdsAreStale(s: State, ms: nat, n: nat)
    requires n <= |s.offers|
    ensures var ids := StaleTop3Ids(s, ms, n);
            && (forall o: nat :: o in ids <==> o < n && StaleTop3(s, o, ms))
            && (forall i | 0 <= i < |ids| :: StaleTop3(s, ids[i], ms))
            && (forall i, j | 0 <= i < j < |ids| :: ids[i] != ids[j])
  {
    if n > 0 {
      StaleIdsAreStale(s, ms, n - 1);
      var before := StaleTop3Ids(s, ms, n - 1);
      forall i | 0 <= i < |before|
        ensures before[i] < n - 1
      {
        assert before[i] in before;
      }
    }
  }

  lemma {:induction false} StalePoolIdsAreStale(s: State, ms: nat, n: nat)
    ensures forall b: nat :: b in StalePoolIds(s, ms, n) <==> b < n && HasStalePool(s, b, ms)
  {
    if n > 0 {
      StalePoolIdsAreStale(s, ms, n - 1);
    }
  }

  lemma {:induction false} StaleAssignedIdsAreStale(s: State, n: nat)
    ensures forall b: nat :: b in StaleAssignedIds(s, n) <==> b < n && StaleAssigned(s, b)
  {
    if n > 0 {
      StaleAssignedIdsAreStale(s, n - 1);
    }
  }

  /** One iteration of the first sweep's loop. */
  method CloseStaleOffer(db: Database, o: OfferId, ranking: Ranking)
    requires o < |db.offers|
    modifies db
    ensures db.Snapshot() == CloseStale(old(db.Snapshot()), o, ranking)
    ensures old(|db.offers|) <= |db.offers|
  {
    db.offers := db.offers[o := db.offers[o].(outcome := TimedOut)];
    var b := db.offers[o].booking;
    if b >= |db.bookings| || db.bookings[b].status != DispatchingTop3 {
      return;
    }
    if HasOpenTop3(db.offers, b) {
      return;
    }
    var untried := Untried(ranking(b), Tried(db.offers, b));
    var _ := TransitionBookingStatus(db, b, DispatchingPool);
    if untried == [] {
      var _ := TransitionBookingStatus(db, b, Cancelled);
      return;
    }
    db.offers := db.offers + PoolRows(b, untried, db.now);
  }

  method SweepStaleTop3Offers(db: Database, top3Ms: nat, ranking: Ranking)
    modifies db
    ensures db.Snapshot() == SweepTop3(old(db.Snapshot()), top3Ms, ranking)
  {
    hide CloseStale;
    StaleIdsAreStale(db.Snapshot(), top3Ms, |db.offers|);
    var stale := StaleTop3Ids(db.Snapshot(), top3Ms, |db.offers|);
    var i := 0;
    while i < |stale|
      invariant i <= |stale|
      invariant forall k | 0 <= k < |stale| :: stale[k] < |db.offers|
      invariant CloseStaleRows(db.Snapshot(), stale[i..], ranking) == CloseStaleRows(old(db.Snapshot()), stale, ranking)
    {
      assert stale[i..][1..] == stale[i + 1..];
      CloseStaleOffer(db, stale[i], ranking);
      i := i + 1;
    }
  }

  lemma PoolExhaustedRows(s: State, b: BookingId)
    requires b < |s.bookings| && s.bookings[b].status == DispatchingPool
    ensures var t := PoolExhausted(s, b);
            && |t.offers| == |s.offers|
            && (forall i | 0 <= i < |s.offers| ::
                  t.offers[i] ==
                  if OpenPoolOffer(s.offers[i], b) then s.offers[i].(outcome := TimedOut) else s.offers[i])
            && t == Transition(s.(offers := t.offers), b, Cancelled)
  {
  }

  /** updateMany over the booking's open pool offers. */
  method ClosePoolOffers(db: Database, b: BookingId)
    modifies db`offers
    ensures |db.offers| == old(|db.offers|)
    ensures forall k | 0 <= k < |db.offers| ::
      db.offers[k] ==
      var offer := old(db.offers)[k]; if OpenPoolOffer(offer, b) then offer.(outcome := TimedOut) else offer
  {
    var i := 0;
    while i < |db.offers|
      invariant i <= |db.offers| == old(|db.offers|)
      invariant forall k | i <= k < |db.offers| :: db.offers[k] == old(db.offers)[k]
      invariant forall k | 0 <= k < i ::
        db.offers[k] ==
        var offer := old(db.offers)[k]; if OpenPoolOffer(offer, b) then offer.(outcome := TimedOut) else offer
    {
      if OpenPoolOffer(db.offers[i], b) {
        db.offers := db.offers[i := db.offers[i].(outcome := TimedOut)];
      }
      i := i + 1;
    }
  }

  /** One iteration of the second sweep's loop. */
  method CancelExhaustedPool(db: Database, b: BookingId)
    modifies db
    ensures db.Snapshot() == PoolExhausted(old(db.Snapshot()), b)
  {
    if b >= |db.bookings| || db.bookings[b].status != DispatchingPool {
      return;
    }
    PoolExhaustedRows(db.Snapshot(), b);
    hide Transition, PoolExhausted, OpenPoolOffer;
    ClosePoolOffers(db, b);
    assert db.offers == PoolExhausted(old(db.Snapshot()), b).offers;
    var _ := TransitionBookingStatus(db, b, Cancelled);
  }

  method SweepStalePoolOffers(db: Database, poolMs: nat)
    modifies db
    ensures db.Snapshot() == SweepPool(old(db.Snapshot()), poolMs)
  {
    hide PoolExhausted;
    var stale := StalePoolIds(db.Snapshot(), poolMs, |db.bookings|);
    var i := 0;
    while i < |stale|
      invariant i <= |stale|
      invariant ExhaustPools(db.Snapshot(), stale[i..]) == SweepPool(old(db.Snapshot()), poolMs)
    {
      assert stale[i..][1..] == stale[i + 1..];
      CancelExhaustedPool(db, stale[i]);
      i := i + 1;
    }
  }

  method SweepStaleAssignedBookings(db: Database)
    modifies db
    ensures db.Snapshot() == SweepAssigned(old(db.Snapshot()))
  {
    hide Transition;
    var stale := StaleAssignedIds(db.Snapshot(), |db.bookings|);
    var i := 0;
    while i < |stale|
      invariant i <= |stale|
      invariant ConfirmAll(db.Snapshot(), stale[i..]) == SweepAssigned(old(db.Snapshot()))
    {
      assert stale[i..][1..] == stale[i + 1..];
      var _ := TransitionBookingStatus(db, stale[i], Confirmed);
      i := i + 1;
    }
  }

  method RunReconciliationSweep(db: Database, top3Seconds: nat, poolSeconds: nat, ranking: Ranking)
    modifies db
    ensures db.Snapshot() == Sweep(old(db.Snapshot()), top3Seconds * 1000, poolSeconds * 1000, ranking)
  {
    hide SweepTop3, SweepPool, SweepAssigned;
    SweepStaleTop3Offers(db, top3Seconds * 1000, ranking);
    SweepStalePoolOffers(db, poolSeconds * 1000);
    SweepStaleAssignedBookings(db);
  }
}
