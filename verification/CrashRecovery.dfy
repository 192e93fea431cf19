/** Which bookings that a crashed engine left behind the sweep brings to an end, and which it never picks up. */
module CrashRecovery {
  import opened Schema
  import opened BookingStateMachine
  import opened DispatchController
  import opened Steps
  import BookingChanges
  import opened AcceptanceLog
  import opened OfferLog
  import opened ReconciliationSweep
  import opened SweepEffects

  // How a crashed booking is brought to its end.

  predicate Pending(offer: Offer, b: BookingId) {
    offer.booking == b && offer.outcome == Offered
  }

  /** Left behind in the top-3 phase: at least one offer is open, and all open ones are top-3 ones sent by `latest`. */
  predicate Orphaned(s: State, b: BookingId, latest: nat) {
    && b < |s.bookings| && s.bookings[b].status == DispatchingTop3
    && (exists i: nat :: i < |s.offers| && Pending(s.offers[i], b))
    && (forall i: nat | i < |s.offers| && Pending(s.offers[i], b) ::
          Top3(s.offers[i].attempt) && s.offers[i].offeredAt <= latest)
  }

  /** In the pool phase: at least one offer is open, and all open ones are pool offers sent by `latest`. */
  predicate Pooled(s: State, b: BookingId, latest: nat) {
    && b < |s.bookings| && s.bookings[b].status == DispatchingPool
    && (exists i: nat :: i < |s.offers| && Pending(s.offers[i], b))
    && (forall i: nat | i < |s.offers| && Pending(s.offers[i], b) ::
          s.offers[i].attempt == Pool && s.offers[i].offeredAt <= latest)
  }

  predicate Closed(s: State, b: BookingId) {
    && b < |s.bookings| && s.bookings[b].status == Cancelled
    && (forall i: nat | i < |s.offers| :: !Pending(s.offers[i], b))
  }

  /** Nothing of booking b changed: neither its row nor its offers. */
  predicate Untouched(s: State, t: State, b: BookingId) {
    && b < |s.bookings| && b < |t.bookings| && t.bookings[b] == s.bookings[b]
    && |s.offers| <= |t.offers|
    && (forall i: nat | i < |s.offers| ::
          && t.offers[i].booking == s.offers[i].booking
          && (s.offers[i].booking == b ==> t.offers[i] == s.offers[i]))
    && (forall i: nat | |s.offers| <= i < |t.offers| :: t.offers[i].booking != b)
  }

  lemma UntouchedKeepsStage(s: State, t: State, b: BookingId, latest: nat)
    requires Untouched(s, t, b)
    ensures Orphaned(s, b, latest) ==> Orphaned(t, b, latest)
    ensures Pooled(s, b, latest) ==> Pooled(t, b, latest)
    ensures Closed(s, b) ==> Closed(t, b)
    ensures HasOpenTop3(t.offers, b) ==> HasOpenTop3(s.offers, b)
  {
    forall i: nat | i < |t.offers|
      ensures Pending(t.offers[i], b) <==> i < |s.offers| && Pending(s.offers[i], b)
    {
    }
    if exists i: nat :: i < |s.offers| && Pending(s.offers[i], b) {
      var i: nat :| i < |s.offers| && Pending(s.offers[i], b);
      assert Pending(t.offers[i], b);
    }
    if HasOpenTop3(t.offers, b) {
      var i: nat :| i < |t.offers| && OpenTop3(t.offers[i], b);
      assert OpenTop3(s.offers[i], b);
    }
  }

  lemma TrimKeepsStage(s: State, t: State, b: BookingId, latest: nat)
    requires Trimmed(s, t, b, {})
    ensures Orphaned(s, b, latest) ==> Orphaned(t, b, latest)
    ensures Pooled(s, b, latest) ==> Pooled(t, b, latest)
    ensures Closed(s, b) ==> Closed(t, b)
  {
  }

  lemma {:induction false} RowsFromAre(offers: seq<Offer>, b: BookingId, n: nat)
    requires n <= |offers|
    ensures forall i: nat | n <= i < |offers| && offers[i].booking == b :: offers[i] in RowsFrom(offers, b, n)
    ensures forall row | row in RowsFrom(offers, b, n) :: exists i: nat :: n <= i < |offers| && offers[i] == row
    decreases |offers|
  {
    if n < |offers| {
      var before := offers[..|offers| - 1];
      RowsFromAre(before, b, n);
      forall row | row in RowsFrom(offers, b, n)
        ensures exists i: nat :: n <= i < |offers| && offers[i] == row
      {
        if row in RowsFrom(before, b, n) {
          var i: nat :| n <= i < |before| && before[i] == row;
          assert offers[i] == row;
        } else {
          assert offers[|offers| - 1] == row;
        }
      }
    }
  }

  lemma MoveOnEndsOrphan(s: State, t: State, b: BookingId, ranked: seq<WorkerId>, latest: nat)
    requires Orphaned(s, b, latest) && MovedOn(s, t, b, ranked)
    ensures Pooled(t, b, s.now) || Closed(t, b)
  {
    var untried := Untried(ranked, Tried(s.offers, b));
    RowsFromAre(t.offers, b, |s.offers|);
    forall i: nat | i < |s.offers| && Pending(s.offers[i], b)
      ensures OpenTop3(s.offers[i], b)
    {
    }
    forall i: nat | i < |t.offers| && Pending(t.offers[i], b)
      ensures |s.offers| <= i && t.offers[i] in PoolRows(b, untried, s.now)
    {
    }
    if untried != [] {
      var row := PoolRow(b, untried[0], s.now);
      assert PoolRows(b, untried, s.now)[0] == row;
      assert row in RowsFrom(t.offers, b, |s.offers|);
      var i: nat :| |s.offers| <= i < |t.offers| && t.offers[i] == row;
      assert Pending(t.offers[i], b);
    }
  }

  lemma TrimKeepsOrphan(s: State, t: State, b: BookingId, ids: seq<OfferId>, latest: nat)
    requires Orphaned(s, b, latest) && !WillMoveOn(s, b, ids) && Trimmed(s, t, b, OwnIds(s, b, ids))
    ensures Orphaned(t, b, latest)
  {
  }

  lemma TrimsNothing(s: State, b: BookingId, ids: seq<OfferId>)
    requires OpenIds(s, ids)
    requires forall i: nat | i < |s.offers| && Pending(s.offers[i], b) :: s.offers[i].attempt == Pool
    ensures OwnIds(s, b, ids) == {}
  {
  }

  lemma ExhaustionCloses(s: State, t: State, b: BookingId, latest: nat)
    requires Pooled(s, b, latest) && Exhausted(s, t, b)
    ensures Closed(t, b)
  {
  }

  lemma OverduePoolIsStale(s: State, b: BookingId, latest: nat, poolMs: nat)
    requires Pooled(s, b, latest) && latest + poolMs < s.now
    ensures HasStalePool(s, b, poolMs)
  {
  }

  /** The second and the third sweep. */
  lemma LaterSweepsOn(s: State, b: BookingId, latest: nat, poolMs: nat)
    requires Orphaned(s, b, latest) || Pooled(s, b, latest) || Closed(s, b)
    ensures var t := SweepAssigned(SweepPool(s, poolMs));
            && t.now == s.now
            && (Orphaned(s, b, latest) ==> Orphaned(t, b, latest))
            && (Pooled(s, b, latest) ==> Pooled(t, b, latest) || Closed(t, b))
            && (Pooled(s, b, latest) && latest + poolMs < s.now ==> Closed(t, b))
            && (Closed(s, b) ==> Closed(t, b))
  {
    hide ExhaustPools, ConfirmAll, Trimmed, Exhausted;
    var ids := StalePoolIds(s, poolMs, |s.bookings|);
    var mid := SweepPool(s, poolMs);
    PoolsAreExhausted(s, ids, b);
    StalePoolIdsAreStale(s, poolMs, |s.bookings|);
    if Pooled(s, b, latest) && latest + poolMs < s.now {
      OverduePoolIsStale(s, b, latest, poolMs);
    }
    if s.bookings[b].status == DispatchingPool && b in ids {
      ExhaustionCloses(s, mid, b, latest);
      ExhaustedNow(s, mid, b);
    } else {
      TrimKeepsStage(s, mid, b, latest);
      TrimmedBooking(s, mid, b, {});
    }
    OthersAreConfirmed(mid, StaleAssignedIds(mid, |mid.bookings|), b);
    TrimKeepsStage(mid, SweepAssigned(mid), b, latest);
    TrimmedBooking(mid, SweepAssigned(mid), b, {});
  }

  lemma ExhaustedNow(s: State, t: State, b: BookingId)
    requires Exhausted(s, t, b)
    ensures t.now == s.now
  {
  }

  lemma Top3SweepOn(s: State, b: BookingId, latest: nat, top3Ms: nat, ranking: Ranking)
    requires Orphaned(s, b, latest) || Pooled(s, b, latest) || Closed(s, b)
    ensures var t := SweepTop3(s, top3Ms, ranking);
            && t.now == s.now
            && (Orphaned(s, b, latest) ==> Orphaned(t, b, latest) || Pooled(t, b, s.now) || Closed(t, b))
            && (Orphaned(s, b, latest) && latest + top3Ms < s.now ==> Pooled(t, b, s.now) || Closed(t, b))
            && (Pooled(s, b, latest) ==> Pooled(t, b, latest))
            && (Closed(s, b) ==> Closed(t, b))
  {
    hide CloseStaleRows, SweepTop3;
    var t, ids := SweepTop3(s, top3Ms, ranking), StaleTop3Ids(s, top3Ms, |s.offers|);
    Top3SweepIs(s, top3Ms, ranking, b);
    StaleIdsAreStale(s, top3Ms, |s.offers|);
    if WillMoveOn(s, b, ids) {
      MoveOnEndsOrphan(s, t, b, ranking(b), latest);
    } else if Orphaned(s, b, latest) {
      TrimKeepsOrphan(s, t, b, ids, latest);
      if latest + top3Ms < s.now {
        OverdueMovesOn(s, b, latest, top3Ms);
      }
    } else {
      TrimsNothing(s, b, ids);
      TrimKeepsStage(s, t, b, latest);
    }
  }

  lemma OverdueMovesOn(s: State, b: BookingId, latest: nat, top3Ms: nat)
    requires Orphaned(s, b, latest) && latest + top3Ms < s.now
    ensures HasOpenTop3(s.offers, b)
    ensures forall i: nat | i < |s.offers| && OpenTop3(s.offers[i], b) :: s.offers[i].offeredAt + top3Ms < s.now
  {
  }

  lemma CloseWritesRow(s: State, o: OfferId, ranking: Ranking)
    requires o < |s.offers|
    ensures o < |CloseStale(s, o, ranking).offers| && CloseStale(s, o, ranking).offers[o] == ClosedOffer(s.offers[o])
  {
    hide Untried, Tried, HasOpenTop3, Stamped;
  }

  lemma CloseKeepsAssignees(s: State, o: OfferId, ranking: Ranking, b: BookingId)
    requires o < |s.offers| && b < |s.bookings|
    ensures var t := CloseStale(s, o, ranking);
            && b < |t.bookings| && t.bookings[b].assignee == s.bookings[b].assignee
            && (forall i: nat | |s.offers| <= i < |t.offers| :: t.offers[i].outcome == Offered)
  {
    var closed, c := SetOutcome(s, o, TimedOut), s.offers[o].booking;
    MoveOnKeepsAssignees(closed, c, ranking(c), b);
    hide MoveOn, HasOpenTop3;
  }

  lemma MoveOnKeepsAssignees(s: State, c: BookingId, ranked: seq<WorkerId>, b: BookingId)
    requires b < |s.bookings|
    ensures var t := MoveOn(s, c, ranked);
            && b < |t.bookings| && t.bookings[b].assignee == s.bookings[b].assignee
            && |s.offers| <= |t.offers|
            && (forall i: nat | |s.offers| <= i < |t.offers| :: t.offers[i].outcome == Offered)
  {
    TransitionKeepsAssignees(s, c, DispatchingPool, b);
    TransitionKeepsAssignees(Transition(s, c, DispatchingPool), c, Cancelled, b);
    hide Untried, Tried, Transition;
  }

  lemma TransitionKeepsAssignees(s: State, c: BookingId, next: BookingStatus, b: BookingId)
    requires b < |s.bookings|
    ensures var t := Transition(s, c, next);
            && t.offers == s.offers && b < |t.bookings| && t.bookings[b].assignee == s.bookings[b].assignee
  {
  }

  /** Each row is closed without looking at it again. For a booking in any status, that takes the trace of the
      acceptance out of the log exactly when the row was its only accepting one. */
  lemma CloseKeepsAcceptanceIff(s: State, o: OfferId, ranking: Ranking, b: BookingId)
    requires o < |s.offers| && b < |s.bookings|
    ensures var t := CloseStale(s, o, ranking);
            && o < |t.offers| && t.offers[o] == ClosedOffer(s.offers[o])
            && (AcceptanceLogged(t, b) <==> AcceptedBesides(s, b, o))
  {
    var t := CloseStale(s, o, ranking);
    CloseWritesRow(s, o, ranking);
    CloseStaleKeepsRows(s, o, ranking);
    CloseKeepsAssignees(s, o, ranking, b);
    hide CloseStale;
    if AcceptanceLogged(t, b) {
      var i: nat :| i < |t.offers| && Accepting(t, b, i);
      assert i < |s.offers| && i != o && Accepting(s, b, i);
    }
    if i: nat :| i < |s.offers| && i != o && Accepting(s, b, i) {
      assert Accepting(t, b, i);
    }
  }

  /** The case that happens: the worker accepts after the sweep has listed the row. */
  lemma LateCloseOverwritesAcceptance(s: State, o: OfferId, w: WorkerId, ranking: Ranking)
    requires Accept(s, o, w).1 == Ok
    ensures var t := CloseStale(Accept(s, o, w).0, o, ranking);
            var b := s.offers[o].booking;
            && t.offers[o].outcome == TimedOut
            && b < |t.bookings| && t.bookings[b].status == Assigned && t.bookings[b].assignee == Some(w)
  {
    hide MoveOn;
  }

  // Whole runs, with sweeps among all that happens to other bookings.

  /** A run of the sweep, with the candidates as they were ranked then, or any other step. */
  datatype Happening = Swept(ranking: Ranking) | Happened(event: Event)

  function After(s: State, h: Happening, top3Ms: nat, poolMs: nat): State {
    match h
    case Swept(ranking) => Sweep(s, top3Ms, poolMs, ranking)
    case Happened(e) => Step(s, e)
  }

  function Play(s: State, hs: seq<Happening>, top3Ms: nat, poolMs: nat): State
    decreases |hs|
  {
    if hs == [] then s else Play(After(s, hs[0], top3Ms, poolMs), hs[1..], top3Ms, poolMs)
  }

  /** The time at which the i-th thing happens. */
  function ClockAt(s: State, hs: seq<Happening>, top3Ms: nat, poolMs: nat, i: nat): nat
    requires i <= |hs|
    decreases i
  {
    if i == 0 then s.now else ClockAt(After(s, hs[0], top3Ms, poolMs), hs[1..], top3Ms, poolMs, i - 1)
  }

  /** A step that is neither an answer to an offer of booking b nor an action on booking b. */
  predicate Bystander(s: State, e: Event, b: BookingId) {
    match e
    case Respond(o, _, _) => o < |s.offers| ==> s.offers[o].booking != b
    case ExpireOffer(o) => o < |s.offers| ==> s.offers[o].booking != b
    case StartDispatch(c) => c != b
    case SendOffer(c, _, _) => c != b
    case OpenPool(c) => c != b
    case ExhaustPool(c) => c != b
    case AutoConfirm(c) => c != b
    case ForceAssign(c, _) => c != b
    case CancelBooking(c, _) => c != b
    case AdminCancel(c) => c != b
    case StartWork(c, _) => c != b
    case CompleteWork(c, _, _) => c != b
    case RecordPayment(c, _, _) => c != b
    case SubmitReview(c, _, _) => c != b
    case _ => true
  }

  /** Nobody answers booking b's offers and nobody acts on it, but for the sweeps. */
  predicate LeftAlone(s: State, hs: seq<Happening>, top3Ms: nat, poolMs: nat, b: BookingId)
    decreases |hs|
  {
    hs != [] ==>
      && (hs[0].Happened? ==> Bystander(s, hs[0].event, b))
      && LeftAlone(After(s, hs[0], top3Ms, poolMs), hs[1..], top3Ms, poolMs, b)
  }

  predicate SameRows(before: seq<Offer>, after: seq<Offer>, b: BookingId) {
    && |before| <= |after|
    && (forall i: nat | i < |before| ::
          after[i].booking == before[i].booking && (before[i].booking == b ==> after[i] == before[i]))
    && (forall i: nat | |before| <= i < |after| :: after[i].booking != b)
  }

  lemma AnswerElsewhereKeepsRows(s: State, e: Event, b: BookingId)
    requires Bystander(s, e, b) && (e.Respond? || e.ExpireOffer?)
    ensures SameRows(s.offers, Step(s, e).offers, b)
  {
    if e.Respond? {
      RespondAnswers(s, e.offer, e.worker, e.accept);
    } else {
      assert Step(s, e) == OfferExpired(s, e.offer);
    }
    hide Step;
  }

  lemma OfferElsewhereKeepsRows(s: State, e: Event, b: BookingId)
    requires Bystander(s, e, b) && (e.SendOffer? || e.ExhaustPool?)
    ensures SameRows(s.offers, Step(s, e).offers, b)
  {
    if e.SendOffer? {
      assert Step(s, e) == OfferSent(s, e.booking, e.worker, e.attempt);
    } else {
      assert Step(s, e) == PoolExhausted(s, e.booking);
    }
    hide Step;
  }

  lemma ForceElsewhereKeepsRows(s: State, c: BookingId, w: WorkerId, b: BookingId)
    requires c != b
    ensures SameRows(s.offers, Step(s, ForceAssign(c, w)).offers, b)
  {
  }

  lemma BystanderKeepsRows(s: State, e: Event, b: BookingId)
    requires Bystander(s, e, b)
    ensures SameRows(s.offers, Step(s, e).offers, b)
  {
    hide Step;
    match e
    case Respond(_, _, _) => AnswerElsewhereKeepsRows(s, e, b);
    case ExpireOffer(_) => AnswerElsewhereKeepsRows(s, e, b);
    case SendOffer(_, _, _) => OfferElsewhereKeepsRows(s, e, b);
    case ExhaustPool(_) => OfferElsewhereKeepsRows(s, e, b);
    case ForceAssign(c, w) => ForceElsewhereKeepsRows(s, c, w, b);
    case SubmitReview(_, _, _) => ReviewEventKeepsLog(s, e);
    case RecordPayment(_, _, _) => ReviewEventKeepsLog(s, e);
    case CancelBooking(_, _) => BookingEventKeepsLog(s, e);
    case AdminCancel(_) => BookingEventKeepsLog(s, e);
    case CompleteWork(_, _, _) => BookingEventKeepsLog(s, e);
    case StartWork(_, _) => MoveEventKeepsLog(s, e);
    case AutoConfirm(_) => MoveEventKeepsLog(s, e);
    case StartDispatch(_) => MoveEventKeepsLog(s, e);
    case OpenPool(_) => MoveEventKeepsLog(s, e);
    case _ => OtherEventKeepsLog(s, e);
  }

  lemma BystanderUntouches(s: State, e: Event, b: BookingId)
    requires b < |s.bookings| && Bystander(s, e, b)
    ensures Untouched(s, Step(s, e), b) && s.now <= Step(s, e).now
  {
    hide Step;
    BookingChanges.StepMakesChange(s, e);
    BystanderKeepsRows(s, e, b);
  }

  predicate InStage(s: State, b: BookingId, latest: nat) {
    Orphaned(s, b, latest) || Pooled(s, b, latest) || Closed(s, b)
  }

  lemma SweepOn(s: State, b: BookingId, latest: nat, top3Ms: nat, poolMs: nat, ranking: Ranking)
    requires InStage(s, b, latest)
    ensures var t := Sweep(s, top3Ms, poolMs, ranking);
            && t.now == s.now
            && (Orphaned(s, b, latest) ==> Orphaned(t, b, latest) || Pooled(t, b, s.now) || Closed(t, b))
            && (Orphaned(s, b, latest) && latest + top3Ms < s.now ==> Pooled(t, b, s.now) || Closed(t, b))
            && (Pooled(s, b, latest) ==> Pooled(t, b, latest) || Closed(t, b))
            && (Pooled(s, b, latest) && latest + poolMs < s.now ==> Closed(t, b))
            && (Closed(s, b) ==> Closed(t, b))
  {
    hide SweepTop3, SweepPool, SweepAssigned;
    Top3SweepOn(s, b, latest, top3Ms, ranking);
    var t := SweepTop3(s, top3Ms, ranking);
    if Pooled(s, b, latest) || Orphaned(t, b, latest) {
      LaterSweepsOn(t, b, latest, poolMs);
    } else {
      LaterSweepsOn(t, b, s.now, poolMs);
    }
  }

  /** One thing more happens: the stage stays or advances, and the clock does not go back. */
  lemma AfterOn(s: State, b: BookingId, latest: nat, top3Ms: nat, poolMs: nat, h: Happening)
    requires InStage(s, b, latest) && (h.Happened? ==> Bystander(s, h.event, b))
    ensures var t := After(s, h, top3Ms, poolMs);
            && s.now <= t.now
            && (Orphaned(s, b, latest) ==> Orphaned(t, b, latest) || Pooled(t, b, s.now) || Closed(t, b))
            && (Orphaned(s, b, latest) && h.Swept? && latest + top3Ms < s.now ==> Pooled(t, b, s.now) || Closed(t, b))
            && (Pooled(s, b, latest) ==> Pooled(t, b, latest) || Closed(t, b))
            && (Pooled(s, b, latest) && h.Swept? && latest + poolMs < s.now ==> Closed(t, b))
            && (Closed(s, b) ==> Closed(t, b))
  {
    hide Sweep, Step, Orphaned, Pooled, Closed;
    match h
    case Swept(ranking) => SweepOn(s, b, latest, top3Ms, poolMs, ranking);
    case Happened(e) =>
      StageHasBooking(s, b, latest);
      BystanderUntouches(s, e, b);
      UntouchedKeepsStage(s, Step(s, e), b, latest);
  }

  lemma StageHasBooking(s: State, b: BookingId, latest: nat)
    requires InStage(s, b, latest)
    ensures b < |s.bookings|
  {
  }

  lemma {:induction false} PooledIsCancelled(s: State, b: BookingId, latest: nat, top3Ms: nat, poolMs: nat,
                                             hs: seq<Happening>, j: nat)
    requires LeftAlone(s, hs, top3Ms, poolMs, b) && j < |hs| && hs[j].Swept?
    requires Closed(s, b) || (Pooled(s, b, latest) && latest + poolMs < ClockAt(s, hs, top3Ms, poolMs, j))
    ensures Closed(Play(s, hs, top3Ms, poolMs), b)
    decreases |hs|
  {
    hide After, Closed, Pooled, Orphaned;
    var t := After(s, hs[0], top3Ms, poolMs);
    AfterOn(s, b, latest, top3Ms, poolMs, hs[0]);
    if Closed(t, b) {
      ClosedStays(t, b, top3Ms, poolMs, hs[1..]);
    } else {
      PooledIsCancelled(t, b, latest, top3Ms, poolMs, hs[1..], j - 1);
    }
  }

  lemma {:induction false} ClosedStays(s: State, b: BookingId, top3Ms: nat, poolMs: nat, hs: seq<Happening>)
    requires LeftAlone(s, hs, top3Ms, poolMs, b) && Closed(s, b)
    ensures Closed(Play(s, hs, top3Ms, poolMs), b)
    decreases |hs|
  {
    hide After, Closed, Pooled, Orphaned;
    if hs != [] {
      AfterOn(s, b, 0, top3Ms, poolMs, hs[0]);
      ClosedStays(After(s, hs[0], top3Ms, poolMs), b, top3Ms, poolMs, hs[1..]);
    }
  }

  lemma {:induction false} ClockGoesOn(s: State, b: BookingId, latest: nat, top3Ms: nat, poolMs: nat,
                                       hs: seq<Happening>, i: nat)
    requires LeftAlone(s, hs, top3Ms, poolMs, b) && InStage(s, b, latest) && i <= |hs|
    ensures s.now <= ClockAt(s, hs, top3Ms, poolMs, i)
    decreases i
  {
    hide After, Closed, Pooled, Orphaned;
    if i > 0 {
      var t := After(s, hs[0], top3Ms, poolMs);
      AfterOn(s, b, latest, top3Ms, poolMs, hs[0]);
      ClockGoesOn(t, b, if Pooled(t, b, s.now) then s.now else latest, top3Ms, poolMs, hs[1..], i - 1);
    }
  }

  /** A booking left behind by a crash in the top-3 phase, when nobody answers its offers or acts on it, whatever
      happens to all other bookings and workers and however often the sweep runs: once a sweep has run past
      every top-3 deadline and a later one past the pool deadline counted from that one, it is cancelled and
      none of its offers is open. */
  lemma {:induction false} OrphanIsCancelled(s: State, b: BookingId, latest: nat, top3Ms: nat, poolMs: nat,
                                             hs: seq<Happening>, i: nat, j: nat)
    requires Orphaned(s, b, latest) && LeftAlone(s, hs, top3Ms, poolMs, b)
    requires i < j < |hs| && hs[i].Swept? && hs[j].Swept?
    requires latest + top3Ms < ClockAt(s, hs, top3Ms, poolMs, i)
    requires ClockAt(s, hs, top3Ms, poolMs, i) + poolMs < ClockAt(s, hs, top3Ms, poolMs, j)
    ensures Closed(Play(s, hs, top3Ms, poolMs), b)
    decreases |hs|
  {
    hide After, Closed, Pooled, Orphaned;
    var t := After(s, hs[0], top3Ms, poolMs);
    AfterOn(s, b, latest, top3Ms, poolMs, hs[0]);
    ClockGoesOn(s, b, latest, top3Ms, poolMs, hs, i);
    if Orphaned(t, b, latest) && i > 0 {
      OrphanIsCancelled(t, b, latest, top3Ms, poolMs, hs[1..], i - 1, j - 1);
    } else {
      PooledIsCancelled(t, b, s.now, top3Ms, poolMs, hs[1..], j - 1);
    }
  }

  /** Exactly when one sweep takes a booking out of DISPATCHING_TOP3. */
  lemma LeavesTop3Iff(s: State, top3Ms: nat, poolMs: nat, ranking: Ranking, b: BookingId)
    requires b < |s.bookings| && s.bookings[b].status == DispatchingTop3
    ensures var t := Sweep(s, top3Ms, poolMs, ranking);
            && b < |t.bookings|
            && (t.bookings[b].status != DispatchingTop3 <==>
                  && (exists i: nat :: && i < |s.offers| && Pending(s.offers[i], b)
                                       && s.offers[i].attempt !in {Pool, AdminOverride})
                  && (forall i: nat | i < |s.offers| && Pending(s.offers[i], b)
                                      && s.offers[i].attempt !in {Pool, AdminOverride} ::
                        s.offers[i].offeredAt + top3Ms < s.now))
            && (!HasOpenTop3(s.offers, b) ==> !HasOpenTop3(t.offers, b))
  {
    hide CloseStaleRows, SweepTop3, ExhaustPools, ConfirmAll;
    var mid := SweepTop3(s, top3Ms, ranking);
    Top3SweepIs(s, top3Ms, ranking, b);
    var last := SweepPool(mid, poolMs);
    PoolsAreExhausted(mid, StalePoolIds(mid, poolMs, |mid.bookings|), b);
    OthersAreConfirmed(last, StaleAssignedIds(last, |last.bookings|), b);
    forall i: nat | i < |s.offers|
      ensures OpenTop3(s.offers[i], b) <==> Pending(s.offers[i], b) && s.offers[i].attempt !in {Pool, AdminOverride}
    {
    }
  }

  predicate HasOpenPool(offers: seq<Offer>, b: BookingId) {
    exists i | 0 <= i < |offers| :: OpenPoolOffer(offers[i], b)
  }

  lemma StaleIsOpen(s: State, b: BookingId, poolMs: nat)
    ensures HasStalePool(s, b, poolMs) ==> HasOpenPool(s.offers, b)
  {
    if i :| 0 <= i < |s.offers| && StalePool(s.offers[i], b, poolMs, s.now) {
      assert OpenPoolOffer(s.offers[i], b);
    }
  }

  /** Exactly when one sweep takes a booking out of DISPATCHING_POOL. */
  lemma LeavesPoolIff(s: State, top3Ms: nat, poolMs: nat, ranking: Ranking, b: BookingId)
    requires b < |s.bookings| && s.bookings[b].status == DispatchingPool
    ensures var t := Sweep(s, top3Ms, poolMs, ranking);
            && b < |t.bookings|
            && (t.bookings[b].status != DispatchingPool <==>
                  exists i: nat :: && i < |s.offers| && s.offers[i].booking == b && s.offers[i].attempt == Pool
                                   && s.offers[i].outcome == Offered && s.offers[i].offeredAt + poolMs < s.now)
            && (!HasOpenPool(s.offers, b) ==> !HasOpenPool(t.offers, b))
  {
    hide CloseStaleRows, SweepTop3, ExhaustPools, ConfirmAll;
    var mid := SweepTop3(s, top3Ms, ranking);
    Top3SweepIs(s, top3Ms, ranking, b);
    StaleIdsAreStale(s, top3Ms, |s.offers|);
    TrimKeepsPool(s, mid, b, StaleTop3Ids(s, top3Ms, |s.offers|), poolMs);
    var last := SweepPool(mid, poolMs);
    StalePoolIdsAreStale(mid, poolMs, |mid.bookings|);
    PoolsAreExhausted(mid, StalePoolIds(mid, poolMs, |mid.bookings|), b);
    OthersAreConfirmed(last, StaleAssignedIds(last, |last.bookings|), b);
    if HasStalePool(mid, b, poolMs) {
      ExhaustedKeepsNoPool(mid, last, b);
    } else {
      TrimKeepsNoPool(mid, last, b, {});
    }
    TrimKeepsNoPool(last, SweepAssigned(last), b, {});
  }

  lemma TrimKeepsNoPool(s: State, t: State, b: BookingId, closed: set<OfferId>)
    requires Trimmed(s, t, b, closed)
    ensures HasOpenPool(t.offers, b) ==> HasOpenPool(s.offers, b)
  {
    if i :| 0 <= i < |t.offers| && OpenPoolOffer(t.offers[i], b) {
      assert OpenPoolOffer(s.offers[i], b);
    }
  }

  lemma ExhaustedKeepsNoPool(s: State, t: State, b: BookingId)
    requires Exhausted(s, t, b)
    ensures HasOpenPool(t.offers, b) ==> HasOpenPool(s.offers, b)
  {
    if i :| 0 <= i < |t.offers| && OpenPoolOffer(t.offers[i], b) {
      assert OpenPoolOffer(s.offers[i], b);
    }
  }

  /** Closing top-3 rows touches no pool row. */
  lemma TrimKeepsPool(s: State, t: State, b: BookingId, ids: seq<OfferId>, poolMs: nat)
    requires OpenIds(s, ids) && Trimmed(s, t, b, OwnIds(s, b, ids))
    ensures HasStalePool(t, b, poolMs) <==> HasStalePool(s, b, poolMs)
    ensures HasOpenPool(t.offers, b) <==> HasOpenPool(s.offers, b)
  {
    forall i: nat | i < |s.offers| && OpenPoolOffer(s.offers[i], b)
      ensures i !in ids
    {
    }
    forall i: nat | i < |t.offers|
      ensures OpenPoolOffer(t.offers[i], b) <==> i < |s.offers| && OpenPoolOffer(s.offers[i], b)
      ensures i < |s.offers| && s.offers[i].booking == b ==> t.offers[i].offeredAt == s.offers[i].offeredAt
    {
    }
    if HasStalePool(s, b, poolMs) {
      var i :| 0 <= i < |s.offers| && StalePool(s.offers[i], b, poolMs, s.now);
      assert StalePool(t.offers[i], b, poolMs, t.now);
    }
    if HasOpenPool(s.offers, b) {
      var i :| 0 <= i < |s.offers| && OpenPoolOffer(s.offers[i], b);
      assert OpenPoolOffer(t.offers[i], b);
    }
  }

  lemma {:induction false} ListedAreConfirmed(s: State, ids: seq<BookingId>, b: BookingId)
    requires b < |s.bookings| && s.bookings[b].status == Assigned
    ensures b < |ConfirmAll(s, ids).bookings|
    ensures ConfirmAll(s, ids).bookings[b] ==
            if b in ids then Stamped(s.bookings[b], Confirmed, s.now) else s.bookings[b]
    decreases |ids|
  {
    if ids != [] {
      var t := AutoConfirmed(s, ids[0]);
      if ids[0] == b {
        OthersAreConfirmed(t, ids[1..], b);
      } else {
        ListedAreConfirmed(t, ids[1..], b);
      }
    }
  }

  /** Exactly when one sweep confirms an ASSIGNED booking. */
  lemma ConfirmedIff(s: State, top3Ms: nat, poolMs: nat, ranking: Ranking, b: BookingId)
    requires b < |s.bookings| && s.bookings[b].status == Assigned
    ensures var t := Sweep(s, top3Ms, poolMs, ranking);
            && b < |t.bookings|
            && t.bookings[b].status == (if s.bookings[b].updatedAt + 60_000 < s.now then Confirmed else Assigned)
            && (t.bookings[b].status == Assigned ==> t.bookings[b] == s.bookings[b])
  {
    hide CloseStaleRows, SweepTop3, ExhaustPools, ConfirmAll;
    var mid := SweepTop3(s, top3Ms, ranking);
    Top3SweepIs(s, top3Ms, ranking, b);
    var last := SweepPool(mid, poolMs);
    PoolsAreExhausted(mid, StalePoolIds(mid, poolMs, |mid.bookings|), b);
    StaleAssignedIdsAreStale(last, |last.bookings|);
    ListedAreConfirmed(last, StaleAssignedIds(last, |last.bookings|), b);
  }

  /** A sweep leaves every other booking as it is. */
  lemma OtherStatusesAreLeft(s: State, top3Ms: nat, poolMs: nat, ranking: Ranking, b: BookingId)
    requires b < |s.bookings| && s.bookings[b].status !in {DispatchingTop3, DispatchingPool, Assigned}
    ensures var t := Sweep(s, top3Ms, poolMs, ranking);
            b < |t.bookings| && t.bookings[b] == s.bookings[b]
  {
    hide CloseStaleRows, SweepTop3, ExhaustPools, ConfirmAll;
    var mid := SweepTop3(s, top3Ms, ranking);
    Top3SweepIs(s, top3Ms, ranking, b);
    var last := SweepPool(mid, poolMs);
    PoolsAreExhausted(mid, StalePoolIds(mid, poolMs, |mid.bookings|), b);
    OthersAreConfirmed(last, StaleAssignedIds(last, |last.bookings|), b);
  }

  predicate Waiting(status: BookingStatus) { status == Requested || Dispatching(status) }

  /** No open offer tells the sweep of the booking: it finds bookings through stale offers of their phase only. */
  predicate Stranded(s: State, b: BookingId) {
    b < |s.bookings| &&
    match s.bookings[b].status
    case Requested => true
    case DispatchingTop3 => !HasOpenTop3(s.offers, b)
    case DispatchingPool => !HasOpenPool(s.offers, b)
    case _ => false
  }

  /** Some later sweep takes the booking out of its status. */
  ghost predicate PickedUpLater(s: State, top3Ms: nat, poolMs: nat, b: BookingId)
    requires b < |s.bookings|
  {
    exists later: nat, ranking: Ranking :: later >= s.now && PickedUpAt(s, top3Ms, poolMs, b, later, ranking)
  }

  predicate PickedUpAt(s: State, top3Ms: nat, poolMs: nat, b: BookingId, later: nat, ranking: Ranking)
    requires b < |s.bookings|
  {
    var t := Sweep(s.(now := later), top3Ms, poolMs, ranking);
    b < |t.bookings| && t.bookings[b].status != s.bookings[b].status
  }

  function LatestOffer(offers: seq<Offer>): (latest: nat)
    ensures forall i | 0 <= i < |offers| :: offers[i].offeredAt <= latest
  {
    if offers == [] then 0
    else
      var n := |offers| - 1;
      var before := LatestOffer(offers[..n]);
      if before < offers[n].offeredAt then offers[n].offeredAt else before
  }

  /** The exact reach of the recovery: a waiting booking is picked up by some later sweep if and only if it
      is not stranded. */
  lemma PickedUpIff(s: State, top3Ms: nat, poolMs: nat, b: BookingId)
    requires b < |s.bookings| && Waiting(s.bookings[b].status)
    ensures PickedUpLater(s, top3Ms, poolMs, b) <==> !Stranded(s, b)
  {
    hide Sweep;
    if Stranded(s, b) {
      forall later: nat, ranking: Ranking
        ensures !PickedUpAt(s, top3Ms, poolMs, b, later, ranking)
      {
        StrandedIsLeft(s.(now := later), top3Ms, poolMs, ranking, b);
      }
    } else {
      var later := s.now + LatestOffer(s.offers) + top3Ms + poolMs + 1;
      LatestPickUp(s, top3Ms, poolMs, b, later, (_: BookingId) => []);
    }
  }

  lemma LatestPickUp(s: State, top3Ms: nat, poolMs: nat, b: BookingId, later: nat, ranking: Ranking)
    requires b < |s.bookings| && Waiting(s.bookings[b].status) && !Stranded(s, b)
    requires LatestOffer(s.offers) + top3Ms + poolMs < later
    ensures PickedUpAt(s, top3Ms, poolMs, b, later, ranking)
  {
    hide Sweep;
    var s' := s.(now := later);
    if s.bookings[b].status == DispatchingTop3 {
      LeavesTop3Iff(s', top3Ms, poolMs, ranking, b);
    } else {
      LeavesPoolIff(s', top3Ms, poolMs, ranking, b);
      var i :| 0 <= i < |s.offers| && OpenPoolOffer(s.offers[i], b);
      assert StalePool(s'.offers[i], b, poolMs, s'.now);
    }
  }

  lemma StrandedIsLeft(s: State, top3Ms: nat, poolMs: nat, ranking: Ranking, b: BookingId)
    requires Stranded(s, b)
    ensures var t := Sweep(s, top3Ms, poolMs, ranking);
            && Stranded(t, b) && t.bookings[b].status == s.bookings[b].status
  {
    hide Sweep;
    match s.bookings[b].status
    case Requested => OtherStatusesAreLeft(s, top3Ms, poolMs, ranking, b);
    case DispatchingTop3 => LeavesTop3Iff(s, top3Ms, poolMs, ranking, b);
    case DispatchingPool =>
      LeavesPoolIff(s, top3Ms, poolMs, ranking, b);
      StaleIsOpen(s, b, poolMs);
    case _ =>
  }

  lemma UntouchedKeepsStranded(s: State, t: State, b: BookingId)
    requires Untouched(s, t, b) && Stranded(s, b)
    ensures Stranded(t, b) && t.bookings[b] == s.bookings[b]
  {
    UntouchedKeepsStage(s, t, b, 0);
    if i :| 0 <= i < |t.offers| && OpenPoolOffer(t.offers[i], b) {
      assert OpenPoolOffer(s.offers[i], b);
    }
  }

  /** A stranded booking stays where it is, however often the sweep runs and whatever happens to all others. */
  lemma {:induction false} StrandedIsStuck(s: State, top3Ms: nat, poolMs: nat, hs: seq<Happening>, b: BookingId)
    requires Stranded(s, b) && LeftAlone(s, hs, top3Ms, poolMs, b)
    ensures var t := Play(s, hs, top3Ms, poolMs);
            Stranded(t, b) && t.bookings[b].status == s.bookings[b].status
    decreases |hs|
  {
    hide Sweep, Step;
    if hs != [] {
      match hs[0] {
        case Swept(ranking) => StrandedIsLeft(s, top3Ms, poolMs, ranking, b);
        case Happened(e) =>
          BystanderUntouches(s, e, b);
          UntouchedKeepsStranded(s, Step(s, e), b);
      }
      StrandedIsStuck(After(s, hs[0], top3Ms, poolMs), top3Ms, poolMs, hs[1..], b);
    }
  }

  /** A booking whose crash left no open top-3 offer is never picked up, however often the sweep runs. */
  lemma BookingWithoutOfferIsStuck(s: State, top3Ms: nat, poolMs: nat, hs: seq<Happening>, b: BookingId)
    requires b < |s.bookings| && s.bookings[b].status == DispatchingTop3 && !HasOpenTop3(s.offers, b)
    requires LeftAlone(s, hs, top3Ms, poolMs, b)
    ensures b < |Play(s, hs, top3Ms, poolMs).bookings|
    ensures Play(s, hs, top3Ms, poolMs).bookings[b].status == DispatchingTop3
  {
    StrandedIsStuck(s, top3Ms, poolMs, hs, b);
  }

  /** Nor is one whose crash in the pool phase left no open pool offer. */
  lemma PoolWithoutOfferIsStuck(s: State, top3Ms: nat, poolMs: nat, hs: seq<Happening>, b: BookingId)
    requires b < |s.bookings| && s.bookings[b].status == DispatchingPool && !HasOpenPool(s.offers, b)
    requires LeftAlone(s, hs, top3Ms, poolMs, b)
    ensures b < |Play(s, hs, top3Ms, poolMs).bookings|
    ensures Play(s, hs, top3Ms, poolMs).bookings[b].status == DispatchingPool
  {
    StrandedIsStuck(s, top3Ms, poolMs, hs, b);
  }

  /** The engine passes through a stranded state at the start of every phase: it writes the status first and the
      offers of the phase, if there are any, afterwards. */
  lemma EveryPhaseStartsStranded(s: State, customer: CustomerId, total: nat, b: BookingId)
    ensures Stranded(Step(s, RequestBooking(customer, total)), |s.bookings|)
    ensures b < |s.bookings| && s.bookings[b].status == Requested && !HasOpenTop3(s.offers, b) ==>
              Stranded(Step(s, StartDispatch(b)), b)
    ensures b < |s.bookings| && s.bookings[b].status == DispatchingTop3 && !HasOpenPool(s.offers, b) ==>
              Stranded(Step(s, OpenPool(b)), b)
  {
    if b < |s.bookings| {
      MoveEventKeepsLog(s, StartDispatch(b));
      MoveEventKeepsLog(s, OpenPool(b));
      BookingChanges.StepMakesChange(s, StartDispatch(b));
      BookingChanges.StepMakesChange(s, OpenPool(b));
    }
    hide Step;
    BookingChanges.StepMakesChange(s, RequestBooking(customer, total));
  }

  lemma {:induction false} UntriedAreUntried(ranked: seq<WorkerId>, tried: set<WorkerId>)
    ensures forall w :: w in Untried(ranked, tried) <==> w in ranked && w !in tried
  {
    if ranked != [] {
      UntriedAreUntried(ranked[1..], tried);
      forall w
        ensures w in ranked <==> w == ranked[0] || w in ranked[1..]
      {
      }
    }
  }

  /** No offer of booking b was ever made to worker w. */
  predicate NewTo(offers: seq<Offer>, b: BookingId, w: WorkerId) {
    forall k | 0 <= k < |offers| && offers[k].booking == b :: offers[k].worker != w
  }

  /** Every offer a sweep adds for a booking is a pool offer to a ranked candidate who was not in the booking's log. */
  lemma SweepOffersOnlyNewWorkers(s: State, top3Ms: nat, poolMs: nat, ranking: Ranking, b: BookingId, i: nat)
    requires b < |s.bookings|
    ensures var t := Sweep(s, top3Ms, poolMs, ranking);
            |s.offers| <= i < |t.offers| && t.offers[i].booking == b ==>
              && t.offers[i].attempt == Pool
              && t.offers[i].worker in ranking(b) && NewTo(s.offers, b, t.offers[i].worker)
  {
    hide CloseStaleRows, SweepTop3, ExhaustPools, ConfirmAll, Untried, Tried, WillMoveOn;
    var mid := SweepTop3(s, top3Ms, ranking);
    Top3SweepIs(s, top3Ms, ranking, b);
    var last := SweepPool(mid, poolMs);
    PoolsAreExhausted(mid, StalePoolIds(mid, poolMs, |mid.bookings|), b);
    ConfirmingKeepsLog(last, StaleAssignedIds(last, |last.bookings|));
    if |s.offers| <= i < |last.offers| && last.offers[i].booking == b {
      NewRowsAreUntried(s, mid, b, top3Ms, ranking, i);
    }
  }

  /** And a booking that a sweep takes out of DISPATCHING_TOP3 is offered to all of them. */
  lemma SweepOffersNewWorkersIff(s: State, top3Ms: nat, poolMs: nat, ranking: Ranking, b: BookingId, w: WorkerId)
    requires b < |s.bookings| && s.bookings[b].status == DispatchingTop3
    requires var t := Sweep(s, top3Ms, poolMs, ranking); b < |t.bookings| && t.bookings[b].status != DispatchingTop3
    ensures var t := Sweep(s, top3Ms, poolMs, ranking);
            (exists i: nat :: |s.offers| <= i < |t.offers| && t.offers[i].booking == b && t.offers[i].worker == w) <==>
            w in ranking(b) && NewTo(s.offers, b, w)
  {
    var t := Sweep(s, top3Ms, poolMs, ranking);
    if i: nat :| |s.offers| <= i < |t.offers| && t.offers[i].booking == b && t.offers[i].worker == w {
      SweepOffersOnlyNewWorkers(s, top3Ms, poolMs, ranking, b, i);
    }
    if w in ranking(b) && NewTo(s.offers, b, w) {
      hide CloseStaleRows, SweepTop3, ExhaustPools, ConfirmAll, Untried, Tried, WillMoveOn;
      var mid := SweepTop3(s, top3Ms, ranking);
      Top3SweepIs(s, top3Ms, ranking, b);
      var last := SweepPool(mid, poolMs);
      PoolsAreExhausted(mid, StalePoolIds(mid, poolMs, |mid.bookings|), b);
      OthersAreConfirmed(last, StaleAssignedIds(last, |last.bookings|), b);
      ConfirmingKeepsLog(last, StaleAssignedIds(last, |last.bookings|));
      var i := NewWorkerHasRow(s, mid, b, ranking, w);
      assert t.offers[i].booking == b && t.offers[i].worker == w;
    }
  }

  lemma NewWorkerHasRow(s: State, t: State, b: BookingId, ranking: Ranking, w: WorkerId) returns (i: nat)
    requires MovedOn(s, t, b, ranking(b)) && w in ranking(b) && NewTo(s.offers, b, w)
    ensures |s.offers| <= i < |t.offers| && t.offers[i] == PoolRow(b, w, s.now)
  {
    var untried := Untried(ranking(b), Tried(s.offers, b));
    UntriedAreUntried(ranking(b), Tried(s.offers, b));
    var k :| 0 <= k < |untried| && untried[k] == w;
    assert PoolRows(b, untried, s.now)[k] == PoolRow(b, w, s.now);
    RowsFromAre(t.offers, b, |s.offers|);
    assert PoolRow(b, w, s.now) in RowsFrom(t.offers, b, |s.offers|);
    i :| |s.offers| <= i < |t.offers| && t.offers[i] == PoolRow(b, w, s.now);
  }

  lemma {:induction false} ConfirmingKeepsLog(s: State, ids: seq<BookingId>)
    ensures ConfirmAll(s, ids).offers == s.offers
    decreases |ids|
  {
    if ids != [] {
      ConfirmingKeepsLog(AutoConfirmed(s, ids[0]), ids[1..]);
    }
  }

  lemma NewRowsAreUntried(s: State, t: State, b: BookingId, top3Ms: nat, ranking: Ranking, i: nat)
    requires SweptFor(s, t, b, StaleTop3Ids(s, top3Ms, |s.offers|), ranking)
    requires |s.offers| <= i < |t.offers| && t.offers[i].booking == b
    ensures t.offers[i].attempt == Pool && t.offers[i].worker in ranking(b) && NewTo(s.offers, b, t.offers[i].worker)
  {
    RowsFromAre(t.offers, b, |s.offers|);
    UntriedAreUntried(ranking(b), Tried(s.offers, b));
    var untried := Untried(ranking(b), Tried(s.offers, b));
    assert t.offers[i] in PoolRows(b, untried, s.now);
    var k :| 0 <= k < |untried| && PoolRows(b, untried, s.now)[k] == t.offers[i];
    assert untried[k] in untried;
  }
}
