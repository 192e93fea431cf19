/** The sweep as a run of the steps of module Steps. */
module SweepAsSteps {
  import opened Schema
  import opened BookingStateMachine
  import opened DispatchController
  import BookingController
  import opened Steps
  import Lifecycle
  import opened ReconciliationSweep
  import opened SweepEffects
  import opened CrashRecovery

  lemma {:induction false} PoolOffersAreRun(s: State, b: BookingId, workers: seq<WorkerId>)
    requires b < |s.bookings| && forall i | 0 <= i < |workers| :: workers[i] < |s.workers|
    ensures IsRun(s, s.(offers := s.offers + PoolRows(b, workers, s.now)))
    decreases |workers|
  {
    hide Step;
    if workers == [] {
      assert s.offers + PoolRows(b, [], s.now) == s.offers;
      assert Run(s, []) == s;
    } else {
      var n := |workers| - 1;
      var t := s.(offers := s.offers + PoolRows(b, workers[..n], s.now));
      PoolOffersAreRun(s, b, workers[..n]);
      SendIsStep(t, b, workers[n]);
      StepIsRun(t, SendOffer(b, workers[n], Pool));
      assert PoolRows(b, workers, s.now) == PoolRows(b, workers[..n], s.now) + [PoolRow(b, workers[n], s.now)];
      assert s.offers + PoolRows(b, workers, s.now) == t.offers + [PoolRow(b, workers[n], s.now)];
      RunThenRun(s, t, Step(t, SendOffer(b, workers[n], Pool)));
    }
  }

  lemma SendIsStep(s: State, b: BookingId, w: WorkerId)
    requires b < |s.bookings| && w < |s.workers|
    ensures Step(s, SendOffer(b, w, Pool)) == s.(offers := s.offers + [PoolRow(b, w, s.now)])
  {
  }

  lemma MoveOnIsRun(s: State, b: BookingId, ranked: seq<WorkerId>)
    requires b < |s.bookings| && s.bookings[b].status == DispatchingTop3 && s.bookings[b].assignee.None?
    requires forall w | w in ranked :: w < |s.workers|
    ensures IsRun(s, MoveOn(s, b, ranked))
  {
    var untried := Untried(ranked, Tried(s.offers, b));
    var t := Transition(s, b, DispatchingPool);
    OpenPoolIsStep(s, b);
    StepIsRun(s, OpenPool(b));
    if untried == [] {
      CancelIsStep(t, b);
      StepIsRun(t, CancelBooking(b, BookingController.ByCustomer(t.bookings[b].customer)));
      RunThenRun(s, t, Transition(t, b, Cancelled));
    } else {
      UntriedAreUntried(ranked, Tried(s.offers, b));
      forall i | 0 <= i < |untried|
        ensures untried[i] < |s.workers|
      {
        assert untried[i] in untried;
      }
      PoolOffersAreRun(t, b, untried);
      RunThenRun(s, t, MoveOn(s, b, ranked));
    }
  }

  lemma OpenPoolIsStep(s: State, b: BookingId)
    requires b < |s.bookings| && s.bookings[b].status == DispatchingTop3
    ensures Step(s, OpenPool(b)) == Transition(s, b, DispatchingPool)
  {
  }

  lemma CancelIsStep(s: State, b: BookingId)
    requires b < |s.bookings| && s.bookings[b].status == DispatchingPool && s.bookings[b].assignee.None?
    ensures var customer := s.bookings[b].customer;
            Step(s, CancelBooking(b, BookingController.ByCustomer(customer))) == Transition(s, b, Cancelled)
  {
  }

  lemma CloseStaleIsRun(s: State, o: OfferId, ranking: Ranking)
    requires o < |s.offers| && s.offers[o].outcome == Offered
    requires Lifecycle.Shape(s) && forall b, w | w in ranking(b) :: w < |s.workers|
    ensures IsRun(s, CloseStale(s, o, ranking))
    ensures Lifecycle.Shape(CloseStale(s, o, ranking)) && |CloseStale(s, o, ranking).workers| == |s.workers|
  {
    hide Step, MoveOn;
    var closed, b := SetOutcome(s, o, TimedOut), s.offers[o].booking;
    ExpireIsStep(s, o);
    StepIsRun(s, ExpireOffer(o));
    if b < |s.bookings| && s.bookings[b].status == DispatchingTop3 && !HasOpenTop3(closed.offers, b) {
      assert Lifecycle.BookingShape(s.bookings[b], |s.workers|);
      MoveOnIsRun(closed, b, ranking(b));
      MoveOnWorkers(closed, b, ranking(b));
      RunThenRun(s, closed, MoveOn(closed, b, ranking(b)));
    }
    RunsKeepShape(s, CloseStale(s, o, ranking));
  }

  lemma MoveOnWorkers(s: State, b: BookingId, ranked: seq<WorkerId>)
    ensures MoveOn(s, b, ranked).workers == s.workers
  {
    TransitionKeepsWorkers(s, b, DispatchingPool);
    TransitionKeepsWorkers(Transition(s, b, DispatchingPool), b, Cancelled);
    hide Transition, Untried, Tried;
  }

  lemma TransitionKeepsWorkers(s: State, b: BookingId, next: BookingStatus)
    ensures Transition(s, b, next).workers == s.workers
  {
  }

  lemma ExpireIsStep(s: State, o: OfferId)
    requires o < |s.offers| && s.offers[o].outcome == Offered
    ensures Step(s, ExpireOffer(o)) == SetOutcome(s, o, TimedOut)
  {
  }

  lemma RunsKeepShape(s: State, t: State)
    requires Lifecycle.Shape(s) && IsRun(s, t)
    ensures Lifecycle.Shape(t)
  {
    hide Run, Lifecycle.Shape;
    var events: seq<Event> :| Run(s, events) == t;
    Lifecycle.RunKeepsShape(s, events);
  }

  lemma {:induction false} CloseStaleRowsIsRun(s: State, ids: seq<OfferId>, ranking: Ranking)
    requires OpenIds(s, ids) && Lifecycle.Shape(s) && forall b, w | w in ranking(b) :: w < |s.workers|
    ensures IsRun(s, CloseStaleRows(s, ids, ranking))
    decreases |ids|
  {
    hide Step, CloseStale;
    if ids == [] {
      assert Run(s, []) == s;
    } else {
      var t := CloseStale(s, ids[0], ranking);
      CloseStaleIsRun(s, ids[0], ranking);
      RestIsOpen(s, ids, ranking);
      CloseStaleRowsIsRun(t, ids[1..], ranking);
      RunThenRun(s, t, CloseStaleRows(t, ids[1..], ranking));
    }
  }

  lemma {:induction false} ExhaustPoolsIsRun(s: State, ids: seq<BookingId>)
    ensures IsRun(s, ExhaustPools(s, ids))
    decreases |ids|
  {
    if ids == [] {
      assert Run(s, []) == s;
    } else {
      var t := PoolExhausted(s, ids[0]);
      assert t == Step(s, ExhaustPool(ids[0]));
      hide Step, PoolExhausted;
      StepIsRun(s, ExhaustPool(ids[0]));
      ExhaustPoolsIsRun(t, ids[1..]);
      RunThenRun(s, t, ExhaustPools(t, ids[1..]));
    }
  }

  lemma {:induction false} ConfirmAllIsRun(s: State, ids: seq<BookingId>)
    ensures IsRun(s, ConfirmAll(s, ids))
    decreases |ids|
  {
    if ids == [] {
      assert Run(s, []) == s;
    } else {
      var t := AutoConfirmed(s, ids[0]);
      assert t == Step(s, AutoConfirm(ids[0]));
      hide Step, AutoConfirmed;
      StepIsRun(s, AutoConfirm(ids[0]));
      ConfirmAllIsRun(t, ids[1..]);
      RunThenRun(s, t, ConfirmAll(t, ids[1..]));
    }
  }

  /** A whole sweep is a run of the atomic steps of module Steps, so whatever every run keeps, it keeps. */
  lemma SweepIsRun(s: State, top3Ms: nat, poolMs: nat, ranking: Ranking)
    requires Lifecycle.Shape(s) && forall b, w | w in ranking(b) :: w < |s.workers|
    ensures IsRun(s, Sweep(s, top3Ms, poolMs, ranking))
  {
    hide Step, Run, CloseStaleRows, ExhaustPools, ConfirmAll, Lifecycle.Shape, IsRun;
    StaleIdsAreStale(s, top3Ms, |s.offers|);
    var mid := SweepTop3(s, top3Ms, ranking);
    CloseStaleRowsIsRun(s, StaleTop3Ids(s, top3Ms, |s.offers|), ranking);
    var last := SweepPool(mid, poolMs);
    ExhaustPoolsIsRun(mid, StalePoolIds(mid, poolMs, |mid.bookings|));
    ConfirmAllIsRun(last, StaleAssignedIds(last, |last.bookings|));
    RunThenRun(s, mid, last);
    RunThenRun(s, last, SweepAssigned(last));
  }
}
