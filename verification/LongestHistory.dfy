/** A run of the engine and the handlers in which one booking's status changes eight times: four approved and
    available workers, three of whom refuse, and a pool offer accepted after the customer cancelled. */
module LongestHistory {
  import opened Schema
  import opened BookingController
  import ReviewController
  import WorkerController
  import opened Steps
  import opened OfferLog
  import DispatchEngine
  import opened Lifecycle

  const READY: Worker := Worker(Available, None, true, false, 0.0, 0)

  function Recruit(w: WorkerId): seq<Event> {
    [RegisterWorker, VerifyWorker(w, true), SetAvailability(w, Available)]
  }

  function Refusal(w: WorkerId, attempt: Attempt): seq<Event> {
    [SendOffer(0, w, attempt), Respond(w, w, false)]
  }

  const ASK: seq<Event> := [RequestBooking(0, 1000), StartDispatch(0)]

  const FINISH: seq<Event> := [
    OpenPool(0), SendOffer(0, 3, Pool), CancelBooking(0, ByCustomer(0)),
    Respond(3, 3, true), Tick(60000), AutoConfirm(0),
    StartWork(0, 3), CompleteWork(0, 3, 1500), SubmitReview(0, 0, ReviewController.Stars(5, 5, 5, 5))]

  const CREW: seq<Event> := Recruit(0) + Recruit(1) + Recruit(2) + Recruit(3)

  const REFUSALS: seq<Event> := Refusal(0, Attempt1) + Refusal(1, Attempt2) + Refusal(2, Attempt3)

  const HISTORY: seq<Event> := CREW + ASK + REFUSALS + FINISH

  /** A stretch of the run: where it leads and how often booking 0 changes its status on the way. */
  ghost predicate Walk(s: State, events: seq<Event>, t: State, changes: nat) {
    Run(s, events) == t && StatusChanges(s, events, 0) == changes && NoForceAssign(events)
  }

  lemma {:induction false} ChangesAdd(s: State, first: seq<Event>, second: seq<Event>, b: BookingId)
    ensures StatusChanges(s, first + second, b) == StatusChanges(s, first, b) + StatusChanges(Run(s, first), second, b)
    decreases |first|
  {
    hide Step;
    if first == [] {
      assert first + second == second;
    } else {
      assert (first + second)[1..] == first[1..] + second;
      ChangesAdd(Step(s, first[0]), first[1..], second, b);
    }
  }

  lemma WalkOn(s: State, first: seq<Event>, t: State, m: nat, second: seq<Event>, u: State, n: nat)
    requires Walk(s, first, t, m) && Walk(t, second, u, n)
    ensures Walk(s, first + second, u, m + n)
  {
    hide Run, StatusChanges;
    RunJoins(s, first, second);
    ChangesAdd(s, first, second, 0);
  }

  lemma OneStep(s: State, e: Event, changes: nat)
    requires !e.ForceAssign?
    requires changes == if && 0 < |s.bookings| && 0 < |Step(s, e).bookings|
                           && s.bookings[0].status != Step(s, e).bookings[0].status
                        then 1 else 0
    ensures Walk(s, [e], Step(s, e), changes)
  {
    hide Step;
    assert [e][1..] == [];
    assert Run(Step(s, e), []) == Step(s, e);
    assert StatusChanges(Step(s, e), [], 0) == 0;
  }

  lemma RecruitSteps(s: State)
    ensures var w := |s.workers|;
            Step(Step(Step(s, RegisterWorker), VerifyWorker(w, true)), SetAvailability(w, Available)) ==
            s.(workers := s.workers + [READY])
  {
    var w := |s.workers|;
    var hired := Step(s, RegisterWorker);
    assert hired == WorkerController.Register(s);
    var approved := Step(hired, VerifyWorker(w, true));
    assert approved == WorkerController.Verify(hired, w, true).0;
    var ready := Step(approved, SetAvailability(w, Available));
    assert ready == WorkerController.SetAvailability(approved, w, Available).0;
    hide Step;
    assert ready.workers == s.workers + [READY];
  }

  lemma RecruitRuns(s: State)
    ensures Run(s, Recruit(|s.workers|)) == s.(workers := s.workers + [READY])
  {
    hide Step;
    RecruitSteps(s);
    RunOfThree(s, RegisterWorker, VerifyWorker(|s.workers|, true), SetAvailability(|s.workers|, Available));
  }

  lemma NobodyAsked(s: State, e: Event)
    requires s.bookings == [] && (e.RegisterWorker? || e.VerifyWorker? || e.SetAvailability?)
    ensures Step(s, e).bookings == []
  {
  }

  lemma RecruitWalk(s: State)
    requires s.bookings == []
    ensures Walk(s, Recruit(|s.workers|), s.(workers := s.workers + [READY]), 0)
  {
    hide Step;
    var w := |s.workers|;
    var hired := Step(s, RegisterWorker);
    var approved := Step(hired, VerifyWorker(w, true));
    RecruitRuns(s);
    NobodyAsked(s, RegisterWorker);
    NobodyAsked(hired, VerifyWorker(w, true));
    assert Recruit(w)[1..] == [VerifyWorker(w, true), SetAvailability(w, Available)];
    assert Recruit(w)[1..][1..] == [SetAvailability(w, Available)];
    assert StatusChanges(approved, Recruit(w)[1..][1..], 0) == 0;
    assert StatusChanges(hired, Recruit(w)[1..], 0) == 0;
  }

  lemma RefusalWalk(s: State, w: WorkerId, attempt: Attempt)
    requires |s.bookings| == 1 && w < |s.workers| && w == |s.offers| && attempt != AdminOverride
    ensures Walk(s, Refusal(w, attempt), s.(offers := s.offers + [Offer(0, w, attempt, s.now, Declined)]), 0)
  {
    var sent := Step(s, SendOffer(0, w, attempt));
    assert sent == s.(offers := s.offers + [Offer(0, w, attempt, s.now, Offered)]);
    var refused := Step(sent, Respond(w, w, false));
    assert refused == s.(offers := s.offers + [Offer(0, w, attempt, s.now, Declined)]);
    hide Step;
    OneStep(s, SendOffer(0, w, attempt), 0);
    OneStep(sent, Respond(w, w, false), 0);
    WalkOn(s, [SendOffer(0, w, attempt)], sent, 0, [Respond(w, w, false)], refused, 0);
    assert Refusal(w, attempt) == [SendOffer(0, w, attempt)] + [Respond(w, w, false)];
  }

  const STAFFED: State := EmptyState.(workers := [READY, READY, READY, READY])

  lemma CrewWalk()
    ensures Walk(EmptyState, CREW, STAFFED, 0)
  {
    hide Walk;
    var s1 := EmptyState.(workers := [READY]);
    var s2 := EmptyState.(workers := [READY, READY]);
    var s3 := EmptyState.(workers := [READY, READY, READY]);
    RecruitWalk(EmptyState);
    RecruitWalk(s1);
    RecruitWalk(s2);
    RecruitWalk(s3);
    assert [] + [READY] == [READY] && [READY] + [READY] == [READY, READY];
    assert [READY, READY] + [READY] == [READY, READY, READY];
    assert [READY, READY, READY] + [READY] == [READY, READY, READY, READY];
    WalkOn(EmptyState, Recruit(0), s1, 0, Recruit(1), s2, 0);
    WalkOn(EmptyState, Recruit(0) + Recruit(1), s2, 0, Recruit(2), s3, 0);
    WalkOn(EmptyState, Recruit(0) + Recruit(1) + Recruit(2), s3, 0, Recruit(3), STAFFED, 0);
  }

  const REFUSED: seq<Offer> := [
    Offer(0, 0, Attempt1, 0, Declined), Offer(0, 1, Attempt2, 0, Declined), Offer(0, 2, Attempt3, 0, Declined)]

  const STAGES: seq<BookingStatus> := [
    DispatchingTop3, DispatchingPool, DispatchingPool, Cancelled, Assigned, Assigned, Confirmed, InProgress,
    Completed, Settled]

  /** Where the run stands after the first k events of FINISH. */
  predicate StageAt(s: State, k: nat)
    requires k < |STAGES|
  {
    && s.now == (if k < 5 then 0 else 60000)
    && |s.workers| == 4
    && (k < 4 ==> s.locks == map[])
    && (k < 9 ==> s.reviews == [])
    && s.offers == REFUSED + (if k < 2 then [] else [Offer(0, 3, Pool, 0, if k < 4 then Offered else Outcome.Accepted)])
    && |s.bookings| == 1
    && s.bookings[0].customer == 0
    && s.bookings[0].status == STAGES[k]
    && s.bookings[0].assignee == (if k < 4 then None else Some(3))
    && (k == 8 ==> 0 in s.invoices)
  }

  lemma AskWalk() returns (s: State)
    ensures StageAt(s.(offers := REFUSED), 0) && s.offers == []
    ensures Walk(STAFFED, ASK, s, 1)
  {
    var asked := Step(STAFFED, RequestBooking(0, 1000));
    s := Step(asked, StartDispatch(0));
    OneStep(STAFFED, RequestBooking(0, 1000), 0);
    OneStep(asked, StartDispatch(0), 1);
    assert StageAt(s.(offers := REFUSED), 0) && s.offers == [];
    hide Step;
    WalkOn(STAFFED, [RequestBooking(0, 1000)], asked, 0, [StartDispatch(0)], s, 1);
    assert ASK == [RequestBooking(0, 1000)] + [StartDispatch(0)];
  }

  lemma RefusalsWalk(s: State)
    requires |s.bookings| == 1 && |s.workers| == 4 && s.offers == [] && s.now == 0
    ensures Walk(s, REFUSALS, s.(offers := REFUSED), 0)
  {
    hide Walk;
    var s1, s2 := s.(offers := REFUSED[..1]), s.(offers := REFUSED[..2]);
    RefusalWalk(s, 0, Attempt1);
    RefusalWalk(s1, 1, Attempt2);
    RefusalWalk(s2, 2, Attempt3);
    assert REFUSED[..1] == [] + [REFUSED[0]] && REFUSED[..2] == REFUSED[..1] + [REFUSED[1]];
    assert REFUSED == REFUSED[..2] + [REFUSED[2]];
    WalkOn(s, Refusal(0, Attempt1), s1, 0, Refusal(1, Attempt2), s2, 0);
    WalkOn(s, Refusal(0, Attempt1) + Refusal(1, Attempt2), s2, 0, Refusal(2, Attempt3), s.(offers := REFUSED), 0);
  }

  lemma AdvanceInPool(s: State, k: nat)
    requires k < 3 && StageAt(s, k)
    ensures StageAt(Step(s, FINISH[k]), k + 1)
  {
    if k == 0 {
    } else if k == 1 {
      assert Step(s, FINISH[1]) == OfferSent(s, 0, 3, Pool);
    } else {
    }
  }

  lemma AdvanceToAccepted(s: State)
    requires StageAt(s, 3)
    ensures StageAt(Step(s, FINISH[3]), 4)
  {
    assert s.offers[3] == Offer(0, 3, Pool, 0, Offered);
    assert Step(s, FINISH[3]).offers == REFUSED + [Offer(0, 3, Pool, 0, Outcome.Accepted)];
  }

  lemma AdvanceToWork(s: State, k: nat)
    requires 4 <= k < 7 && StageAt(s, k)
    ensures StageAt(Step(s, FINISH[k]), k + 1)
  {
    if k == 4 {
    } else if k == 5 {
    } else {
    }
  }

  lemma AdvanceToCompleted(s: State)
    requires StageAt(s, 7)
    ensures StageAt(Step(s, FINISH[7]), 8)
  {
    assert FINISH[7] == CompleteWork(0, 3, 1500);
  }

  lemma AdvanceToSettled(s: State)
    requires StageAt(s, 8)
    ensures StageAt(Step(s, FINISH[8]), 9)
  {
    hide ReviewController.Rated, ReviewController.Credited, ReviewController.FeedbackShare;
  }

  lemma Advance(s: State, k: nat)
    requires k < 9 && StageAt(s, k)
    ensures StageAt(Step(s, FINISH[k]), k + 1)
  {
    hide Step, StageAt;
    if k < 3 {
      AdvanceInPool(s, k);
    } else if k == 3 {
      AdvanceToAccepted(s);
    } else if k < 7 {
      AdvanceToWork(s, k);
    } else if k == 7 {
      AdvanceToCompleted(s);
    } else {
      AdvanceToSettled(s);
    }
  }

  /** How many of the events from the k-th on change the status: all but the offer and the clock. */
  function Left(k: nat): nat
    requires k <= 9
    decreases 9 - k
  {
    if k == 9 then 0 else (if STAGES[k] != STAGES[k + 1] then 1 else 0) + Left(k + 1)
  }

  lemma {:induction false} FinishWalk(s: State, k: nat) returns (t: State)
    requires k <= 9 && StageAt(s, k)
    ensures Walk(s, FINISH[k..], t, Left(k)) && StageAt(t, 9)
    decreases 9 - k
  {
    hide Step;
    if k == 9 {
      t := s;
      assert FINISH[k..] == [];
    } else {
      Advance(s, k);
      var next := Step(s, FINISH[k]);
      t := FinishWalk(next, k + 1);
      var changes := if STAGES[k] != STAGES[k + 1] then 1 else 0;
      OneStep(s, FINISH[k], changes);
      WalkOn(s, [FINISH[k]], next, changes, FINISH[k + 1..], t, Left(k + 1));
      assert FINISH[k..] == [FINISH[k]] + FINISH[k + 1..];
    }
  }

  lemma SevenLeft()
    ensures Left(0) == 7
  {
    assert Left(9) == 0 && Left(8) == 1 && Left(7) == 2 && Left(6) == 3 && Left(5) == 4;
    assert Left(4) == 4 && Left(3) == 5 && Left(2) == 6 && Left(1) == 6;
  }

  /** The offers of the run are those the engine's plan has for the four workers, in its order. */
  lemma SentByPlan(offers: seq<Offer>)
    requires offers == REFUSED + [Offer(0, 3, Pool, 0, Outcome.Accepted)]
    ensures SentFor(offers, 0) == DispatchEngine.Plan([0, 1, 2, 3])
  {
    assert offers[..3][..2][..1][..0] == [];
    assert SentFor(offers[..3][..2][..1], 0) == [(0, Attempt1)];
    assert SentFor(offers[..3][..2], 0) == [(0, Attempt1), (1, Attempt2)];
    assert SentFor(offers[..3], 0) == [(0, Attempt1), (1, Attempt2), (2, Attempt3)];
    assert SentFor(offers, 0) == [(0, Attempt1), (1, Attempt2), (2, Attempt3), (3, Pool)];
  }

  /** Eight status changes happen without forced assignment, in a run whose offers are the engine's. */
  lemma EightChangesHappen()
    ensures NoForceAssign(HISTORY) && StatusChanges(EmptyState, HISTORY, 0) == 8
    ensures SentFor(Run(EmptyState, HISTORY).offers, 0) == DispatchEngine.Plan([0, 1, 2, 3])
  {
    hide Run, StatusChanges, Left;
    CrewWalk();
    var asked := AskWalk();
    RefusalsWalk(asked);
    var t := FinishWalk(asked.(offers := REFUSED), 0);
    SevenLeft();
    assert FINISH[0..] == FINISH;
    WalkOn(EmptyState, CREW, STAFFED, 0, ASK, asked, 1);
    WalkOn(EmptyState, CREW + ASK, asked, 1, REFUSALS, asked.(offers := REFUSED), 0);
    WalkOn(EmptyState, CREW + ASK + REFUSALS, asked.(offers := REFUSED), 1, FINISH, t, 7);
    SentByPlan(t.offers);
  }
}
