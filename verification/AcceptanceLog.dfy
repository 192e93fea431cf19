/** Whether the dispatch log tells which worker took a booking. */
module AcceptanceLog {
  import opened Schema
  import opened DispatchController
  import AdminOperations
  import opened Steps
  import opened BookingChanges
  import opened OfferLog

  /** Row i is an accepting row of the booking's assigned worker. */
  predicate Accepting(s: State, b: BookingId, i: nat)
    requires i < |s.offers|
  {
    && s.offers[i].booking == b && s.offers[i].outcome == Outcome.Accepted
    && b < |s.bookings| && s.bookings[b].assignee == Some(s.offers[i].worker)
  }

  predicate AcceptanceLogged(s: State, b: BookingId) {
    exists i: nat :: i < |s.offers| && Accepting(s, b, i)
  }

  predicate AcceptedBesides(s: State, b: BookingId, o: OfferId) {
    exists i: nat :: i < |s.offers| && i != o && Accepting(s, b, i)
  }

  predicate AllLogged(s: State) {
    forall b | 0 <= b < |s.bookings| && s.bookings[b].assignee.Some? :: AcceptanceLogged(s, b)
  }

  /** In an atomic step every answered row stays as it is. */
  lemma AnsweredRowsStay(s: State, e: Event)
    ensures |s.offers| <= |Step(s, e).offers|
    ensures forall i: nat | i < |s.offers| && s.offers[i].outcome != Offered :: Step(s, e).offers[i] == s.offers[i]
  {
    hide Step;
    // Any booking that the event does not name.
    var b := match e
      case StartDispatch(c) => c + 1
      case SendOffer(c, _, _) => c + 1
      case OpenPool(c) => c + 1
      case ExhaustPool(c) => c + 1
      case _ => 0;
    StepContinues(s, e, b);
    forall i: nat | i < |s.offers|
      ensures SameOffer(s.offers[i], Step(s, e).offers[i])
    {
    }
  }

  lemma AcceptLogs(s: State, o: OfferId, w: WorkerId)
    requires Accept(s, o, w).1 == Ok
    ensures o < |s.offers| && AcceptanceLogged(Accept(s, o, w).0, s.offers[o].booking)
  {
    hide SetWorker;
    assert Accepting(Accept(s, o, w).0, s.offers[o].booking, o) by {
      AcceptWrites(s, o, w);
    }
  }

  lemma AcceptWrites(s: State, o: OfferId, w: WorkerId)
    requires Accept(s, o, w).1 == Ok
    ensures o < |s.offers| && s.offers[o].worker == w && s.offers[o].booking < |s.bookings|
    ensures var (t, b) := (Accept(s, o, w).0, s.offers[o].booking);
            && t.offers == s.offers[o := s.offers[o].(outcome := Outcome.Accepted)]
            && t.bookings == s.bookings[b := WriteAssignee(s.bookings[b], w, s.now)]
            && LockHeld(t, b)
  {
  }

  lemma ForceAssignLogs(s: State, b: BookingId, w: WorkerId)
    requires AdminOperations.ForceAssign(s, b, w).1 == Ok
    ensures AcceptanceLogged(AdminOperations.ForceAssign(s, b, w).0, b)
  {
    var t := AdminOperations.ForceAssign(s, b, w).0;
    assert Accepting(t, b, |s.offers|);
  }

  lemma HandingLogs(s: State, e: Event)
    requires ChangeOf(s, e).Handed?
    ensures AcceptanceLogged(Step(s, e), ChangeOf(s, e).booking)
  {
    hide AcceptanceLogged, Accept, AdminOperations.ForceAssign;
    if e.ForceAssign? {
      ForceAssignLogs(s, e.booking, e.worker);
    } else {
      assert e.Respond? && e.accept;
      AcceptLogs(s, e.offer, e.worker);
    }
  }

  lemma StepKeepsAllLogged(s: State, e: Event)
    requires AllLogged(s)
    ensures AllLogged(Step(s, e))
  {
    hide Step, ChangeOf;
    StepMakesChange(s, e);
    AnsweredRowsStay(s, e);
    var t, change := Step(s, e), ChangeOf(s, e);
    forall b | 0 <= b < |t.bookings| && t.bookings[b].assignee.Some?
      ensures AcceptanceLogged(t, b)
    {
      if change.Handed? && change.booking == b {
        HandingLogs(s, e);
      } else {
        assert AcceptanceLogged(s, b);
        var i: nat :| i < |s.offers| && Accepting(s, b, i);
        assert Accepting(t, b, i);
      }
    }
  }

  lemma {:induction false} RunKeepsAllLogged(s: State, events: seq<Event>)
    requires AllLogged(s)
    ensures AllLogged(Run(s, events))
    decreases |events|
  {
    hide Step;
    if events != [] {
      StepKeepsAllLogged(s, events[0]);
      RunKeepsAllLogged(Step(s, events[0]), events[1..]);
    }
  }

  /** With handlers atomic, in every reachable state every assigned booking has an accepting row of its worker. */
  lemma ReachableAcceptancesAreLogged(s: State, b: BookingId)
    requires Reachable(s) && b < |s.bookings| && s.bookings[b].assignee.Some?
    ensures AcceptanceLogged(s, b)
  {
    hide Step;
    var events :| Run(EmptyState, events) == s;
    RunKeepsAllLogged(EmptyState, events);
  }

  /** The handlers read a row first and write it later by its id alone. A late outcome other than ACCEPTED, whoever
      writes it, leaves the booking's acceptance in the log exactly when the row was not its only one. */
  lemma LateOutcomeKeepsLogIff(s: State, o: OfferId, outcome: Outcome, b: BookingId)
    requires o < |s.offers| && outcome != Outcome.Accepted
    ensures AcceptanceLogged(SetOutcome(s, o, outcome), b) <==> AcceptedBesides(s, b, o)
  {
    var t := SetOutcome(s, o, outcome);
    forall i: nat | i < |s.offers|
      ensures Accepting(t, b, i) <==> i != o && Accepting(s, b, i)
    {
    }
    if i: nat :| i < |s.offers| && i != o && Accepting(s, b, i) {
      assert Accepting(t, b, i);
    }
  }

  /** What one worker can do with two answers to one offer, both read while it was open: one accepts, the other then
      finds the lock taken, or declines. The booking stays ASSIGNED to the worker, and unless an earlier
      row happens to name the same worker, no row of the log does. */
  lemma SecondAnswerOverwritesAcceptance(s: State, o: OfferId, w: WorkerId, second: Outcome)
    requires Accept(s, o, w).1 == Ok && second in {LockLost, Declined}
    ensures var (t, b) := (Accept(s, o, w).0, s.offers[o].booking);
            && Screen(s, o, w) == Ok && LockHeld(t, b) && AcceptanceLogged(t, b)
            && o < |t.offers| && b < |t.bookings|
            && t.bookings[b].status == Assigned && t.bookings[b].assignee == Some(w)
            && (AcceptanceLogged(SetOutcome(t, o, second), b) <==>
                  exists i: nat :: i < |s.offers| && i != o && AcceptedBy(s.offers[i], b, w))
  {
    AcceptWrites(s, o, w);
    AcceptLogs(s, o, w);
    var (t, b) := (Accept(s, o, w).0, s.offers[o].booking);
    LateOutcomeKeepsLogIff(t, o, second, b);
    hide Accept;
    if i: nat :| i < |s.offers| && i != o && AcceptedBy(s.offers[i], b, w) {
      assert Accepting(t, b, i);
    }
    if i: nat :| i < |t.offers| && i != o && Accepting(t, b, i) {
      assert AcceptedBy(s.offers[i], b, w);
    }
  }

  predicate AcceptedBy(offer: Offer, b: BookingId, w: WorkerId) {
    offer.booking == b && offer.worker == w && offer.outcome == Outcome.Accepted
  }
}
