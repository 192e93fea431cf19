/** What every run keeps of a booking's status and assigned worker, although accepting an offer and
    forced assignment write the status without consulting the transition table. */
module Lifecycle {
  import opened Schema
  import opened BookingStateMachine
  import opened DispatchController
  import opened AdminOperations
  import opened Steps
  import opened BookingChanges

  /** A booking is unassigned before ASSIGNED and assigned from then on; CANCELLED may be either. */
  predicate BookingShape(booking: Booking, workerCount: nat) {
    && (booking.status in {Requested, DispatchingTop3, DispatchingPool} ==> booking.assignee.None?)
    && (booking.status in {Assigned, Confirmed, InProgress, Completed, Settled} ==> booking.assignee.Some?)
    && (booking.assignee.Some? ==> booking.assignee.value < workerCount)
  }

  predicate Shape(s: State) {
    forall b | 0 <= b < |s.bookings| :: BookingShape(s.bookings[b], |s.workers|)
  }

  /** The changes a step may make to one booking. */
  predicate Edge(before: Booking, after: Booking, forced: bool) {
    || (after.status == before.status && after.assignee == before.assignee)
    || (after.status in LegalTransitions(before.status) - {Assigned} && after.assignee == before.assignee)
    || (before.assignee.None? && after.status == Assigned)
    || (forced && !Terminal(before.status) && after.status == Assigned)
  }

  lemma StepKeepsShape(s: State, e: Event)
    requires Shape(s)
    ensures Shape(Step(s, e))
  {
    hide Step, ChangeOf;
    StepMakesChange(s, e);
  }

  lemma StepMakesEdge(s: State, e: Event, b: BookingId)
    requires Shape(s) && b < |s.bookings|
    ensures b < |Step(s, e).bookings|
    ensures Edge(s.bookings[b], Step(s, e).bookings[b], e.ForceAssign?)
  {
    hide Step;
    StepMakesChange(s, e);
  }

  lemma {:induction false} RunKeepsShape(s: State, events: seq<Event>)
    requires Shape(s)
    ensures Shape(Run(s, events))
    decreases |events|
  {
    hide Step;
    if events != [] {
      StepKeepsShape(s, events[0]);
      RunKeepsShape(Step(s, events[0]), events[1..]);
    }
  }

  /** No status other than SETTLED ever replaces COMPLETED, and nothing replaces SETTLED or a
      cancellation that came after the assignment; the assigned worker stays as it was. */
  predicate KeptFinal(before: Booking, after: Booking) {
    && (before.status == Settled ==> after.status == Settled && after.assignee == before.assignee)
    && (before.status == Completed ==> after.status in {Completed, Settled} && after.assignee == before.assignee)
    && (before.status == Cancelled && before.assignee.Some? ==>
          after.status == Cancelled && after.assignee == before.assignee)
  }

  lemma {:induction false} FinalStatusesAreKept(s: State, events: seq<Event>, b: BookingId)
    requires Shape(s) && b < |s.bookings|
    ensures b < |Run(s, events).bookings|
    ensures KeptFinal(s.bookings[b], Run(s, events).bookings[b])
    decreases |events|
  {
    hide Step;
    if events != [] {
      var t := Step(s, events[0]);
      StepMakesEdge(s, events[0], b);
      StepKeepsShape(s, events[0]);
      FinalStatusesAreKept(t, events[1..], b);
    }
  }

  /** How many status changes are left at most when no administrator forces an assignment. */
  function ChangesLeft(booking: Booking): nat {
    match booking.status
    case Requested => 8
    case DispatchingTop3 => 7
    case DispatchingPool => 6
    case Cancelled => if booking.assignee.None? then 5 else 0
    case Assigned => 4
    case Confirmed => 3
    case InProgress => 2
    case Completed => 1
    case Settled => 0
  }

  /** The number of status changes booking b goes through in a run. */
  function StatusChanges(s: State, events: seq<Event>, b: BookingId): nat
    decreases |events|
  {
    if events == [] then 0
    else
      var t := Step(s, events[0]);
      (if b < |s.bookings| && b < |t.bookings| && s.bookings[b].status != t.bookings[b].status then 1 else 0)
      + StatusChanges(t, events[1..], b)
  }

  predicate NoForceAssign(events: seq<Event>) {
    forall i | 0 <= i < |events| :: !events[i].ForceAssign?
  }

  lemma {:induction false} ChangesAreSpent(s: State, events: seq<Event>, b: BookingId)
    requires Shape(s) && b < |s.bookings| && NoForceAssign(events)
    ensures b < |Run(s, events).bookings|
    ensures StatusChanges(s, events, b) + ChangesLeft(Run(s, events).bookings[b]) <= ChangesLeft(s.bookings[b])
    decreases |events|
  {
    hide Step;
    if events != [] {
      StepMakesEdge(s, events[0], b);
      StepKeepsShape(s, events[0]);
      ChangesAreSpent(Step(s, events[0]), events[1..], b);
    }
  }

  /** From any well-shaped state, whether or not the booking exists yet. */
  lemma {:induction false} AtMostEightChanges(s: State, events: seq<Event>, b: BookingId)
    requires Shape(s) && NoForceAssign(events)
    ensures StatusChanges(s, events, b) <= 8
    decreases |events|
  {
    if b < |s.bookings| {
      ChangesAreSpent(s, events, b);
    } else if events != [] {
      StepMakesChange(s, events[0]);
      StepKeepsShape(s, events[0]);
      AtMostEightChanges(Step(s, events[0]), events[1..], b);
    }
  }

  /** An offer that a worker can still accept. */
  predicate OpenOffer(s: State, b: BookingId, o: OfferId) {
    o < |s.offers| && s.offers[o].booking == b && s.offers[o].outcome == Offered && s.offers[o].worker < |s.workers|
  }

  ghost predicate Revives(s: State, e: Event, b: BookingId) {
    b < |Step(s, e).bookings| && Step(s, e).bookings[b].status != Cancelled
  }

  /** An acceptance does not ask the table. It agrees with it exactly when the booking is being dispatched; otherwise
      the booking is still REQUESTED, or CANCELLED. */
  lemma AcceptanceIsLegalIff(s: State, o: OfferId, w: WorkerId)
    requires Shape(s) && Accept(s, o, w).1 == Ok
    ensures o < |s.offers| && s.offers[o].booking < |s.bookings|
    ensures var (b, status) := (s.offers[o].booking, s.bookings[s.offers[o].booking].status);
            && (CanTransition(s, b, Assigned) <==> Dispatching(status))
            && (!Dispatching(status) ==> status in {Requested, Cancelled})
  {
    assert BookingShape(s.bookings[s.offers[o].booking], |s.workers|);
  }

  /** Exactly when the next step may take a booking out of CANCELLED: it was never assigned, no lock is held on
      it, and one of its offers was left open. */
  lemma CancelledRevivesIff(s: State, b: BookingId)
    requires Shape(s) && b < |s.bookings| && s.bookings[b].status == Cancelled
    ensures (exists e :: Revives(s, e, b)) <==>
            s.bookings[b].assignee.None? && !LockHeld(s, b) && exists o: OfferId :: OpenOffer(s, b, o)
  {
    if e :| Revives(s, e, b) {
      RevivedByAccepting(s, e, b);
    }
    if o: OfferId :| OpenOffer(s, b, o) && s.bookings[b].assignee.None? && !LockHeld(s, b) {
      AcceptingRevives(s, b, o);
    }
  }

  lemma RevivedByAccepting(s: State, e: Event, b: BookingId)
    requires b < |s.bookings| && s.bookings[b].status == Cancelled && Revives(s, e, b)
    ensures s.bookings[b].assignee.None? && !LockHeld(s, b) && exists o: OfferId :: OpenOffer(s, b, o)
  {
    StepMakesChange(s, e);
    hide Step;
    assert ChangeOf(s, e).Handed? && ChangeOf(s, e).booking == b && !ChangeOf(s, e).forced;
    assert e.Respond?;
    assert OpenOffer(s, b, e.offer);
  }

  lemma AcceptingRevives(s: State, b: BookingId, o: OfferId)
    requires b < |s.bookings| && s.bookings[b].assignee.None? && !LockHeld(s, b) && OpenOffer(s, b, o)
    ensures Revives(s, Respond(o, s.offers[o].worker, true), b)
  {
  }

  /** An administrator who forces the same worker onto a booking again and again, each time after the sweep has
      confirmed the previous assignment, which it does once 60 seconds have passed. */
  function ForcedRounds(b: BookingId, w: WorkerId, n: nat): seq<Event> {
    if n == 0 then [] else [Tick(60001), AutoConfirm(b), Event.ForceAssign(b, w)] + ForcedRounds(b, w, n - 1)
  }

  lemma OneForcedRound(s: State, b: BookingId, w: WorkerId)
    requires b < |s.bookings| && w < |s.workers| && s.workers[w].approved
    requires s.bookings[b].status == Assigned && s.bookings[b].assignee == Some(w)
    ensures var later := Step(s, Tick(60001));
            var confirmed := Step(later, AutoConfirm(b));
            var forced := Step(confirmed, Event.ForceAssign(b, w));
            && later.bookings == s.bookings
            && b < |confirmed.bookings| && confirmed.bookings[b].status == Confirmed
            && b < |forced.bookings| && w < |forced.workers| && forced.workers[w].approved
            && forced.bookings[b].status == Assigned && forced.bookings[b].assignee == Some(w)
  {
    var later := Step(s, Tick(60001));
    assert later.bookings == s.bookings && later.workers == s.workers;
    assert Step(later, AutoConfirm(b)).workers == s.workers;
  }

  /** With forced assignment there is no bound: from any ASSIGNED booking of an approved worker. */
  lemma {:induction false} ForcedChangesAreUnbounded(s: State, b: BookingId, w: WorkerId, n: nat)
    requires b < |s.bookings| && w < |s.workers| && s.workers[w].approved
    requires s.bookings[b].status == Assigned && s.bookings[b].assignee == Some(w)
    ensures StatusChanges(s, ForcedRounds(b, w, n), b) == 2 * n
    decreases n
  {
    hide Step;
    if n > 0 {
      var rest := ForcedRounds(b, w, n - 1);
      var later := Step(s, Tick(60001));
      var forced := Step(Step(later, AutoConfirm(b)), Event.ForceAssign(b, w));
      OneForcedRound(s, b, w);
      ForcedChangesAreUnbounded(forced, b, w, n - 1);
      RoundMakesTwo(s, b, w, rest);
    }
  }

  lemma RoundMakesTwo(s: State, b: BookingId, w: WorkerId, rest: seq<Event>)
    requires var later := Step(s, Tick(60001));
             var confirmed := Step(later, AutoConfirm(b));
             var forced := Step(confirmed, Event.ForceAssign(b, w));
             && b < |s.bookings| && later.bookings == s.bookings && b < |confirmed.bookings| && b < |forced.bookings|
             && s.bookings[b].status != confirmed.bookings[b].status
             && confirmed.bookings[b].status != forced.bookings[b].status
    ensures var forced := Step(Step(Step(s, Tick(60001)), AutoConfirm(b)), Event.ForceAssign(b, w));
            StatusChanges(s, [Tick(60001), AutoConfirm(b), Event.ForceAssign(b, w)] + rest, b) ==
            2 + StatusChanges(forced, rest, b)
  {
    hide Step;
    var events := [Tick(60001), AutoConfirm(b), Event.ForceAssign(b, w)] + rest;
    assert events[1..] == [AutoConfirm(b), Event.ForceAssign(b, w)] + rest;
    assert events[1..][1..] == [Event.ForceAssign(b, w)] + rest;
    assert events[1..][1..][1..] == rest;
    var later := Step(s, Tick(60001));
    var confirmed := Step(later, AutoConfirm(b));
    assert StatusChanges(s, events, b) == StatusChanges(later, events[1..], b);
    assert StatusChanges(later, events[1..], b) == 1 + StatusChanges(confirmed, events[1..][1..], b);
  }
}
