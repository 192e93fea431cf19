/** When an assignment is confirmed without anybody doing anything. */
module AutoConfirmation {
  import opened Schema
  import opened DispatchController
  import AdminOperations
  import opened Steps
  import opened ReconciliationSweep
  import opened CrashRecovery

  /** Worker w accepts an offer of booking b, or an administrator puts a worker on it. */
  predicate Assigns(s: State, e: Event, b: BookingId) {
    match e
    case Respond(o, w, accept) => accept && Accept(s, o, w).1 == Ok && s.offers[o].booking == b
    case ForceAssign(c, w) => AdminOperations.ForceAssign(s, c, w).1 == Ok && c == b
    case _ => false
  }

  /** One of the sweeps among them runs later than `at`. */
  predicate SweptAfter(s: State, hs: seq<Happening>, top3Ms: nat, poolMs: nat, at: nat)
    decreases |hs|
  {
    hs != [] &&
    (|| (hs[0].Swept? && at < s.now)
     || SweptAfter(After(s, hs[0], top3Ms, poolMs), hs[1..], top3Ms, poolMs, at))
  }

  /** An assignment that nobody acts on, whatever happens to all other bookings and workers and however often
      the sweep runs, is confirmed exactly by a sweep more than sixty seconds after it was made. */
  lemma AssignmentIsConfirmedIff(s: State, e: Event, b: BookingId, hs: seq<Happening>, top3Ms: nat, poolMs: nat)
    requires Assigns(s, e, b) && LeftAlone(Step(s, e), hs, top3Ms, poolMs, b)
    ensures var t := Play(Step(s, e), hs, top3Ms, poolMs);
            && b < |t.bookings|
            && t.bookings[b].status ==
               if SweptAfter(Step(s, e), hs, top3Ms, poolMs, s.now + 60_000) then Confirmed else Assigned
  {
    AssigningStamps(s, e, b);
    ConfirmedOnceSwept(Step(s, e), b, hs, top3Ms, poolMs);
  }

  lemma AssigningStamps(s: State, e: Event, b: BookingId)
    requires Assigns(s, e, b)
    ensures var t := Step(s, e);
            b < |t.bookings| && t.bookings[b].status == Assigned && t.bookings[b].updatedAt == s.now
  {
  }

  lemma {:induction false} ConfirmedOnceSwept(s: State, b: BookingId, hs: seq<Happening>, top3Ms: nat, poolMs: nat)
    requires b < |s.bookings| && s.bookings[b].status == Assigned && LeftAlone(s, hs, top3Ms, poolMs, b)
    ensures var t := Play(s, hs, top3Ms, poolMs);
            && b < |t.bookings|
            && t.bookings[b].status ==
               if SweptAfter(s, hs, top3Ms, poolMs, s.bookings[b].updatedAt + 60_000) then Confirmed else Assigned
    decreases |hs|
  {
    hide Sweep, Step;
    if hs != [] {
      match hs[0] {
        case Swept(ranking) => ConfirmedIff(s, top3Ms, poolMs, ranking, b);
        case Happened(e) => BystanderUntouches(s, e, b);
      }
      var t := After(s, hs[0], top3Ms, poolMs);
      if t.bookings[b].status == Confirmed {
        ConfirmedStays(t, b, hs[1..], top3Ms, poolMs);
      } else {
        ConfirmedOnceSwept(t, b, hs[1..], top3Ms, poolMs);
      }
    }
  }

  lemma {:induction false} ConfirmedStays(s: State, b: BookingId, hs: seq<Happening>, top3Ms: nat, poolMs: nat)
    requires b < |s.bookings| && s.bookings[b].status == Confirmed && LeftAlone(s, hs, top3Ms, poolMs, b)
    ensures var t := Play(s, hs, top3Ms, poolMs);
            b < |t.bookings| && t.bookings[b].status == Confirmed
    decreases |hs|
  {
    hide Sweep, Step;
    if hs != [] {
      match hs[0] {
        case Swept(ranking) => OtherStatusesAreLeft(s, top3Ms, poolMs, ranking, b);
        case Happened(e) => BystanderUntouches(s, e, b);
      }
      ConfirmedStays(After(s, hs[0], top3Ms, poolMs), b, hs[1..], top3Ms, poolMs);
    }
  }
}
