/** When a cancelled booking stays cancelled, over whole runs. */
module Cancellation {
  import opened Schema
  import opened Steps
  import opened BookingChanges
  import opened Lifecycle
  import opened LongestHistory
  import opened OfferLog
  import WorkerController

  predicate IsCancelled(s: State, b: BookingId) {
    b < |s.bookings| && s.bookings[b].status == Cancelled
  }

  /** Some run takes the booking out of CANCELLED. */
  ghost predicate Revivable(s: State, b: BookingId) {
    exists events: seq<Event> :: !IsCancelled(Run(s, events), b)
  }

  /** The same with no further offer sent for the booking: the engine and the sweep are through with it. */
  ghost predicate RevivableUnoffered(s: State, b: BookingId) {
    exists events: seq<Event> :: NoOffers(events, b) && !IsCancelled(Run(s, events), b)
  }

  predicate NoOffers(events: seq<Event>, b: BookingId) {
    forall i | 0 <= i < |events| :: !(events[i].SendOffer? && events[i].booking == b)
  }

  predicate LeftOpen(offer: Offer, b: BookingId) {
    offer.booking == b && offer.outcome == Offered
  }

  predicate HasOpenOffer(offers: seq<Offer>, b: BookingId) {
    exists i: nat :: i < |offers| && LeftOpen(offers[i], b)
  }

  /** So many workers register; nothing else changes. */
  function Registrations(n: nat): seq<Event> {
    if n == 0 then [] else [RegisterWorker] + Registrations(n - 1)
  }

  lemma {:induction false} RegistrationsRegister(s: State, n: nat)
    ensures var t := Run(s, Registrations(n));
            && |t.workers| == |s.workers| + n
            && t.now == s.now && t.bookings == s.bookings && t.offers == s.offers && t.locks == s.locks
    decreases n
  {
    if n > 0 {
      var t := Step(s, RegisterWorker);
      assert t == WorkerController.Register(s);
      hide Step;
      assert Registrations(n)[1..] == Registrations(n - 1);
      RegistrationsRegister(t, n - 1);
    }
  }

  /** With its worker registered and any lock expired, an open offer of an unassigned booking is accepted. */
  function Acceptance(s: State, o: OfferId): seq<Event>
    requires o < |s.offers|
  {
    var b, w := s.offers[o].booking, s.offers[o].worker;
    Registrations(Missing(s, w)) + [Tick(if b in s.locks then s.locks[b] else 0), Respond(o, w, true)]
  }

  function Missing(s: State, w: WorkerId): nat {
    if w < |s.workers| then 0 else w + 1 - |s.workers|
  }

  lemma NoOffersJoin(first: seq<Event>, second: seq<Event>, b: BookingId)
    requires NoOffers(first, b) && NoOffers(second, b)
    ensures NoOffers(first + second, b)
  {
  }

  lemma AcceptanceRevives(s: State, b: BookingId, o: OfferId)
    requires b < |s.bookings| && s.bookings[b].assignee.None? && o < |s.offers| && LeftOpen(s.offers[o], b)
    ensures NoOffers(Acceptance(s, o), b) && !IsCancelled(Run(s, Acceptance(s, o)), b)
  {
    hide Step, Run, NoOffers, IsCancelled;
    var w := s.offers[o].worker;
    var ms := if b in s.locks then s.locks[b] else 0;
    var last := [Tick(ms), Respond(o, w, true)];
    RegistrationsRegister(s, Missing(s, w));
    WaitThenAccept(Run(s, Registrations(Missing(s, w))), b, o, ms);
    RunJoins(s, Registrations(Missing(s, w)), last);
    RegistrationsOffer(Missing(s, w), b);
    NeitherOffers(ms, o, w, b);
    NoOffersJoin(Registrations(Missing(s, w)), last, b);
  }

  lemma NeitherOffers(ms: nat, o: OfferId, w: WorkerId, b: BookingId)
    ensures NoOffers([Tick(ms), Respond(o, w, true)], b)
  {
  }

  lemma WaitThenAccept(s: State, b: BookingId, o: OfferId, ms: nat)
    requires b < |s.bookings| && s.bookings[b].assignee.None? && o < |s.offers| && LeftOpen(s.offers[o], b)
    requires s.offers[o].worker < |s.workers| && (b in s.locks ==> s.locks[b] <= s.now + ms)
    ensures !IsCancelled(Run(s, [Tick(ms), Respond(o, s.offers[o].worker, true)]), b)
  {
    hide Step, Run;
    TimePasses(s, ms);
    AcceptingRevives(Step(s, Tick(ms)), b, o);
    RunOfTwo(s, Tick(ms), Respond(o, s.offers[o].worker, true));
  }

  lemma {:induction false} RegistrationsOffer(n: nat, b: BookingId)
    ensures NoOffers(Registrations(n), b)
  {
    if n > 0 {
      RegistrationsOffer(n - 1, b);
    }
  }

  /** Over whole runs, cancellation is final exactly for a booking that was assigned: one that never was may still
      be sent an offer, by an engine loop that does not look at the status again, and be accepted. */
  lemma CancellationIsFinalIff(s: State, b: BookingId)
    requires Shape(s) && b < |s.bookings| && s.bookings[b].status == Cancelled
    ensures !Revivable(s, b) <==> s.bookings[b].assignee.Some?
  {
    if s.bookings[b].assignee.Some? {
      forall events: seq<Event>
        ensures IsCancelled(Run(s, events), b)
      {
        FinalStatusesAreKept(s, events, b);
      }
    } else {
      OfferRevives(s, b);
    }
  }

  /** For instance to a worker who is approved and available by then. */
  lemma OfferRevives(s: State, b: BookingId)
    requires b < |s.bookings| && s.bookings[b].assignee.None?
    ensures Revivable(s, b)
  {
    var w, o := |s.workers|, |s.offers|;
    var staffed := s.(workers := s.workers + [READY]);
    var offered := Step(staffed, SendOffer(b, w, Attempt2));
    assert offered == OfferSent(staffed, b, w, Attempt2);
    hide Step;
    RecruitRuns(s);
    AcceptanceRevives(offered, b, o);
    var last := [SendOffer(b, w, Attempt2)] + Acceptance(offered, o);
    assert last[1..] == Acceptance(offered, o);
    assert Run(staffed, last) == Run(offered, Acceptance(offered, o));
    RunJoins(s, Recruit(w), last);
  }

  /** Once no more offers are sent for the booking, cancellation is final exactly when it was assigned or none of
      its offers is open, whatever lock is held on it. */
  lemma UnofferedCancellationIsFinalIff(s: State, b: BookingId)
    requires Shape(s) && b < |s.bookings| && s.bookings[b].status == Cancelled
    ensures !RevivableUnoffered(s, b) <==> s.bookings[b].assignee.Some? || !HasOpenOffer(s.offers, b)
  {
    if s.bookings[b].assignee.Some? || !HasOpenOffer(s.offers, b) {
      forall events: seq<Event> | NoOffers(events, b)
        ensures IsCancelled(Run(s, events), b)
      {
        if s.bookings[b].assignee.Some? {
          FinalStatusesAreKept(s, events, b);
        } else {
          ClosedCancellationStays(s, events, b);
        }
      }
    } else {
      var o: nat :| o < |s.offers| && LeftOpen(s.offers[o], b);
      AcceptanceRevives(s, b, o);
    }
  }

  lemma {:induction false} ClosedCancellationStays(s: State, events: seq<Event>, b: BookingId)
    requires Shape(s) && IsCancelled(s, b) && !HasOpenOffer(s.offers, b) && NoOffers(events, b)
    ensures IsCancelled(Run(s, events), b)
    decreases |events|
  {
    hide Step;
    if events != [] {
      var t := Step(s, events[0]);
      StepKeepsShape(s, events[0]);
      ClosedStaysCancelled(s, events[0], b);
      StepOpensNoOffer(s, events[0], b);
      ClosedCancellationStays(t, events[1..], b);
    }
  }

  lemma ClosedStaysCancelled(s: State, e: Event, b: BookingId)
    requires IsCancelled(s, b) && !HasOpenOffer(s.offers, b)
    ensures IsCancelled(Step(s, e), b)
  {
    hide Step;
    StepMakesChange(s, e);
    OpenIsLeftOpen(s, b);
    if Revives(s, e, b) {
      RevivedByAccepting(s, e, b);
    }
  }

  lemma OpenIsLeftOpen(s: State, b: BookingId)
    ensures (exists o: OfferId :: OpenOffer(s, b, o)) ==> HasOpenOffer(s.offers, b)
  {
    if o: OfferId :| OpenOffer(s, b, o) {
      assert LeftOpen(s.offers[o], b);
    }
  }

  lemma StepOpensNoOffer(s: State, e: Event, b: BookingId)
    requires !HasOpenOffer(s.offers, b) && !(e.SendOffer? && e.booking == b)
    ensures !HasOpenOffer(Step(s, e).offers, b)
  {
    hide Step;
    var t := Step(s, e);
    if e.StartDispatch? || e.OpenPool? {
      MoveEventKeepsLog(s, e);
    } else if e.ExhaustPool? {
      ExhaustContinues(s, e.booking, b);
    } else {
      StepContinues(s, e, b);
    }
    forall i: nat | i < |t.offers|
      ensures !LeftOpen(t.offers[i], b)
    {
      assert i < |s.offers| ==> SameOffer(s.offers[i], t.offers[i]) && !LeftOpen(s.offers[i], b);
    }
  }
}
