/** server/src/services/dispatch.service.ts: the in-process engine that offers a booking to the best three
    candidates one after the other and then to all the rest at once. Its own writes are steps of module
    Steps; what else happens to the database while it runs, and which answers it hears, is arbitrary. */
module DispatchEngine {
  import opened Schema
  import opened BookingStateMachine
  import opened DispatchController
  import opened Steps
  import BookingChanges
  import opened OfferLog

  const POLL_MS: nat := 2000

  /** What the rest of the system does: an event at some time, with the answer it publishes heard by the
      engine or not, or a pause that lets the engine go first. */
  datatype Moment = Happening(at: nat, event: Event, heard: bool) | Yield

  datatype Answer = GotAccepted | GotDeclined | GotNothing

  function Label(i: nat): Attempt {
    if i == 0 then Attempt1 else if i == 1 then Attempt2 else if i == 2 then Attempt3 else Pool
  }

  /** Rank by rank, who is to be sent which offer. */
  function Plan(candidates: seq<WorkerId>): seq<(WorkerId, Attempt)> {
    seq(|candidates|, i requires 0 <= i < |candidates| => (candidates[i], Label(i)))
  }

  /** At most one of the booking's top-3 offers is open. */
  predicate OneOpen(s: State, b: BookingId) {
    forall i: nat, j: nat | i < |s.offers| && j < |s.offers| && OpenTop3(s.offers[i], b) && OpenTop3(s.offers[j], b) ::
      i == j
  }

  predicate OneOpenThroughout(s: State, events: seq<Event>, b: BookingId)
    decreases |events|
  {
    OneOpen(s, b) && (events != [] ==> OneOpenThroughout(Step(s, events[0]), events[1..], b))
  }

  lemma {:induction false} RunExtends(s: State, events: seq<Event>, e: Event, b: BookingId)
    requires OneOpenThroughout(s, events, b) && OneOpen(Step(Run(s, events), e), b)
    ensures Run(s, events + [e]) == Step(Run(s, events), e)
    ensures OneOpenThroughout(s, events + [e], b)
    decreases |events|
  {
    hide Step, OneOpen;
    if events == [] {
      assert (events + [e])[1..] == [];
    } else {
      assert (events + [e])[1..] == events[1..] + [e];
      RunExtends(Step(s, events[0]), events[1..], e, b);
    }
  }

  /** The first `sent` ranks have been sent their offers, and only offer `open` may be an open top-3 one. */
  predicate Going(s: State, b: BookingId, candidates: seq<WorkerId>, sent: nat, open: Option<OfferId>) {
    && b < |s.bookings|
    && (forall i | 0 <= i < |candidates| :: candidates[i] < |s.workers|)
    && sent <= |candidates|
    && SentFor(s.offers, b) == Plan(candidates)[..sent]
    && (forall i: nat | i < |s.offers| && OpenTop3(s.offers[i], b) :: open == Some(i))
    && (open.Some? ==> open.value < |s.offers| && s.offers[open.value].booking == b)
  }

  /** Nobody but the engine moves a booking into a dispatching status. */
  predicate StatusKept(s: State, t: State, b: BookingId) {
    b < |s.bookings| && b < |t.bookings| &&
    (Dispatching(t.bookings[b].status) ==> t.bookings[b].status == s.bookings[b].status)
  }

  lemma GoingIsOneOpen(s: State, b: BookingId, candidates: seq<WorkerId>, sent: nat, open: Option<OfferId>)
    requires Going(s, b, candidates, sent, open)
    ensures OneOpen(s, b)
  {
  }

  lemma TickKeepsGoing(s: State, ms: nat, b: BookingId, candidates: seq<WorkerId>, sent: nat, open: Option<OfferId>)
    requires Going(s, b, candidates, sent, open)
    ensures var t := Step(s, Tick(ms));
            t.now == s.now + ms && t.bookings == s.bookings && Going(t, b, candidates, sent, open) && OneOpen(t, b)
  {
  }

  lemma ContinuedLogKeepsGoing(s: State, t: State, b: BookingId, candidates: seq<WorkerId>, sent: nat,
                               open: Option<OfferId>)
    requires Going(s, b, candidates, sent, open)
    requires Continues(s.offers, t.offers, b) && |s.workers| <= |t.workers| && b < |t.bookings|
    ensures Going(t, b, candidates, sent, open) && OneOpen(t, b)
  {
    SentForContinues(s.offers, t.offers, b);
    forall i: nat | i < |t.offers| && OpenTop3(t.offers[i], b)
      ensures open == Some(i)
    {
      assert i < |s.offers| ==> SameOffer(s.offers[i], t.offers[i]);
    }
    if open.Some? {
      assert SameOffer(s.offers[open.value], t.offers[open.value]);
    }
    GoingIsOneOpen(t, b, candidates, sent, open);
  }

  /** Whatever else happens keeps the engine's place. */
  lemma OutsideKeepsGoing(s: State, e: Event, b: BookingId, candidates: seq<WorkerId>, sent: nat, open: Option<OfferId>)
    requires Going(s, b, candidates, sent, open) && Outside(e, b)
    ensures var t := Step(s, e);
            t.now == s.now && Going(t, b, candidates, sent, open) && OneOpen(t, b) && StatusKept(s, t, b)
  {
    hide Step;
    StepContinues(s, e, b);
    OutsideKeepsStatus(s, e, b);
    ContinuedLogKeepsGoing(s, Step(s, e), b, candidates, sent, open);
  }

  lemma OutsideKeepsStatus(s: State, e: Event, b: BookingId)
    requires b < |s.bookings| && Outside(e, b)
    ensures StatusKept(s, Step(s, e), b) && Step(s, e).now == s.now && |s.workers| <= |Step(s, e).workers|
  {
    hide Step;
    BookingChanges.StepMakesChange(s, e);
  }

  lemma SendKeepsGoing(s: State, b: BookingId, candidates: seq<WorkerId>, sent: nat)
    requires Going(s, b, candidates, sent, None) && sent < |candidates|
    ensures var t := Step(s, SendOffer(b, candidates[sent], Label(sent)));
            && t == s.(offers := s.offers + [Offer(b, candidates[sent], Label(sent), s.now, Offered)])
            && Going(t, b, candidates, sent + 1, if sent < 3 then Some(|s.offers|) else None)
            && OneOpen(t, b)
  {
  }

  lemma ExpireEndsOffer(s: State, o: OfferId, b: BookingId, candidates: seq<WorkerId>, sent: nat)
    requires Going(s, b, candidates, sent, Some(o))
    ensures var t := Step(s, ExpireOffer(o));
            t.now == s.now && t.bookings == s.bookings && Going(t, b, candidates, sent, None) && OneOpen(t, b)
  {
    OutsideKeepsGoing(s, ExpireOffer(o), b, candidates, sent, Some(o));
    var t := Step(s, ExpireOffer(o));
    assert t == OfferExpired(s, o);
    assert o < |t.offers| ==> t.offers[o].outcome != Offered;
  }

  /** The answers that are published, which the engine may hear. */
  function Published(s: State, e: Event, o: OfferId): Answer {
    match e
    case Respond(p, w, accept) =>
      if p != o then GotNothing
      else if accept then (if Accept(s, o, w).1 == Ok then GotAccepted else GotNothing)
      else if Decline(s, o, w).1 == Ok then GotDeclined else GotNothing
    case _ => GotNothing
  }

  lemma AnswerEndsOffer(s: State, e: Event, o: OfferId, b: BookingId, candidates: seq<WorkerId>, sent: nat)
    requires Going(s, b, candidates, sent, Some(o)) && Outside(e, b) && Published(s, e, o) != GotNothing
    ensures Going(Step(s, e), b, candidates, sent, None)
    ensures Published(s, e, o) == GotAccepted ==> Step(s, e).bookings[b].status == Assigned
  {
    OutsideKeepsGoing(s, e, b, candidates, sent, Some(o));
    PublishedCloses(s, e, o);
  }

  lemma PublishedCloses(s: State, e: Event, o: OfferId)
    requires Published(s, e, o) != GotNothing
    ensures o < |s.offers| && |Step(s, e).offers| == |s.offers| && Step(s, e).offers[o].outcome != Offered
    ensures Published(s, e, o) == GotAccepted ==>
              var b := s.offers[o].booking;
              b < |Step(s, e).bookings| && Step(s, e).bookings[b].status == Assigned
  {
  }

  lemma NothingSentYet(s: State, b: BookingId, candidates: seq<WorkerId>)
    requires b < |s.bookings| && SentFor(s.offers, b) == []
    requires forall i | 0 <= i < |candidates| :: candidates[i] < |s.workers|
    ensures Going(s, b, candidates, 0, None) && OneOpen(s, b)
  {
    forall i: nat | i < |s.offers|
      ensures !OpenTop3(s.offers[i], b)
    {
      if OpenTop3(s.offers[i], b) {
        SentForFindsRow(s.offers, b, i);
      }
    }
  }

  /** The engine's own status writes. */
  function Moved(e: Event, from: BookingStatus): BookingStatus {
    match e
    case StartDispatch(_) => if from == Requested then DispatchingTop3 else from
    case OpenPool(_) => if from == DispatchingTop3 then DispatchingPool else from
    case _ => if from == DispatchingPool then Cancelled else from
  }

  lemma MoveChangesStatus(s: State, e: Event, b: BookingId)
    requires b < |s.bookings| && e in {StartDispatch(b), OpenPool(b), ExhaustPool(b)}
    ensures var t := Step(s, e);
            && t.now == s.now && |s.workers| <= |t.workers| && b < |t.bookings|
            && t.bookings[b].status == Moved(e, s.bookings[b].status)
  {
    hide Step;
    BookingChanges.StepMakesChange(s, e);
  }

  lemma MoveKeepsGoing(s: State, e: Event, b: BookingId, candidates: seq<WorkerId>, sent: nat)
    requires Going(s, b, candidates, sent, None) && e in {StartDispatch(b), OpenPool(b), ExhaustPool(b)}
    ensures Going(Step(s, e), b, candidates, sent, None) && OneOpen(Step(s, e), b)
  {
    hide Step, Moved;
    MoveChangesStatus(s, e, b);
    if e == ExhaustPool(b) {
      ExhaustContinues(s, b, b);
    } else {
      MoveEventKeepsLog(s, e);
    }
    ContinuedLogKeepsGoing(s, Step(s, e), b, candidates, sent, None);
  }

  // What the engine does about the answers it hears.

  /** All that was done since `start`, by the engine and by others; moment i, if it is an event, stands at places[i]. */
  datatype History = History(start: State, events: seq<Event>, moments: seq<Moment>, places: seq<nat>)

  /** An answer that the engine hears: it goes through, to a top-3 offer of the booking. */
  predicate Hears(s: State, moment: Moment, b: BookingId, accept: bool) {
    && moment.Happening? && moment.heard && moment.event.Respond? && moment.event.accept == accept
    && var o, w := moment.event.offer, moment.event.worker;
       && o < |s.offers| && s.offers[o].booking == b && Top3(s.offers[o].attempt)
       && (if accept then Accept(s, o, w).1 else Decline(s, o, w).1) == Ok
  }

  /** Only the one open offer can be answered so. */
  lemma HeardIsPublished(s: State, moment: Moment, b: BookingId, accept: bool, candidates: seq<WorkerId>, sent: nat,
                         open: Option<OfferId>)
    requires Going(s, b, candidates, sent, open) && Hears(s, moment, b, accept)
    ensures open == Some(moment.event.offer)
    ensures Published(s, moment.event, moment.event.offer) == if accept then GotAccepted else GotDeclined
  {
    assert OpenTop3(s.offers[moment.event.offer], b);
  }

  predicate Placed(h: History) {
    && |h.places| <= |h.moments|
    && forall i | 0 <= i < |h.places| && h.moments[i].Happening? ::
         h.places[i] < |h.events| && h.events[h.places[i]] == h.moments[i].event
  }

  predicate HearsAt(h: History, b: BookingId, i: nat, accept: bool) {
    && i < |h.places| && i < |h.moments| && h.places[i] < |h.events|
    && Hears(Run(h.start, h.events[..h.places[i]]), h.moments[i], b, accept)
  }

  /** The engine sends an offer or writes the booking's status. */
  predicate Acts(e: Event, b: BookingId) { !Outside(e, b) && !e.Tick? }

  predicate Waits(e: Event) { e.Tick? && 0 < e.ms }

  predicate ActsBetween(events: seq<Event>, b: BookingId, from: nat, to: nat) {
    exists j: nat :: from < j < to && j < |events| && Acts(events[j], b)
  }

  /** After an acceptance is heard, nothing more is sent for the booking and its status is left to others. */
  ghost predicate AcceptanceEnds(h: History, b: BookingId) {
    forall i: nat, m: nat | HearsAt(h, b, i, true) && h.places[i] < m < |h.events| :: !Acts(h.events[m], b)
  }

  /** After an answer is heard, the engine does not wait before it acts again, if it does. */
  ghost predicate AnswersAreActedOn(h: History, b: BookingId) {
    forall i: nat, m: nat, accept: bool |
      HearsAt(h, b, i, accept) && h.places[i] < m < |h.events| && Waits(h.events[m]) ::
      ActsBetween(h.events, b, h.places[i], m)
  }

  /** `stopped` says whether an acceptance has been heard, `pressed` whether the last answer is still to be acted on. */
  ghost predicate Attentive(h: History, b: BookingId, stopped: bool, pressed: bool) {
    && Placed(h) && AcceptanceEnds(h, b) && AnswersAreActedOn(h, b)
    && (!stopped ==> forall i: nat :: !HearsAt(h, b, i, true))
    && (!pressed ==> forall i: nat, accept: bool | HearsAt(h, b, i, accept) ::
                       ActsBetween(h.events, b, h.places[i], |h.events|))
  }

  lemma NextEventHears(h: History, b: BookingId, e: Event, i: nat, accept: bool)
    requires Placed(h)
    ensures HearsAt(h.(events := h.events + [e]), b, i, accept) <==> HearsAt(h, b, i, accept)
  {
    if i < |h.places| && h.places[i] < |h.events| {
      assert (h.events + [e])[..h.places[i]] == h.events[..h.places[i]];
    }
  }

  lemma NextEventActs(events: seq<Event>, b: BookingId, e: Event, from: nat, to: nat)
    requires to <= |events|
    ensures ActsBetween(events, b, from, to) ==> ActsBetween(events + [e], b, from, to)
    ensures ActsBetween(events, b, from, to) ==> ActsBetween(events + [e], b, from, |events| + 1)
    ensures from < |events| && Acts(e, b) ==> ActsBetween(events + [e], b, from, |events| + 1)
  {
    hide Acts;
    if from < |events| && Acts(e, b) {
      assert (events + [e])[|events|] == e;
    }
    if ActsBetween(events, b, from, to) {
      var j: nat :| from < j < to && j < |events| && Acts(events[j], b);
      assert (events + [e])[j] == events[j];
    }
  }

  /** The engine's own next event. */
  lemma OwnEventKeepsAttentive(h: History, b: BookingId, e: Event, stopped: bool, pressed: bool)
    requires Attentive(h, b, stopped, pressed)
    requires (Acts(e, b) ==> !stopped) && (Waits(e) ==> !pressed)
    ensures Attentive(h.(events := h.events + [e]), b, stopped, pressed && !Acts(e, b))
  {
    hide Hears, Acts, Waits, Run, HearsAt, ActsBetween;
    var t := h.(events := h.events + [e]);
    forall i: nat, accept: bool
      ensures HearsAt(t, b, i, accept) <==> HearsAt(h, b, i, accept)
      ensures HearsAt(h, b, i, accept) ==> i < |h.places| && h.places[i] < |h.events|
      ensures HearsAt(h, b, i, accept) && Acts(e, b) ==> ActsBetween(t.events, b, h.places[i], |t.events|)
    {
      NextEventHears(h, b, e, i, accept);
      HeardIsPlaced(h, b, i, accept);
      if i < |h.places| {
        NextEventActs(h.events, b, e, h.places[i], 0);
      }
    }
    forall i: nat, m: nat | i < |h.places| && m <= |h.events|
      ensures ActsBetween(h.events, b, h.places[i], m) ==> ActsBetween(t.events, b, h.places[i], m)
      ensures ActsBetween(h.events, b, h.places[i], m) ==> ActsBetween(t.events, b, h.places[i], |t.events|)
    {
      NextEventActs(h.events, b, e, h.places[i], m);
    }
  }

  lemma HeardIsPlaced(h: History, b: BookingId, i: nat, accept: bool)
    ensures HearsAt(h, b, i, accept) ==> i < |h.places| && h.places[i] < |h.events|
  {
  }

  /** A pause. */
  lemma PauseKeepsAttentive(h: History, b: BookingId, stopped: bool, pressed: bool)
    requires Attentive(h, b, stopped, pressed) && |h.places| < |h.moments| && h.moments[|h.places|].Yield?
    ensures Attentive(h.(places := h.places + [|h.events|]), b, stopped, pressed)
  {
    hide Hears, Acts, Waits, Run, HearsAt, ActsBetween;
    var t := h.(places := h.places + [|h.events|]);
    forall i: nat, accept: bool
      ensures HearsAt(t, b, i, accept) <==> HearsAt(h, b, i, accept)
      ensures HearsAt(h, b, i, accept) ==> i < |h.places|
    {
      HeardIsPlaced(h, b, i, accept);
      HeardIsPlaced(t, b, i, accept);
      if i < |h.places| {
        SamePlaceHears(h, t, b, i, accept);
      }
    }
  }

  /** Something that happens, heard or not. */
  lemma MomentKeepsAttentive(h: History, b: BookingId, stopped: bool, pressed: bool)
    requires Attentive(h, b, stopped, pressed) && |h.places| < |h.moments|
    requires h.moments[|h.places|].Happening? && Outside(h.moments[|h.places|].event, b)
    ensures var moment, s := h.moments[|h.places|], Run(h.start, h.events);
            var stops, presses := Hears(s, moment, b, true), Hears(s, moment, b, true) || Hears(s, moment, b, false);
            Attentive(h.(events := h.events + [moment.event], places := h.places + [|h.events|]), b,
                      stopped || stops, pressed || presses)
  {
    var n, moment := |h.places|, h.moments[|h.places|];
    var next := h.(events := h.events + [moment.event]);
    var t := next.(places := h.places + [|h.events|]);
    assert t.events[..|h.events|] == h.events;
    assert HearsAt(t, b, n, true) <==> Hears(Run(h.start, h.events), moment, b, true);
    assert HearsAt(t, b, n, false) <==> Hears(Run(h.start, h.events), moment, b, false);
    OwnEventKeepsAttentive(h, b, moment.event, stopped, pressed);
    assert !Acts(moment.event, b) && !Waits(moment.event);
    hide Hears, Acts, Waits, Run, HearsAt, ActsBetween;
    forall i: nat, accept: bool
      ensures HearsAt(t, b, i, accept) ==> i <= n
      ensures i < n ==> (HearsAt(t, b, i, accept) <==> HearsAt(next, b, i, accept))
    {
      HeardIsPlaced(t, b, i, accept);
      if i < n {
        SamePlaceHears(next, t, b, i, accept);
      }
    }
  }

  lemma SamePlaceHears(h: History, t: History, b: BookingId, i: nat, accept: bool)
    requires i < |h.places| && i < |t.places| && h.places[i] == t.places[i]
    requires t.start == h.start && t.events == h.events && t.moments == h.moments
    ensures HearsAt(t, b, i, accept) <==> HearsAt(h, b, i, accept)
  {
  }

  predicate InPool(s: State, b: BookingId) { b < |s.bookings| && s.bookings[b].status == DispatchingPool }

  /** Until when the booking was DISPATCHING_POOL, if it was. */
  function PooledUntil(s: State, events: seq<Event>, b: BookingId): nat
    decreases |events|
  {
    if events == [] then 0
    else
      var n := |events| - 1;
      if InPool(Run(s, events[..n]), b) then Run(s, events).now else PooledUntil(s, events[..n], b)
  }

  lemma PooledUntilNext(s: State, events: seq<Event>, e: Event, b: BookingId)
    requires Run(s, events + [e]) == Step(Run(s, events), e)
    ensures PooledUntil(s, events + [e], b) ==
            if InPool(Run(s, events), b) then Step(Run(s, events), e).now else PooledUntil(s, events, b)
  {
    assert (events + [e])[..|events|] == events;
  }

  method Store(db: Database, t: State)
    modifies db
    ensures db.Snapshot() == t
  {
    db.now, db.bookings, db.workers, db.offers := t.now, t.bookings, t.workers, t.offers;
    db.locks, db.audit, db.invoices, db.payments := t.locks, t.audit, t.invoices, t.payments;
    db.reviews, db.ledger, db.feedbackTotals, db.settlements := t.reviews, t.ledger, t.feedbackTotals, t.settlements;
  }

  /** One dispatch of one booking: the database, the candidates in rank order, and what else will happen. */
  class Dispatch {
    const db: Database
    const booking: BookingId
    const candidates: seq<WorkerId>
    const moments: seq<Moment>
    var cursor: nat

    /** The state dispatch started from and every step since then, the engine's own and all others. */
    ghost const start: State
    ghost var events: seq<Event>
    ghost var sent: nat
    ghost var open: Option<OfferId>
    ghost var places: seq<nat>
    ghost var stopped: bool
    ghost var pressed: bool

    ghost function Past(): History
      reads this
    {
      History(start, events, moments, places)
    }

    ghost function LastPooled(): nat
      reads this
    {
      PooledUntil(start, events, booking)
    }

    ghost predicate Valid()
      reads this, db
      ensures Valid() ==> booking < |db.bookings| && sent <= |candidates| && cursor <= |moments|
      ensures Valid() && stopped ==> !Dispatching(db.bookings[booking].status)
    {
      && cursor == |places| <= |moments|
      && (forall i | 0 <= i < |moments| && moments[i].Happening? :: Outside(moments[i].event, booking))
      && db.Snapshot() == Run(start, events)
      && OneOpenThroughout(start, events, booking)
      && Going(db.Snapshot(), booking, candidates, sent, open)
      && Attentive(Past(), booking, stopped, pressed)
      && (stopped ==> !Dispatching(db.bookings[booking].status))
    }

    lemma ValidRecords()
      requires Valid()
      ensures db.Snapshot() == Run(start, events) && OneOpenThroughout(start, events, booking)
      ensures SentFor(db.offers, booking) == Plan(candidates)[..sent]
      ensures |places| == cursor && Placed(Past())
      ensures AcceptanceEnds(Past(), booking) && AnswersAreActedOn(Past(), booking)
    {
      hide Step, Run, OneOpenThroughout, AcceptanceEnds, AnswersAreActedOn, Placed;
    }

    /** Nothing else happens from here on. */
    predicate Quiet()
      reads this
    {
      cursor == |moments|
    }

    function Status(): BookingStatus
      reads this, db
      requires booking < |db.bookings|
    {
      db.bookings[booking].status
    }

    constructor (db: Database, booking: BookingId, candidates: seq<WorkerId>, moments: seq<Moment>)
      requires booking < |db.bookings| && SentFor(db.offers, booking) == []
      requires forall i | 0 <= i < |candidates| :: candidates[i] < |db.workers|
      requires forall i | 0 <= i < |moments| && moments[i].Happening? :: Outside(moments[i].event, booking)
      ensures Valid() && fresh(this)
      ensures this.db == db && this.booking == booking && this.candidates == candidates && this.moments == moments
      ensures start == db.Snapshot() && events == [] && cursor == 0 && sent == 0 && open == None
      ensures !stopped && !pressed
    {
      hide Step;
      this.db, this.booking, this.candidates, this.moments, cursor := db, booking, candidates, moments, 0;
      start, events, sent, open, places, stopped, pressed := db.Snapshot(), [], 0, None, [], false, false;
      new;
      NothingSentYet(db.Snapshot(), booking, candidates);
    }

    /** Any one step of the engine. */
    method Apply(e: Event, ghost sentNow: nat, ghost openNow: Option<OfferId>)
      requires Valid() && Going(Step(db.Snapshot(), e), booking, candidates, sentNow, openNow)
      requires (Acts(e, booking) ==> !stopped) && (Waits(e) ==> !pressed)
      requires stopped ==> !Dispatching(Step(db.Snapshot(), e).bookings[booking].status)
      modifies this, db
      ensures Valid() && sent == sentNow && open == openNow
      ensures cursor == old(cursor) && stopped == old(stopped) && pressed == (old(pressed) && !Acts(e, booking))
      ensures db.Snapshot() == Step(old(db.Snapshot()), e)
      ensures events == old(events) + [e]
      ensures LastPooled() == if old(Status()) == DispatchingPool then db.now else old(LastPooled())
    {
      hide Step, Run, Going, OneOpen, OneOpenThroughout, Outside, Attentive, Acts, Waits;
      GoingIsOneOpen(Step(db.Snapshot(), e), booking, candidates, sentNow, openNow);
      RunExtends(start, events, e, booking);
      PooledUntilNext(start, events, e, booking);
      OwnEventKeepsAttentive(Past(), booking, e, stopped, pressed);
      Store(db, Step(db.Snapshot(), e));
      events, sent, open, pressed := events + [e], sentNow, openNow, pressed && !Acts(e, booking);
    }

    /** The next thing that happens. */
    method Undergo(ghost openNow: Option<OfferId>)
      requires Valid() && cursor < |moments| && moments[cursor].Happening?
      requires Going(Step(db.Snapshot(), moments[cursor].event), booking, candidates, sent, openNow)
      requires StatusKept(db.Snapshot(), Step(db.Snapshot(), moments[cursor].event), booking)
      requires Hears(db.Snapshot(), moments[cursor], booking, true) ==>
                 !Dispatching(Step(db.Snapshot(), moments[cursor].event).bookings[booking].status)
      modifies this, db
      ensures Valid() && sent == old(sent) && open == openNow && cursor == old(cursor) + 1
      ensures stopped == (old(stopped) || Hears(old(db.Snapshot()), moments[old(cursor)], booking, true))
      ensures pressed == (|| old(pressed) || Hears(old(db.Snapshot()), moments[old(cursor)], booking, true)
                          || Hears(old(db.Snapshot()), moments[old(cursor)], booking, false))
      ensures db.Snapshot() == Step(old(db.Snapshot()), moments[old(cursor)].event)
      ensures LastPooled() == if old(Status()) == DispatchingPool then db.now else old(LastPooled())
    {
      hide Step, Run, Going, OneOpen, OneOpenThroughout, Outside, Attentive, Hears;
      var moment := moments[cursor];
      var e := moment.event;
      ghost var accepts := Hears(db.Snapshot(), moment, booking, true);
      ghost var declines := Hears(db.Snapshot(), moment, booking, false);
      GoingIsOneOpen(Step(db.Snapshot(), e), booking, candidates, sent, openNow);
      RunExtends(start, events, e, booking);
      PooledUntilNext(start, events, e, booking);
      MomentKeepsAttentive(Past(), booking, stopped, pressed);
      Store(db, Step(db.Snapshot(), e));
      places, cursor := places + [|events|], cursor + 1;
      events, open, stopped, pressed := events + [e], openNow, stopped || accepts, pressed || accepts || declines;
    }

    /** A pause. */
    method Pause()
      requires Valid() && cursor < |moments| && moments[cursor].Yield?
      modifies this
      ensures Valid() && sent == old(sent) && open == old(open) && cursor == old(cursor) + 1
      ensures stopped == old(stopped) && pressed == old(pressed) && LastPooled() == old(LastPooled())
    {
      hide Run, Going, OneOpenThroughout, Outside, Attentive;
      PauseKeepsAttentive(Past(), booking, stopped, pressed);
      places, cursor := places + [|events|], cursor + 1;
    }

    static lemma SendActs(b: BookingId, w: WorkerId, attempt: Attempt)
      ensures Acts(SendOffer(b, w, attempt), b) && !Waits(SendOffer(b, w, attempt))
    {
    }

    static lemma MoveActs(b: BookingId, e: Event)
      requires e in {StartDispatch(b), OpenPool(b), ExhaustPool(b)}
      ensures Acts(e, b) && !Waits(e)
    {
    }

    static lemma TimersDoNotAct(b: BookingId, ms: nat, o: OfferId)
      ensures !Acts(Tick(ms), b) && (Waits(Tick(ms)) ==> 0 < ms)
      ensures !Acts(ExpireOffer(o), b) && !Waits(ExpireOffer(o))
    {
    }

    /** The next rank is sent its offer. */
    method Send(i: nat) returns (o: OfferId)
      requires Valid() && open == None && sent < |candidates|
      requires i == sent && !stopped
      modifies this, db
      ensures Valid() && sent == old(sent) + 1 && cursor == old(cursor) && !stopped && !pressed
      ensures open == if old(sent) < 3 then Some(o) else None
      ensures db.now == old(db.now) && db.bookings == old(db.bookings)
    {
      hide Step, Run, Going, OneOpen, OneOpenThroughout, Outside;
      o := |db.offers|;
      SendKeepsGoing(db.Snapshot(), booking, candidates, i);
      SendActs(booking, candidates[i], Label(i));
      Apply(SendOffer(booking, candidates[i], Label(i)), i + 1, if i < 3 then Some(o) else None);
    }

    /** A status write of the engine. */
    method Move(e: Event)
      requires Valid() && open == None && e in {StartDispatch(booking), OpenPool(booking), ExhaustPool(booking)}
      requires !stopped
      modifies this, db
      ensures Valid() && sent == old(sent) && open == None && cursor == old(cursor) && !stopped && !pressed
      ensures db.now == old(db.now) && Status() == Moved(e, old(Status()))
      ensures old(Status()) == DispatchingPool ==> LastPooled() == db.now
    {
      hide Step, Run, Going, OneOpen, OneOpenThroughout, Outside, Moved, Acts, Waits, Attentive;
      MoveActs(booking, e);
      MoveKeepsGoing(db.Snapshot(), e, booking, candidates, sent);
      MoveChangesStatus(db.Snapshot(), e, booking);
      Apply(e, sent, None);
    }

    method PassTo(time: nat)
      requires Valid() && db.now <= time && !pressed
      modifies this, db
      ensures Valid() && sent == old(sent) && open == old(open) && cursor == old(cursor)
      ensures stopped == old(stopped) && !pressed
      ensures db.now == time && db.bookings == old(db.bookings)
      ensures LastPooled() == if Status() == DispatchingPool then db.now else old(LastPooled())
    {
      hide Step, Going, OneOpen, OneOpenThroughout, Attentive, Acts, Waits;
      TimersDoNotAct(booking, time - db.now, 0);
      TickKeepsGoing(db.Snapshot(), time - db.now, booking, candidates, sent, open);
      Apply(Tick(time - db.now), sent, open);
    }

    /** What happens between two steps of the engine that take no time. */
    method Interleave()
      requires Valid() && open == None
      modifies this, db
      ensures Valid() && sent == old(sent) && open == None && stopped == old(stopped) && pressed == old(pressed)
      ensures db.now == old(db.now) && StatusKept(old(db.Snapshot()), db.Snapshot(), booking)
      ensures old(Quiet()) ==> Quiet() && db.bookings == old(db.bookings)
    {
      hide Step, Run, OneOpen, OneOpenThroughout, Going, Hears, Attentive, Valid;
      while cursor < |moments| && moments[cursor].Happening? && moments[cursor].at <= db.now
        invariant Valid() && sent == old(sent) && open == None && stopped == old(stopped) && pressed == old(pressed)
        invariant db.now == old(db.now) && StatusKept(old(db.Snapshot()), db.Snapshot(), booking)
        invariant old(Quiet()) ==> Quiet() && db.bookings == old(db.bookings)
        decreases |moments| - cursor
      {
        var answer := Meet(None);
      }
      if cursor < |moments| && moments[cursor].Yield? {
        Pause();
      }
    }

    /** The next thing that happens, and what the engine hears of it. */
    method Meet(offer: Option<OfferId>) returns (answer: Answer)
      requires Valid() && open == offer
      requires cursor < |moments| && moments[cursor].Happening?
      modifies this, db
      ensures Valid() && sent == old(sent) && cursor == old(cursor) + 1
      ensures answer == GotNothing ==> open == offer && pressed == old(pressed)
      ensures answer != GotNothing ==> open == None && offer.Some?
      ensures answer != GotAccepted ==> stopped == old(stopped)
      ensures answer == GotAccepted ==> !Dispatching(Status())
      ensures db.now == old(db.now) && StatusKept(old(db.Snapshot()), db.Snapshot(), booking)
      ensures LastPooled() == if old(Status()) == DispatchingPool then db.now else old(LastPooled())
    {
      hide Step, OneOpen, OneOpenThroughout, Run, Published, Outside, Going, Hears, Attentive;
      var e := moments[cursor].event;
      answer := if offer.Some? && moments[cursor].heard then Published(db.Snapshot(), e, offer.value) else GotNothing;
      OutsideKeepsGoing(db.Snapshot(), e, booking, candidates, sent, open);
      if answer != GotNothing {
        AnswerEndsOffer(db.Snapshot(), e, offer.value, booking, candidates, sent);
      }
      HearingIsAnswering(db.Snapshot(), moments[cursor], booking, candidates, sent, open);
      Undergo(if answer == GotNothing then open else None);
    }

    static lemma HearingIsAnswering(s: State, moment: Moment, b: BookingId, candidates: seq<WorkerId>, sent: nat,
                                    open: Option<OfferId>)
      requires Going(s, b, candidates, sent, open)
      ensures Hears(s, moment, b, true) ==>
                open.Some? && moment.heard && Published(s, moment.event, open.value) == GotAccepted
      ensures Hears(s, moment, b, false) ==>
                open.Some? && moment.heard && Published(s, moment.event, open.value) == GotDeclined
    {
      hide Going, Published;
      if Hears(s, moment, b, true) {
        HeardIsPublished(s, moment, b, true, candidates, sent, open);
      }
      if Hears(s, moment, b, false) {
        HeardIsPublished(s, moment, b, false, candidates, sent, open);
      }
    }

    /** Until the deadline, or until an answer to the offer is heard. */
    method Listen(deadline: nat, offer: Option<OfferId>) returns (answer: Answer)
      requires Valid() && db.now <= deadline && open == offer && !stopped && !pressed
      modifies this, db
      ensures Valid() && sent == old(sent)
      ensures answer == GotNothing ==> open == offer && db.now == deadline && !pressed
      ensures answer != GotNothing ==> open == None && offer.Some?
      ensures answer != GotAccepted ==> !stopped
      ensures answer == GotAccepted ==> !Dispatching(Status())
      ensures old(db.now) <= db.now <= deadline && StatusKept(old(db.Snapshot()), db.Snapshot(), booking)
      ensures old(Quiet()) ==> Quiet() && answer == GotNothing && db.bookings == old(db.bookings)
      ensures old(Status()) == DispatchingPool && Status() != DispatchingPool ==> old(db.now) <= LastPooled()
    {
      hide Step, OneOpen, OneOpenThroughout, Run, Published, Outside, Going, Hears, Attentive, Valid, LastPooled;
      while cursor < |moments| && (moments[cursor].Yield? || moments[cursor].at <= deadline)
        invariant Valid() && sent == old(sent) && open == offer && !stopped && !pressed
        invariant old(Status()) == DispatchingPool && Status() != DispatchingPool ==> old(db.now) <= LastPooled()
        invariant old(db.now) <= db.now <= deadline && StatusKept(old(db.Snapshot()), db.Snapshot(), booking)
        invariant old(Quiet()) ==> Quiet() && db.bookings == old(db.bookings)
        decreases |moments| - cursor
      {
        if moments[cursor].Yield? {
          Pause();
        } else {
          PassTo(if db.now <= moments[cursor].at then moments[cursor].at else db.now);
          answer := Meet(offer);
          if answer != GotNothing {
            return;
          }
        }
      }
      PassTo(deadline);
      answer := GotNothing;
    }

    /** The offer's row is closed at the deadline unless it was answered by then. */
    method WaitForResponseOrTimeout(o: OfferId, timeoutMs: nat) returns (answer: Answer)
      requires Valid() && open == Some(o) && !stopped && !pressed
      modifies this, db
      ensures Valid() && sent == old(sent) && open == None
      ensures answer == GotNothing ==> db.now == old(db.now) + timeoutMs
      ensures answer != GotAccepted ==> !stopped
      ensures answer == GotAccepted ==> !Dispatching(Status())
      ensures old(db.now) <= db.now <= old(db.now) + timeoutMs
      ensures old(Quiet()) ==> Quiet() && db.now == old(db.now) + timeoutMs && db.bookings == old(db.bookings)
      ensures old(Quiet()) ==> answer == GotNothing
      ensures StatusKept(old(db.Snapshot()), db.Snapshot(), booking)
    {
      hide Step, OneOpen, OneOpenThroughout, Run, Published, Outside, Attentive, Acts, Waits;
      answer := Listen(db.now + timeoutMs, Some(o));
      if answer == GotNothing {
        ExpireEndsOffer(db.Snapshot(), o, booking, candidates, sent);
        TimersDoNotAct(booking, 0, o);
        Apply(ExpireOffer(o), sent, None);
      }
    }

    function Top3Count(): nat {
      if |candidates| < 3 then |candidates| else 3
    }

    /** One round of the queue: the next of the first three ranks is offered the booking and answers or not. */
    method OfferNext(i: nat, timeoutMs: nat) returns (answer: Answer)
      requires Valid() && open == None && i == sent < Top3Count() && !stopped
      modifies this, db
      ensures Valid() && sent == i + 1 && open == None
      ensures answer != GotAccepted ==> !stopped
      ensures answer == GotAccepted ==> !Dispatching(Status())
      ensures db.now <= old(db.now) + timeoutMs
      ensures StatusKept(old(db.Snapshot()), db.Snapshot(), booking)
      ensures old(Quiet()) ==> Quiet() && db.now == old(db.now) + timeoutMs && db.bookings == old(db.bookings)
      ensures old(Quiet()) ==> answer == GotNothing
    {
      hide Step, Going, Valid, AcceptanceEnds, AnswersAreActedOn, Placed;
      Interleave();
      var o := Send(i);
      answer := WaitForResponseOrTimeout(o, timeoutMs);
    }

    method RunSequentialOfferQueue(timeoutMs: nat)
      requires Valid() && sent == 0 && open == None && !stopped
      modifies this, db
      ensures Valid() && sent <= Top3Count() && open == None
      ensures Placed(Past()) && AcceptanceEnds(Past(), booking) && AnswersAreActedOn(Past(), booking)
      ensures sent == Top3Count() || !Dispatching(Status())
      ensures db.now <= old(db.now) + 3 * timeoutMs
      ensures StatusKept(old(db.Snapshot()), db.Snapshot(), booking)
      ensures old(Quiet()) ==>
                Quiet() && db.now == old(db.now) + Top3Count() * timeoutMs && db.bookings == old(db.bookings)
    {
      hide Step, Going, Valid, AcceptanceEnds, AnswersAreActedOn, Placed;
      var i := 0;
      ghost var elapsed := 0;
      while i < Top3Count()
        invariant Valid() && sent == i <= Top3Count() && open == None && !stopped
        invariant elapsed == i * timeoutMs && db.now <= old(db.now) + elapsed
        invariant StatusKept(old(db.Snapshot()), db.Snapshot(), booking)
        invariant old(Quiet()) ==> Quiet() && db.now == old(db.now) + elapsed && db.bookings == old(db.bookings)
      {
        var answer := OfferNext(i, timeoutMs);
        assert (i + 1) * timeoutMs == elapsed + timeoutMs;
        i, elapsed := i + 1, elapsed + timeoutMs;
        if answer == GotAccepted {
          assert i == 1 || i == 2 || i == 3;
          ValidRecords();
          return;
        }
      }
      ValidRecords();
    }

    /** The pool's offers go out together; the status is polled until it changes or the deadline closes the pool. */
    method RunBroadcastOfferPool(timeoutMs: nat)
      requires Valid() && sent == Top3Count() && open == None && Status() == DispatchingPool && !stopped && !pressed
      modifies this, db
      ensures Valid() && sent == |candidates|
      ensures db.now <= old(db.now) + timeoutMs
      ensures !Dispatching(Status()) && db.now <= LastPooled() + 2_000
      ensures old(Quiet()) ==> Status() == Cancelled && db.now == old(db.now) + timeoutMs
    {
      hide Step, Going, Valid, AcceptanceEnds, AnswersAreActedOn, Placed, LastPooled;
      var i := Top3Count();
      while i < |candidates|
        invariant Valid() && sent == i <= |candidates| && open == None && !stopped && !pressed
        invariant Top3Count() <= i && db.now == old(db.now) && Status() == DispatchingPool
        invariant old(Quiet()) ==> Quiet()
      {
        var _ := Send(i);
        i := i + 1;
      }
      var deadline := db.now + timeoutMs;
      var poll := db.now + POLL_MS;
      while poll < deadline
        invariant Valid() && sent == |candidates| && open == None && !stopped && !pressed
        invariant db.now == poll - POLL_MS && db.now <= deadline && Status() == DispatchingPool
        invariant old(Quiet()) ==> Quiet()
      {
        var _ := Listen(poll, None);
        if Status() != DispatchingPool {
          return;
        }
        poll := poll + POLL_MS;
      }
      var _ := Listen(deadline, None);
      if Status() == DispatchingPool {
        Move(ExhaustPool(booking));
      }
    }

    /** The second phase, if the booking is still waiting after the first. */
    method OpenPoolIfWaiting(poolMs: nat)
      requires Valid() && sent <= Top3Count() && open == None && Status() != DispatchingPool
      requires sent == Top3Count() || !Dispatching(Status())
      modifies this, db
      ensures Valid() && (sent <= 3 || sent == |candidates|)
      ensures db.now <= old(db.now) + poolMs
      ensures booking < |db.bookings| && !Dispatching(Status())
      ensures 3 < sent ==> db.now <= LastPooled() + 2_000
      ensures old(Quiet() && Status() == DispatchingTop3) ==>
                sent == |candidates| && Status() == Cancelled && db.now == old(db.now) + poolMs
    {
      hide Step, Going, Valid, AcceptanceEnds, AnswersAreActedOn, Placed;
      Interleave();
      if Status() == DispatchingTop3 {
        Move(OpenPool(booking));
        RunBroadcastOfferPool(poolMs);
      }
    }

    method OfferToAll(top3Ms: nat, poolMs: nat) returns (completed: bool)
      requires Valid() && sent == 0 && open == None && Status() == Requested && !stopped
      modifies this, db
      ensures Valid() && (sent <= 3 || sent == |candidates|)
      ensures !completed ==> sent == 0
      ensures db.now <= old(db.now) + 3 * top3Ms + poolMs
      ensures booking < |db.bookings| && !Dispatching(Status())
      ensures 3 < sent ==> db.now <= LastPooled() + 2_000
      ensures old(Quiet()) ==>
                && sent == |candidates| && Status() == Cancelled
                && db.now == old(db.now) + Top3Count() * top3Ms + poolMs
    {
      hide Step, Going, Valid, AcceptanceEnds, AnswersAreActedOn, Placed;
      Interleave();
      if DispatchingTop3 !in LegalTransitions(Status()) {
        return false;
      }
      Move(StartDispatch(booking));
      RunSequentialOfferQueue(top3Ms);
      OpenPoolIfWaiting(poolMs);
      return true;
    }

    /** The whole dispatch of a fresh booking, whatever answers come and whatever else happens: it is a run of
        atomic steps in which no two top-3 offers are ever open together; the offers sent are the plan's, rank
        by rank, up to some rank among the first three or the whole plan; it is over within three top-3
        timeouts and one pool timeout, and then the booking is in neither dispatching status. An acceptance that
        is heard ends it, after a refusal that is heard the next offer goes out at once, and once the booking has
        left the pool it is over within the next two seconds. If nothing else happens at all, everyone is offered
        the booking and it is cancelled at the last deadline. */
    method EnqueueDispatch(top3Seconds: nat, poolSeconds: nat) returns (completed: bool)
      requires Valid() && start == db.Snapshot() && events == [] && sent == 0 && open == None && !stopped
      requires Status() == Requested
      modifies this, db
      ensures db.Snapshot() == Run(old(db.Snapshot()), events)
      ensures OneOpenThroughout(old(db.Snapshot()), events, booking)
      ensures sent <= |candidates| && SentFor(db.offers, booking) == Plan(candidates)[..sent]
      ensures sent <= 3 || sent == |candidates|
      ensures |places| == cursor && Placed(Past())
      ensures AcceptanceEnds(Past(), booking) && AnswersAreActedOn(Past(), booking)
      ensures !completed ==> sent == 0
      ensures db.now <= old(db.now) + 3 * (top3Seconds * 1000) + poolSeconds * 1000
      ensures booking < |db.bookings| && !Dispatching(Status())
      ensures 3 < sent ==> db.now <= PooledUntil(old(db.Snapshot()), events, booking) + 2_000
      ensures old(Quiet()) ==>
                && sent == |candidates| && Status() == Cancelled
                && db.now == old(db.now) + Top3Count() * (top3Seconds * 1000) + poolSeconds * 1000
    {
      hide Step, Run, OneOpenThroughout, Going, Valid, AcceptanceEnds, AnswersAreActedOn, Placed;
      completed := OfferToAll(top3Seconds * 1000, poolSeconds * 1000);
      ValidRecords();
    }
  }

  /** Read off the plan: nobody is offered the booking twice, the first three ranks get the three attempts in
      order, and the pool goes to exactly the candidates after the third. */
  lemma PlanIsRankByRank(candidates: seq<WorkerId>, sent: nat, w: WorkerId)
    requires forall i, j | 0 <= i < j < |candidates| :: candidates[i] != candidates[j]
    requires sent <= |candidates|
    ensures var offers := Plan(candidates)[..sent];
            && (forall i, j | 0 <= i < j < |offers| :: offers[i].0 != offers[j].0)
            && (3 <= sent ==>
                  offers[..3] == [(candidates[0], Attempt1), (candidates[1], Attempt2), (candidates[2], Attempt3)])
            && ((w, Pool) in offers <==> 3 <= sent && w in candidates[3..sent])
  {
    var offers := Plan(candidates)[..sent];
    if 3 <= sent && w in candidates[3..sent] {
      var i :| 0 <= i < sent - 3 && candidates[3..sent][i] == w;
      assert offers[i + 3] == (w, Pool);
    }
    if (w, Pool) in offers {
      var i :| 0 <= i < sent && offers[i] == (w, Pool);
      assert w == candidates[3..sent][i - 3];
    }
  }
}
