/** Workers racing to accept one booking. The accept handler is split into the Redis SET NX PX, the read of
    the booking and the commit of its write; the steps of any number of requests interleave freely.
    The lock is never released early: it only expires. Nothing but an accept writes the assignee here. */
module AcceptLock {
  import opened Schema
  import opened DispatchController

  type RequestId = nat

  datatype Phase =
    | Waiting
    | Locked(at: nat)
    | ReadUnassigned(at: nat)
    | Answered(reply: Reply)
    | Failed

  datatype Request = Request(worker: WorkerId, phase: Phase)

  datatype Lock = Lock(holder: RequestId, expiresAt: nat)

  /** `writes` lists the requests whose assignment was committed, in order. */
  datatype Race = Race(now: nat, lock: Option<Lock>, assignee: Option<WorkerId>, requests: map<RequestId, Request>,
                       writes: seq<RequestId>)

  datatype Action =
    | Begin(id: RequestId, worker: WorkerId)
    | SetKey(id: RequestId)
    | SetKeyReplyLost(id: RequestId)
    | ReadBooking(id: RequestId)
    | CommitWrite(id: RequestId)
    | RollBack(id: RequestId)
    | Pass(ms: nat)

  const START: Race := Race(0, None, None, map[], [])

  predicate KeySet(r: Race) {
    r.lock.Some? && r.now < r.lock.value.expiresAt
  }

  function SetPhase(r: Race, id: RequestId, phase: Phase): Race
    requires id in r.requests
  {
    r.(requests := r.requests[id := r.requests[id].(phase := phase)])
  }

  predicate Possible(r: Race, action: Action) {
    match action
    case Begin(id, _) => id !in r.requests
    case SetKey(id) => id in r.requests && r.requests[id].phase.Waiting?
    case SetKeyReplyLost(id) => id in r.requests && r.requests[id].phase.Waiting?
    case ReadBooking(id) => id in r.requests && r.requests[id].phase.Locked?
    case CommitWrite(id) => id in r.requests && r.requests[id].phase.ReadUnassigned?
    case RollBack(id) => id in r.requests && (r.requests[id].phase.Locked? || r.requests[id].phase.ReadUnassigned?)
    case Pass(_) => true
  }

  function TakeKey(r: Race, id: RequestId): Race {
    if KeySet(r) then r else r.(lock := Some(Lock(id, r.now + LOCK_TTL_MS)))
  }

  function Act(r: Race, action: Action): Race
    requires Possible(r, action)
  {
    match action
    case Begin(id, w) => r.(requests := r.requests[id := Request(w, Waiting)])
    case SetKey(id) => SetPhase(TakeKey(r, id), id, if KeySet(r) then Answered(LostLock) else Locked(r.now))
    // The 3-second timeout on the Redis call fired first: the key may be set all the same.
    case SetKeyReplyLost(id) => SetPhase(TakeKey(r, id), id, Phase.Failed)
    case ReadBooking(id) =>
      SetPhase(r, id, if r.assignee.Some? then Answered(AlreadyAssigned) else ReadUnassigned(r.requests[id].phase.at))
    case CommitWrite(id) =>
      SetPhase(r, id, Answered(Ok)).(assignee := Some(r.requests[id].worker), writes := r.writes + [id])
    case RollBack(id) => SetPhase(r, id, Answered(AlreadyAssigned))
    case Pass(ms) => r.(now := r.now + ms)
  }

  predicate PossibleAll(r: Race, actions: seq<Action>)
    decreases |actions|
  {
    actions != [] ==> Possible(r, actions[0]) && PossibleAll(Act(r, actions[0]), actions[1..])
  }

  function ActAll(r: Race, actions: seq<Action>): Race
    requires PossibleAll(r, actions)
    decreases |actions|
  {
    if actions == [] then r else ActAll(Act(r, actions[0]), actions[1..])
  }

  /** Every assignment is committed at most `bound` milliseconds after its request took the lock. */
  predicate Within(r: Race, actions: seq<Action>, bound: nat)
    requires PossibleAll(r, actions)
    decreases |actions|
  {
    actions != [] ==>
      && (actions[0].CommitWrite? ==> r.now <= r.requests[actions[0].id].phase.at + bound)
      && Within(Act(r, actions[0]), actions[1..], bound)
  }

  predicate InTransaction(phase: Phase) { phase.Locked? || phase.ReadUnassigned? }

  /** What a request knows: until its lock expires it alone holds the key, so a booking it read
      as unassigned still is. */
  predicate Fenced(r: Race, id: RequestId)
    requires id in r.requests
  {
    var phase := r.requests[id].phase;
    && (InTransaction(phase) && r.now < phase.at + LOCK_TTL_MS ==> r.lock == Some(Lock(id, phase.at + LOCK_TTL_MS)))
    && (phase.ReadUnassigned? && r.now < phase.at + LOCK_TTL_MS ==> r.assignee == None)
  }

  /** The one acceptor, if there is one yet, is the assignee and the only request answered ACCEPTED. */
  predicate OneWinner(r: Race) {
    && |r.writes| <= 1
    && (r.assignee == None <==> r.writes == [])
    && (forall id | id in r.requests :: r.requests[id].phase == Answered(Ok) <==> id in r.writes)
    && (forall id | id in r.writes :: id in r.requests && r.assignee == Some(r.requests[id].worker))
  }

  ghost predicate Safe(r: Race) {
    && OneWinner(r)
    && (forall id | id in r.requests :: Fenced(r, id))
  }

  lemma ActKeepsFences(r: Race, action: Action)
    requires Safe(r) && Possible(r, action)
    requires action.CommitWrite? ==> r.now < r.requests[action.id].phase.at + LOCK_TTL_MS
    ensures forall id | id in Act(r, action).requests :: Fenced(Act(r, action), id)
  {
  }

  lemma ActKeepsOneWinner(r: Race, action: Action)
    requires Safe(r) && Possible(r, action)
    requires action.CommitWrite? ==> r.now < r.requests[action.id].phase.at + LOCK_TTL_MS
    ensures OneWinner(Act(r, action))
  {
  }

  /** However the requests interleave: if every acceptor commits before its lock expires, the booking is
      assigned once at most, to the one request that was answered ACCEPTED. */
  lemma {:induction false} TimelyAcceptsAssignOnce(r: Race, actions: seq<Action>, bound: nat)
    requires Safe(r) && PossibleAll(r, actions) && Within(r, actions, bound) && bound < LOCK_TTL_MS
    ensures OneWinner(ActAll(r, actions))
    decreases |actions|
  {
    if actions != [] {
      ActKeepsFences(r, actions[0]);
      ActKeepsOneWinner(r, actions[0]);
      TimelyAcceptsAssignOnce(Act(r, actions[0]), actions[1..], bound);
    }
  }

  /** Once assigned, the booking keeps its worker. */
  lemma {:induction false} AssignmentStands(r: Race, actions: seq<Action>, bound: nat)
    requires Safe(r) && PossibleAll(r, actions) && Within(r, actions, bound) && bound < LOCK_TTL_MS
    ensures r.assignee.Some? ==> ActAll(r, actions).assignee == r.assignee
    decreases |actions|
  {
    if actions != [] {
      ActKeepsFences(r, actions[0]);
      ActKeepsOneWinner(r, actions[0]);
      if actions[0].CommitWrite? {
        assert Fenced(r, actions[0].id);
      }
      AssignmentStands(Act(r, actions[0]), actions[1..], bound);
    }
  }

  /** A commit deadline under which no interleaving assigns the booking twice. */
  ghost predicate SafeDeadline(bound: nat) {
    forall actions | PossibleAll(START, actions) && Within(START, actions, bound) ::
      |ActAll(START, actions).writes| <= 1
  }

  /** A first acceptor sleeps through its lock; a second one takes the lock and reads before it commits. */
  function Sleeper(): seq<Action> {
    [Begin(0, 0), SetKey(0), ReadBooking(0), Pass(LOCK_TTL_MS)] + Overtaker()
  }

  function Overtaker(): seq<Action> {
    [Begin(1, 1), SetKey(1), ReadBooking(1), CommitWrite(1), CommitWrite(0)]
  }

  lemma Prepend(r: Race, action: Action, rest: seq<Action>, actions: seq<Action>, bound: nat)
    requires actions != [] && actions[0] == action && actions[1..] == rest
    requires Possible(r, action) && PossibleAll(Act(r, action), rest) && Within(Act(r, action), rest, bound)
    requires action.CommitWrite? ==> r.now <= r.requests[action.id].phase.at + bound
    ensures PossibleAll(r, actions) && Within(r, actions, bound)
    ensures ActAll(r, actions) == ActAll(Act(r, action), rest)
  {
  }

  lemma OvertakerWrites(r: Race, bound: nat)
    requires LOCK_TTL_MS <= bound && !KeySet(r) && r.assignee == None && r.writes == []
    requires r.requests == map[0 := Request(0, ReadUnassigned(0))] && r.now == LOCK_TTL_MS
    ensures PossibleAll(r, Overtaker()) && Within(r, Overtaker(), bound)
    ensures ActAll(r, Overtaker()).writes == [1, 0]
  {
    var r1 := Act(r, Begin(1, 1));
    var r2 := Act(r1, SetKey(1));
    var r3 := Act(r2, ReadBooking(1));
    var r4 := Act(r3, CommitWrite(1));
    var r5 := Act(r4, CommitWrite(0));
    Prepend(r4, CommitWrite(0), [], [CommitWrite(0)], bound);
    Prepend(r3, CommitWrite(1), [CommitWrite(0)], [CommitWrite(1), CommitWrite(0)], bound);
    Prepend(r2, ReadBooking(1), [CommitWrite(1), CommitWrite(0)],
            [ReadBooking(1), CommitWrite(1), CommitWrite(0)], bound);
    Prepend(r1, SetKey(1), Overtaker()[2..], Overtaker()[1..], bound);
    Prepend(r, Begin(1, 1), Overtaker()[1..], Overtaker(), bound);
    assert r5.writes == [1, 0];
  }

  lemma SleeperAssignsTwice(bound: nat)
    requires LOCK_TTL_MS <= bound
    ensures PossibleAll(START, Sleeper()) && Within(START, Sleeper(), bound)
    ensures ActAll(START, Sleeper()).writes == [1, 0]
  {
    hide Overtaker;
    var r1 := Act(START, Begin(0, 0));
    var r2 := Act(r1, SetKey(0));
    var r3 := Act(r2, ReadBooking(0));
    var r4 := Act(r3, Pass(LOCK_TTL_MS));
    OvertakerWrites(r4, bound);
    Prepend(r3, Pass(LOCK_TTL_MS), Overtaker(), Sleeper()[3..], bound);
    Prepend(r2, ReadBooking(0), Sleeper()[3..], Sleeper()[2..], bound);
    Prepend(r1, SetKey(0), Sleeper()[2..], Sleeper()[1..], bound);
    Prepend(START, Begin(0, 0), Sleeper()[1..], Sleeper(), bound);
  }

  /** The lock's time to live is exactly what the accept transaction has to beat. */
  lemma SafeExactlyBelowLockTtl(bound: nat)
    ensures SafeDeadline(bound) <==> bound < LOCK_TTL_MS
  {
    if bound < LOCK_TTL_MS {
      forall actions | PossibleAll(START, actions) && Within(START, actions, bound)
        ensures |ActAll(START, actions).writes| <= 1
      {
        TimelyAcceptsAssignOnce(START, actions, bound);
      }
    } else {
      SleeperAssignsTwice(bound);
    }
  }

  /** The race over booking b agrees with the tables. */
  predicate Abstracts(r: Race, s: State, b: BookingId) {
    && r.now == s.now
    && b < |s.bookings| && r.assignee == s.bookings[b].assignee
    && r.lock.Some? == (b in s.locks)
    && (r.lock.Some? ==> r.lock.value.expiresAt == s.locks[b])
  }

  /** A request's steps with no other step between them. */
  function Alone(r: Race, id: RequestId): Race
    requires Possible(r, SetKey(id))
  {
    var keyed := Act(r, SetKey(id));
    if !keyed.requests[id].phase.Locked? then keyed
    else
      var read := Act(keyed, ReadBooking(id));
      if !read.requests[id].phase.ReadUnassigned? then read else Act(read, CommitWrite(id))
  }

  /** Taken together, the split steps are the atomic accept handler, answer for answer. */
  lemma AloneIsAtomicAccept(r: Race, id: RequestId, s: State, o: OfferId)
    requires o < |s.offers| && Screen(s, o, s.offers[o].worker) == Ok
    requires Abstracts(r, s, s.offers[o].booking)
    requires Possible(r, SetKey(id)) && r.requests[id].worker == s.offers[o].worker
    ensures var (t, reply) := Accept(s, o, s.offers[o].worker);
            && Alone(r, id).requests[id].phase == Answered(reply)
            && Abstracts(Alone(r, id), t, s.offers[o].booking)
  {
  }
}
