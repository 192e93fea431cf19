/** The timestamp columns of a booking stay in order, although forced assignment can send a started
    booking back to ASSIGNED with its old timestamps in place; and the welfare figures of
    server/src/controllers/worker.controller.ts that read them. */
module Timeline {
  import opened Schema
  import opened Steps
  import opened BookingChanges

  predicate Before(earlier: Option<nat>, later: Option<nat>) {
    earlier.Some? && later.Some? && earlier.value <= later.value
  }

  /** The timestamps that belong to the booking's present status are set, in order and not in the
      future. Timestamps of statuses it has not (re)entered may be stale. */
  predicate InOrder(booking: Booking, now: nat) {
    && (booking.status == Confirmed ==> Before(booking.confirmedAt, Some(now)))
    && (booking.status in {InProgress, Completed, Settled} ==>
          Before(booking.confirmedAt, booking.startedAt) && Before(booking.startedAt, Some(now)))
    && (booking.status in {Completed, Settled} ==>
          Before(booking.startedAt, booking.completedAt) && Before(booking.completedAt, Some(now)))
    && (booking.status == Settled ==>
          Before(booking.completedAt, booking.settledAt) && Before(booking.settledAt, Some(now)))
  }

  predicate Ordered(s: State) {
    forall b | 0 <= b < |s.bookings| :: InOrder(s.bookings[b], s.now)
  }

  lemma StepKeepsOrdered(s: State, e: Event)
    requires Ordered(s)
    ensures Ordered(Step(s, e))
  {
    hide Step, ChangeOf;
    StepMakesChange(s, e);
    ChangeKeepsOrdered(s, Step(s, e), ChangeOf(s, e));
  }

  lemma ChangeKeepsOrdered(s: State, t: State, change: Change)
    requires Ordered(s) && Enabled(s, change)
    requires t.bookings == NewBookings(s, change) && s.now <= t.now
    ensures Ordered(t)
  {
  }

  lemma {:induction false} RunKeepsOrdered(s: State, events: seq<Event>)
    requires Ordered(s)
    ensures Ordered(Run(s, events))
    decreases |events|
  {
    hide Step;
    if events != [] {
      StepKeepsOrdered(s, events[0]);
      RunKeepsOrdered(Step(s, events[0]), events[1..]);
    }
  }

  /** The jobs the welfare query selects. */
  predicate CompletedJob(booking: Booking, w: WorkerId) {
    && booking.assignee == Some(w)
    && booking.status in {Completed, Settled}
    && booking.startedAt.Some? && booking.completedAt.Some?
  }

  function JobTime(booking: Booking, w: WorkerId, cutoff: nat): int {
    if CompletedJob(booking, w) && cutoff <= booking.completedAt.value
    then booking.completedAt.value - booking.startedAt.value else 0
  }

  /** The time in milliseconds worked in the jobs completed since the cutoff. */
  function TimeWorkedSince(bookings: seq<Booking>, w: WorkerId, cutoff: nat): int {
    if bookings == [] then 0 else JobTime(bookings[0], w, cutoff) + TimeWorkedSince(bookings[1..], w, cutoff)
  }

  lemma {:induction false} TimeOfUpdate(bookings: seq<Booking>, b: BookingId, booking: Booking, w: WorkerId,
                                        cutoff: nat)
    requires b < |bookings|
    ensures TimeWorkedSince(bookings[b := booking], w, cutoff) ==
            TimeWorkedSince(bookings, w, cutoff) - JobTime(bookings[b], w, cutoff) + JobTime(booking, w, cutoff)
  {
    if b > 0 {
      TimeOfUpdate(bookings[1..], b - 1, booking, w, cutoff);
      assert bookings[b := booking][1..] == bookings[1..][b - 1 := booking];
    }
  }

  lemma {:induction false} OrderedTimeIsMonotone(bookings: seq<Booking>, now: nat, w: WorkerId, early: nat, late: nat)
    requires forall b | 0 <= b < |bookings| :: InOrder(bookings[b], now)
    requires early <= late
    ensures 0 <= TimeWorkedSince(bookings, w, late) <= TimeWorkedSince(bookings, w, early)
  {
    if bookings != [] {
      OrderedTimeIsMonotone(bookings[1..], now, w, early, late);
      assert InOrder(bookings[0], now);
    }
  }

  /** Hours in hundredths: Math.round(hours * 100), where an hour is 3600000 ms. */
  function RoundedHours(ms: int): int { (ms + 18000) / 36000 }

  /** Rounded to the nearest hundredth of an hour. */
  lemma HoursAreRounded(ms: int)
    ensures -18_000 <= 36_000 * RoundedHours(ms) - ms <= 18_000
  {
  }

  /** In every run, on any clock that does not go back: the day's figure is not negative and never
      exceeds the week's, before rounding and after. */
  lemma WelfareHoursMakeSense(events: seq<Event>, w: WorkerId, startOfWeek: nat, startOfToday: nat)
    requires startOfWeek <= startOfToday
    ensures var bookings := Run(EmptyState, events).bookings;
            var today, week := TimeWorkedSince(bookings, w, startOfToday), TimeWorkedSince(bookings, w, startOfWeek);
            0 <= today <= week && 0 <= RoundedHours(today) <= RoundedHours(week)
  {
    RunKeepsOrdered(EmptyState, events);
    var s := Run(EmptyState, events);
    OrderedTimeIsMonotone(s.bookings, s.now, w, startOfWeek, startOfToday);
  }

  const DAY_MS: int := 86_400_000

  /** The date part of an instant's ISO string, which is in UTC. */
  function UtcDay(instant: int): int { instant / DAY_MS }

  function DaysOf(completedAt: seq<int>): set<int> {
    set i | 0 <= i < |completedAt| :: UtcDay(completedAt[i])
  }

  /** The streak: how many UTC days in a row, going back from the one in which the server's day began, have a
      completed job. */
  method ConsecutiveJobStreak(completedAt: seq<int>, startOfToday: int) returns (streak: nat)
    ensures forall day | UtcDay(startOfToday) - streak < day <= UtcDay(startOfToday) :: day in DaysOf(completedAt)
    ensures UtcDay(startOfToday) - streak !in DaysOf(completedAt)
  {
    var completedDays := DaysOf(completedAt);
    streak := 0;
    var cursor := startOfToday;
    ghost var ahead := completedDays;
    while UtcDay(cursor) in completedDays
      invariant UtcDay(cursor) == UtcDay(startOfToday) - streak
      invariant forall day | UtcDay(cursor) < day <= UtcDay(startOfToday) :: day in completedDays
      invariant forall day | day in completedDays && day <= UtcDay(cursor) :: day in ahead
      invariant ahead <= completedDays
      decreases ahead
    {
      ahead := ahead - {UtcDay(cursor)};
      streak := streak + 1;
      cursor := cursor - DAY_MS;
    }
  }

  /** A job completed in the server's present day counts for its first streak day exactly when it was completed
      before the next UTC midnight; so all of them do if and only if the server's days begin at one. */
  lemma TodaysJobsCountIff(startOfToday: int)
    ensures forall job | startOfToday <= job < startOfToday + 86_400_000 ::
              UtcDay(job) == UtcDay(startOfToday) <==> job < (startOfToday / 86_400_000 + 1) * 86_400_000
    ensures (forall job | startOfToday <= job < startOfToday + 86_400_000 :: UtcDay(job) == UtcDay(startOfToday))
            <==> startOfToday % 86_400_000 == 0
  {
    var last := startOfToday + DAY_MS - 1;
    assert UtcDay(last) == UtcDay(startOfToday) ==> startOfToday % DAY_MS == 0;
  }
}
