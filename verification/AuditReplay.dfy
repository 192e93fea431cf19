/** The audit trail is enough to rebuild every booking's status and assigned worker. */
module AuditReplay {
  import opened Schema
  import opened Steps
  import opened BookingChanges

  datatype Standing = Standing(status: BookingStatus, assignee: Option<WorkerId>)

  /** What one audit row says happened to a booking. */
  function Reading(standing: Option<Standing>, action: AuditAction): Option<Standing> {
    match action
    case BookingCreated => Some(Standing(Requested, None))
    case StatusChanged(_, to) => if standing.Some? then Some(standing.value.(status := to)) else None
    case BookingAccepted(w) => Some(Standing(Assigned, Some(w)))
    case AdminForceAssign(w) => Some(Standing(Assigned, Some(w)))
    case AdminBookingCancelled => standing
  }

  /** The rows of booking b read in order. */
  function Replay(audit: seq<AuditRow>, b: BookingId): Option<Standing> {
    if audit == [] then None
    else
      var before := Replay(audit[..|audit| - 1], b);
      var row := audit[|audit| - 1];
      if row.booking == b then Reading(before, row.action) else before
  }

  function StandingOf(booking: Booking): Standing {
    Standing(booking.status, booking.assignee)
  }

  /** Every recorded `from` is the status the rows before it replay to. */
  ghost predicate FromsAreTrue(audit: seq<AuditRow>) {
    forall i | 0 <= i < |audit| && audit[i].action.StatusChanged? ::
      var before := Replay(audit[..i], audit[i].booking);
      before.Some? && before.value.status == audit[i].action.from
  }

  ghost predicate Faithful(s: State) {
    && (forall b | 0 <= b < |s.bookings| :: Replay(s.audit, b) == Some(StandingOf(s.bookings[b])))
    && (forall i | 0 <= i < |s.audit| :: s.audit[i].booking < |s.bookings|)
    && FromsAreTrue(s.audit)
  }

  lemma ReplayAppend(audit: seq<AuditRow>, row: AuditRow, b: BookingId)
    ensures Replay(audit + [row], b) ==
            if row.booking == b then Reading(Replay(audit, b), row.action) else Replay(audit, b)
  {
  }

  lemma FromsAppend(audit: seq<AuditRow>, row: AuditRow)
    requires FromsAreTrue(audit)
    requires row.action.StatusChanged? ==>
               var before := Replay(audit, row.booking);
               before.Some? && before.value.status == row.action.from
    ensures FromsAreTrue(audit + [row])
  {
    var longer := audit + [row];
    assert longer[..|audit|] == audit;
    forall i | 0 <= i < |audit|
      ensures longer[..i] == audit[..i]
    {
    }
  }

  /** One more row keeps the trail faithful to bookings that changed as the row says. */
  lemma AppendKeepsFaithful(s: State, t: State, row: AuditRow)
    requires Faithful(s) && t.audit == s.audit + [row] && row.booking < |t.bookings|
    requires |s.bookings| <= |t.bookings|
    requires row.action.StatusChanged? ==>
               row.booking < |s.bookings| && row.action.from == s.bookings[row.booking].status
    requires forall b | 0 <= b < |t.bookings| ::
               if b == row.booking
               then Reading(Replay(s.audit, b), row.action) == Some(StandingOf(t.bookings[b]))
               else b < |s.bookings| && StandingOf(t.bookings[b]) == StandingOf(s.bookings[b])
    ensures Faithful(t)
  {
    forall b | 0 <= b < |t.bookings|
      ensures Replay(t.audit, b) == Some(StandingOf(t.bookings[b]))
    {
      ReplayAppend(s.audit, row, b);
    }
    FromsAppend(s.audit, row);
  }

  lemma ChangeKeepsFaithful(s: State, t: State, change: Change, noted: bool)
    requires Faithful(s) && Enabled(s, change)
    requires t.bookings == NewBookings(s, change) && t.audit == NewAudit(s, change, noted)
    ensures Faithful(t)
  {
    match change
    case Unchanged =>
    case Created(_, _) => AppendKeepsFaithful(s, t, AuditRow(|s.bookings|, BookingCreated));
    case Handed(b, w, forced) =>
      AppendKeepsFaithful(s, t, AuditRow(b, if forced then AdminForceAssign(w) else BookingAccepted(w)));
    case Moved(b, next) =>
      var row := AuditRow(b, StatusChanged(s.bookings[b].status, next));
      var moved := t.(audit := s.audit + [row]);
      AppendKeepsFaithful(s, moved, row);
      if noted {
        AppendKeepsFaithful(moved, t, AuditRow(b, AdminBookingCancelled));
      }
  }

  lemma StepKeepsFaithful(s: State, e: Event)
    requires Faithful(s)
    ensures Faithful(Step(s, e))
  {
    hide Step, ChangeOf;
    StepMakesChange(s, e);
    ChangeKeepsFaithful(s, Step(s, e), ChangeOf(s, e), e.AdminCancel?);
  }

  /** In every run from empty tables, replaying a booking's rows gives its status and worker, and
      each recorded `from` is the replay of the rows before it. */
  lemma {:induction false} AuditTrailIsFaithful(s: State, events: seq<Event>)
    requires Faithful(s)
    ensures Faithful(Run(s, events))
    decreases |events|
  {
    hide Step;
    if events != [] {
      StepKeepsFaithful(s, events[0]);
      AuditTrailIsFaithful(Step(s, events[0]), events[1..]);
    }
  }

  lemma ReachableTrailIsFaithful(s: State)
    requires Reachable(s)
    ensures Faithful(s)
  {
    var events :| Run(EmptyState, events) == s;
    AuditTrailIsFaithful(EmptyState, events);
  }
}
