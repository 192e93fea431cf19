/** server/src/services/continuity-scoring.service.ts: the eligible workers of a booking, scored,
    ordered and cut to twenty. Distances are supplied, not computed. */
module ContinuityScoring {
  import opened Schema
  import opened Steps
  import opened Ratings

  const MAX_SEARCH_RADIUS_KM: real := 15.0
  const FRESH_MS: nat := 120000
  const LIMIT: nat := 20

  /** What the query reads of a worker beside the worker row: approved skills, own radius, last position. */
  datatype Profile = Profile(skills: set<string>, radiusKm: real, position: Option<Position>)

  datatype Position = Position(distanceKm: real, at: nat)

  datatype Candidate = Candidate(worker: WorkerId, distanceKm: real, priorJobs: nat, score: real)

  function Least(x: real, y: real): real { if x <= y then x else y }

  function Greatest(x: real, y: real): real { if x >= y then x else y }

  /** Finished jobs of the worker for the customer. */
  function PriorJobs(bookings: seq<Booking>, w: WorkerId, customer: CustomerId): nat {
    if bookings == [] then 0
    else
      var n := |bookings| - 1;
      var booking := bookings[n];
      PriorJobs(bookings[..n], w, customer)
      + if booking.assignee == Some(w) && booking.customer == customer && booking.status in {Completed, Settled}
        then 1 else 0
  }

  function Score(priorJobs: nat, rating: real, radiusKm: real, distanceKm: real): real {
    priorJobs as real * 40.0 + rating * 12.0 + Greatest(0.0, Least(radiusKm, MAX_SEARCH_RADIUS_KM) - distanceKm) * 6.0
  }

  predicate Eligible(s: State, profiles: map<WorkerId, Profile>, category: string, w: WorkerId) {
    && w < |s.workers| && w in profiles
    && category in profiles[w].skills
    && s.workers[w].approved
    && s.workers[w].availability == Available
    && profiles[w].position.Some?
    && s.now < profiles[w].position.value.at + FRESH_MS
    && profiles[w].position.value.distanceKm <= Least(profiles[w].radiusKm, MAX_SEARCH_RADIUS_KM)
  }

  function CandidateOf(s: State, profiles: map<WorkerId, Profile>, customer: CustomerId, w: WorkerId): Candidate
    requires w < |s.workers| && w in profiles && profiles[w].position.Some?
  {
    var distance, prior := profiles[w].position.value.distanceKm, PriorJobs(s.bookings, w, customer);
    Candidate(w, distance, prior, Score(prior, s.workers[w].ratingAverage, profiles[w].radiusKm, distance))
  }

  /** The rows of the WHERE clause among the first n workers. */
  function EligibleRows(s: State, profiles: map<WorkerId, Profile>, category: string, customer: CustomerId, n: nat)
    : seq<Candidate>
    requires n <= |s.workers|
  {
    if n == 0 then []
    else
      var rows := EligibleRows(s, profiles, category, customer, n - 1);
      if Eligible(s, profiles, category, n - 1) then rows + [CandidateOf(s, profiles, customer, n - 1)] else rows
  }

  /** Puts a row at its place in descending order. */
  function Place(rows: seq<Candidate>, row: Candidate): seq<Candidate> {
    if rows == [] || rows[0].score < row.score then [row] + rows else [rows[0]] + Place(rows[1..], row)
  }

  function Order(rows: seq<Candidate>): seq<Candidate> {
    if rows == [] then [] else Place(Order(rows[..|rows| - 1]), rows[|rows| - 1])
  }

  function Cut(rows: seq<Candidate>): seq<Candidate> {
    if |rows| <= LIMIT then rows else rows[..LIMIT]
  }

  function ScoreCandidateWorkers(s: State, profiles: map<WorkerId, Profile>, category: string, customer: CustomerId)
    : seq<Candidate>
  {
    Cut(Order(EligibleRows(s, profiles, category, customer, |s.workers|)))
  }

  predicate Sorted(rows: seq<Candidate>) {
    forall i, j | 0 <= i < j < |rows| :: rows[i].score >= rows[j].score
  }

  /** ORDER BY score DESC LIMIT 20, which leaves the order of equal scores open. */
  ghost predicate IsTopOf(result: seq<Candidate>, rows: seq<Candidate>) {
    && |result| == (if |rows| <= 20 then |rows| else 20)
    && Sorted(result)
    && multiset(result) <= multiset(rows)
    && (forall row, kept | row in multiset(rows) - multiset(result) && kept in result :: kept.score >= row.score)
  }

  lemma {:induction false} PlaceKeepsRows(rows: seq<Candidate>, row: Candidate)
    ensures multiset(Place(rows, row)) == multiset(rows) + multiset{row} && |Place(rows, row)| == |rows| + 1
  {
    if rows != [] && rows[0].score >= row.score {
      PlaceKeepsRows(rows[1..], row);
      assert rows == [rows[0]] + rows[1..];
    }
  }

  /** What is placed below a score that bounds the rows stays below it. */
  lemma {:induction false} PlaceStaysBelow(rows: seq<Candidate>, row: Candidate, top: real)
    requires row.score <= top && forall i | 0 <= i < |rows| :: rows[i].score <= top
    ensures forall i | 0 <= i < |Place(rows, row)| :: Place(rows, row)[i].score <= top
  {
    if rows != [] && rows[0].score >= row.score {
      PlaceStaysBelow(rows[1..], row, top);
    }
  }

  lemma {:induction false} PlaceKeepsSorted(rows: seq<Candidate>, row: Candidate)
    requires Sorted(rows)
    ensures Sorted(Place(rows, row))
  {
    if rows != [] && rows[0].score >= row.score {
      PlaceKeepsSorted(rows[1..], row);
      PlaceStaysBelow(rows[1..], row, rows[0].score);
    }
  }

  lemma {:induction false} OrderSorts(rows: seq<Candidate>)
    ensures multiset(Order(rows)) == multiset(rows) && |Order(rows)| == |rows| && Sorted(Order(rows))
  {
    hide Place, Sorted;
    if rows == [] {
      NothingIsSorted();
    } else {
      var n := |rows| - 1;
      var before := Order(rows[..n]);
      OrderSorts(rows[..n]);
      PlaceKeepsRows(before, rows[n]);
      PlaceKeepsSorted(before, rows[n]);
      assert rows == rows[..n] + [rows[n]];
    }
  }

  lemma NothingIsSorted()
    ensures Sorted([])
  {
  }

  lemma KeptScoresAreHigher(ordered: seq<Candidate>)
    requires |ordered| > LIMIT
    requires Sorted(ordered)
    ensures forall row: Candidate, kept: Candidate |
              row in multiset(ordered[LIMIT..]) && kept in ordered[..LIMIT] :: kept.score >= row.score
  {
  }

  lemma CutIsTop(rows: seq<Candidate>, ordered: seq<Candidate>)
    requires multiset(ordered) == multiset(rows) && |ordered| == |rows|
    requires Sorted(ordered)
    ensures IsTopOf(Cut(ordered), rows)
  {
    if |ordered| > LIMIT {
      var kept, cut := ordered[..LIMIT], ordered[LIMIT..];
      assert ordered == kept + cut;
      assert multiset(rows) - multiset(kept) == multiset(cut);
      KeptScoresAreHigher(ordered);
    }
  }

  /** The query returns the sorted top twenty of the eligible rows. */
  lemma ScoredListIsTop(s: State, profiles: map<WorkerId, Profile>, category: string, customer: CustomerId)
    ensures IsTopOf(ScoreCandidateWorkers(s, profiles, category, customer),
                    EligibleRows(s, profiles, category, customer, |s.workers|))
  {
    var rows := EligibleRows(s, profiles, category, customer, |s.workers|);
    OrderSorts(rows);
    CutIsTop(rows, Order(rows));
  }

  /** The eligible rows are exactly the eligible workers, one row each. */
  lemma {:induction false} RowsAreEligibleWorkers(s: State, profiles: map<WorkerId, Profile>, category: string,
                                                  customer: CustomerId, n: nat)
    requires n <= |s.workers|
    ensures var rows := EligibleRows(s, profiles, category, customer, n);
            && (forall i, j | 0 <= i < j < |rows| :: rows[i].worker < rows[j].worker)
            && (forall row :: row in rows <==>
                  row.worker < n && Eligible(s, profiles, category, row.worker)
                  && row == CandidateOf(s, profiles, customer, row.worker))
  {
    if n > 0 {
      RowsAreEligibleWorkers(s, profiles, category, customer, n - 1);
      var before := EligibleRows(s, profiles, category, customer, n - 1);
      var rows := EligibleRows(s, profiles, category, customer, n);
      forall i | 0 <= i < |before|
        ensures before[i].worker < n - 1
      {
        assert before[i] in before;
      }
      forall row
        ensures row in rows <==>
                  row.worker < n && Eligible(s, profiles, category, row.worker)
                  && row == CandidateOf(s, profiles, customer, row.worker)
      {
        assert row in rows <==>
               || row in before
               || (Eligible(s, profiles, category, n - 1) && row == CandidateOf(s, profiles, customer, n - 1));
      }
    }
  }

  /** The bookings the worker finished for the customer. */
  function FinishedFor(bookings: seq<Booking>, w: WorkerId, customer: CustomerId): set<BookingId> {
    set b: BookingId | b < |bookings| && bookings[b].assignee == Some(w) && bookings[b].customer == customer
                       && (bookings[b].status == Completed || bookings[b].status == Settled)
  }

  lemma FinishedInAll(bookings: seq<Booking>, w: WorkerId, customer: CustomerId)
    requires bookings != []
    ensures var n := |bookings| - 1;
            var (before, all) := (FinishedFor(bookings[..n], w, customer), FinishedFor(bookings, w, customer));
            n !in before && all == if n in all then before + {n} else before
  {
  }

  lemma {:induction false} PriorJobsAreFinished(bookings: seq<Booking>, w: WorkerId, customer: CustomerId)
    ensures PriorJobs(bookings, w, customer) == |FinishedFor(bookings, w, customer)|
  {
    if bookings != [] {
      var n := |bookings| - 1;
      PriorJobsAreFinished(bookings[..n], w, customer);
      FinishedInAll(bookings, w, customer);
      assert n in FinishedFor(bookings, w, customer) <==>
             bookings[n].assignee == Some(w) && bookings[n].customer == customer
             && bookings[n].status in {Completed, Settled};
      hide FinishedFor;
    }
  }

  /** The list read off the tables: who is on it, and the score. For who is on it, the distance term is never cut
      off at zero. */
  lemma RowsTellTheTables(s: State, profiles: map<WorkerId, Profile>, category: string, customer: CustomerId,
                          w: WorkerId)
    ensures var rows := EligibleRows(s, profiles, category, customer, |s.workers|);
            && ((exists row :: row in rows && row.worker == w) <==>
                  && w < |s.workers| && s.workers[w].approved && s.workers[w].availability == Available
                  && w in profiles && category in profiles[w].skills && profiles[w].position.Some?
                  && s.now - profiles[w].position.value.at < 120_000
                  && profiles[w].position.value.distanceKm <= profiles[w].radiusKm
                  && profiles[w].position.value.distanceKm <= 15.0)
            && (forall row | row in rows && row.worker == w ::
                  && w < |s.workers| && w in profiles && profiles[w].position.Some?
                  && row.distanceKm == profiles[w].position.value.distanceKm
                  && row.priorJobs == |FinishedFor(s.bookings, w, customer)|
                  && row.score == 40.0 * row.priorJobs as real + 12.0 * s.workers[w].ratingAverage
                                  + 6.0 * ((if profiles[w].radiusKm < 15.0 then profiles[w].radiusKm else 15.0)
                                           - row.distanceKm))
  {
    RowsAreEligibleWorkers(s, profiles, category, customer, |s.workers|);
    PriorJobsAreFinished(s.bookings, w, customer);
    var rows := EligibleRows(s, profiles, category, customer, |s.workers|);
    if Eligible(s, profiles, category, w) {
      assert CandidateOf(s, profiles, customer, w) in rows;
    }
    hide FinishedFor, PriorJobs, EligibleRows;
  }

  lemma TopKeepsBetterBefore(rows: seq<Candidate>, result: seq<Candidate>, better: Candidate, j: nat)
    requires IsTopOf(result, rows) && better in rows && j < |result|
    requires result[j] in rows ==> better.score > result[j].score
    ensures result[j] in rows
    ensures exists i :: 0 <= i < j && result[i] == better
  {
  }

  predicate DistancesRight(profiles: map<WorkerId, Profile>) {
    forall w | w in profiles && profiles[w].position.Some? :: 0.0 <= profiles[w].position.value.distanceKm
  }

  /** Four more prior jobs outweigh every difference in rating and distance. */
  lemma FourJobsOutscore(s: State, profiles: map<WorkerId, Profile>, category: string, customer: CustomerId,
                         v: WorkerId, w: WorkerId)
    requires Reachable(s) && DistancesRight(profiles)
    requires Eligible(s, profiles, category, v) && Eligible(s, profiles, category, w)
    requires PriorJobs(s.bookings, v, customer) >= PriorJobs(s.bookings, w, customer) + 4
    ensures CandidateOf(s, profiles, customer, v).score > CandidateOf(s, profiles, customer, w).score
  {
    ReachableRatingsAreMeans(s, v);
    ReachableRatingsAreMeans(s, w);
  }

  /** Whatever order the database gives equal scores: a worker with at least four more prior jobs with
      the customer comes before, and is never cut off in favour of, another eligible worker. */
  lemma LoyalWorkersComeFirst(s: State, profiles: map<WorkerId, Profile>, category: string, customer: CustomerId,
                              v: WorkerId, w: WorkerId, result: seq<Candidate>, j: nat)
    requires Reachable(s) && DistancesRight(profiles)
    requires IsTopOf(result, EligibleRows(s, profiles, category, customer, |s.workers|))
    requires Eligible(s, profiles, category, v) && Eligible(s, profiles, category, w)
    requires PriorJobs(s.bookings, v, customer) >= PriorJobs(s.bookings, w, customer) + 4
    requires j < |result| && result[j].worker == w
    ensures exists i :: 0 <= i < j && result[i].worker == v
  {
    var rows := EligibleRows(s, profiles, category, customer, |s.workers|);
    RowsAreEligibleWorkers(s, profiles, category, customer, |s.workers|);
    FourJobsOutscore(s, profiles, category, customer, v, w);
    var first := CandidateOf(s, profiles, customer, v);
    assert first in rows;
    TopKeepsBetterBefore(rows, result, first, j);
  }
}
