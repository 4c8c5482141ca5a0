/** The flights page's derived values: the searched and filtered list, and the summary statistics. */
module FlightsView {
  import opened Entities
  import opened Text

  /** The status buttons: `All`, or one flight status. */
  datatype StatusFilter = AllStatuses | OnlyStatus(status: FlightStatus)

  /** Case-insensitive match of the search term against flight number or destination. */
  predicate MatchesSearch(f: Flight, term: string) {
    Contains(Lower(f.flightNumber), Lower(term)) || Contains(Lower(f.destination), Lower(term))
  }

  predicate MatchesFilter(f: Flight, filter: StatusFilter) {
    filter.AllStatuses? || f.status == filter.status
  }

  predicate Keeps(f: Flight, term: string, filter: StatusFilter) {
    MatchesSearch(f, term) && MatchesFilter(f, filter)
  }

  /** `filteredFlights`: the flights the search and the status filter both keep, in their order. */
  function FilteredFlights(flights: seq<Flight>, term: string, filter: StatusFilter): (r: seq<Flight>)
    ensures |r| <= |flights|
    ensures forall x :: x in r ==> x in flights && Keeps(x, term, filter)
    ensures forall x :: x in flights && Keeps(x, term, filter) ==> x in r
  {
    if flights == [] then []
    else (if Keeps(flights[0], term, filter) then [flights[0]] else []) + FilteredFlights(flights[1..], term, filter)
  }

  /** `r` is `s` with some elements left out and the rest in their original order. */
  predicate IsSubsequence<T(==)>(r: seq<T>, s: seq<T>)
    decreases |s|
  {
    r == [] || (s != [] && ((r[0] == s[0] && IsSubsequence(r[1..], s[1..])) || IsSubsequence(r, s[1..])))
  }

  lemma {:induction false} FilteredIsSubsequence(flights: seq<Flight>, term: string, filter: StatusFilter)
    ensures IsSubsequence(FilteredFlights(flights, term, filter), flights)
    decreases |flights|
  {
    if flights != [] {
      FilteredIsSubsequence(flights[1..], term, filter);
      var rest := FilteredFlights(flights[1..], term, filter);
      if Keeps(flights[0], term, filter) {
        assert FilteredFlights(flights, term, filter) == [flights[0]] + rest;
        assert ([flights[0]] + rest)[1..] == rest;
      } else {
        assert FilteredFlights(flights, term, filter) == rest;
      }
    }
  }

  /** Filtering a concatenation filters each part: with the one-flight case, this pins the list down. */
  lemma {:induction false} FilterOfConcat(a: seq<Flight>, b: seq<Flight>, term: string, filter: StatusFilter)
    ensures FilteredFlights(a + b, term, filter) == FilteredFlights(a, term, filter) + FilteredFlights(b, term, filter)
    decreases |a|
  {
    if a != [] {
      assert (a + b)[1..] == a[1..] + b;
      FilterOfConcat(a[1..], b, term, filter);
    } else {
      assert a + b == b;
    }
  }

  /** With no search text and the `All` filter, every flight is shown. */
  lemma {:induction false} EmptySearchKeepsAll(flights: seq<Flight>)
    ensures FilteredFlights(flights, "", AllStatuses) == flights
    decreases |flights|
  {
    if flights != [] {
      EmptyContained(Lower(flights[0].flightNumber));
      EmptySearchKeepsAll(flights[1..]);
    }
  }

  /** Search terms that differ only in letter case show the same flights. */
  lemma {:induction false} SearchIgnoresCase(flights: seq<Flight>, t1: string, t2: string, filter: StatusFilter)
    requires Lower(t1) == Lower(t2)
    ensures FilteredFlights(flights, t1, filter) == FilteredFlights(flights, t2, filter)
    decreases |flights|
  {
    if flights != [] {
      SearchIgnoresCase(flights[1..], t1, t2, filter);
    }
  }

  /** In particular, typing the term in lower case changes nothing. */
  lemma LowerCaseTermSameResult(flights: seq<Flight>, term: string, filter: StatusFilter)
    ensures FilteredFlights(flights, Lower(term), filter) == FilteredFlights(flights, term, filter)
  {
    LowerIdempotent(term);
    SearchIgnoresCase(flights, Lower(term), term, filter);
  }

  // ---------------------------------------------------------------------------
  // Statistics
  // ---------------------------------------------------------------------------

  function CountStatus(flights: seq<Flight>, st: FlightStatus): (n: nat)
    ensures n <= |flights|
  {
    if flights == [] then 0 else (if flights[0].status == st then 1 else 0) + CountStatus(flights[1..], st)
  }

  /** The number of scheduled or departed flights. */
  function OnTimeCount(flights: seq<Flight>): (n: nat)
    ensures n <= |flights|
  {
    if flights == [] then 0 else (if IsOnTime(flights[0].status) then 1 else 0) + OnTimeCount(flights[1..])
  }

  lemma {:induction false} OnTimeIsScheduledPlusDeparted(flights: seq<Flight>)
    ensures OnTimeCount(flights) == CountStatus(flights, Scheduled) + CountStatus(flights, Departed)
    decreases |flights|
  {
    if flights != [] {
      OnTimeIsScheduledPlusDeparted(flights[1..]);
    }
  }

  /** Delayed flights and on-time flights are disjoint, so together they never exceed the total. */
  lemma {:induction false} DelayedPlusOnTimeAtMostTotal(flights: seq<Flight>)
    ensures CountStatus(flights, Delayed) + OnTimeCount(flights) <= |flights|
    decreases |flights|
  {
    if flights != [] {
      DelayedPlusOnTimeAtMostTotal(flights[1..]);
    }
  }

  /** Euclidean division of a non-negative number brackets it between two multiples. */
  lemma DivBrackets(n: int, d: int)
    requires 0 <= n && 0 < d
    ensures 0 <= n / d && d * (n / d) <= n < d * (n / d + 1)
  {
  }

  /** A positive factor can be cancelled from a strict inequality. */
  lemma CancelFactor(d: int, a: int, b: int)
    requires 0 < d && d * a < d * b
    ensures a < b
  {
  }

  /** `Math.round(part / total * 100)` on exact rationals: round half up. */
  function RoundPercent(part: nat, total: nat): (r: int)
    requires 0 < total && part <= total
    ensures 0 <= r <= 100
    ensures 2 * total * r <= 200 * part + total < 2 * total * (r + 1)
  {
    var m, d := 200 * part + total, 2 * total;
    var r := m / d;
    DivBrackets(m, d);
    assert m < d * 101;
    CancelFactor(d, r, 101);
    r
  }

  datatype FlightStats = FlightStats(onTime: int, delayed: int, total: int)

  /** `stats`: the on-time percentage (100 for an empty list), the delayed count and the total. */
  function Stats(flights: seq<Flight>): (st: FlightStats)
    ensures st.total == |flights| && st.delayed == CountStatus(flights, Delayed)
    ensures 0 <= st.onTime <= 100
    ensures flights == [] ==> st.onTime == 100
    ensures flights != [] ==>
      2 * |flights| * st.onTime <= 200 * OnTimeCount(flights) + |flights| < 2 * |flights| * (st.onTime + 1)
  {
    var total := |flights|;
    FlightStats(if total > 0 then RoundPercent(OnTimeCount(flights), total) else 100, CountStatus(flights, Delayed), total)
  }
}
