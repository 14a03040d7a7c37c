/** Stay arrangements: which inventory unit a stay occupies on which night. Dates are day
    numbers. The checks look only at interval boundaries; the lemmas say what they decide
    night by night. */
module Arrangement {
  import opened Releases

  type Day = int

  datatype Interval = Interval(unit: string, arrival: Day, departure: Day)

  datatype Stay = Stay(arrival: Day, departure: Day, intervals: seq<Interval>)

  /** What the order view accepts as an arrangement. */
  predicate WellFormed(a: Stay) {
    && a.arrival < a.departure
    && |a.intervals| > 0
    && (forall i :: 0 <= i < |a.intervals| ==>
          a.intervals[i].unit != "" && a.intervals[i].arrival < a.intervals[i].departure)
    && a.intervals[0].arrival == a.arrival
    && a.intervals[|a.intervals| - 1].departure == a.departure
    && (forall i :: 0 < i < |a.intervals| ==> a.intervals[i - 1].departure == a.intervals[i].arrival)
  }

  function Find(intervals: seq<Interval>, d: Day): Option<string> {
    if intervals == [] then None
    else if intervals[0].arrival <= d < intervals[0].departure then Some(intervals[0].unit)
    else Find(intervals[1..], d)
  }

  function UnitAt(a: Stay, d: Day): Option<string> {
    Find(a.intervals, d)
  }

  predicate Truthy(u: Option<string>) {
    u.Some? && u.value != ""
  }

  // ---- the nights of a well-formed arrangement ----

  lemma {:induction false} FindsNights(intervals: seq<Interval>, d: Day)
    requires |intervals| > 0
    requires forall i :: 0 <= i < |intervals| ==>
              intervals[i].unit != "" && intervals[i].arrival < intervals[i].departure
    requires forall i :: 0 < i < |intervals| ==> intervals[i - 1].departure == intervals[i].arrival
    ensures intervals[0].arrival < intervals[|intervals| - 1].departure
    ensures intervals[0].arrival <= d < intervals[|intervals| - 1].departure <==> Truthy(Find(intervals, d))
    ensures Find(intervals, d).Some? ==> Truthy(Find(intervals, d))
  {
    if |intervals| > 1 {
      FindsNights(intervals[1..], d);
    }
  }

  /** A well-formed arrangement names a unit for exactly the nights of the stay. */
  lemma CoversExactlyTheStay(a: Stay, d: Day)
    requires WellFormed(a)
    ensures a.arrival <= d < a.departure <==> Truthy(UnitAt(a, d))
    ensures UnitAt(a, d).None? || Truthy(UnitAt(a, d))
  {
    FindsNights(a.intervals, d);
  }

  lemma {:induction false} FindsInterval(intervals: seq<Interval>, i: nat, d: Day)
    requires i < |intervals| && intervals[i].arrival <= d < intervals[i].departure
    requires forall k :: 0 <= k < |intervals| ==> intervals[k].arrival < intervals[k].departure
    requires forall k :: 0 < k < |intervals| ==> intervals[k - 1].departure == intervals[k].arrival
    ensures Find(intervals, d) == Some(intervals[i].unit)
    ensures intervals[0].arrival <= d && (i > 0 ==> intervals[0].departure <= d)
  {
    if i > 0 {
      FindsInterval(intervals[1..], i - 1, d);
    }
  }

  /** On every night of an interval the stay is in the interval's unit. */
  lemma IntervalsNameTheirNights(a: Stay, i: nat, d: Day)
    requires WellFormed(a) && i < |a.intervals| && a.intervals[i].arrival <= d < a.intervals[i].departure
    ensures UnitAt(a, d) == Some(a.intervals[i].unit)
  {
    FindsInterval(a.intervals, i, d);
  }

  // ---- boundaries ----

  function Endpoints(intervals: seq<Interval>): seq<Day> {
    if intervals == [] then [] else [intervals[0].arrival, intervals[0].departure] + Endpoints(intervals[1..])
  }

  predicate Ascending(days: seq<Day>) {
    forall i, j :: 0 <= i < j < |days| ==> days[i] < days[j]
  }

  /** Sorted insertion that drops repetitions. */
  function Insert(d: Day, days: seq<Day>): (r: seq<Day>)
    requires Ascending(days)
    ensures Ascending(r)
    ensures forall x :: x in r <==> x == d || x in days
  {
    if days == [] || d < days[0] then [d] + days
    else if d == days[0] then days
    else
      var rest := Insert(d, days[1..]);
      assert forall x :: x in rest ==> days[0] < x;
      assert forall i :: 0 <= i < |rest| ==> rest[i] in rest;
      [days[0]] + rest
  }

  function SortedUnique(days: seq<Day>): (r: seq<Day>)
    ensures Ascending(r)
    ensures forall x :: x in r <==> x in days
  {
    if days == [] then [] else Insert(days[0], SortedUnique(days[1..]))
  }

  function Within(days: seq<Day>, from: Day, to: Day): (r: seq<Day>)
    ensures forall x :: x in r <==> x in days && from <= x <= to
  {
    if days == [] then [] else (if from <= days[0] <= to then [days[0]] else []) + Within(days[1..], from, to)
  }

  function Boundaries(left: Stay, right: Stay, arrival: Day, departure: Day): seq<Day> {
    var endpoints := [arrival, departure] + Endpoints(left.intervals) + Endpoints(right.intervals);
    SortedUnique(Within(endpoints, arrival, departure))
  }

  function DropLast(days: seq<Day>): seq<Day> {
    if days == [] then [] else days[..|days| - 1]
  }

  /** The days on which the checks look at both arrangements. */
  function Samples(left: Stay, right: Stay, arrival: Day, departure: Day): seq<Day> {
    DropLast(Boundaries(left, right, arrival, departure))
  }

  /** Between a day and a later one that no endpoint separates, the unit stays the same. */
  lemma {:induction false} ConstantBetweenEndpoints(intervals: seq<Interval>, b: Day, d: Day)
    requires b <= d && forall e :: e in Endpoints(intervals) ==> e <= b || d < e
    ensures Find(intervals, b) == Find(intervals, d)
  {
    if intervals != [] {
      assert intervals[0].arrival == Endpoints(intervals)[0] && intervals[0].arrival in Endpoints(intervals);
      assert intervals[0].departure == Endpoints(intervals)[1] && intervals[0].departure in Endpoints(intervals);
      assert forall e :: e in Endpoints(intervals[1..]) ==> e in Endpoints(intervals);
      ConstantBetweenEndpoints(intervals[1..], b, d);
    }
  }

  lemma SamplesAre(left: Stay, right: Stay, arrival: Day, departure: Day)
    ensures Ascending(Samples(left, right, arrival, departure))
    ensures forall x :: x in Samples(left, right, arrival, departure) <==>
              && arrival <= x < departure
              && (x == arrival || x in Endpoints(left.intervals) || x in Endpoints(right.intervals))
  {
    var all := Boundaries(left, right, arrival, departure);
    assert [arrival, departure][0] == arrival && [arrival, departure][1] == departure;
    if arrival <= departure {
      assert departure in all;
      DropLastDropsGreatest(all, departure);
    } else {
      assert forall x :: x in DropLast(all) ==> x in all;
    }
  }

  lemma DropLastDropsGreatest(days: seq<Day>, greatest: Day)
    requires Ascending(days) && greatest in days && forall x :: x in days ==> x <= greatest
    ensures Ascending(DropLast(days))
    ensures forall x :: x in DropLast(days) <==> x in days && x < greatest
  {
    var last := days[|days| - 1];
    assert last in days;
    var i :| 0 <= i < |days| && days[i] == greatest;
    assert days == DropLast(days) + [last];
    forall x | x in DropLast(days) ensures x < last {
      var i :| 0 <= i < |days| - 1 && days[i] == x;
    }
  }

  /** Every night shows, in both arrangements, the units of the latest sample not after it. */
  lemma NightsFollowSamples(left: Stay, right: Stay, arrival: Day, departure: Day, d: Day) returns (b: Day)
    requires arrival <= d < departure
    ensures b in Samples(left, right, arrival, departure) && b <= d
    ensures forall x :: x in Samples(left, right, arrival, departure) && x <= d ==> x <= b
    ensures UnitAt(left, b) == UnitAt(left, d) && UnitAt(right, b) == UnitAt(right, d)
  {
    SamplesAre(left, right, arrival, departure);
    assert arrival in Samples(left, right, arrival, departure);
    b := LatestNotAfter(Samples(left, right, arrival, departure), d);
    ConstantBetweenEndpoints(left.intervals, b, d);
    ConstantBetweenEndpoints(right.intervals, b, d);
  }

  lemma LatestNotAfter(days: seq<Day>, d: Day) returns (b: Day)
    requires exists x :: x in days && x <= d
    ensures b in days && b <= d && forall x :: x in days && x <= d ==> x <= b
  {
    assert days == [days[0]] + days[1..];
    if exists x :: x in days[1..] && x <= d {
      b := LatestNotAfter(days[1..], d);
      b := if b < days[0] <= d then days[0] else b;
    } else {
      b := days[0];
    }
  }

  // ---- equal timelines ----

  predicate SameInventoryTimeline(left: Stay, right: Stay, arrival: Day, departure: Day) {
    forall d :: d in Samples(left, right, arrival, departure) ==> UnitAt(left, d) == UnitAt(right, d)
  }

  ghost predicate SameNights(left: Stay, right: Stay, from: Day, to: Day) {
    forall d :: from <= d < to ==> UnitAt(left, d) == UnitAt(right, d)
  }

  /** Looking at the boundaries decides equality of every night. */
  lemma SamplingDecidesNights(left: Stay, right: Stay, arrival: Day, departure: Day)
    ensures SameInventoryTimeline(left, right, arrival, departure) <==> SameNights(left, right, arrival, departure)
  {
    SamplesAre(left, right, arrival, departure);
    if SameInventoryTimeline(left, right, arrival, departure) {
      forall d | arrival <= d < departure ensures UnitAt(left, d) == UnitAt(right, d) {
        var b := NightsFollowSamples(left, right, arrival, departure, d);
      }
    }
  }

  // ---- one change of unit from some night on ----

  function FirstDifferent(days: seq<Day>, left: Stay, right: Stay): Option<Day> {
    if days == [] then None
    else if UnitAt(left, days[0]) != UnitAt(right, days[0]) then Some(days[0])
    else FirstDifferent(days[1..], left, right)
  }

  predicate AllFrom(days: seq<Day>, from: Day, a: Stay, unit: Option<string>) {
    forall d :: d in days && d >= from ==> UnitAt(a, d) == unit
  }

  predicate IsSingleSuffixMove(before: Stay, after: Stay) {
    var days := Samples(before, after, before.arrival, before.departure);
    var effective := FirstDifferent(days, before, after);
    && effective.Some?
    && Truthy(UnitAt(after, effective.value))
    && AllFrom(days, effective.value, after, UnitAt(after, effective.value))
  }

  predicate IsSingleSuffixExtension(before: Stay, after: Stay) {
    var days := Samples(before, after, before.arrival, after.departure);
    var effective := FirstDifferent(days, before, after);
    && effective.Some?
    && var extended := UnitAt(after, effective.value);
    && Truthy(extended)
    && if effective.value == before.departure then
         |before.intervals| > 0 && Some(before.intervals[|before.intervals| - 1].unit) == extended
       else
         AllFrom(days, effective.value, after, extended)
  }

  /** e is the first night of [from, to) on which the arrangements differ. */
  ghost predicate FirstDifferentNight(left: Stay, right: Stay, from: Day, to: Day, e: Day) {
    from <= e < to && SameNights(left, right, from, e) && UnitAt(left, e) != UnitAt(right, e)
  }

  ghost predicate ConstantFrom(a: Stay, from: Day, to: Day) {
    forall d :: from <= d < to ==> UnitAt(a, d) == UnitAt(a, from)
  }

  lemma {:induction false} FirstDifferentIs(days: seq<Day>, left: Stay, right: Stay)
    requires Ascending(days)
    ensures match FirstDifferent(days, left, right)
            case None => forall d :: d in days ==> UnitAt(left, d) == UnitAt(right, d)
            case Some(e) =>
              && e in days && UnitAt(left, e) != UnitAt(right, e)
              && forall d :: d in days && d < e ==> UnitAt(left, d) == UnitAt(right, d)
  {
    if days != [] {
      FirstDifferentIs(days[1..], left, right);
    }
  }

  /** The first sample that differs is the first night that differs. */
  lemma FirstSampleIsFirstNight(left: Stay, right: Stay, arrival: Day, departure: Day)
    ensures match FirstDifferent(Samples(left, right, arrival, departure), left, right)
            case None => SameNights(left, right, arrival, departure)
            case Some(e) => FirstDifferentNight(left, right, arrival, departure, e)
  {
    var days := Samples(left, right, arrival, departure);
    SamplesAre(left, right, arrival, departure);
    FirstDifferentIs(days, left, right);
    var first := FirstDifferent(days, left, right);
    forall d | arrival <= d < (if first.Some? then first.value else departure)
      ensures UnitAt(left, d) == UnitAt(right, d)
    {
      var b := NightsFollowSamples(left, right, arrival, departure, d);
    }
  }

  lemma FirstNightUnique(left: Stay, right: Stay, from: Day, to: Day, e: Day, f: Day)
    requires FirstDifferentNight(left, right, from, to, e) && FirstDifferentNight(left, right, from, to, f)
    ensures e == f
  {
  }

  /** Constancy on the samples from e on is constancy on the nights from e on. */
  lemma SamplesConstant(left: Stay, right: Stay, arrival: Day, departure: Day, e: Day)
    requires e in Samples(left, right, arrival, departure)
    ensures AllFrom(Samples(left, right, arrival, departure), e, right, UnitAt(right, e)) <==>
              ConstantFrom(right, e, departure)
  {
    var days := Samples(left, right, arrival, departure);
    SamplesAre(left, right, arrival, departure);
    if AllFrom(days, e, right, UnitAt(right, e)) {
      forall d | e <= d < departure ensures UnitAt(right, d) == UnitAt(right, e) {
        var b := NightsFollowSamples(left, right, arrival, departure, d);
      }
    }
  }

  /** A move is accepted exactly when there is one night before which nothing changes and from
      which on the stay is in one unit that it was not in that night. */
  lemma MoveDecidesNights(before: Stay, after: Stay)
    ensures IsSingleSuffixMove(before, after) <==>
            exists e :: && FirstDifferentNight(before, after, before.arrival, before.departure, e)
                        && Truthy(UnitAt(after, e)) && ConstantFrom(after, e, before.departure)
  {
    var days := Samples(before, after, before.arrival, before.departure);
    FirstSampleIsFirstNight(before, after, before.arrival, before.departure);
    SamplesAre(before, after, before.arrival, before.departure);
    FirstDifferentIs(days, before, after);
    match FirstDifferent(days, before, after) {
      case None =>
      case Some(e) =>
        SamplesConstant(before, after, before.arrival, before.departure, e);
        forall f | FirstDifferentNight(before, after, before.arrival, before.departure, f) ensures f == e {
          FirstNightUnique(before, after, before.arrival, before.departure, e, f);
        }
    }
  }

  /** An extension is accepted exactly when, at the first night that changes, either that night is
      the old departure and keeps the last unit (what follows it is then unconstrained), or the
      stay is in one unit from that night on. */
  lemma ExtensionDecidesNights(before: Stay, after: Stay)
    requires WellFormed(before)
    ensures IsSingleSuffixExtension(before, after) <==>
            exists e :: && FirstDifferentNight(before, after, before.arrival, after.departure, e)
                        && Truthy(UnitAt(after, e))
                        && if e == before.departure then UnitAt(after, e) == UnitAt(before, e - 1)
                           else ConstantFrom(after, e, after.departure)
  {
    var days := Samples(before, after, before.arrival, after.departure);
    FirstSampleIsFirstNight(before, after, before.arrival, after.departure);
    SamplesAre(before, after, before.arrival, after.departure);
    FirstDifferentIs(days, before, after);
    LastUnit(before.intervals);
    match FirstDifferent(days, before, after) {
      case None =>
      case Some(e) =>
        SamplesConstant(before, after, before.arrival, after.departure, e);
        forall f | FirstDifferentNight(before, after, before.arrival, after.departure, f) ensures f == e {
          FirstNightUnique(before, after, before.arrival, after.departure, e, f);
        }
    }
  }

  /** An extension leaves the arranged nights alone exactly when its first sampled difference is the old
      departure. Then it is accepted exactly when the first new night keeps the last unit; otherwise exactly
      when it moves the stay, from some arranged night on, into one unit. */
  lemma ExtensionKeepsOldNights(before: Stay, after: Stay)
    requires WellFormed(before) && WellFormed(after)
    requires before.arrival == after.arrival && before.departure < after.departure
    ensures SameNights(before, after, before.arrival, before.departure) <==>
            FirstDifferent(Samples(before, after, before.arrival, after.departure), before, after)
              == Some(before.departure)
    ensures IsSingleSuffixExtension(before, after) <==>
            if SameNights(before, after, before.arrival, before.departure)
            then UnitAt(after, before.departure) == UnitAt(before, before.departure - 1)
            else exists e :: && FirstDifferentNight(before, after, before.arrival, before.departure, e)
                             && ConstantFrom(after, e, after.departure)
  {
    ExtensionDecidesNights(before, after);
    FirstSampleIsFirstNight(before, after, before.arrival, after.departure);
    CoversExactlyTheStay(before, before.departure);
    CoversExactlyTheStay(after, before.departure);
    var first := FirstDifferent(Samples(before, after, before.arrival, after.departure), before, after);
    forall e | FirstDifferentNight(before, after, before.arrival, after.departure, e) ensures first == Some(e) {
      FirstNightUnique(before, after, before.arrival, after.departure, first.value, e);
    }
    forall e | FirstDifferentNight(before, after, before.arrival, before.departure, e) ensures first == Some(e) {
      FirstNightUnique(before, after, before.arrival, after.departure, first.value, e);
    }
    CoversExactlyTheStay(after, first.value);
  }

  /** An accepted extension that moves a night that was already arranged. */
  lemma ExtensionMovesArrangedNight() returns (before: Stay, after: Stay)
    ensures WellFormed(before) && WellFormed(after)
    ensures before.arrival == after.arrival && before.departure < after.departure
    ensures IsSingleSuffixExtension(before, after)
    ensures before.arrival <= 1 < before.departure && UnitAt(after, 1) != UnitAt(before, 1)
  {
    before := Stay(0, 2, [Interval("a", 0, 2)]);
    after := Stay(0, 3, [Interval("a", 0, 1), Interval("b", 1, 3)]);
    assert before.intervals[1..] == [] && after.intervals[1..] == [Interval("b", 1, 3)];
    assert UnitAt(before, 0) == Some("a") && UnitAt(before, 1) == Some("a");
    assert UnitAt(after, 0) == Some("a") && UnitAt(after, 1) == Some("b") && UnitAt(after, 2) == Some("b");
    assert FirstDifferentNight(before, after, 0, 3, 1);
    ExtensionDecidesNights(before, after);
  }

  /** An accepted extension whose later nights are scattered: only its first new night is looked at. */
  lemma ScatteredTailIsAccepted() returns (before: Stay, after: Stay)
    ensures WellFormed(before) && WellFormed(after) && before.arrival == after.arrival
    ensures IsSingleSuffixExtension(before, after)
    ensures !ConstantFrom(after, before.departure, after.departure)
    ensures UnitAt(after, before.departure + 1) != UnitAt(before, before.departure - 1)
  {
    before := Stay(0, 1, [Interval("a", 0, 1)]);
    after := Stay(0, 3, [Interval("a", 0, 2), Interval("b", 2, 3)]);
    assert before.intervals[1..] == [] && after.intervals[1..] == [Interval("b", 2, 3)];
    assert after.intervals[1..][1..] == [];
    assert UnitAt(before, 0) == Some("a") && UnitAt(before, 1) == None;
    assert UnitAt(after, 0) == Some("a") && UnitAt(after, 1) == Some("a") && UnitAt(after, 2) == Some("b");
    assert FirstDifferentNight(before, after, 0, 3, 1);
    ExtensionDecidesNights(before, after);
  }

  lemma {:induction false} LastUnit(intervals: seq<Interval>)
    requires |intervals| > 0
    requires forall i :: 0 <= i < |intervals| ==> intervals[i].arrival < intervals[i].departure
    requires forall i :: 0 < i < |intervals| ==> intervals[i - 1].departure == intervals[i].arrival
    ensures var last := intervals[|intervals| - 1];
            intervals[0].arrival < last.departure && Find(intervals, last.departure - 1) == Some(last.unit)
  {
    if |intervals| > 1 {
      LastUnit(intervals[1..]);
    }
  }
}
