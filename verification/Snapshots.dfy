/** Nightly snapshots of historical corrections and the arrangements folded out of them. */
module Snapshots {
  import opened Releases
  import opened Arrangement

  datatype Night = Night(serviceDate: Day, unit: string)

  datatype Snapshot = Snapshot(unit: string, arrival: Day, departure: Day, nights: int, timeline: seq<Night>)

  /** What the order view accepts as a snapshot: one named unit for each consecutive night. */
  predicate Accepted(s: Snapshot) {
    && s.unit != "" && s.arrival < s.departure && s.nights >= 1
    && |s.timeline| == s.nights
    && (forall i :: 0 <= i < |s.timeline| ==> s.timeline[i].serviceDate == s.arrival + i && s.timeline[i].unit != "")
    && s.arrival + |s.timeline| == s.departure
  }

  function UnitsOf(timeline: seq<Night>): (units: seq<string>)
    ensures |units| == |timeline|
    ensures forall i :: 0 <= i < |timeline| ==> units[i] == timeline[i].unit
  {
    seq(|timeline|, i requires 0 <= i < |timeline| => timeline[i].unit)
  }

  /** Extends the last interval or opens a new one. */
  function Extend(intervals: seq<Interval>, unit: string, day: Day): seq<Interval> {
    var n := |intervals|;
    if n > 0 && intervals[n - 1].unit == unit && intervals[n - 1].departure == day then
      intervals[n - 1 := intervals[n - 1].(departure := day + 1)]
    else
      intervals + [Interval(unit, day, day + 1)]
  }

  function Folded(arrival: Day, units: seq<string>): seq<Interval> {
    if units == [] then []
    else Extend(Folded(arrival, units[..|units| - 1]), units[|units| - 1], arrival + |units| - 1)
  }

  function FromNights(arrival: Day, units: seq<string>): Stay {
    Stay(arrival, arrival + |units|, Folded(arrival, units))
  }

  /** Adjacent intervals have different units. */
  predicate Canonical(intervals: seq<Interval>) {
    forall i :: 0 < i < |intervals| ==> intervals[i - 1].unit != intervals[i].unit
  }

  method ArrangementFromHistoricalSnapshot(s: Snapshot) returns (a: Stay)
    requires Accepted(s)
    ensures a == FromNights(s.arrival, UnitsOf(s.timeline))
    ensures WellFormed(a) && a.arrival == s.arrival && a.departure == s.departure && Canonical(a.intervals)
    ensures forall i :: 0 <= i < |s.timeline| ==> UnitAt(a, s.timeline[i].serviceDate) == Some(s.timeline[i].unit)
  {
    var intervals := Fold(s);
    a := Stay(s.arrival, s.departure, intervals);
    FoldedIsFaithful(s.arrival, UnitsOf(s.timeline));
  }

  /** Night by night: the last interval is extended, or a new one is opened. */
  method Fold(s: Snapshot) returns (intervals: seq<Interval>)
    requires Accepted(s)
    ensures intervals == Folded(s.arrival, UnitsOf(s.timeline))
  {
    intervals := [];
    ghost var units := UnitsOf(s.timeline);
    for i := 0 to |s.timeline|
      invariant intervals == Folded(s.arrival, units[..i])
    {
      var item := s.timeline[i];
      var n := |intervals|;
      if n > 0 && intervals[n - 1].unit == item.unit && intervals[n - 1].departure == item.serviceDate {
        intervals := intervals[n - 1 := intervals[n - 1].(departure := item.serviceDate + 1)];
      } else {
        intervals := intervals + [Interval(item.unit, item.serviceDate, item.serviceDate + 1)];
      }
      FoldedNext(s.arrival, units, i);
    }
    assert units[..|s.timeline|] == units;
  }

  lemma FoldedNext(arrival: Day, units: seq<string>, i: nat)
    requires i < |units|
    ensures Folded(arrival, units[..i + 1]) == Extend(Folded(arrival, units[..i]), units[i], arrival + i)
  {
    assert units[..i + 1][..i] == units[..i];
  }

  predicate Below(intervals: seq<Interval>, day: Day) {
    forall i :: 0 <= i < |intervals| ==> intervals[i].arrival < intervals[i].departure <= day
  }

  lemma {:induction false} FindInExtended(intervals: seq<Interval>, unit: string, day: Day, d: Day)
    requires Below(intervals, day)
    ensures Find(Extend(intervals, unit, day), d) == if d == day then Some(unit) else Find(intervals, d)
  {
    var extended := Extend(intervals, unit, day);
    if |intervals| > 1 {
      FindInExtended(intervals[1..], unit, day, d);
      assert extended[1..] == Extend(intervals[1..], unit, day);
    } else if |intervals| == 1 {
      var added := Interval(unit, day, day + 1);
      assert intervals == [intervals[0]] && Find([], d) == None;
      assert Find([added], d) == if d == day then Some(unit) else None;
      if extended != intervals + [added] {
        assert extended == [intervals[0].(departure := day + 1)];
      } else {
        assert extended[1..] == [added];
      }
    }
  }

  /** Named, contiguous, canonical intervals from one day to another. */
  ghost predicate Chain(intervals: seq<Interval>, from: Day, to: Day) {
    && (forall i :: 0 <= i < |intervals| ==> intervals[i].unit != "" && intervals[i].arrival < intervals[i].departure)
    && (forall i :: 0 < i < |intervals| ==> intervals[i - 1].departure == intervals[i].arrival)
    && Canonical(intervals)
    && if intervals == [] then from == to
       else intervals[0].arrival == from && intervals[|intervals| - 1].departure == to
  }

  lemma ExtendKeepsChain(intervals: seq<Interval>, from: Day, day: Day, unit: string)
    requires Chain(intervals, from, day) && unit != ""
    ensures Chain(Extend(intervals, unit, day), from, day + 1)
  {
    var n, r := |intervals|, Extend(intervals, unit, day);
    if n > 0 && intervals[n - 1].unit == unit && intervals[n - 1].departure == day {
      assert r == intervals[n - 1 := intervals[n - 1].(departure := day + 1)];
    } else {
      assert r == intervals + [Interval(unit, day, day + 1)];
      assert forall i :: 0 <= i < n ==> r[i] == intervals[i];
    }
  }

  lemma {:induction false} ChainEnds(intervals: seq<Interval>, from: Day, to: Day)
    requires Chain(intervals, from, to)
    ensures from <= to && (intervals != [] ==> from < to)
    ensures forall i :: 0 <= i < |intervals| ==> intervals[i].departure <= to
  {
    if intervals != [] {
      ChainEnds(intervals[1..], intervals[0].departure, to);
      assert forall i :: 0 < i < |intervals| ==> intervals[i] == intervals[1..][i - 1];
    }
  }

  lemma {:induction false} FoldedIsChain(arrival: Day, units: seq<string>)
    requires forall i :: 0 <= i < |units| ==> units[i] != ""
    ensures Chain(Folded(arrival, units), arrival, arrival + |units|)
  {
    if units != [] {
      var k := |units| - 1;
      FoldedIsChain(arrival, units[..k]);
      ExtendKeepsChain(Folded(arrival, units[..k]), arrival, arrival + k, units[k]);
      assert Folded(arrival, units) == Extend(Folded(arrival, units[..k]), units[k], arrival + k);
    }
  }

  lemma FoldedEnds(arrival: Day, units: seq<string>)
    requires forall k :: 0 <= k < |units| ==> units[k] != ""
    ensures Below(Folded(arrival, units), arrival + |units|)
  {
    FoldedIsChain(arrival, units);
    ChainEnds(Folded(arrival, units), arrival, arrival + |units|);
  }

  lemma {:induction false} FoldedNights(arrival: Day, units: seq<string>, i: nat)
    requires forall k :: 0 <= k < |units| ==> units[k] != ""
    requires i < |units|
    ensures Find(Folded(arrival, units), arrival + i) == Some(units[i])
    decreases |units|
  {
    var k := |units| - 1;
    FoldedEnds(arrival, units[..k]);
    FindInExtended(Folded(arrival, units[..k]), units[k], arrival + k, arrival + i);
    if i < k {
      FoldedNights(arrival, units[..k], i);
    }
  }

  /** Folding nights gives a well-formed, canonical arrangement of exactly those nights. */
  lemma FoldedIsFaithful(arrival: Day, units: seq<string>)
    requires units != [] && forall i :: 0 <= i < |units| ==> units[i] != ""
    ensures WellFormed(FromNights(arrival, units)) && Canonical(FromNights(arrival, units).intervals)
    ensures forall i :: 0 <= i < |units| ==> UnitAt(FromNights(arrival, units), arrival + i) == Some(units[i])
  {
    FoldedIsChain(arrival, units);
    forall i | 0 <= i < |units| ensures UnitAt(FromNights(arrival, units), arrival + i) == Some(units[i]) {
      FoldedNights(arrival, units, i);
    }
  }

  /** Two well-formed canonical arrangements with the same nights are the same arrangement. */
  lemma CanonicalIsUnique(a: Stay, b: Stay)
    requires WellFormed(a) && WellFormed(b) && Canonical(a.intervals) && Canonical(b.intervals)
    requires a.arrival == b.arrival && a.departure == b.departure
    requires SameNights(a, b, a.arrival, a.departure)
    ensures a == b
  {
    forall d | a.arrival <= d < a.departure ensures Find(a.intervals, d) == Find(b.intervals, d) {
      assert UnitAt(a, d) == UnitAt(b, d);
    }
    ChainsAreUnique(a.intervals, b.intervals, a.arrival, a.departure);
  }

  lemma {:induction false} ChainsAreUnique(a: seq<Interval>, b: seq<Interval>, from: Day, to: Day)
    requires Chain(a, from, to) && Chain(b, from, to)
    requires forall d :: from <= d < to ==> Find(a, d) == Find(b, d)
    ensures a == b
    decreases |a|
  {
    if a == [] {
      ChainEnds(b, from, to);
    } else {
      Peel(a, b, from, to);
      ChainsAreUnique(a[1..], b[1..], a[0].departure, to);
      SameHeadAndTail(a, b);
    }
  }

  lemma SameHeadAndTail(a: seq<Interval>, b: seq<Interval>)
    requires a != [] && b != [] && a[0] == b[0] && a[1..] == b[1..]
    ensures a == b
  {
    assert a == [a[0]] + a[1..] && b == [b[0]] + b[1..];
  }

  /** Chains with the same nights have the same first interval, and tails with the same nights. */
  lemma Peel(a: seq<Interval>, b: seq<Interval>, from: Day, to: Day)
    requires Chain(a, from, to) && Chain(b, from, to) && a != []
    requires forall d :: from <= d < to ==> Find(a, d) == Find(b, d)
    ensures b != [] && a[0] == b[0]
    ensures Chain(a[1..], a[0].departure, to) && Chain(b[1..], b[0].departure, to)
    ensures forall d :: a[0].departure <= d < to ==> Find(a[1..], d) == Find(b[1..], d)
  {
    ChainEnds(a, from, to);
    ChainTail(a, from, to);
    ChainTail(b, from, to);
    HeadEnds(a, b, from, to);
    HeadEnds(b, a, from, to);
    assert Find(a, from) == Find(b, from);
    forall d | a[0].departure <= d < to ensures Find(a[1..], d) == Find(b[1..], d) {
      assert Find(a, d) == Find(b, d);
    }
  }

  lemma ChainTail(a: seq<Interval>, from: Day, to: Day)
    requires Chain(a, from, to) && a != []
    ensures Chain(a[1..], a[0].departure, to)
  {
  }

  /** The first interval of a chain does not outlast that of another with the same nights. */
  lemma HeadEnds(a: seq<Interval>, b: seq<Interval>, from: Day, to: Day)
    requires Chain(a, from, to) && Chain(b, from, to) && a != [] && b != []
    requires forall d :: from <= d < to ==> Find(a, d) == Find(b, d)
    ensures a[0].departure <= b[0].departure
  {
    ChainEnds(a, from, to);
    ChainEnds(b, from, to);
    var d := b[0].departure;
    assert Find(a, from) == Find(b, from) && (d < to ==> Find(a, d) == Find(b, d));
    assert |b| > 1 ==> Find(b[1..], d) == Some(b[1].unit);
  }
}
