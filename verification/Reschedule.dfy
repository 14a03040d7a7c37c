/** The reschedule rule: the same length shifts the stay, another length keeps what overlaps
    and carries the first or the last unit outwards. */
module Reschedule {
  import opened Releases
  import opened Arrangement
  import opened Snapshots

  function FirstUnit(a: Stay): Option<string> {
    if |a.intervals| > 0 then Some(a.intervals[0].unit) else None
  }

  function LastUnitOf(a: Stay): Option<string> {
    if |a.intervals| > 0 then Some(a.intervals[|a.intervals| - 1].unit) else None
  }

  function Nights(a: Stay): int {
    a.departure - a.arrival
  }

  /** The unit that the old arrangement prescribes for a night of the new dates. */
  function Prescribed(before: Stay, arrival: Day, departure: Day, night: Day): Option<string> {
    if departure - arrival == Nights(before) then UnitAt(before, before.arrival + (night - arrival))
    else if departure <= before.arrival then FirstUnit(before)
    else if arrival >= before.departure then LastUnitOf(before)
    else if night < before.arrival then FirstUnit(before)
    else if night >= before.departure then LastUnitOf(before)
    else UnitAt(before, night)
  }

  ghost predicate Follows(before: Stay, after: Stay) {
    && Truthy(FirstUnit(before)) && Truthy(LastUnitOf(before))
    && forall night :: after.arrival <= night < after.departure ==>
         && Truthy(Prescribed(before, after.arrival, after.departure, night))
         && UnitAt(after, night) == Prescribed(before, after.arrival, after.departure, night)
  }

  /** With another length every new night inside the old stay keeps its unit, every earlier one has the
      unit of the first old night, and every later one that of the last. */
  ghost predicate KeptAndCarried(before: Stay, after: Stay) {
    && (forall night :: after.arrival <= night < after.departure && before.arrival <= night < before.departure ==>
          UnitAt(after, night) == UnitAt(before, night))
    && (forall night :: after.arrival <= night < after.departure && night < before.arrival ==>
          UnitAt(after, night) == UnitAt(before, before.arrival))
    && (forall night :: after.arrival <= night < after.departure && before.departure <= night ==>
          UnitAt(after, night) == UnitAt(before, before.departure - 1))
  }

  /** A reschedule that changes the length is accepted exactly when it keeps and carries the old nights. */
  lemma OtherLengthKeepsAndCarries(before: Stay, after: Stay)
    requires WellFormed(before) && after.departure - after.arrival != before.departure - before.arrival
    ensures Follows(before, after) <==> KeptAndCarried(before, after)
  {
    FirstAndLastAreNamed(before);
    LastUnit(before.intervals);
    forall night | after.arrival <= night < after.departure
      ensures Truthy(Prescribed(before, after.arrival, after.departure, night))
      ensures Prescribed(before, after.arrival, after.departure, night) ==
                UnitAt(before, if night < before.arrival then before.arrival
                               else if before.departure <= night then before.departure - 1 else night)
    {
      PrescribedIsNamed(before, after.arrival, after.departure, night);
    }
  }

  method FollowsSchemeBReschedule(before: Stay, after: Stay) returns (ok: bool)
    ensures ok <==> Follows(before, after)
    ensures WellFormed(before) && after.departure - after.arrival != before.departure - before.arrival ==>
              (ok <==> KeptAndCarried(before, after))
  {
    if WellFormed(before) && Nights(after) != Nights(before) { OtherLengthKeepsAndCarries(before, after); }
    var beforeNights, afterNights := Nights(before), Nights(after);
    var firstUnit, lastUnit := FirstUnit(before), LastUnitOf(before);
    if !Truthy(firstUnit) || !Truthy(lastUnit) { return false; }
    var offset := 0;
    while offset < afterNights
      invariant 0 <= offset && (offset <= afterNights || offset == 0)
      invariant forall night :: after.arrival <= night < after.arrival + offset ==>
                  && Truthy(Prescribed(before, after.arrival, after.departure, night))
                  && UnitAt(after, night) == Prescribed(before, after.arrival, after.departure, night)
    {
      var newDate := after.arrival + offset;
      var expectedUnit: Option<string>;
      if beforeNights == afterNights {
        expectedUnit := UnitAt(before, before.arrival + offset);
      } else if after.departure <= before.arrival {
        expectedUnit := firstUnit;
      } else if after.arrival >= before.departure {
        expectedUnit := lastUnit;
      } else if newDate < before.arrival {
        expectedUnit := firstUnit;
      } else if newDate >= before.departure {
        expectedUnit := lastUnit;
      } else {
        expectedUnit := UnitAt(before, newDate);
      }
      assert expectedUnit == Prescribed(before, after.arrival, after.departure, newDate);
      if !Truthy(expectedUnit) || UnitAt(after, newDate) != expectedUnit { return false; }
      offset := offset + 1;
    }
    return true;
  }

  lemma PrescribedIsNamed(before: Stay, arrival: Day, departure: Day, night: Day)
    requires WellFormed(before) && arrival <= night < departure
    ensures Truthy(Prescribed(before, arrival, departure, night))
  {
    CoversExactlyTheStay(before, before.arrival + (night - arrival));
    CoversExactlyTheStay(before, night);
  }

  /** For any old arrangement and any new dates some arrangement passes. */
  lemma RescheduleExists(before: Stay, arrival: Day, departure: Day) returns (after: Stay)
    requires WellFormed(before) && arrival < departure
    ensures WellFormed(after) && after.arrival == arrival && after.departure == departure
    ensures Follows(before, after)
  {
    var nights := seq(departure - arrival, (i: nat) =>
      var u := Prescribed(before, arrival, departure, arrival + i); if u.Some? then u.value else "");
    forall i | 0 <= i < |nights|
      ensures nights[i] != "" && Some(nights[i]) == Prescribed(before, arrival, departure, arrival + i)
    {
      PrescribedIsNamed(before, arrival, departure, arrival + i);
    }
    after := FromNights(arrival, nights);
    FoldedIsFaithful(arrival, nights);
    FirstAndLastAreNamed(before);
    forall night | arrival <= night < departure
      ensures Truthy(Prescribed(before, arrival, departure, night))
      ensures UnitAt(after, night) == Prescribed(before, arrival, departure, night)
    {
      var i := night - arrival;
      assert UnitAt(after, arrival + i) == Some(nights[i]);
    }
  }

  /** All arrangements that pass for the same new dates agree on every night. */
  lemma RescheduleUnique(before: Stay, one: Stay, other: Stay)
    requires WellFormed(one) && WellFormed(other) && Follows(before, one) && Follows(before, other)
    requires one.arrival == other.arrival && one.departure == other.departure
    ensures forall d :: UnitAt(one, d) == UnitAt(other, d)
  {
    forall d ensures UnitAt(one, d) == UnitAt(other, d) {
      CoversExactlyTheStay(one, d);
      CoversExactlyTheStay(other, d);
    }
  }

  /** A reschedule of the same length is a shift. */
  lemma SameLengthShifts(before: Stay, after: Stay)
    requires WellFormed(before) && WellFormed(after) && Nights(before) == Nights(after)
    ensures Follows(before, after) <==>
            forall d :: UnitAt(after, d) == UnitAt(before, d - after.arrival + before.arrival)
  {
    FirstAndLastAreNamed(before);
    forall d
      ensures Truthy(UnitAt(before, d - after.arrival + before.arrival)) <==> after.arrival <= d < after.departure
      ensures !(after.arrival <= d < after.departure) ==>
                UnitAt(after, d) == None && UnitAt(before, d - after.arrival + before.arrival) == None
    {
      CoversExactlyTheStay(after, d);
      CoversExactlyTheStay(before, d - after.arrival + before.arrival);
    }
    forall night | after.arrival <= night < after.departure
      ensures Prescribed(before, after.arrival, after.departure, night) ==
                UnitAt(before, night - after.arrival + before.arrival)
    {
      assert before.arrival + (night - after.arrival) == night - after.arrival + before.arrival;
    }
    if Follows(before, after) {
      forall d ensures UnitAt(after, d) == UnitAt(before, d - after.arrival + before.arrival) {
        if after.arrival <= d < after.departure {
          assert UnitAt(after, d) == Prescribed(before, after.arrival, after.departure, d);
        }
      }
    }
    if forall d :: UnitAt(after, d) == UnitAt(before, d - after.arrival + before.arrival) {
      forall night | after.arrival <= night < after.departure
        ensures Truthy(Prescribed(before, after.arrival, after.departure, night))
        ensures UnitAt(after, night) == Prescribed(before, after.arrival, after.departure, night)
      {
        assert UnitAt(after, night) == UnitAt(before, night - after.arrival + before.arrival);
      }
    }
  }

  lemma FirstAndLastAreNamed(a: Stay)
    requires WellFormed(a)
    ensures Truthy(FirstUnit(a)) && Truthy(LastUnitOf(a))
  {
  }

  lemma SameLengthSymmetric(before: Stay, after: Stay)
    requires WellFormed(before) && WellFormed(after) && Nights(before) == Nights(after)
    ensures Follows(before, after) <==> Follows(after, before)
  {
    SameLengthShifts(before, after);
    SameLengthShifts(after, before);
    if Follows(before, after) {
      forall d ensures UnitAt(before, d) == UnitAt(after, d - before.arrival + after.arrival) {
        assert UnitAt(after, d - before.arrival + after.arrival)
            == UnitAt(before, (d - before.arrival + after.arrival) - after.arrival + before.arrival);
      }
    }
    if Follows(after, before) {
      forall d ensures UnitAt(after, d) == UnitAt(before, d - after.arrival + before.arrival) {
        assert UnitAt(before, d - after.arrival + before.arrival)
            == UnitAt(after, (d - after.arrival + before.arrival) - before.arrival + after.arrival);
      }
    }
  }

  lemma SameLengthComposes(first: Stay, second: Stay, third: Stay)
    requires WellFormed(first) && WellFormed(second) && WellFormed(third)
    requires Nights(first) == Nights(second) == Nights(third)
    requires Follows(first, second) && Follows(second, third)
    ensures Follows(first, third)
  {
    SameLengthShifts(first, second);
    SameLengthShifts(second, third);
    SameLengthShifts(first, third);
    forall d ensures UnitAt(third, d) == UnitAt(first, d - third.arrival + first.arrival) {
      var e := d - third.arrival + second.arrival;
      assert UnitAt(second, e) == UnitAt(first, e - second.arrival + first.arrival);
    }
  }
}
