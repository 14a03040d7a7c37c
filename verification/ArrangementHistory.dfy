/** The chain of arrangements in an order view: which changes are accepted, and what an
    accepted history keeps of the nights already arranged. */
module ArrangementHistory {
  import opened Releases
  import opened Arrangement
  import opened Snapshots
  import opened Reschedule

  datatype ChangeType =
    | InitialBooking | Rescheduling | Extension | Shortening | Move
    | EarlyCheckOut | CheckOutRevocation | HistoricalStayCorrection

  datatype Correction = Correction(orderId: string, before: Snapshot, after: Snapshot)

  datatype Item = Item(
    change: ChangeType, before: Option<Stay>, after: Stay,
    correctionGroup: Option<seq<Correction>>, recordedAt: int, currency: string)

  /** What the shape checks have already established about an item. */
  predicate Parsed(item: Item) {
    && WellFormed(item.after)
    && (item.before.Some? ==> WellFormed(item.before.value))
    && (item.correctionGroup.Some? ==>
          forall c :: c in item.correctionGroup.value ==> Accepted(c.before) && Accepted(c.after))
  }

  // ---- one change, night by night ----

  ghost predicate MovedFrom(before: Stay, after: Stay, e: Day) {
    && FirstDifferentNight(before, after, before.arrival, before.departure, e)
    && ConstantFrom(after, e, before.departure)
  }

  ghost predicate ExtendedFrom(before: Stay, after: Stay, e: Day) {
    && FirstDifferentNight(before, after, before.arrival, after.departure, e)
    && if e == before.departure then UnitAt(after, e) == UnitAt(before, e - 1)
       else ConstantFrom(after, e, after.departure)
  }

  /** The meaning of an accepted change. */
  ghost predicate Permitted(item: Item) {
    if item.change == InitialBooking then
      item.before.None? && item.correctionGroup.None?
    else
      && item.before.Some?
      && var before, after := item.before.value, item.after;
      && (item.change == HistoricalStayCorrection <==> item.correctionGroup.Some?)
      && match item.change
         case HistoricalStayCorrection => before != after
         case Rescheduling =>
           (before.arrival != after.arrival || before.departure != after.departure) && Follows(before, after)
         case Extension =>
           && before.arrival == after.arrival && before.departure < after.departure
           && exists e :: ExtendedFrom(before, after, e)
         case CheckOutRevocation =>
           && before.arrival == after.arrival && before.departure <= after.departure
           && SameNights(before, after, before.arrival, before.departure)
         case Move =>
           && before.arrival == after.arrival && before.departure == after.departure
           && exists e :: MovedFrom(before, after, e)
         case _ =>
           && before.arrival == after.arrival && after.departure < before.departure
           && SameNights(before, after, before.arrival, after.departure)
  }

  /** The check, which looks at interval boundaries only, accepts exactly the permitted changes. */
  method ValidateArrangementChange(item: Item) returns (ok: bool)
    requires Parsed(item)
    ensures ok <==> Permitted(item)
  {
    if item.change == InitialBooking {
      return item.before.None? && item.correctionGroup.None?;
    }
    if item.before.None? { return false; }
    var before, after := item.before.value, item.after;
    if item.change == HistoricalStayCorrection {
      return item.correctionGroup.Some? && before != after;
    }
    if item.correctionGroup.Some? { return false; }
    if item.change == Rescheduling {
      if before.arrival == after.arrival && before.departure == after.departure { return false; }
      ok := FollowsSchemeBReschedule(before, after);
      return;
    }
    if item.change == Extension {
      ExtensionMeans(before, after);
      return before.arrival == after.arrival && before.departure < after.departure
              && IsSingleSuffixExtension(before, after);
    }
    if item.change == CheckOutRevocation {
      SamplingDecidesNights(before, after, before.arrival, before.departure);
      return before.arrival == after.arrival && before.departure <= after.departure
             && SameInventoryTimeline(before, after, before.arrival, before.departure);
    }
    if item.change == Shortening || item.change == EarlyCheckOut {
      SamplingDecidesNights(before, after, before.arrival, after.departure);
      return before.arrival == after.arrival && after.departure < before.departure
             && SameInventoryTimeline(before, after, before.arrival, after.departure);
    }
    MoveMeans(before, after);
    return before.arrival == after.arrival && before.departure == after.departure && IsSingleSuffixMove(before, after);
  }

  lemma MoveMeans(before: Stay, after: Stay)
    requires WellFormed(before) && WellFormed(after)
    ensures before.arrival == after.arrival && before.departure == after.departure ==>
              (IsSingleSuffixMove(before, after) <==> exists e :: MovedFrom(before, after, e))
  {
    MoveDecidesNights(before, after);
    forall e { CoversExactlyTheStay(after, e); }
    if before.arrival == after.arrival && before.departure == after.departure {
      if IsSingleSuffixMove(before, after) {
        var e :| FirstDifferentNight(before, after, before.arrival, before.departure, e)
                 && ConstantFrom(after, e, before.departure);
        assert MovedFrom(before, after, e);
      }
    }
  }

  lemma ExtensionMeans(before: Stay, after: Stay)
    requires WellFormed(before) && WellFormed(after)
    ensures before.arrival == after.arrival && before.departure < after.departure ==>
              (IsSingleSuffixExtension(before, after) <==> exists e :: ExtendedFrom(before, after, e))
  {
    ExtensionDecidesNights(before, after);
    forall e { CoversExactlyTheStay(after, e); }
    if before.arrival == after.arrival && before.departure < after.departure {
      if IsSingleSuffixExtension(before, after) {
        var e :| FirstDifferentNight(before, after, before.arrival, after.departure, e)
                 && if e == before.departure then UnitAt(after, e) == UnitAt(before, e - 1)
                    else ConstantFrom(after, e, after.departure);
        assert ExtendedFrom(before, after, e);
      }
    }
  }

  // ---- the whole history ----

  function OwnCorrections(corrections: seq<Correction>, orderId: string): seq<Correction> {
    if corrections == [] then []
    else
      var own := if corrections[0].orderId == orderId then [corrections[0]] else [];
      own + OwnCorrections(corrections[1..], orderId)
  }

  /** The own corrections are one only when exactly one place of the batch names the order. */
  lemma {:induction false} OneOwnCorrection(corrections: seq<Correction>, orderId: string)
    ensures OwnCorrections(corrections, orderId) == [] <==>
            forall i :: 0 <= i < |corrections| ==> corrections[i].orderId != orderId
    ensures |OwnCorrections(corrections, orderId)| == 1 <==>
            exists i :: 0 <= i < |corrections| && OnlyOwn(corrections, orderId, i)
    ensures forall i :: 0 <= i < |corrections| && OnlyOwn(corrections, orderId, i) ==>
              OwnCorrections(corrections, orderId) == [corrections[i]]
  {
    if corrections != [] {
      var rest := corrections[1..];
      OneOwnCorrection(rest, orderId);
      if corrections[0].orderId == orderId {
        if OwnCorrections(rest, orderId) == [] {
          assert OnlyOwn(corrections, orderId, 0);
        }
      } else {
        forall i | 0 <= i < |corrections| && OnlyOwn(corrections, orderId, i) ensures OnlyOwn(rest, orderId, i - 1) {
        }
        forall i | 0 <= i < |rest| && OnlyOwn(rest, orderId, i) ensures OnlyOwn(corrections, orderId, i + 1) {
        }
      }
    }
  }

  ghost predicate OnlyOwn(corrections: seq<Correction>, orderId: string, i: nat)
    requires i < |corrections|
  {
    && corrections[i].orderId == orderId
    && forall j :: 0 <= j < |corrections| && j != i ==> corrections[j].orderId != orderId
  }

  /** Exactly one correction of the batch is this order's, and its snapshots fold to the recorded change. */
  ghost predicate CorrectionMatches(item: Item, orderId: string) {
    item.change == HistoricalStayCorrection && item.correctionGroup.Some? ==>
      var own := OwnCorrections(item.correctionGroup.value, orderId);
      && |own| == 1
      && item.before == Some(FromNights(own[0].before.arrival, UnitsOf(own[0].before.timeline)))
      && item.after == FromNights(own[0].after.arrival, UnitsOf(own[0].after.timeline))
  }

  ghost predicate Links(earlier: Item, later: Item) {
    && later.currency == earlier.currency && earlier.recordedAt <= later.recordedAt
    && later.before == Some(earlier.after)
  }

  ghost predicate AcceptedHistory(history: seq<Item>, original: Stay, effective: Stay, orderId: string) {
    && |history| > 0
    && history[0].change == InitialBooking && history[0].before == None && history[0].after == original
    && (forall i :: 0 <= i < |history| ==> Permitted(history[i]) && CorrectionMatches(history[i], orderId))
    && (forall i :: 0 < i < |history| ==> Links(history[i - 1], history[i]))
    && history[|history| - 1].after == effective
  }

  method MatchCorrection(item: Item, orderId: string) returns (ok: bool)
    requires Parsed(item) && item.correctionGroup.Some?
    ensures ok <==> (item.change == HistoricalStayCorrection ==> CorrectionMatches(item, orderId))
  {
    if item.change != HistoricalStayCorrection { return true; }
    var matches := OwnCorrections(item.correctionGroup.value, orderId);
    if |matches| != 1 { return false; }
    assert matches[0] in item.correctionGroup.value by {
      OwnAreCorrections(item.correctionGroup.value, orderId, matches[0]);
    }
    var before := ArrangementFromHistoricalSnapshot(matches[0].before);
    var after := ArrangementFromHistoricalSnapshot(matches[0].after);
    return item.before == Some(before) && item.after == after;
  }

  lemma {:induction false} OwnAreCorrections(corrections: seq<Correction>, orderId: string, c: Correction)
    requires c in OwnCorrections(corrections, orderId)
    ensures c in corrections
  {
    if c !in OwnCorrections(corrections[1..], orderId) {
      assert c == corrections[0];
    } else {
      OwnAreCorrections(corrections[1..], orderId, c);
    }
  }

  method AssertHistory(history: seq<Item>, original: Stay, effective: Stay, orderId: string) returns (ok: bool)
    requires forall i :: 0 <= i < |history| ==> Parsed(history[i])
    ensures ok <==> AcceptedHistory(history, original, effective, orderId)
  {
    if |history| == 0 { return false; }
    if history[0].change != InitialBooking || history[0].before.Some? || history[0].after != original { return false; }
    for index := 0 to |history|
      invariant forall i :: 0 <= i < index ==> Permitted(history[i]) && CorrectionMatches(history[i], orderId)
      invariant forall i :: 0 < i < index ==> Links(history[i - 1], history[i])
    {
      var item := history[index];
      var valid := ValidateArrangementChange(item);
      if !valid { return false; }
      if item.change == HistoricalStayCorrection {
        var matched := MatchCorrection(item, orderId);
        if !matched { return false; }
      }
      if index > 0 {
        var earlier := history[index - 1];
        if item.currency != earlier.currency || item.recordedAt < earlier.recordedAt
           || item.before != Some(earlier.after) {
          assert !Links(earlier, item);
          return false;
        }
      }
    }
    return history[|history| - 1].after == effective;
  }

  // ---- what an accepted history keeps ----

  /** An accepted history starts at the original arrangement, hands every arrangement on unchanged to the
      next entry, ends at the effective one, and never goes back in time or changes its currency. */
  lemma {:induction false} HistoryIsOneChain(history: seq<Item>, original: Stay, effective: Stay, orderId: string,
                                             i: nat, j: nat)
    requires AcceptedHistory(history, original, effective, orderId) && i <= j < |history|
    ensures history[i].currency == history[j].currency && history[i].recordedAt <= history[j].recordedAt
    ensures i > 0 ==> history[i].before == Some(history[i - 1].after)
    ensures history[0].after == original && history[|history| - 1].after == effective
    ensures history[i].change == InitialBooking <==> i == 0
    decreases j - i
  {
    if i < j {
      assert Links(history[j - 1], history[j]);
      HistoryIsOneChain(history, original, effective, orderId, i, j - 1);
    }
    if i > 0 {
      assert Links(history[i - 1], history[i]);
      assert Permitted(history[i]);
    }
  }

  predicate AgreeBefore(before: Stay, after: Stay, e: Day) {
    forall d :: before.arrival <= d < e ==> UnitAt(after, d) == UnitAt(before, d)
  }

  /** The first night of the old stay that changes. */
  predicate ChangesAt(before: Stay, after: Stay, e: Day) {
    && before.arrival <= e < before.departure && UnitAt(after, e) != UnitAt(before, e)
    && AgreeBefore(before, after, e)
  }

  predicate OneUnitFrom(after: Stay, e: Day) {
    forall d :: e <= d < after.departure ==> UnitAt(after, d) == UnitAt(after, e)
  }

  /** What each change may do to the dates and the nights of a stay. */
  lemma ChangeOfNights(item: Item)
    requires Parsed(item) && item.before.Some? && item.change != InitialBooking
    requires item.change == HistoricalStayCorrection <==> item.correctionGroup.Some?
    ensures var before, after := item.before.value, item.after;
            Permitted(item) <==>
              match item.change
              case InitialBooking => false
              case Rescheduling =>
                (before.arrival != after.arrival || before.departure != after.departure) && Follows(before, after)
              case Extension =>
                && before.arrival == after.arrival && before.departure < after.departure
                && (if AgreeBefore(before, after, before.departure)
                    then UnitAt(after, before.departure) == UnitAt(before, before.departure - 1)
                    else exists e :: ChangesAt(before, after, e) && OneUnitFrom(after, e))
              case Move =>
                && before.arrival == after.arrival && before.departure == after.departure
                && exists e :: ChangesAt(before, after, e) && OneUnitFrom(after, e)
              case CheckOutRevocation =>
                && before.arrival == after.arrival && before.departure <= after.departure
                && AgreeBefore(before, after, before.departure)
              case HistoricalStayCorrection => before != after
              case _ =>
                && before.arrival == after.arrival && after.departure < before.departure
                && AgreeBefore(before, after, after.departure)
  {
    var before, after := item.before.value, item.after;
    CoversExactlyTheStay(before, before.departure);
    CoversExactlyTheStay(after, before.departure);
    if item.change == Move && before.departure == after.departure {
      forall e ensures MovedFrom(before, after, e) <==> ChangesAt(before, after, e) && OneUnitFrom(after, e) {}
    }
    if item.change == Extension && before.arrival == after.arrival && before.departure < after.departure {
      ExtensionOfNights(before, after);
    }
  }

  lemma ExtensionOfNights(before: Stay, after: Stay)
    requires WellFormed(before) && WellFormed(after)
    requires before.arrival == after.arrival && before.departure < after.departure
    ensures (exists e :: ExtendedFrom(before, after, e)) <==>
            if AgreeBefore(before, after, before.departure)
            then UnitAt(after, before.departure) == UnitAt(before, before.departure - 1)
            else exists e :: ChangesAt(before, after, e) && OneUnitFrom(after, e)
  {
    CoversExactlyTheStay(before, before.departure);
    CoversExactlyTheStay(after, before.departure);
    forall e | e < before.departure
      ensures ExtendedFrom(before, after, e) <==> ChangesAt(before, after, e) && OneUnitFrom(after, e)
    {
    }
    assert ExtendedFrom(before, after, before.departure) <==>
           && AgreeBefore(before, after, before.departure)
           && UnitAt(after, before.departure) == UnitAt(before, before.departure - 1);
    if AgreeBefore(before, after, before.departure) {
      forall e | ExtendedFrom(before, after, e) ensures e == before.departure {}
    }
  }

  predicate MayMoveArrival(item: Item) {
    item.change == Rescheduling || item.change == HistoricalStayCorrection
  }

  /** The first night a change of the other kinds can touch. */
  ghost predicate ChangesFrom(item: Item, e: Day)
    requires item.before.Some?
  {
    var before := item.before.value;
    match item.change
    case Extension => FirstDifferentNight(before, item.after, before.arrival, item.after.departure, e)
    case Move => FirstDifferentNight(before, item.after, before.arrival, before.departure, e)
    case CheckOutRevocation => e == before.departure
    case _ => e == item.after.departure
  }

  lemma ChangeKeepsEarlierNights(item: Item) returns (e: Day)
    requires Parsed(item) && Permitted(item) && item.before.Some? && !MayMoveArrival(item)
    ensures item.before.value.arrival == item.after.arrival
    ensures ChangesFrom(item, e)
    ensures forall f :: ChangesFrom(item, f) ==> f == e
    ensures forall d :: d < e ==> UnitAt(item.before.value, d) == UnitAt(item.after, d)
  {
    var before, after := item.before.value, item.after;
    match item.change {
      case Extension => e :| ExtendedFrom(before, after, e);
      case Move => e :| MovedFrom(before, after, e);
      case CheckOutRevocation => e := before.departure;
      case _ => e := after.departure;
    }
    forall d | d < e ensures UnitAt(before, d) == UnitAt(after, d) {
      CoversExactlyTheStay(before, d);
      CoversExactlyTheStay(after, d);
    }
  }

  /** Over any stretch without reschedules and historical corrections, every night before the
      earliest change point keeps its unit in every later version. */
  lemma {:induction false} StretchKeepsNights(history: seq<Item>, original: Stay, effective: Stay, orderId: string,
                                              i: nat, j: nat, d: Day)
    requires AcceptedHistory(history, original, effective, orderId)
    requires forall k :: 0 <= k < |history| ==> Parsed(history[k])
    requires i <= j < |history|
    requires forall k :: i < k <= j ==> !MayMoveArrival(history[k])
    requires forall k, e :: i < k <= j && history[k].before.Some? && ChangesFrom(history[k], e) ==> d < e
    ensures history[j].after.arrival == history[i].after.arrival
    ensures UnitAt(history[j].after, d) == UnitAt(history[i].after, d)
    decreases j - i
  {
    if i < j {
      StretchKeepsNights(history, original, effective, orderId, i, j - 1, d);
      assert Links(history[j - 1], history[j]);
      var e := ChangeKeepsEarlierNights(history[j]);
    }
  }

  /** When the effective arrival is not the original one, a reschedule or a historical correction
      stands in the history. */
  lemma {:induction false} ArrivalMovedBy(history: seq<Item>, original: Stay, effective: Stay, orderId: string, j: nat)
    returns (k: nat)
    requires AcceptedHistory(history, original, effective, orderId)
    requires forall k :: 0 <= k < |history| ==> Parsed(history[k])
    requires j < |history| && history[j].after.arrival != original.arrival
    ensures 0 < k <= j && MayMoveArrival(history[k])
    ensures history[k].before.Some? && history[k].before.value.arrival == original.arrival
    ensures history[k].after.arrival != original.arrival
  {
    assert j > 0;
    assert Links(history[j - 1], history[j]);
    if history[j - 1].after.arrival == original.arrival {
      k := j;
      if !MayMoveArrival(history[k]) {
        var e := ChangeKeepsEarlierNights(history[k]);
      }
    } else {
      k := ArrivalMovedBy(history, original, effective, orderId, j - 1);
    }
  }
}
