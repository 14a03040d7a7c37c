/** Batch correction of completed stays: a set of stays is checked as one final arrangement,
    against itself and against every other completed stay, and then applied. */
module Corrections {
  import opened Releases
  import opened Arrangement
  import TextOrder

  datatype Kind = Room | Bed

  datatype InventoryUnit = InventoryUnit(
    id: string, roomId: string, kind: Kind, pricingProductCode: string, occupancyCapacity: nat, active: bool)

  datatype Order = Order(
    completed: bool, version: nat, stay: Stay, occupants: nat, entitlementFacts: bool)

  // One claim row of an order: the room and night it holds or held, released or not.
  datatype Claim = Claim(orderId: string, roomId: string, serviceDate: Day)

  // Something active on a night: a claim, an in-house stay past its date, a closed unit.
  datatype Holding = Holding(orderId: string, unit: string, serviceDate: Day)

  datatype Target = Target(unit: string, arrival: Day, departure: Day)

  datatype Item = Item(orderId: string, expectedVersion: nat, target: Target)

  type Units = map<string, InventoryUnit>
  type Orders = map<string, Order>

  predicate UnitConflicts(left: InventoryUnit, right: InventoryUnit) {
    left.roomId == right.roomId && (left.kind == Room || right.kind == Room || left.id == right.id)
  }

  // ---- the meaning: who is where on which night ----

  /** The two stays hold conflicting units on night d. */
  predicate ClashOn(us: Units, a: Stay, b: Stay, d: Day) {
    && UnitAt(a, d).Some? && UnitAt(b, d).Some?
    && UnitAt(a, d).value in us && UnitAt(b, d).value in us
    && UnitConflicts(us[UnitAt(a, d).value], us[UnitAt(b, d).value])
  }

  ghost predicate Clash(us: Units, a: Stay, b: Stay) {
    exists d :: ClashOn(us, a, b, d)
  }

  /** No two completed stays hold conflicting units on the same night. */
  ghost predicate NoDoubleOccupancy(us: Units, os: Orders) {
    forall p, q :: p in os && q in os && p != q && os[p].completed && os[q].completed ==>
              !Clash(us, os[p].stay, os[q].stay)
  }

  /** Two units of one room exclude each other unless they are two different beds. */
  ghost predicate ApartOn(us: Units, a: Stay, b: Stay, d: Day) {
    UnitAt(a, d).Some? && UnitAt(b, d).Some? && UnitAt(a, d).value in us && UnitAt(b, d).value in us ==>
      var left, right := us[UnitAt(a, d).value], us[UnitAt(b, d).value];
      left.roomId != right.roomId || (left.kind == Bed && right.kind == Bed && left.id != right.id)
  }

  /** On every night, a room that a completed stay holds as a whole has no other completed stay in it, and
      two completed stays share a room only as two different beds of it. */
  ghost predicate RoomsAreHeldOnce(us: Units, os: Orders) {
    forall p, q, d :: p in os && q in os && p != q && os[p].completed && os[q].completed ==>
              ApartOn(us, os[p].stay, os[q].stay, d)
  }

  lemma ClashMeans(us: Units, a: Stay, b: Stay)
    ensures Clash(us, a, b) <==> exists d :: !ApartOn(us, a, b, d)
  {
    forall d ensures ClashOn(us, a, b, d) <==> !ApartOn(us, a, b, d) {}
  }

  /** Freedom from clashes is that rooms are held once. */
  lemma NoDoubleOccupancyMeans(us: Units, os: Orders)
    ensures NoDoubleOccupancy(us, os) <==> RoomsAreHeldOnce(us, os)
  {
    forall a, b ensures Clash(us, a, b) <==> exists d :: !ApartOn(us, a, b, d) {
      ClashMeans(us, a, b);
    }
  }

  /** The stay is an arrangement of known units, and when it is completed it has claim rows
      for its effective nights. */
  ghost predicate Housed(us: Units, claims: set<Claim>, id: string, o: Order) {
    && WellFormed(o.stay) && (forall v :: v in o.stay.intervals ==> v.unit in us)
    && (o.completed ==> forall d :: UnitAt(o.stay, d).Some? ==>
          UnitAt(o.stay, d).value in us && Claim(id, us[UnitAt(o.stay, d).value].roomId, d) in claims)
  }

  ghost predicate Covered(us: Units, os: Orders, claims: set<Claim>) {
    forall o :: o in os ==> Housed(us, claims, o, os[o])
  }

  function Placed(t: Target): Stay {
    Stay(t.arrival, t.departure, [Interval(t.unit, t.arrival, t.departure)])
  }

  lemma PlacedNights(t: Target, d: Day)
    ensures UnitAt(Placed(t), d) == if t.arrival <= d < t.departure then Some(t.unit) else None
  {
    assert Placed(t).intervals[1..] == [] && Find([], d) == None;
  }

  // ---- normalization ----

  const MAX_SERVICE_NIGHTS := 366

  predicate ValidItem(i: Item) {
    && i.orderId != "" && i.expectedVersion >= 1 && i.target.unit != ""
    && 0 < i.target.departure - i.target.arrival <= MAX_SERVICE_NIGHTS
  }

  predicate Distinct(items: seq<Item>) {
    forall i, j :: 0 <= i < j < |items| ==> items[i].orderId != items[j].orderId
  }

  predicate Sorted(items: seq<Item>) {
    forall i, j :: 0 <= i < j < |items| ==> TextOrder.Less(items[i].orderId, items[j].orderId)
  }

  /** A set of 1 to 100 valid items, no order twice, put into order-id order. */
  method Normalize(raw: seq<Item>) returns (items: Option<seq<Item>>)
    ensures items.Some? <==>
            && 0 < |raw| <= 100
            && (forall i, j :: 0 <= i < j < |raw| ==> raw[i].orderId != raw[j].orderId)
            && (forall i :: i in raw ==>
                  && i.orderId != "" && i.expectedVersion >= 1 && i.target.unit != ""
                  && 1 <= i.target.departure - i.target.arrival <= 366)
    ensures items.Some? ==> multiset(items.value) == multiset(raw) && Sorted(items.value)
  {
    if |raw| == 0 || |raw| > 100 { return None; }
    var seen: set<string> := {};
    var sorted: seq<Item> := [];
    for n := 0 to |raw|
      invariant seen == set i | i in raw[..n] :: i.orderId
      invariant Distinct(raw[..n]) && forall i :: i in raw[..n] ==> ValidItem(i)
      invariant multiset(sorted) == multiset(raw[..n]) && Sorted(sorted)
    {
      var item := raw[n];
      assert raw[..n + 1] == raw[..n] + [item];
      if item.orderId in seen {
        var other :| other in raw[..n] && other.orderId == item.orderId;
        return None;
      }
      seen := seen + {item.orderId};
      if !ValidItem(item) { return None; }
      forall i | i in sorted ensures i in raw[..n] {
        assert i in multiset(sorted) && i in multiset(raw[..n]);
      }
      sorted := InsertItem(sorted, item);
    }
    assert raw[..|raw|] == raw;
    return Some(sorted);
  }

  method InsertItem(sorted: seq<Item>, item: Item) returns (r: seq<Item>)
    requires Sorted(sorted) && forall i :: i in sorted ==> i.orderId != item.orderId
    ensures Sorted(r) && multiset(r) == multiset(sorted) + multiset{item}
  {
    var k := 0;
    while k < |sorted| && TextOrder.Less(sorted[k].orderId, item.orderId)
      invariant 0 <= k <= |sorted|
      invariant forall i :: 0 <= i < k ==> TextOrder.Less(sorted[i].orderId, item.orderId)
    {
      k := k + 1;
    }
    InsertKeepsSorted(sorted, item, k);
    r := sorted[..k] + [item] + sorted[k..];
  }

  lemma InsertKeepsSorted(sorted: seq<Item>, item: Item, k: nat)
    requires Sorted(sorted) && k <= |sorted| && forall i :: i in sorted ==> i.orderId != item.orderId
    requires forall i :: 0 <= i < k ==> TextOrder.Less(sorted[i].orderId, item.orderId)
    requires k < |sorted| ==> !TextOrder.Less(sorted[k].orderId, item.orderId)
    ensures Sorted(sorted[..k] + [item] + sorted[k..])
    ensures multiset(sorted[..k] + [item] + sorted[k..]) == multiset(sorted) + multiset{item}
  {
    var r := sorted[..k] + [item] + sorted[k..];
    InsertedItems(sorted, item, k);
    forall i | k <= i < |sorted| ensures TextOrder.Less(item.orderId, sorted[i].orderId) {
      assert sorted[k] in sorted;
      TextOrder.Total(item.orderId, sorted[k].orderId);
      if k < i { TextOrder.Transitive(item.orderId, sorted[k].orderId, sorted[i].orderId); }
    }
    forall i, j | 0 <= i < j < |r| ensures TextOrder.Less(r[i].orderId, r[j].orderId) {
      assert r[i] == if i < k then sorted[i] else if i == k then item else sorted[i - 1];
      assert r[j] == if j < k then sorted[j] else if j == k then item else sorted[j - 1];
    }
  }

  lemma InsertedItems(items: seq<Item>, item: Item, k: nat)
    requires k <= |items|
    ensures multiset(items[..k] + [item] + items[k..]) == multiset(items) + multiset{item}
  {
    assert items == items[..k] + items[k..];
  }

  // ---- what the checks decide ----

  ghost predicate Clear(us: Units, t: Target, o: Stay) {
    !Clash(us, Placed(t), o)
  }

  /** The final placements of the set are pairwise free of clashes. */
  ghost predicate PairwiseFree(us: Units, items: seq<Item>) {
    forall a, b :: a in items && b in items && a.orderId != b.orderId ==> Clear(us, a.target, Placed(b.target))
  }

  predicate Corrected(items: seq<Item>, o: string) {
    exists i :: i in items && i.orderId == o
  }

  /** No final placement clashes with a completed stay outside the set. */
  ghost predicate FreeOutside(us: Units, os: Orders, items: seq<Item>) {
    forall i, o :: i in items && o in os && os[o].completed && !Corrected(items, o) ==> Clear(us, i.target, os[o].stay)
  }

  /** The unit is free of every active holding of another order on the night. */
  predicate Blocks(us: Units, h: Holding, t: Target) {
    && t.arrival <= h.serviceDate < t.departure && t.unit in us && h.unit in us
    && UnitConflicts(us[h.unit], us[t.unit])
  }

  ghost predicate Available(us: Units, held: set<Holding>, i: Item) {
    forall h :: h in held && h.orderId != i.orderId ==> !Blocks(us, h, i.target)
  }

  /** What one item must satisfy on its own. */
  predicate Loadable(us: Units, os: Orders, today: Day, i: Item) {
    && i.target.departure <= today
    && i.orderId in os && os[i.orderId].completed && os[i.orderId].version == i.expectedVersion
    && i.target.unit in us && us[i.target.unit].active
    && |os[i.orderId].stay.intervals| == 1
    && var before := os[i.orderId].stay.intervals[0];
    && before.unit in us
    && us[before.unit].kind == us[i.target.unit].kind
    && us[before.unit].pricingProductCode == us[i.target.unit].pricingProductCode
    && 1 <= os[i.orderId].occupants <= us[i.target.unit].occupancyCapacity
    && !os[i.orderId].entitlementFacts
    && before != Interval(i.target.unit, i.target.arrival, i.target.departure)
  }

  /** The correction set as a whole; nothing here depends on the order of the items. */
  ghost predicate Admissible(us: Units, os: Orders, held: set<Holding>, today: Day, items: seq<Item>) {
    && 0 < |items| <= 100 && Distinct(items) && (forall i :: i in items ==> ValidItem(i))
    && (forall i :: i in items ==> Loadable(us, os, today, i))
    && PairwiseFree(us, items) && FreeOutside(us, os, items)
    && (forall i :: i in items ==> Available(us, held, i))
  }

  /** A night of the target in the unit shares no room with another unit there, but as another bed. */
  ghost predicate SharesNoRoom(us: Units, unit: string, other: string) {
    unit in us && other in us ==>
      us[unit].roomId != us[other].roomId
      || (us[unit].kind == Bed && us[other].kind == Bed && us[unit].id != us[other].id)
  }

  predicate HeldOn(t: Target, d: Day) {
    t.arrival <= d < t.departure
  }

  lemma ClearMeans(us: Units, t: Target, o: Stay)
    ensures Clear(us, t, o) <==>
              forall d :: HeldOn(t, d) && UnitAt(o, d).Some? ==> SharesNoRoom(us, t.unit, UnitAt(o, d).value)
  {
    ClashMeans(us, Placed(t), o);
    forall d
      ensures ApartOn(us, Placed(t), o, d) <==>
                (HeldOn(t, d) && UnitAt(o, d).Some? ==> SharesNoRoom(us, t.unit, UnitAt(o, d).value))
    {
      PlacedNights(t, d);
    }
  }

  /** What the check of the set against itself lets through, with rooms, kinds and beds written out. */
  lemma PairwiseFreeMeans(us: Units, items: seq<Item>)
    ensures PairwiseFree(us, items) <==>
              forall a, b, d :: a in items && b in items && a.orderId != b.orderId
                                && HeldOn(a.target, d) && HeldOn(b.target, d)
                                ==> SharesNoRoom(us, a.target.unit, b.target.unit)
  {
    forall a, b | a in items && b in items
      ensures Clear(us, a.target, Placed(b.target)) <==>
                forall d :: HeldOn(a.target, d) && HeldOn(b.target, d) ==>
                          SharesNoRoom(us, a.target.unit, b.target.unit)
    {
      ClearMeans(us, a.target, Placed(b.target));
      forall d
        ensures UnitAt(Placed(b.target), d) == if HeldOn(b.target, d) then Some(b.target.unit) else None
      {
        PlacedNights(b.target, d);
      }
    }
  }

  /** What the check against completed stays outside the set lets through. */
  lemma FreeOutsideMeans(us: Units, os: Orders, items: seq<Item>)
    ensures FreeOutside(us, os, items) <==>
              forall i, o, d :: i in items && o in os && os[o].completed && (forall j :: j in items ==> j.orderId != o)
                                && HeldOn(i.target, d) && UnitAt(os[o].stay, d).Some?
                                ==> SharesNoRoom(us, i.target.unit, UnitAt(os[o].stay, d).value)
  {
    forall i, o | i in items && o in os
      ensures Clear(us, i.target, os[o].stay) <==>
                forall d :: HeldOn(i.target, d) && UnitAt(os[o].stay, d).Some? ==>
                          SharesNoRoom(us, i.target.unit, UnitAt(os[o].stay, d).value)
    {
      ClearMeans(us, i.target, os[o].stay);
    }
  }

  /** What the check against active claims, overdue stays and closed units lets through. */
  lemma AvailableMeans(us: Units, held: set<Holding>, i: Item)
    ensures Available(us, held, i) <==>
              forall h :: h in held && h.orderId != i.orderId && HeldOn(i.target, h.serviceDate) ==>
                        SharesNoRoom(us, i.target.unit, h.unit)
  {
  }

  // ---- the checks ----

  datatype Taken = Taken(orderId: string, unit: InventoryUnit, serviceDate: Day)

  predicate TakenBy(us: Units, i: Item, t: Taken) {
    && i.target.unit in us && t.orderId == i.orderId && t.unit == us[i.target.unit]
    && i.target.arrival <= t.serviceDate < i.target.departure
  }

  ghost predicate SeenExactly(us: Units, items: seq<Item>, seen: set<Taken>) {
    && (forall t :: t in seen ==> exists i :: i in items && TakenBy(us, i, t))
    && (forall i, d :: i in items && i.target.unit in us && i.target.arrival <= d < i.target.departure ==>
          Taken(i.orderId, us[i.target.unit], d) in seen)
  }

  /** Lays the final nights out one by one and refuses the first that meets an earlier one. */
  method AssertFinalSetHasNoInternalConflicts(us: Units, items: seq<Item>) returns (ok: bool)
    requires Distinct(items)
    requires forall i :: i in items ==> i.target.unit in us
    ensures ok <==> PairwiseFree(us, items)
  {
    var seen: set<Taken> := {};
    for n := 0 to |items|
      invariant SeenExactly(us, items[..n], seen)
      invariant PairwiseFree(us, items[..n])
    {
      var item := items[n];
      assert items[..n + 1] == items[..n] + [item];
      ok, seen := LayOut(us, items[..n], item, seen);
      if !ok { return false; }
      forall a | a in items[..n]
        ensures Clear(us, item.target, Placed(a.target)) && Clear(us, a.target, Placed(item.target))
      {
        ClashSymmetric(us, Placed(a.target), Placed(item.target));
      }
    }
    assert items[..|items|] == items;
    return true;
  }

  method LayOut(us: Units, ghost earlier: seq<Item>, item: Item, before: set<Taken>)
    returns (ok: bool, seen: set<Taken>)
    requires SeenExactly(us, earlier, before)
    requires item.target.unit in us && forall i :: i in earlier ==> i.target.unit in us && i.orderId != item.orderId
    ensures ok ==> SeenExactly(us, earlier + [item], seen)
    ensures ok <==> forall a :: a in earlier ==> Clear(us, item.target, Placed(a.target))
  {
    var unit := us[item.target.unit];
    seen := before;
    var day := item.target.arrival;
    while day < item.target.departure
      invariant item.target.arrival <= day
      invariant day <= item.target.departure || day == item.target.arrival
      invariant before <= seen
      invariant forall t :: t in seen ==> t in before || (TakenBy(us, item, t) && t.serviceDate < day)
      invariant forall d :: item.target.arrival <= d < day ==> Taken(item.orderId, unit, d) in seen
      invariant forall t :: t in before && item.target.arrival <= t.serviceDate < day ==> !UnitConflicts(t.unit, unit)
    {
      if t :| t in seen && t.serviceDate == day && UnitConflicts(t.unit, unit) {
        MeetsEarlier(us, earlier, item, before, t);
        return false, seen;
      }
      seen := seen + {Taken(item.orderId, unit, day)};
      day := day + 1;
    }
    ClearOfEarlier(us, earlier, item, before);
    return true, seen;
  }

  lemma ClashSymmetric(us: Units, a: Stay, b: Stay)
    ensures Clash(us, a, b) <==> Clash(us, b, a)
  {
    if Clash(us, a, b) { var d :| ClashOn(us, a, b, d); assert ClashOn(us, b, a, d); }
    if Clash(us, b, a) { var d :| ClashOn(us, b, a, d); assert ClashOn(us, a, b, d); }
  }

  /** A night already taken by a conflicting unit is a clash with the item that took it. */
  lemma MeetsEarlier(us: Units, earlier: seq<Item>, item: Item, seen: set<Taken>, t: Taken)
    requires SeenExactly(us, earlier, seen) && t in seen && item.target.unit in us
    requires item.target.arrival <= t.serviceDate < item.target.departure && UnitConflicts(t.unit, us[item.target.unit])
    ensures exists a :: a in earlier && !Clear(us, item.target, Placed(a.target))
  {
    var a :| a in earlier && TakenBy(us, a, t);
    PlacedNights(a.target, t.serviceDate);
    PlacedNights(item.target, t.serviceDate);
    assert ClashOn(us, Placed(item.target), Placed(a.target), t.serviceDate);
  }

  lemma ClearOfEarlier(us: Units, earlier: seq<Item>, item: Item, seen: set<Taken>)
    requires SeenExactly(us, earlier, seen) && item.target.unit in us
    requires forall t :: t in seen && item.target.arrival <= t.serviceDate < item.target.departure ==>
                           !UnitConflicts(t.unit, us[item.target.unit])
    ensures forall a :: a in earlier ==> Clear(us, item.target, Placed(a.target))
  {
    forall a, d | a in earlier ensures !ClashOn(us, Placed(item.target), Placed(a.target), d) {
      PlacedNights(a.target, d);
      PlacedNights(item.target, d);
      if a.target.unit in us && a.target.arrival <= d < a.target.departure {
        assert Taken(a.orderId, us[a.target.unit], d) in seen;
      }
    }
  }

  // ---- against stays outside the set ----

  lemma {:induction false} FindAt(intervals: seq<Interval>, k: nat, d: Day)
    requires k < |intervals| && intervals[k].arrival <= d < intervals[k].departure
    requires forall i :: 0 <= i < |intervals| ==> intervals[i].arrival < intervals[i].departure
    requires forall i :: 0 < i < |intervals| ==> intervals[i - 1].departure == intervals[i].arrival
    ensures Find(intervals, d) == Some(intervals[k].unit)
  {
    if k > 0 {
      Ahead(intervals, k);
      FindAt(intervals[1..], k - 1, d);
    }
  }

  lemma {:induction false} Ahead(intervals: seq<Interval>, k: nat)
    requires 0 < k < |intervals|
    requires forall i :: 0 <= i < |intervals| ==> intervals[i].arrival < intervals[i].departure
    requires forall i :: 0 < i < |intervals| ==> intervals[i - 1].departure == intervals[i].arrival
    ensures intervals[0].departure <= intervals[k].arrival
  {
    if k > 1 { Ahead(intervals, k - 1); }
  }

  lemma {:induction false} FoundIn(intervals: seq<Interval>, d: Day) returns (k: nat)
    requires Find(intervals, d).Some?
    ensures k < |intervals| && intervals[k].arrival <= d < intervals[k].departure
            && intervals[k].unit == Find(intervals, d).value
  {
    if intervals[0].arrival <= d < intervals[0].departure { k := 0; }
    else { k := FoundIn(intervals[1..], d); k := k + 1; }
  }

  predicate Overlaps(v: Interval, t: Target) {
    v.arrival < t.departure && t.arrival < v.departure
  }

  /** An overlapping interval on a conflicting unit is exactly a night in conflict. */
  lemma OverlapIsClash(us: Units, t: Target, o: Stay)
    requires WellFormed(o) && t.arrival < t.departure && t.unit in us
    requires forall v :: v in o.intervals ==> v.unit in us
    ensures Clear(us, t, o) <==>
              forall k :: 0 <= k < |o.intervals| && Overlaps(o.intervals[k], t) ==>
                        !UnitConflicts(us[t.unit], us[o.intervals[k].unit])
  {
    if !Clear(us, t, o) {
      var d :| ClashOn(us, Placed(t), o, d);
      PlacedNights(t, d);
      var k := FoundIn(o.intervals, d);
      assert Overlaps(o.intervals[k], t);
    }
    forall k | 0 <= k < |o.intervals| && Overlaps(o.intervals[k], t)
            && UnitConflicts(us[t.unit], us[o.intervals[k].unit])
      ensures !Clear(us, t, o)
    {
      var d := if o.intervals[k].arrival < t.arrival then t.arrival else o.intervals[k].arrival;
      PlacedNights(t, d);
      FindAt(o.intervals, k, d);
      assert o.intervals[k] in o.intervals;
      assert ClashOn(us, Placed(t), o, d);
    }
  }

  predicate Candidate(us: Units, os: Orders, claims: set<Claim>, t: Target, o: string)
    requires t.unit in us
  {
    o in os && os[o].completed
    && exists c :: c in claims && c.orderId == o && c.roomId == us[t.unit].roomId
            && t.arrival <= c.serviceDate < t.departure
  }

  /** A completed stay that clashes has a claim row in the room, so the query finds it. */
  lemma ClashIsCandidate(us: Units, os: Orders, claims: set<Claim>, t: Target, o: string)
    requires o in os && Housed(us, claims, o, os[o]) && t.unit in us && os[o].completed && !Clear(us, t, os[o].stay)
    ensures Candidate(us, os, claims, t, o)
  {
    var d :| ClashOn(us, Placed(t), os[o].stay, d);
    PlacedNights(t, d);
    assert Claim(o, us[t.unit].roomId, d) in claims;
  }

  method AssertNoOutsideCompletedConflicts(us: Units, os: Orders, claims: set<Claim>, items: seq<Item>)
    returns (ok: bool)
    requires Covered(us, os, claims)
    requires forall i :: i in items ==> i.target.unit in us && ValidItem(i)
    ensures ok <==> FreeOutside(us, os, items)
  {
    for n := 0 to |items|
      invariant forall i, o :: i in items[..n] && o in os && os[o].completed && !Corrected(items, o) ==>
                  Clear(us, i.target, os[o].stay)
    {
      var free := ClearOfCandidates(us, os, claims, items, items[n]);
      if !free { return false; }
      assert items[..n + 1] == items[..n] + [items[n]];
    }
    assert items[..|items|] == items;
    return true;
  }

  method ClearOfCandidates(us: Units, os: Orders, claims: set<Claim>, items: seq<Item>, item: Item) returns (ok: bool)
    requires Covered(us, os, claims) && item.target.unit in us && ValidItem(item)
    ensures ok <==> forall o :: o in os && os[o].completed && !Corrected(items, o) ==>
              Clear(us, item.target, os[o].stay)
  {
    var candidates := set o | o in os && Candidate(us, os, claims, item.target, o);
    ghost var all := candidates;
    forall o | o in os && os[o].completed && o !in all ensures Clear(us, item.target, os[o].stay) {
      if !Clear(us, item.target, os[o].stay) { ClashIsCandidate(us, os, claims, item.target, o); }
    }
    while candidates != {}
      invariant candidates <= all
      invariant forall o :: o in all && o !in candidates && !Corrected(items, o) ==> Clear(us, item.target, os[o].stay)
      decreases candidates
    {
      var candidate :| candidate in candidates;
      candidates := candidates - {candidate};
      if !Corrected(items, candidate) {
        assert Housed(us, claims, candidate, os[candidate]);
        var free := ClearOf(us, item.target, os[candidate].stay);
        if !free { return false; }
      }
    }
    return true;
  }

  method ClearOf(us: Units, t: Target, o: Stay) returns (ok: bool)
    requires WellFormed(o) && t.arrival < t.departure && t.unit in us
    requires forall v :: v in o.intervals ==> v.unit in us
    ensures ok <==> Clear(us, t, o)
  {
    OverlapIsClash(us, t, o);
    for k := 0 to |o.intervals|
      invariant forall i :: 0 <= i < k && Overlaps(o.intervals[i], t) ==>
                !UnitConflicts(us[t.unit], us[o.intervals[i].unit])
    {
      var interval := o.intervals[k];
      if interval.arrival >= t.departure || interval.departure <= t.arrival { continue; }
      if UnitConflicts(us[t.unit], us[interval.unit]) { return false; }
    }
    return true;
  }

  // ---- applying a set ----

  function Shape(o: Order, t: Target): Order {
    o.(stay := Placed(t), version := o.version + 1)
  }

  /** The orders after the items took effect: theirs moved by one version, all others as they were. */
  ghost predicate AppliedTo(before: Orders, items: seq<Item>, after: Orders) {
    && after.Keys == before.Keys
    && (forall i :: i in items ==> i.orderId in before && after[i.orderId] == Shape(before[i.orderId], i.target))
    && (forall o :: o in before && !Corrected(items, o) ==> after[o] == before[o])
  }

  ghost predicate Consistent(us: Units, os: Orders, claims: set<Claim>) {
    Covered(us, os, claims) && NoDoubleOccupancy(us, os)
  }

  /** What applying an item asks again of its order and unit. */
  predicate Expected(us: Units, os: Orders, i: Item) {
    && ValidItem(i)
    && i.orderId in os && os[i.orderId].completed && os[i.orderId].version == i.expectedVersion
    && i.target.unit in us && us[i.target.unit].active
  }

  /** An admissible set leaves no two completed stays in conflict, stays outside the set included. */
  lemma CorrectionKeepsNights(us: Units, os: Orders, items: seq<Item>, after: Orders)
    requires NoDoubleOccupancy(us, os) && PairwiseFree(us, items) && FreeOutside(us, os, items)
    requires AppliedTo(os, items, after)
    ensures NoDoubleOccupancy(us, after)
  {
    forall p, q | p in after && q in after && p != q && after[p].completed && after[q].completed
      ensures !Clash(us, after[p].stay, after[q].stay)
    {
      if Corrected(items, p) {
        var i :| i in items && i.orderId == p;
        if Corrected(items, q) { var j :| j in items && j.orderId == q; assert Clear(us, i.target, Placed(j.target)); }
        else { assert Clear(us, i.target, os[q].stay); }
      } else if Corrected(items, q) {
        var j :| j in items && j.orderId == q;
        assert Clear(us, j.target, os[p].stay);
        ClashSymmetric(us, after[p].stay, after[q].stay);
      }
    }
  }

  /** Trading places: when the targets of the set are the present places of its own stays,
      each used once, no conflict check can refuse it. */
  lemma SwapsAllowed(us: Units, os: Orders, items: seq<Item>, from: map<string, string>)
    requires NoDoubleOccupancy(us, os)
    requires forall i :: i in items ==> TakesPlaceOf(os, items, i, from)
    requires forall p, q :: p in from && q in from && p != q ==> from[p] != from[q]
    ensures PairwiseFree(us, items) && FreeOutside(us, os, items)
  {
    forall i, o | i in items && o in os && os[o].completed && !Corrected(items, o)
      ensures Clear(us, i.target, os[o].stay)
    {
      assert TakesPlaceOf(os, items, i, from);
    }
    forall a, b | a in items && b in items && a.orderId != b.orderId ensures Clear(us, a.target, Placed(b.target)) {
      assert TakesPlaceOf(os, items, a, from) && TakesPlaceOf(os, items, b, from);
    }
  }

  /** The item moves its order to where another order of the set, completed, stays now. */
  predicate TakesPlaceOf(os: Orders, items: seq<Item>, i: Item, from: map<string, string>) {
    && i.orderId in from && from[i.orderId] in os && Corrected(items, from[i.orderId])
    && os[from[i.orderId]].completed && os[from[i.orderId]].stay == Placed(i.target)
  }

  /** So such a set is admissible as soon as each of its items is in order on its own. */
  lemma SwapsAreAdmissible(us: Units, os: Orders, held: set<Holding>, today: Day, items: seq<Item>,
                           from: map<string, string>)
    requires NoDoubleOccupancy(us, os)
    requires forall i :: i in items ==> TakesPlaceOf(os, items, i, from)
    requires forall p, q :: p in from && q in from && p != q ==> from[p] != from[q]
    requires 0 < |items| <= 100 && Distinct(items)
    ensures Admissible(us, os, held, today, items) <==>
              forall i :: i in items ==> ValidItem(i) && Loadable(us, os, today, i) && Available(us, held, i)
  {
    SwapsAllowed(us, os, items, from);
  }

  // Two guests of one night, each in a room of their own, who trade rooms.
  const ROOMS: Units := map[
    "a" := InventoryUnit("a", "a", Room, "p", 2, true),
    "b" := InventoryUnit("b", "b", Room, "p", 2, true)]
  const IN_A := Target("a", 0, 1)
  const IN_B := Target("b", 0, 1)
  const GUESTS: Orders := map[
    "1" := Order(true, 1, Placed(IN_A), 1, false),
    "2" := Order(true, 1, Placed(IN_B), 1, false)]
  const TO_B := Item("1", 1, IN_B)
  const TO_A := Item("2", 1, IN_A)

  lemma GuestsAreApart()
    ensures NoDoubleOccupancy(ROOMS, GUESTS)
  {
    forall d ensures !ClashOn(ROOMS, Placed(IN_A), Placed(IN_B), d) && !ClashOn(ROOMS, Placed(IN_B), Placed(IN_A), d) {
      PlacedNights(IN_A, d);
      PlacedNights(IN_B, d);
    }
  }

  lemma RoomIsTaken(i: Item, o: string)
    requires (i == TO_B && o == "2") || (i == TO_A && o == "1")
    ensures !Admissible(ROOMS, GUESTS, {}, 2, [i])
  {
    PlacedNights(IN_A, 0);
    PlacedNights(IN_B, 0);
    assert ClashOn(ROOMS, Placed(i.target), GUESTS[o].stay, 0);
    assert i in [i] && !Corrected([i], o) && !Clear(ROOMS, i.target, GUESTS[o].stay);
  }

  lemma TradeIsInOrder(i: Item)
    requires i == TO_B || i == TO_A
    ensures ValidItem(i) && Loadable(ROOMS, GUESTS, 2, i) && Available(ROOMS, {}, i)
    ensures TakesPlaceOf(GUESTS, [TO_B, TO_A], i, map["1" := "2", "2" := "1"])
  {
    assert [TO_B, TO_A][0] == TO_B && [TO_B, TO_A][1] == TO_A;
  }

  lemma TradeIsAdmissible(items: seq<Item>)
    requires items == [TO_B, TO_A]
    ensures Admissible(ROOMS, GUESTS, {}, 2, items)
  {
    forall i | i in items
      ensures ValidItem(i) && Loadable(ROOMS, GUESTS, 2, i) && Available(ROOMS, {}, i)
      ensures TakesPlaceOf(GUESTS, items, i, map["1" := "2", "2" := "1"])
    {
      TradeIsInOrder(i);
    }
    GuestsAreApart();
    SwapsAllowed(ROOMS, GUESTS, items, map["1" := "2", "2" := "1"]);
  }

  /** Neither item is admissible alone, both together are. */
  lemma TwoTradeRooms()
    ensures Admissible(ROOMS, GUESTS, {}, 2, [TO_B, TO_A])
    ensures !Admissible(ROOMS, GUESTS, {}, 2, [TO_B]) && !Admissible(ROOMS, GUESTS, {}, 2, [TO_A])
  {
    TradeIsAdmissible([TO_B, TO_A]);
    RoomIsTaken(TO_B, "2");
    RoomIsTaken(TO_A, "1");
  }

  /** The same set cannot be applied twice: the versions moved on. */
  lemma NoReplay(us: Units, os: Orders, items: seq<Item>, after: Orders, held: set<Holding>, today: Day)
    requires Admissible(us, os, held, today, items) && AppliedTo(os, items, after)
    ensures !Admissible(us, after, held, today, items)
  {
    assert items[0] in items;
    assert after[items[0].orderId].version == items[0].expectedVersion + 1;
  }

  ghost predicate Ready(us: Units, os: Orders, items: seq<Item>) {
    Distinct(items) && forall k :: 0 <= k < |items| ==> Expected(us, os, items[k])
  }

  lemma LoadedIsReady(us: Units, os: Orders, today: Day, items: seq<Item>)
    requires Distinct(items) && forall i :: i in items ==> ValidItem(i) && Loadable(us, os, today, i)
    ensures Ready(us, os, items)
  {
    forall k | 0 <= k < |items| ensures Expected(us, os, items[k]) {
      assert items[k] in items;
    }
  }

  /** One item taken effect: a completed order at the version that was asked for has moved to the whole of
      the target, to an active unit of the same kind and product that holds its occupants, in the past, and
      nothing else of it has changed. */
  ghost predicate Corrects(us: Units, before: Orders, after: Orders, today: Day, i: Item) {
    && i.orderId in before && i.orderId in after
    && var o, n := before[i.orderId], after[i.orderId];
    && o.completed && n.completed && o.version == i.expectedVersion && n.version == i.expectedVersion + 1
    && n.occupants == o.occupants && !o.entitlementFacts && !n.entitlementFacts
    && n.stay.arrival == i.target.arrival && n.stay.departure == i.target.departure <= today
    && (forall d :: UnitAt(n.stay, d) == if HeldOn(i.target, d) then Some(i.target.unit) else None)
    && |o.stay.intervals| == 1 && n.stay.intervals != o.stay.intervals
    && o.stay.intervals[0].unit in us && i.target.unit in us
    && var from, to := us[o.stay.intervals[0].unit], us[i.target.unit];
    && to.active && to.kind == from.kind && to.pricingProductCode == from.pricingProductCode
    && 1 <= o.occupants <= to.occupancyCapacity
  }

  /** The claim row is of a night of some item's target, in the room of its unit. */
  ghost predicate ClaimedBy(us: Units, items: seq<Item>, c: Claim) {
    exists i :: i in items && i.orderId == c.orderId && i.target.unit in us && us[i.target.unit].roomId == c.roomId
                && HeldOn(i.target, c.serviceDate)
  }

  /** The rows that an applied set has added. */
  ghost predicate RowsOf(us: Units, items: seq<Item>, before: set<Claim>, after: set<Claim>) {
    before <= after && forall c :: c in after - before ==> ClaimedBy(us, items, c)
  }

  lemma MoreRowsOf(us: Units, items: seq<Item>, n: nat, before: set<Claim>, mid: set<Claim>, after: set<Claim>)
    requires n < |items| && RowsOf(us, items[..n], before, mid) && mid <= after
    requires forall c :: c in after - mid ==> ClaimedBy(us, [items[n]], c)
    ensures RowsOf(us, items[..n + 1], before, after)
  {
    assert items[..n + 1] == items[..n] + [items[n]];
    forall c | c in after - before ensures ClaimedBy(us, items[..n + 1], c) {
      if c in mid - before {
        var i :| i in items[..n] && i.orderId == c.orderId && i.target.unit in us
                 && us[i.target.unit].roomId == c.roomId && HeldOn(i.target, c.serviceDate);
        assert i in items[..n + 1];
      } else {
        assert c in after - mid && items[n] in items[..n + 1];
      }
    }
  }

  /** A valid item is in order exactly when taking effect alone would correct its order in this way. */
  lemma InOrderExactlyWhenItCorrects(us: Units, os: Orders, today: Day, i: Item)
    requires ValidItem(i)
    ensures Loadable(us, os, today, i) <==>
            && i.orderId in os
            && var o := os[i.orderId];
            Corrects(us, os, os[i.orderId := o.(stay := Placed(i.target), version := i.expectedVersion + 1)], today, i)
  {
    forall d ensures UnitAt(Placed(i.target), d) == if HeldOn(i.target, d) then Some(i.target.unit) else None {
      PlacedNights(i.target, d);
    }
    if i.orderId in os && |os[i.orderId].stay.intervals| == 1 {
      assert os[i.orderId].stay.intervals == [os[i.orderId].stay.intervals[0]];
    }
  }

  lemma LoadedIsCorrected(us: Units, before: Orders, after: Orders, items: seq<Item>, today: Day, i: Item)
    requires i in items && Loadable(us, before, today, i) && AppliedTo(before, items, after)
    ensures Corrects(us, before, after, today, i)
  {
    forall d ensures UnitAt(Placed(i.target), d) == if HeldOn(i.target, d) then Some(i.target.unit) else None {
      PlacedNights(i.target, d);
    }
  }

  // ---- the database ----

  class Register {
    const units: Units
    var orders: Orders
    var claims: set<Claim>
    var holdings: set<Holding>

    ghost predicate Valid()
      reads this
    {
      Consistent(units, orders, claims)
    }

    constructor (units: Units, orders: Orders, claims: set<Claim>, holdings: set<Holding>)
      requires Consistent(units, orders, claims)
      ensures Valid()
      ensures this.units == units && this.orders == orders && this.claims == claims && this.holdings == holdings
    {
      this.units, this.orders, this.claims, this.holdings := units, orders, claims, holdings;
    }

    /** Confirms a correction set in one transaction: all checks, then every item, or nothing. */
    method Confirm(raw: seq<Item>, today: Day) returns (ok: bool)
      requires Valid()
      modifies this
      ensures Valid()
      ensures ok == Admissible(units, old(orders), holdings, today, raw)
      ensures ok ==> AppliedTo(old(orders), raw, orders)
      ensures RoomsAreHeldOnce(units, orders)
      ensures ok ==> forall i :: i in raw ==> Corrects(units, old(orders), orders, today, i)
      ensures !ok ==> orders == old(orders) && claims == old(claims)
      ensures holdings == old(holdings) && RowsOf(units, raw, old(claims), claims)
    {
      NoDoubleOccupancyMeans(units, orders);
      var items := Normalize(raw);
      if items.None? { return false; }
      SameItems(raw, items.value);
      AdmissibleAlike(units, orders, holdings, today, raw, items.value);
      ghost var before := orders;
      ok := Execute(items.value, today);
      NoDoubleOccupancyMeans(units, orders);
      if ok {
        AppliedAlike(before, raw, items.value, orders);
        forall i | i in raw ensures Corrects(units, before, orders, today, i) {
          LoadedIsCorrected(units, before, orders, raw, today, i);
        }
      }
    }

    method Execute(items: seq<Item>, today: Day) returns (ok: bool)
      requires Valid() && 0 < |items| <= 100 && Distinct(items) && forall i :: i in items ==> ValidItem(i)
      modifies this
      ensures Valid()
      ensures ok == Admissible(units, old(orders), holdings, today, items)
      ensures ok ==> AppliedTo(old(orders), items, orders)
      ensures !ok ==> orders == old(orders) && claims == old(claims)
      ensures holdings == old(holdings) && RowsOf(units, items, old(claims), claims)
    {
      ok := Check(items, today);
      if ok {
        var savedOrders, savedClaims := orders, claims;
        LoadedIsReady(units, orders, today, items);
        ok := Apply(items);
        if ok { CorrectionKeepsNights(units, savedOrders, items, orders); }
        else { orders, claims := savedOrders, savedClaims; }
      }
    }

    method Check(items: seq<Item>, today: Day) returns (ok: bool)
      requires Valid() && Distinct(items) && forall i :: i in items ==> ValidItem(i)
      ensures ok ==> (forall i :: i in items ==> Loadable(units, orders, today, i))
                     && PairwiseFree(units, items) && FreeOutside(units, orders, items)
      ensures !ok ==> !((forall i :: i in items ==> Loadable(units, orders, today, i) && Available(units, holdings, i))
                        && PairwiseFree(units, items) && FreeOutside(units, orders, items))
    {
      for n := 0 to |items|
        invariant forall k :: 0 <= k < n ==> Loadable(units, orders, today, items[k])
      {
        ok := Load(items[n], today);
        if !ok { return false; }
      }
      var inside := AssertFinalSetHasNoInternalConflicts(units, items);
      if !inside { return false; }
      if exists i, h :: i in items && h in holdings && !Corrected(items, h.orderId) && Blocks(units, h, i.target) {
        var i, h :| i in items && h in holdings && !Corrected(items, h.orderId) && Blocks(units, h, i.target);
        assert !Available(units, holdings, i);
        return false;
      }
      ok := AssertNoOutsideCompletedConflicts(units, orders, claims, items);
    }

    /** Reads one item's order and units, and refuses it when they do not suit. */
    method Load(item: Item, today: Day) returns (ok: bool)
      ensures ok <==> Loadable(units, orders, today, item)
    {
      if item.target.departure > today { return false; }
      if item.orderId !in orders { return false; }
      var order := orders[item.orderId];
      if !order.completed { return false; }
      if order.version != item.expectedVersion { return false; }
      if item.target.unit !in units || !units[item.target.unit].active { return false; }
      var targetUnit := units[item.target.unit];
      if |order.stay.intervals| != 1 { return false; }
      var beforeInterval := order.stay.intervals[0];
      if beforeInterval.unit !in units { return false; }
      var beforeUnit := units[beforeInterval.unit];
      if targetUnit.kind != beforeUnit.kind || targetUnit.pricingProductCode != beforeUnit.pricingProductCode {
        return false;
      }
      if order.occupants < 1 || order.occupants > targetUnit.occupancyCapacity { return false; }
      if order.entitlementFacts { return false; }
      return beforeInterval.unit != item.target.unit || beforeInterval.arrival != item.target.arrival
             || beforeInterval.departure != item.target.departure;
    }

    /** Every item in order; the caller rolls back when one is refused. */
    method Apply(items: seq<Item>) returns (ok: bool)
      requires Covered(units, orders, claims) && Ready(units, orders, items)
      modifies this`orders, this`claims
      ensures ok <==> forall k :: 0 <= k < |items| ==> Available(units, holdings, items[k])
      ensures ok ==> AppliedTo(old(orders), items, orders) && Covered(units, orders, claims)
      ensures RowsOf(units, items, old(claims), claims)
    {
      var n := 0;
      ok := true;
      while ok && n < |items|
        invariant 0 <= n <= |items|
        invariant ok ==> AppliedTo(old(orders), items[..n], orders) && Covered(units, orders, claims)
        invariant RowsOf(units, items[..n], old(claims), claims)
        invariant ok ==> forall k :: 0 <= k < n ==> Available(units, holdings, items[k])
        invariant !ok ==> exists k :: 0 <= k < n && !Available(units, holdings, items[k])
      {
        ghost var rows := claims;
        ok := ApplyNext(items, n, old(orders));
        MoreRowsOf(units, items, n, old(claims), rows, claims);
        n := n + 1;
      }
      assert items[..|items|] == items;
    }

    method ApplyNext(items: seq<Item>, n: nat, ghost before: Orders) returns (ok: bool)
      requires Covered(units, orders, claims) && Ready(units, before, items)
      requires n < |items| && AppliedTo(before, items[..n], orders)
      modifies this`orders, this`claims
      ensures ok <==> Available(units, holdings, items[n])
      ensures ok ==> AppliedTo(before, items[..n + 1], orders)
      ensures Covered(units, orders, claims) && RowsOf(units, [items[n]], old(claims), claims)
    {
      Untouched(before, items, n, orders);
      ghost var mid := orders;
      ok := ApplyItem(items[n]);
      if ok { OneMore(before, items, n, mid); }
    }

    method ApplyItem(item: Item) returns (ok: bool)
      requires Covered(units, orders, claims)
      requires item.orderId in orders && ValidItem(item)
      modifies this`orders, this`claims
      ensures Covered(units, orders, claims) && RowsOf(units, [item], old(claims), claims)
      ensures ok <==> Expected(units, old(orders), item) && Available(units, holdings, item)
      ensures orders ==
                if ok then old(orders)[item.orderId := Shape(old(orders)[item.orderId], item.target)] else old(orders)
    {
      var order := orders[item.orderId];
      if !order.completed || order.version != item.expectedVersion { return false; }
      if item.target.unit !in units || !units[item.target.unit].active { return false; }
      var unit := units[item.target.unit];
      if exists h :: h in holdings && h.orderId != item.orderId && Blocks(units, h, item.target) { return false; }
      var added := set d | item.target.arrival <= d < item.target.departure :: Claim(item.orderId, unit.roomId, d);
      var rows := claims + added;
      PlacedIsHoused(units, rows, item, order);
      MoreRows(units, orders, claims, rows);
      assert item in [item];
      claims := rows;
      orders := orders[item.orderId := order.(stay := Placed(item.target), version := order.version + 1)];
      return true;
    }
  }

  lemma PlacedIsHoused(us: Units, rows: set<Claim>, i: Item, o: Order)
    requires ValidItem(i) && i.target.unit in us
    requires forall d :: i.target.arrival <= d < i.target.departure ==>
              Claim(i.orderId, us[i.target.unit].roomId, d) in rows
    ensures Housed(us, rows, i.orderId, Shape(o, i.target))
  {
    forall d
      ensures UnitAt(Placed(i.target), d) ==
                if i.target.arrival <= d < i.target.departure then Some(i.target.unit) else None
    {
      PlacedNights(i.target, d);
    }
  }

  lemma MoreRows(us: Units, os: Orders, claims: set<Claim>, rows: set<Claim>)
    requires Covered(us, os, claims) && claims <= rows
    ensures Covered(us, os, rows)
  {
    forall o | o in os ensures Housed(us, rows, o, os[o]) {
      assert Housed(us, claims, o, os[o]);
    }
  }

  lemma Untouched(before: Orders, items: seq<Item>, n: nat, mid: Orders)
    requires n < |items| && Distinct(items) && AppliedTo(before, items[..n], mid) && items[n].orderId in before
    ensures items[n].orderId in mid && mid[items[n].orderId] == before[items[n].orderId]
  {
    assert !Corrected(items[..n], items[n].orderId);
  }

  lemma OneMore(before: Orders, items: seq<Item>, n: nat, mid: Orders)
    requires n < |items| && Distinct(items) && AppliedTo(before, items[..n], mid) && items[n].orderId in before
    ensures AppliedTo(before, items[..n + 1], mid[items[n].orderId := Shape(before[items[n].orderId], items[n].target)])
  {
    forall i | i in items[..n + 1] ensures (i in items[..n] && i.orderId != items[n].orderId) || i == items[n] {
      var k :| 0 <= k < n + 1 && items[k] == i;
      if k < n { assert items[..n][k] == i; }
    }
    forall o | !Corrected(items[..n + 1], o) ensures !Corrected(items[..n], o) && o != items[n].orderId {
      assert items[n] in items[..n + 1];
      assert forall i :: i in items[..n] ==> i in items[..n + 1];
    }
  }

  lemma SameItems(xs: seq<Item>, ys: seq<Item>)
    requires multiset(xs) == multiset(ys) && Sorted(ys)
    ensures |xs| == |ys| && Distinct(ys) && Alike(xs, ys)
  {
    assert |multiset(xs)| == |xs| && |multiset(ys)| == |ys|;
    forall i ensures i in xs <==> i in ys {
      assert i in xs <==> i in multiset(xs);
      assert i in ys <==> i in multiset(ys);
    }
    forall i, j | 0 <= i < j < |ys| ensures ys[i].orderId != ys[j].orderId {
      TextOrder.Irreflexive(ys[i].orderId);
    }
  }

  ghost predicate Alike(xs: seq<Item>, ys: seq<Item>) {
    forall i :: i in xs <==> i in ys
  }

  /** Whether a set is admissible does not depend on the order in which its items are listed. */
  lemma AdmissibleAlike(us: Units, os: Orders, held: set<Holding>, today: Day, xs: seq<Item>, ys: seq<Item>)
    requires |xs| == |ys| && Distinct(xs) && Distinct(ys) && Alike(xs, ys)
    ensures Admissible(us, os, held, today, xs) == Admissible(us, os, held, today, ys)
  {
    CorrectedAlike(xs, ys);
    assert PairwiseFree(us, xs) == PairwiseFree(us, ys);
    assert FreeOutside(us, os, xs) == FreeOutside(us, os, ys);
  }

  lemma CorrectedAlike(xs: seq<Item>, ys: seq<Item>)
    requires Alike(xs, ys)
    ensures forall o :: Corrected(xs, o) == Corrected(ys, o)
  {
  }

  lemma AppliedAlike(before: Orders, xs: seq<Item>, ys: seq<Item>, after: Orders)
    requires Alike(xs, ys) && AppliedTo(before, ys, after)
    ensures AppliedTo(before, xs, after)
  {
    CorrectedAlike(xs, ys);
  }
}
