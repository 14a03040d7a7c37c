/** The retention run itself: loops over a listing of the store, deleting as it goes. */
module RetentionRun {
  import opened Releases
  import opened Retention

  datatype Deletion = Done | Failed | Killed

  /** What the store does at one delete request. A failed request may still have been carried out. */
  datatype DeleteChance = DeleteChance(kill: bool, fail: bool, took: bool)

  datatype Report = Report(kept: set<string>, deleted: set<string>, candidates: set<string>, failed: set<string>)

  class ReleaseStore {
    var groups: Groups
    const chance: nat -> DeleteChance
    var tick: nat

    constructor (groups: Groups, chance: nat -> DeleteChance)
      ensures this.groups == groups
    {
      this.groups, this.chance, tick := groups, chance, 0;
    }

    /** No delete request is ever refused or cut off. */
    ghost predicate Smooth() {
      forall n: nat :: !chance(n).kill && !chance(n).fail
    }

    method Delete(p: string, n: Name) returns (s: Deletion)
      modifies this
      ensures var c := chance(old(tick));
              && tick == old(tick) + 1
              && (s == if c.kill then Killed else if c.fail then Failed else Done)
              && groups == if p in old(groups) && (c.took || s == Done) then old(groups)[p := old(groups)[p] - {n}]
                           else old(groups)
      ensures s == Done ==> n !in At(groups, p)
      ensures Smooth() ==> s == Done
    {
      var c := chance(tick);
      tick := tick + 1;
      if p in groups && (c.took || !(c.kill || c.fail)) {
        groups := groups[p := groups[p] - {n}];
      }
      s := if c.kill then Killed else if c.fail then Failed else Done;
    }

    /** Payload objects first, and the marker only when every payload deletion has succeeded. */
    method DeleteKeys(p: string, names: set<Name>) returns (s: Deletion)
      requires names == At(groups, p).Keys
      modifies this
      ensures forall q :: q != p ==> At(groups, q) == old(At(groups, q))
      ensures groups.Keys == old(groups.Keys)
      ensures Remnant(old(At(groups, p)), At(groups, p))
      ensures s == Done ==> At(groups, p) == map[]
      ensures Smooth() ==> s == Done
    {
      var failures: set<Name> := {};
      ghost var before := At(groups, p);
      for i := 0 to |DELETION_ORDER|
        invariant forall q :: q != p ==> At(groups, q) == old(At(groups, q))
        invariant groups.Keys == old(groups.Keys)
        invariant At(groups, p).Keys <= before.Keys
        invariant forall n :: n in At(groups, p) ==> At(groups, p)[n] == before[n]
        invariant Marker in before ==> Marker in At(groups, p)
        invariant Smooth() ==> failures == {}
        invariant forall j :: 0 <= j < i && DELETION_ORDER[j] in At(groups, p) ==> DELETION_ORDER[j] in failures
      {
        var name := DELETION_ORDER[i];
        if name in names {
          var r := Delete(p, name);
          if r == Killed { return Killed; }
          if r == Failed { failures := failures + {name}; }
        }
      }
      if failures == {} {
        forall n | n in At(groups, p) ensures n == Marker {
          NamedInOrder(n);
        }
      }
      if failures == {} && Marker in names {
        var r := Delete(p, Marker);
        if r == Killed { return Killed; }
        if r == Failed { failures := failures + {Marker}; }
      }
      s := if failures == {} then Done else Failed;
    }

    /** Deletes one listed bundle that is among those to go. */
    method Discard(p: string, listing: Groups, ghost touched: set<string>) returns (r: Deletion)
      requires p in touched && At(groups, p) == At(listing, p) && Progress(listing, groups, touched)
      modifies this
      ensures Progress(listing, groups, touched)
      ensures forall q :: q != p ==> At(groups, q) == old(At(groups, q))
      ensures r == Done ==> At(groups, p) == map[]
      ensures Smooth() ==> r == Done
    {
      r := DeleteKeys(p, At(listing, p).Keys);
    }

    /** What the survey has done so far: bundles still to come are untouched, expired ones are gone
        unless their deletion failed. */
    ghost predicate Underway(listing: Groups, rest: set<string>, touched: set<string>, expired: set<string>,
                             failed: set<string>, dryRun: bool)
      reads this
    {
      && Progress(listing, groups, touched)
      && (forall p :: p in rest ==> At(groups, p) == At(listing, p))
      && (dryRun ==> groups == listing)
      && failed <= expired && (Smooth() ==> failed == {})
      && (!dryRun ==> forall p :: p in expired - failed ==> At(groups, p) == map[])
    }

    method Expire(p: string, listing: Groups, ghost rest: set<string>, ghost touched: set<string>,
                  ghost expired: set<string>, failed: set<string>, dryRun: bool)
      returns (r: Deletion, now: set<string>)
      requires p in touched && p in rest && p !in expired && Underway(listing, rest, touched, expired, failed, dryRun)
      modifies this
      ensures r == Killed ==> !dryRun && !Smooth() && Progress(listing, groups, touched)
      ensures r != Killed ==> Underway(listing, rest - {p}, touched, expired + {p}, now, dryRun)
    {
      r, now := Done, failed;
      if !dryRun {
        r := Discard(p, listing, touched);
        if r == Failed { now := failed + {p}; }
      }
    }

    /** Judges every listed bundle, deleting expired candidates on the way. */
    method Survey(listing: Groups, s: Setting, dryRun: bool)
      returns (st: Deletion, successful: set<Entry>, partial: set<string>, expired: set<string>, failed: set<string>)
      requires groups == listing
      modifies this
      ensures st == Done || st == Killed
      ensures dryRun ==> groups == listing && st == Done
      ensures Progress(listing, groups, Expired(listing, s))
      ensures st == Done ==>
                successful == Successes(listing, s) && partial == Partial(listing, s) && expired == Expired(listing, s)
      ensures st == Done && !dryRun ==> failed <= expired && forall p :: p in expired - failed ==>
                At(groups, p) == map[]
      ensures Smooth() ==> st == Done && failed == {}
    {
      successful, partial, expired, failed := {}, {}, {}, {};
      var rest := listing.Keys;
      while rest != {}
        invariant rest <= listing.Keys && expired !! rest
        invariant Underway(listing, rest, Expired(listing, s), expired, failed, dryRun)
        invariant Surveyed(Seen(listing, rest), s, successful, partial, expired)
      {
        var p :| p in rest;
        var files := listing[p];
        SurveyGrows(listing, rest, p, s, successful, partial, expired);
        match Judge(p, files, s) {
          case ExpiredCandidate =>
            var r;
            r, failed := Expire(p, listing, rest, Expired(listing, s), expired, failed, dryRun);
            if r == Killed { return Killed, successful, partial, expired, failed; }
            expired := expired + {p};
          case Success => successful := successful + {Entry(DeployedAt(files), p)};
          case PartialSuccess => partial := partial + {p};
          case _ =>
        }
        rest := rest - {p};
      }
      assert Seen(listing, {}) == listing;
      st := Done;
    }

    /** Deletes the bundles in `todo`, whose listing must still stand. */
    method DiscardAll(todo: set<string>, listing: Groups, ghost touched: set<string>)
      returns (st: Deletion, failed: set<string>)
      requires Progress(listing, groups, touched)
      requires forall p :: p in todo ==> p in touched && At(groups, p) == At(listing, p)
      modifies this
      ensures st == Done || st == Killed
      ensures Progress(listing, groups, touched)
      ensures forall p :: p !in todo ==> At(groups, p) == old(At(groups, p))
      ensures st == Done ==> failed <= todo && forall p :: p in todo - failed ==> At(groups, p) == map[]
      ensures Smooth() ==> st == Done && failed == {}
    {
      failed := {};
      var rest := todo;
      while rest != {}
        invariant rest <= todo && failed <= todo - rest && (Smooth() ==> failed == {})
        invariant Progress(listing, groups, touched)
        invariant forall p :: p in rest ==> At(groups, p) == At(listing, p)
        invariant forall p :: p !in todo ==> At(groups, p) == old(At(groups, p))
        invariant forall p :: p in todo - rest - failed ==> At(groups, p) == map[]
      {
        var p :| p in rest;
        rest := rest - {p};
        var r := Discard(p, listing, touched);
        if r == Killed { return Killed, failed; }
        if r == Failed { failed := failed + {p}; }
      }
      st := Done;
    }

    /** One run over the store. However it ends, only doomed bundles have changed and each of them
        is a remnant; when it ends by itself it has tried every one of them. */
    method RetentionPlan(s: Setting, dryRun: bool) returns (st: Deletion, report: Report)
      modifies this
      ensures st == Done || st == Killed
      ensures Outcome(old(groups), groups, s)
      ensures dryRun ==> st == Done && groups == old(groups)
      ensures st == Done ==> report.candidates == Expired(old(groups), s) + Retrying(old(groups), s)
      ensures st == Done ==> report.kept == Shielded(old(groups), s) + Prefixes(Retained(old(groups), s))
      ensures st == Done && dryRun ==>
                report.deleted == Prefixes(Planned(old(groups), s)) + Retrying(old(groups), s)
      ensures st == Done && !dryRun ==>
                && report.deleted !! report.failed
                && (forall p :: p in report.deleted + report.failed <==> Doomed(old(groups), s, p))
                && (forall p :: p in report.deleted ==> At(groups, p) == map[])
      ensures Smooth() ==> st == Done && report.failed == {}
      ensures forall p :: Marker !in old(At(groups, p)) && SomethingNew(old(At(groups, p)), s.cutoff) ==>
                At(groups, p) == old(At(groups, p))
      ensures Smooth() && !dryRun ==> forall p :: Forsaken(p, old(At(groups, p)), s) ==> At(groups, p) == map[]
    {
      forall p
        ensures Marker !in At(groups, p) ==> (Doomed(groups, s, p) <==> Forsaken(p, At(groups, p), s))
        ensures SomethingNew(At(groups, p), s.cutoff) ==> !Forsaken(p, At(groups, p), s)
      {
        DoomedMeans(groups, s, p);
        ExpiredMeans(p, At(groups, p), s);
      }
      var listing := groups;
      report := Report({}, {}, {}, {});
      OutcomeOf(listing, listing, s, {});
      ghost var touched := Expired(listing, s) + Prefixes(Planned(listing, s)) + Retrying(listing, s);
      DoomedAre(listing, s);
      var successful, partial, expired, failed;
      st, successful, partial, expired, failed := Survey(listing, s, dryRun);
      ProgressWidens(listing, groups, Expired(listing, s), touched);
      OutcomeOf(listing, groups, s, touched);
      if st == Killed { return; }
      var doomed, retry, kept := Decide(listing, successful, partial, s);
      report := Report(kept, doomed + retry, expired + retry, {});
      if dryRun { return; }
      var failedNow;
      st, failedNow := DiscardAll(doomed, listing, touched);
      OutcomeOf(listing, groups, s, touched);
      if st == Killed { return; }
      failed := failed + failedNow;
      st, failedNow := DiscardAll(retry, listing, touched);
      OutcomeOf(listing, groups, s, touched);
      failed := failed + failedNow;
      report := report.(deleted := expired + doomed + retry - failed, failed := failed);
    }
  }

  /** What to delete and what to keep, from the judged listing. */
  method Decide(listing: Groups, successful: set<Entry>, partial: set<string>, s: Setting)
    returns (doomed: set<string>, retry: set<string>, kept: set<string>)
    requires successful == Successes(listing, s) && partial == Partial(listing, s)
    ensures doomed == Prefixes(Planned(listing, s))
    ensures retry == Retrying(listing, s)
    ensures kept == Shielded(listing, s) + Prefixes(Retained(listing, s))
  {
    var planned, oldest := PlanSuccesses(listing, successful, s);
    RetryByOldest(listing, s, oldest);
    retry := set p | p in partial && RetryTest(listing, s, oldest, p);
    doomed := Prefixes(planned);
    kept := Shielded(listing, s) + Prefixes(successful - planned);
  }

  predicate RetryTest(gs: Groups, s: Setting, oldest: Option<Timestamp>, p: string)
    requires p in gs
  {
    && p !in s.protected
    && ((oldest.Some? && DeployedAt(gs[p]) < oldest.value) || DeployedAt(gs[p]) <= s.cutoff)
  }

  ghost predicate IsOldest(oldest: Option<Timestamp>, es: set<Entry>) {
    match oldest
    case None => es == {}
    case Some(t) => (exists e :: e in es && e.deployedAt == t) && forall e :: e in es ==> t <= e.deployedAt
  }

  method PlanSuccesses(ghost listing: Groups, successful: set<Entry>, s: Setting)
    returns (planned: set<Entry>, oldest: Option<Timestamp>)
    requires successful == Successes(listing, s)
    ensures planned == Planned(listing, s) && IsOldest(oldest, Retained(listing, s))
  {
    var es := Sort(successful);
    var limit := if s.keep < 0 then 0 else s.keep;
    planned := PlanDeletions(es, s.protected, if |es| > limit then |es| - limit else 0);
    assert es[..|es|] == es && EarlierUnprotected(es, s.protected, |es|) == Unprotected(listing, s);
    oldest := OldestKept(es, planned);
    assert forall e :: e in es && e !in planned <==> e in Retained(listing, s);
  }

  lemma RetryByOldest(gs: Groups, s: Setting, oldest: Option<Timestamp>)
    requires IsOldest(oldest, Retained(gs, s))
    ensures (set p | p in Partial(gs, s) && RetryTest(gs, s, oldest, p)) == Retrying(gs, s)
  {
  }

  ghost function Retrying(gs: Groups, s: Setting): set<string> {
    set p | p in gs && RetryDue(gs, s, p)
  }

  function Prefixes(es: set<Entry>): set<string> {
    set e | e in es :: e.prefix
  }

  function Shielded(gs: Groups, s: Setting): set<string> {
    (set p | p in gs && gs[p] != map[] && p in s.protected) + s.protected * s.extras
  }

  /** Reported as kept: protected prefixes with objects, known or not, and the retained successes. */
  lemma KeptAre(gs: Groups, s: Setting, p: string)
    ensures p in Shielded(gs, s) + Prefixes(Retained(gs, s)) <==>
            || (p in s.protected && (p in s.extras || At(gs, p) != map[]))
            || Entry(DeployedAt(At(gs, p)), p) in Retained(gs, s)
  {
    forall e | e in Retained(gs, s) ensures e.prefix in gs && e == Entry(DeployedAt(gs[e.prefix]), e.prefix) {}
  }

  lemma DoomedAre(gs: Groups, s: Setting)
    ensures forall p :: p in Expired(gs, s) + Prefixes(Planned(gs, s)) + Retrying(gs, s) <==> Doomed(gs, s, p)
    ensures Expired(gs, s) !! Prefixes(Planned(gs, s)) !! Retrying(gs, s)
  {
    forall e | e in Planned(gs, s)
      ensures e.prefix in gs && Judge(e.prefix, gs[e.prefix], s) == Success
              && e == Entry(DeployedAt(gs[e.prefix]), e.prefix)
    {
      PlannedJudged(gs, s, e);
    }
  }

  lemma OutcomeOf(before: Groups, now: Groups, s: Setting, touched: set<string>)
    requires Progress(before, now, touched)
    requires forall p :: p in touched ==> Doomed(before, s, p)
    ensures Outcome(before, now, s)
  {
  }

  lemma ProgressWidens(before: Groups, now: Groups, touched: set<string>, wider: set<string>)
    requires Progress(before, now, touched) && touched <= wider
    ensures Progress(before, now, wider)
  {
  }

  method OldestKept(es: seq<Entry>, planned: set<Entry>) returns (oldest: Option<Timestamp>)
    ensures oldest.None? <==> forall e :: e in es ==> e in planned
    ensures oldest.Some? ==> exists e :: e in es && e !in planned && e.deployedAt == oldest.value
    ensures oldest.Some? ==> forall e :: e in es && e !in planned ==> oldest.value <= e.deployedAt
  {
    oldest := None;
    for i := 0 to |es|
      invariant oldest.None? <==> forall e :: e in es[..i] ==> e in planned
      invariant oldest.Some? ==> exists e :: e in es[..i] && e !in planned && e.deployedAt == oldest.value
      invariant oldest.Some? ==> forall e :: e in es[..i] && e !in planned ==> oldest.value <= e.deployedAt
    {
      assert es[..i + 1] == es[..i] + [es[i]];
      if es[i] !in planned && (oldest.None? || es[i].deployedAt < oldest.value) {
        oldest := Some(es[i].deployedAt);
      }
    }
    assert es[..|es|] == es;
  }

  function Expired(gs: Groups, s: Setting): set<string> {
    set p | p in gs && Judge(p, gs[p], s) == ExpiredCandidate
  }

  function Partial(gs: Groups, s: Setting): set<string> {
    set p | p in gs && Judge(p, gs[p], s) == PartialSuccess
  }

  function Seen(gs: Groups, rest: set<string>): Groups {
    map p | p in gs && p !in rest :: gs[p]
  }

  predicate Surveyed(gs: Groups, s: Setting, successful: set<Entry>, partial: set<string>, expired: set<string>) {
    successful == Successes(gs, s) && partial == Partial(gs, s) && expired == Expired(gs, s)
  }

  lemma SurveyGrows(gs: Groups, rest: set<string>, p: string, s: Setting,
                    successful: set<Entry>, partial: set<string>, expired: set<string>)
    requires p in rest && rest <= gs.Keys && Surveyed(Seen(gs, rest), s, successful, partial, expired)
    ensures var next := Seen(gs, rest - {p});
            match Judge(p, gs[p], s)
            case Success => Surveyed(next, s, successful + {Entry(DeployedAt(gs[p]), p)}, partial, expired)
            case PartialSuccess => Surveyed(next, s, successful, partial + {p}, expired)
            case ExpiredCandidate => Surveyed(next, s, successful, partial, expired + {p})
            case _ => Surveyed(next, s, successful, partial, expired)
  {
    SeenGrows(gs, rest, p, s);
  }

  lemma SeenGrows(gs: Groups, rest: set<string>, p: string, s: Setting)
    requires p in rest && rest <= gs.Keys
    ensures Seen(gs, rest - {p}) == Seen(gs, rest)[p := gs[p]]
    ensures Successes(Seen(gs, rest - {p}), s) == Successes(Seen(gs, rest), s)
              + if Judge(p, gs[p], s) == Success then {Entry(DeployedAt(gs[p]), p)} else {}
    ensures Partial(Seen(gs, rest - {p}), s) == Partial(Seen(gs, rest), s)
              + if Judge(p, gs[p], s) == PartialSuccess then {p} else {}
    ensures Expired(Seen(gs, rest - {p}), s) == Expired(Seen(gs, rest), s)
              + if Judge(p, gs[p], s) == ExpiredCandidate then {p} else {}
  {
    var a, b := Seen(gs, rest), Seen(gs, rest - {p});
    forall q | q in a && Judge(q, a[q], s) == Success ensures Entry(DeployedAt(a[q]), q) in Successes(b, s) {
      SuccessCounts(b, s, q);
    }
    if Judge(p, gs[p], s) == Success { SuccessCounts(b, s, p); }
    assert forall q :: q in b && q != p ==> q in a && a[q] == b[q];
  }

  /** Only the bundles in `touched` have been worked on. */
  ghost predicate Progress(before: Groups, now: Groups, touched: set<string>) {
    forall p :: if p in touched then Remnant(At(before, p), At(now, p)) else At(now, p) == At(before, p)
  }

  lemma NamedInOrder(n: Name)
    ensures n == Marker || n in DELETION_ORDER
  {
    assert DELETION_ORDER[0] == Archive && DELETION_ORDER[1] == Sbom && DELETION_ORDER[2] == Sums
            && DELETION_ORDER[3] == ManifestFile;
    match n { case Archive => case Sbom => case Sums => case ManifestFile => case Marker => }
  }

  ghost predicate Ascending(es: seq<Entry>) {
    forall i, j :: 0 <= i < j < |es| ==> Before(es[i], es[j])
  }

  function Elements(es: seq<Entry>): set<Entry> {
    set e | e in es
  }

  /** Ascending by deployment time, then by prefix. */
  method Sort(entries: set<Entry>) returns (es: seq<Entry>)
    ensures Ascending(es) && Elements(es) == entries && |es| == |entries|
  {
    es := [];
    var rest := entries;
    while rest != {}
      invariant rest <= entries && Elements(es) == entries - rest && |es| == |entries| - |rest|
      invariant Ascending(es)
    {
      var e :| e in rest;
      var i := 0;
      while i < |es| && Before(es[i], e)
        invariant 0 <= i <= |es|
        invariant forall k :: 0 <= k < i ==> Before(es[k], e)
      {
        i := i + 1;
      }
      InsertKeepsOrder(es, e, i);
      es := es[..i] + [e] + es[i..];
      rest := rest - {e};
    }
  }

  lemma InsertKeepsOrder(es: seq<Entry>, e: Entry, i: nat)
    requires Ascending(es) && e !in es && i <= |es|
    requires forall k :: 0 <= k < i ==> Before(es[k], e)
    requires i < |es| ==> !Before(es[i], e)
    ensures Ascending(es[..i] + [e] + es[i..])
    ensures Elements(es[..i] + [e] + es[i..]) == Elements(es) + {e}
  {
    forall k | i <= k < |es| ensures Before(e, es[k]) {
      BeforeIsStrictOrder(e, es[i], es[k]);
      BeforeIsStrictOrder(es[i], e, e);
    }
    assert es == es[..i] + es[i..];
  }

  /** The oldest `excess` unprotected entries of an ascending list. */
  method PlanDeletions(successful: seq<Entry>, protected: set<string>, excess: nat) returns (planned: set<Entry>)
    requires Ascending(successful)
    ensures planned == FirstOf(EarlierUnprotected(successful, protected, |successful|), excess)
  {
    var left := excess;
    planned := {};
    for i := 0 to |successful|
      invariant planned == PlannedAmong(successful, protected, excess, i)
      invariant left == if |EarlierUnprotected(successful, protected, i)| < excess
                        then excess - |EarlierUnprotected(successful, protected, i)| else 0
    {
      var e := successful[i];
      EarlierGrows(successful, protected, i);
      PlannedGrows(successful, protected, excess, i);
      if e.prefix !in protected && left > 0 {
        planned := planned + {e};
        left := left - 1;
      }
    }
    assert successful[..|successful|] == successful;
  }

  ghost function PlannedAmong(es: seq<Entry>, protected: set<string>, excess: nat, i: nat): set<Entry>
    requires i <= |es|
  {
    set e | e in FirstOf(EarlierUnprotected(es, protected, |es|), excess) && e in es[..i]
  }

  lemma PlannedGrows(es: seq<Entry>, protected: set<string>, excess: nat, i: nat)
    requires Ascending(es) && i < |es|
    ensures PlannedAmong(es, protected, excess, i + 1)
            == PlannedAmong(es, protected, excess, i)
               + if es[i].prefix !in protected && |EarlierUnprotected(es, protected, i)| < excess then {es[i]} else {}
  {
    EarlierIsPreceding(es, protected, i);
    assert es[..i + 1] == es[..i] + [es[i]];
    assert es[..|es|] == es;
  }

  ghost function EarlierUnprotected(es: seq<Entry>, protected: set<string>, i: nat): set<Entry>
    requires i <= |es|
  {
    set e | e in es[..i] && e.prefix !in protected
  }

  lemma EarlierGrows(es: seq<Entry>, protected: set<string>, i: nat)
    requires Ascending(es) && i < |es|
    ensures es[i] !in es[..i]
    ensures EarlierUnprotected(es, protected, i + 1)
            == EarlierUnprotected(es, protected, i) + if es[i].prefix in protected then {} else {es[i]}
    ensures es[i].prefix !in protected ==>
              |EarlierUnprotected(es, protected, i + 1)| == |EarlierUnprotected(es, protected, i)| + 1
  {
    BeforeIsStrictOrder(es[i], es[i], es[i]);
    assert es[..i + 1] == es[..i] + [es[i]];
  }

  lemma EarlierIsPreceding(es: seq<Entry>, protected: set<string>, i: nat)
    requires Ascending(es) && i < |es|
    ensures EarlierUnprotected(es, protected, i) == Preceding(EarlierUnprotected(es, protected, |es|), es[i])
  {
    forall j | i <= j < |es| ensures !Before(es[j], es[i]) {
      BeforeIsStrictOrder(es[j], es[i], es[j]);
    }
    forall e | e in es && Before(e, es[i]) ensures e in es[..i] {
      var j :| 0 <= j < |es| && es[j] == e;
      assert j < i;
    }
  }
}
