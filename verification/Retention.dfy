/** Which release bundles a retention run deletes from the object store, in what order,
    and what is left when deletions fail or the run stops part way. */
module Retention {
  import opened Releases
  import TextOrder

  datatype Name = Archive | ManifestFile | Sums | Sbom | Marker

  // What reading an object yields; anything that does not parse and validate is a Blob.
  datatype Document =
    | ManifestDocument(identity: string, sha256: string, imageId: string, archiveSha256: string, sbomSha256: string)
    | SumsDocument(archive: string, manifest: string, sbom: string)
    | MarkerDocument(identity: string, imageId: string, manifestSha256: string, deployedAt: Timestamp)
    | Blob

  datatype Object = Object(lastModified: Option<Timestamp>, document: Document)

  type Group = map<Name, Object>
  type Groups = map<string, Group>

  const ALL_NAMES: set<Name> := {Archive, ManifestFile, Sums, Sbom, Marker}
  const DELETION_ORDER: seq<Name> := [Archive, Sbom, Sums, ManifestFile]

  /** One run: what it protects, which prefixes hold objects it does not know, and which
      prefixes it fails to read. */
  datatype Setting = Setting(
    protected: set<string>, extras: set<string>, unreadable: set<string>, keep: int, cutoff: Timestamp)

  datatype Standing =
    | Absent | Untrusted | ProtectedCandidate | CorruptCandidate | FreshCandidate | ExpiredCandidate
    | Success | CorruptSuccess | PartialSuccess | CorruptPartial

  predicate ValidManifest(p: string, g: Group)
    requires ManifestFile in g
  {
    var m := g[ManifestFile].document;
    m.ManifestDocument? && m.identity == p
  }

  predicate ValidSuccess(p: string, g: Group)
    requires ALL_NAMES <= g.Keys
  {
    && ValidManifest(p, g)
    && var m, s, k := g[ManifestFile].document, g[Sums].document, g[Marker].document;
    && s == SumsDocument(m.archiveSha256, m.sha256, m.sbomSha256)
    && k.MarkerDocument? && k == MarkerDocument(p, m.imageId, m.sha256, k.deployedAt)
  }

  predicate ValidPartialMarker(p: string, g: Group)
    requires Marker in g
  {
    var k := g[Marker].document;
    && k.MarkerDocument? && k.identity == p
    && (ManifestFile in g ==>
          && ValidManifest(p, g)
          && g[ManifestFile].document.sha256 == k.manifestSha256
          && g[ManifestFile].document.imageId == k.imageId)
  }

  predicate CandidateOld(g: Group, cutoff: Timestamp) {
    g != map[] && forall n :: n in g ==> g[n].lastModified.Some? && g[n].lastModified.value <= cutoff
  }

  function Judge(p: string, g: Group, s: Setting): Standing {
    if g == map[] then Absent
    else if p in s.extras then Untrusted
    else if Marker !in g then
      if p in s.protected then ProtectedCandidate
      else if ManifestFile in g && (p in s.unreadable || !ValidManifest(p, g)) then CorruptCandidate
      else if CandidateOld(g, s.cutoff) then ExpiredCandidate
      else FreshCandidate
    else if ALL_NAMES <= g.Keys then
      if p !in s.unreadable && ValidSuccess(p, g) then Success else CorruptSuccess
    else if p !in s.unreadable && ValidPartialMarker(p, g) then PartialSuccess
    else CorruptPartial
  }

  // ---- what the judgements mean ----

  /** All five objects are there and readable under a prefix without unknown ones, and the manifest, the
      checksum list and the marker agree with the prefix and with each other. */
  lemma SuccessMeans(p: string, g: Group, s: Setting)
    ensures Judge(p, g, s) == Success <==>
            && p !in s.extras && p !in s.unreadable
            && Archive in g && ManifestFile in g && Sums in g && Sbom in g && Marker in g
            && var m, c, k := g[ManifestFile].document, g[Sums].document, g[Marker].document;
            && m.ManifestDocument? && c.SumsDocument? && k.MarkerDocument?
            && m.identity == p && k.identity == p && k.imageId == m.imageId && k.manifestSha256 == m.sha256
            && c.manifest == m.sha256 && c.archive == m.archiveSha256 && c.sbom == m.sbomSha256
  {
  }

  /** The marker is there, readable and of this prefix, something else is missing, and the manifest, if
      it is still there, is the one that the marker names. */
  lemma PartialMeans(p: string, g: Group, s: Setting)
    ensures Judge(p, g, s) == PartialSuccess <==>
            && p !in s.extras && p !in s.unreadable
            && Marker in g && (Archive !in g || ManifestFile !in g || Sums !in g || Sbom !in g)
            && var k := g[Marker].document;
            && k.MarkerDocument? && k.identity == p
            && (ManifestFile in g ==>
                  var m := g[ManifestFile].document;
                  m.ManifestDocument? && m.identity == p && m.sha256 == k.manifestSha256 && m.imageId == k.imageId)
  {
  }

  /** Something of the bundle is newer than the cutoff, or of unknown age. */
  predicate SomethingNew(g: Group, cutoff: Timestamp) {
    exists n :: n in g && (g[n].lastModified.None? || g[n].lastModified.value > cutoff)
  }

  /** An unmarked bundle that nothing keeps: unprotected, without unknown objects, with a readable manifest
      of its own prefix or none, and all of it as old as the cutoff or older. */
  predicate Forsaken(p: string, g: Group, s: Setting) {
    && g != map[] && Marker !in g && p !in s.protected && p !in s.extras
    && (ManifestFile in g ==>
          && p !in s.unreadable
          && g[ManifestFile].document.ManifestDocument? && g[ManifestFile].document.identity == p)
    && forall n :: n in g ==> g[n].lastModified.Some? && g[n].lastModified.value <= s.cutoff
  }

  lemma ExpiredMeans(p: string, g: Group, s: Setting)
    ensures Judge(p, g, s) == ExpiredCandidate <==> Forsaken(p, g, s)
    ensures SomethingNew(g, s.cutoff) ==> !Forsaken(p, g, s)
  {
  }

  // ---- the order of successes ----

  datatype Entry = Entry(deployedAt: Timestamp, prefix: string)

  predicate Before(a: Entry, b: Entry) {
    a.deployedAt < b.deployedAt || (a.deployedAt == b.deployedAt && TextOrder.Less(a.prefix, b.prefix))
  }

  lemma BeforeIsStrictOrder(a: Entry, b: Entry, c: Entry)
    ensures !Before(a, a)
    ensures Before(a, b) && Before(b, c) ==> Before(a, c)
    ensures a == b || Before(a, b) || Before(b, a)
    ensures !(Before(a, b) && Before(b, a))
    ensures a.deployedAt < b.deployedAt ==> Before(a, b)
  {
    TextOrder.Irreflexive(a.prefix);
    TextOrder.Total(a.prefix, b.prefix);
    if TextOrder.Less(a.prefix, b.prefix) && TextOrder.Less(b.prefix, c.prefix) {
      TextOrder.Transitive(a.prefix, b.prefix, c.prefix);
    }
    if TextOrder.Less(a.prefix, b.prefix) && TextOrder.Less(b.prefix, a.prefix) {
      TextOrder.Transitive(a.prefix, b.prefix, a.prefix);
    }
  }

  function DeployedAt(g: Group): Timestamp {
    if Marker in g && g[Marker].document.MarkerDocument? then g[Marker].document.deployedAt else 0
  }

  function Successes(gs: Groups, s: Setting): set<Entry> {
    set p | p in gs && Judge(p, gs[p], s) == Success :: Entry(DeployedAt(gs[p]), p)
  }

  function Unprotected(gs: Groups, s: Setting): set<Entry> {
    set e | e in Successes(gs, s) && e.prefix !in s.protected
  }

  function Excess(gs: Groups, s: Setting): nat {
    var n, keep := |Successes(gs, s)|, if s.keep < 0 then 0 else s.keep;
    if n > keep then n - keep else 0
  }

  ghost function Preceding(u: set<Entry>, e: Entry): set<Entry> {
    set x | x in u && Before(x, e)
  }

  ghost function FirstOf(u: set<Entry>, k: nat): set<Entry> {
    set e | e in u && |Preceding(u, e)| < k
  }

  /** The successes a run deletes: those preceded by fewer unprotected successes than it has too many. */
  ghost function Planned(gs: Groups, s: Setting): set<Entry> {
    FirstOf(Unprotected(gs, s), Excess(gs, s))
  }

  // ---- counting and order ----

  lemma Latest(u: set<Entry>) returns (m: Entry)
    requires u != {}
    ensures m in u && forall e :: e in u && e != m ==> Before(e, m)
  {
    m :| m in u;
    if u != {m} {
      var rest := Latest(u - {m});
      BeforeIsStrictOrder(m, rest, m);
      if Before(m, rest) {
        m := rest;
      } else {
        forall e | e in u && e != m && e != rest ensures Before(e, m) {
          BeforeIsStrictOrder(e, rest, m);
        }
      }
    }
  }

  /** In any finite set, exactly k entries have fewer than k entries before them. */
  lemma {:induction false} FirstOfCount(u: set<Entry>, k: nat)
    requires k <= |u|
    ensures |FirstOf(u, k)| == k
    decreases |u|
  {
    if u == {} {
      assert FirstOf(u, k) == {};
    } else {
      var m := Latest(u);
      var rest := u - {m};
      forall e | e in rest ensures Preceding(u, e) == Preceding(rest, e) {
        BeforeIsStrictOrder(e, m, e);
      }
      BeforeIsStrictOrder(m, m, m);
      assert Preceding(u, m) == rest;
      if k <= |rest| {
        FirstOfCount(rest, k);
        assert FirstOf(u, k) == FirstOf(rest, k);
      } else {
        FirstOfCount(rest, |rest|);
        assert FirstOf(rest, |rest|) <= rest;
        SubsetOfEqualSize(FirstOf(rest, |rest|), rest);
        assert forall e :: e in rest ==> e in FirstOf(rest, |rest|);
        assert FirstOf(u, k) == rest + {m};
      }
    }
  }

  lemma SubsetSize<T>(a: set<T>, b: set<T>)
    requires a <= b
    ensures |a| <= |b|
  {
    assert b == a + (b - a);
  }

  lemma SizeOfRest<T>(a: set<T>, b: set<T>)
    requires a <= b
    ensures |b - a| == |b| - |a|
  {
    assert b == a + (b - a);
  }

  lemma SubsetOfEqualSize<T>(a: set<T>, b: set<T>)
    requires a <= b && |a| == |b|
    ensures a == b
  {
    assert b == a + (b - a);
  }

  /** Every planned deletion precedes every retained unprotected success. */
  lemma PlannedPrecedeRetained(gs: Groups, s: Setting, d: Entry, r: Entry)
    requires d in Planned(gs, s) && r in Unprotected(gs, s) - Planned(gs, s)
    ensures Before(d, r) && d.deployedAt <= r.deployedAt
  {
    var u := Unprotected(gs, s);
    BeforeIsStrictOrder(d, r, d);
    if Before(r, d) {
      forall x | x in Preceding(u, r) ensures x in Preceding(u, d) {
        BeforeIsStrictOrder(x, r, d);
      }
      SubsetSize(Preceding(u, r), Preceding(u, d));
    }
  }

  /** The other successes that are protected or come later. */
  ghost function Outliving(gs: Groups, s: Setting, e: Entry): set<Entry> {
    set x | x in Successes(gs, s) && x != e && (x.prefix in s.protected || Before(e, x))
  }

  /** An unprotected success is deleted exactly when as many others as are to be kept are protected or
      come later. */
  lemma DeletedExactlyWhenOutlived(gs: Groups, s: Setting, e: Entry)
    requires e in Unprotected(gs, s)
    ensures e in Planned(gs, s) <==> |Outliving(gs, s, e)| >= s.keep
  {
    var all, first := Successes(gs, s), Preceding(Unprotected(gs, s), e);
    forall x | x in all ensures x in first + {e} <==> x !in Outliving(gs, s, e) {
      BeforeIsStrictOrder(e, x, e);
    }
    BeforeIsStrictOrder(e, e, e);
    assert Outliving(gs, s, e) == all - (first + {e});
    SizeOfRest(first + {e}, all);
  }

  lemma FirstOfSize(u: set<Entry>, k: nat)
    ensures FirstOf(u, k) <= u
    ensures |FirstOf(u, k)| == if k < |u| then k else |u|
  {
    if k <= |u| {
      FirstOfCount(u, k);
    } else {
      FirstOfCount(u, |u|);
      assert FirstOf(u, |u|) <= FirstOf(u, k) <= u;
      SubsetSize(FirstOf(u, |u|), FirstOf(u, k));
      SubsetSize(FirstOf(u, k), u);
    }
  }

  /** Of n successes, p of them protected, exactly max(min(n, keep), p) are retained. */
  lemma RetainedCount(gs: Groups, s: Setting)
    ensures var n, p := |Successes(gs, s)|, |Successes(gs, s) - Unprotected(gs, s)|;
            var keep := if s.keep < 0 then 0 else s.keep;
            var least := if n < keep then n else keep;
            |Successes(gs, s) - Planned(gs, s)| == if least < p then p else least
  {
    var all, u := Successes(gs, s), Unprotected(gs, s);
    FirstOfSize(u, Excess(gs, s));
    SizeOfRest(u, all);
    SizeOfRest(Planned(gs, s), all);
  }

  // ---- what a run may leave behind ----

  function At(gs: Groups, p: string): Group {
    if p in gs then gs[p] else map[]
  }

  /** What deleting a bundle may leave: some of its objects, and a marker until nothing else is left. */
  ghost predicate Remnant(before: Group, after: Group) {
    && after.Keys <= before.Keys
    && (forall n :: n in after ==> after[n] == before[n])
    && (Marker in before && Marker !in after ==> after == map[])
  }

  ghost predicate BeyondBoundary(gs: Groups, s: Setting, p: string) {
    var retained := Successes(gs, s) - Planned(gs, s);
    retained != {} && forall r :: r in retained ==> DeployedAt(At(gs, p)) < r.deployedAt
  }

  /** A partly deleted success is taken up again once it is older than every retained success, or expired. */
  ghost predicate RetryDue(gs: Groups, s: Setting, p: string) {
    && Judge(p, At(gs, p), s) == PartialSuccess && p !in s.protected
    && (BeyondBoundary(gs, s, p) || DeployedAt(At(gs, p)) <= s.cutoff)
  }

  ghost predicate Doomed(gs: Groups, s: Setting, p: string) {
    || Judge(p, At(gs, p), s) == ExpiredCandidate
    || Entry(DeployedAt(At(gs, p)), p) in Planned(gs, s)
    || RetryDue(gs, s, p)
  }

  /** Every way a run can end, however many deletions fail and wherever it is cut off. */
  ghost predicate Outcome(before: Groups, after: Groups, s: Setting) {
    forall p :: if Doomed(before, s, p) then Remnant(At(before, p), At(after, p)) else At(after, p) == At(before, p)
  }

  /** What a run takes anything from: a forsaken bundle, a success that enough others outlive, or the
      remains of a success that is older than every retained one or expired. */
  lemma DoomedMeans(gs: Groups, s: Setting, p: string)
    ensures Marker !in At(gs, p) ==> (Doomed(gs, s, p) <==> Forsaken(p, At(gs, p), s))
    ensures Judge(p, At(gs, p), s) == Success ==>
              (Doomed(gs, s, p) <==>
                p !in s.protected && |Outliving(gs, s, Entry(DeployedAt(At(gs, p)), p))| >= s.keep)
    ensures Marker in At(gs, p) && Judge(p, At(gs, p), s) != Success ==>
              (Doomed(gs, s, p) <==>
                && Judge(p, At(gs, p), s) == PartialSuccess && p !in s.protected
                && (|| At(gs, p)[Marker].document.deployedAt <= s.cutoff
                    || (&& Retained(gs, s) != {}
                        && forall r :: r in Retained(gs, s) ==> At(gs, p)[Marker].document.deployedAt < r.deployedAt)))
  {
    var e := Entry(DeployedAt(At(gs, p)), p);
    ExpiredMeans(p, At(gs, p), s);
    if e in Planned(gs, s) {
      PlannedJudged(gs, s, e);
    }
    if Judge(p, At(gs, p), s) == Success && p !in s.protected {
      SuccessCounts(gs, s, p);
      DeletedExactlyWhenOutlived(gs, s, e);
    }
    if Judge(p, At(gs, p), s) == PartialSuccess {
      PartialMeans(p, At(gs, p), s);
    }
  }

  lemma NamesAreAll(g: Group)
    ensures g.Keys <= ALL_NAMES
  {
    forall n | n in g ensures n in ALL_NAMES {
      match n { case Archive => case ManifestFile => case Sums => case Sbom => case Marker => }
    }
  }

  lemma PlannedJudged(gs: Groups, s: Setting, e: Entry)
    requires e in Planned(gs, s)
    ensures e.prefix in gs && Judge(e.prefix, gs[e.prefix], s) == Success && e.prefix !in s.protected
    ensures e == Entry(DeployedAt(gs[e.prefix]), e.prefix)
  {
  }

  /** Nothing under a protected prefix, or under one with unknown objects, is ever deleted. */
  lemma ProtectedSurvive(before: Groups, after: Groups, s: Setting, p: string)
    requires Outcome(before, after, s) && (p in s.protected || p in s.extras)
    ensures At(after, p) == At(before, p)
  {
    if Entry(DeployedAt(At(before, p)), p) in Planned(before, s) {
      PlannedJudged(before, s, Entry(DeployedAt(At(before, p)), p));
    }
  }

  /** A success whose deletion was only partly done keeps its marker: a later run never counts it
      as a success and never takes it for an unmarked candidate. When readable it is a partial
      success with its old place in time. */
  lemma HalfDeletedKeepsMarker(p: string, before: Group, after: Group, s: Setting, later: Setting)
    requires Judge(p, before, s) == Success
    requires Remnant(before, after) && after != before && after != map[]
    ensures Marker in after
    ensures Judge(p, after, later) !in {Success, ProtectedCandidate, CorruptCandidate, FreshCandidate, ExpiredCandidate}
    ensures p !in later.extras + later.unreadable ==> Judge(p, after, later) == PartialSuccess
    ensures DeployedAt(after) == DeployedAt(before)
  {
    NamesAreAll(before);
    assert ALL_NAMES <= after.Keys ==> after == before;
  }

  /** A success of a later run is a bundle the earlier run left whole. */
  lemma SuccessWasWhole(before: Groups, after: Groups, s: Setting, later: Setting, p: string)
    requires Outcome(before, after, s) && Judge(p, At(after, p), later) == Success
    ensures At(after, p) == At(before, p)
  {
    NamesAreAll(At(before, p));
    assert Remnant(At(before, p), At(after, p)) ==> At(after, p) == At(before, p);
  }

  ghost function Retained(gs: Groups, s: Setting): set<Entry> {
    Successes(gs, s) - Planned(gs, s)
  }

  /** Successes that the later run can see and the earlier one could not. */
  ghost function NewlySeen(before: Groups, after: Groups, s: Setting, later: Setting): set<Entry> {
    Successes(after, later) - Successes(before, s)
  }

  lemma RetainedAreKept(before: Groups, after: Groups, s: Setting, e: Entry)
    requires Outcome(before, after, s) && e in Retained(before, s)
    ensures At(after, e.prefix) == At(before, e.prefix)
    ensures Judge(e.prefix, At(before, e.prefix), s) == Success
            && e == Entry(DeployedAt(At(before, e.prefix)), e.prefix)
  {
  }

  /** A later run with the same protection deletes no more of the releases the first run kept
      than there are releases the first run failed to see. */
  lemma SecondRunLoss(before: Groups, after: Groups, s: Setting, later: Setting)
    requires Outcome(before, after, s)
    requires later.protected == s.protected && later.keep == s.keep
    ensures |Planned(after, later) * Retained(before, s)| <= |NewlySeen(before, after, s, later)|
  {
    var lost := Planned(after, later) * Retained(before, s);
    if lost != {} {
      var x := Latest(lost);
      LostAreOutnumbered(before, after, s, later, x);
      RetainedWithinKeep(before, s, x);
      SuccessesAccountedFor(before, after, s, later);
    }
  }

  lemma LostAreOutnumbered(before: Groups, after: Groups, s: Setting, later: Setting, x: Entry)
    requires Outcome(before, after, s) && later.protected == s.protected
    requires x in Planned(after, later) * Retained(before, s)
    requires forall e :: e in Planned(after, later) * Retained(before, s) && e != x ==> Before(e, x)
    ensures |Successes(after, later) * Planned(before, s)| + |Planned(after, later) * Retained(before, s)|
            <= Excess(after, later)
  {
    var lost, again := Planned(after, later) * Retained(before, s), Successes(after, later) * Planned(before, s);
    forall f | f in again ensures f in Preceding(Unprotected(after, later), x) {
      PlannedPrecedeRetained(before, s, f, x);
    }
    BeforeIsStrictOrder(x, x, x);
    SubsetSize(again + (lost - {x}), Preceding(Unprotected(after, later), x));
    assert |again + (lost - {x})| == |again| + |lost| - 1;
  }

  lemma SuccessesAccountedFor(before: Groups, after: Groups, s: Setting, later: Setting)
    ensures |Successes(after, later)| <=
              |Retained(before, s)| + |Successes(after, later) * Planned(before, s)|
              + |NewlySeen(before, after, s, later)|
  {
    var all := Successes(after, later);
    var kept, again, unseen := all * Retained(before, s), all * Planned(before, s), NewlySeen(before, after, s, later);
    SubsetSize(all, kept + again + unseen);
    SubsetSize(kept, Retained(before, s));
    assert |kept + again + unseen| <= |kept| + |again| + |unseen|;
  }

  /** When an unprotected success is retained, no more than keep are. */
  lemma RetainedWithinKeep(gs: Groups, s: Setting, x: Entry)
    requires x in Retained(gs, s) && x in Unprotected(gs, s)
    ensures s.keep >= 0 && |Retained(gs, s)| <= s.keep
  {
    var all, u := Successes(gs, s), Unprotected(gs, s);
    FirstOfSize(u, Excess(gs, s));
    if |u| <= Excess(gs, s) {
      SubsetOfEqualSize(Planned(gs, s), u);
    }
    assert all == Planned(gs, s) + Retained(gs, s);
    assert |u| <= |all| by { SubsetSize(u, all); }
  }

  lemma StillWhole(p: string, g: Group, s: Setting, later: Setting)
    requires Judge(p, g, s) == Success
    ensures var j := Judge(p, g, later); j == Success || j == CorruptSuccess || j == Untrusted
  {
  }

  lemma SuccessCounts(gs: Groups, s: Setting, p: string)
    requires p in gs && Judge(p, gs[p], s) == Success
    ensures Entry(DeployedAt(gs[p]), p) in Successes(gs, s)
  {
  }

  function WholeBundle(p: string, deployedAt: Timestamp): Group {
    map[
      Archive := Object(Some(0), Blob),
      ManifestFile := Object(Some(0), ManifestDocument(p, "m", "i", "a", "s")),
      Sums := Object(Some(0), SumsDocument("a", "m", "s")),
      Sbom := Object(Some(0), Blob),
      Marker := Object(Some(0), MarkerDocument(p, "i", "m", deployedAt))]
  }
}
