/** Runs of sessions whose bundles come from the store. Immutable uploads and protected prefixes together
    keep the manifest of every recorded release in place, so no later bundle can take its tag. */
module StoreAnchors {
  import opened Releases
  import opened Images
  import opened Deployment
  import opened DeploymentRuns
  import opened Survival
  import Retention
  import ImmutableStore

  /** How a stored manifest is read, and which image its archive becomes on this host. */
  type Reading = Retention.Document -> Option<Manifest>

  type Building = Manifest -> ImageId

  /** The manifest under a prefix, when there is a readable one. */
  function ManifestAt(groups: Retention.Groups, p: string, read: Reading): Option<Manifest> {
    var g := Retention.At(groups, p);
    if Retention.ManifestFile in g then read(g[Retention.ManifestFile].document) else None
  }

  /** The manifest of every named release is under its prefix. */
  ghost predicate Anchored(d: Disk, groups: Retention.Groups, read: Reading) {
    forall r :: NamedBy(d, r) && !r.legacy ==>
      r.prefix.Some? && ManifestAt(groups, r.prefix.value, read) == Some(r.manifest)
  }

  /** Every named release runs the image that its manifest's archive becomes. */
  ghost predicate Built(d: Disk, build: Building) {
    forall r :: NamedBy(d, r) && !r.legacy ==> RuntimeImage(r) == build(r.manifest)
  }

  /** What a deployment fetches is what the store holds at the place that was asked for. */
  ghost predicate FromStore(c: Command, groups: Retention.Groups, read: Reading, build: Building) {
    c.DeployCommand? && c.request.fetched.Some? ==>
      && ManifestAt(groups, c.request.key, read) == Some(c.request.fetched.value.manifest)
      && c.request.fetched.value.image == build(c.request.fetched.value.manifest)
  }

  lemma UploadsKeepAnchors(d: Disk, before: Retention.Groups, after: Retention.Groups, read: Reading)
    requires Anchored(d, before, read) && Uploaded(before, after)
    ensures Anchored(d, after, read)
  {
    forall r | NamedBy(d, r) && !r.legacy
      ensures r.prefix.Some? && ManifestAt(after, r.prefix.value, read) == Some(r.manifest)
    {
      assert ManifestAt(before, r.prefix.value, read) == Some(r.manifest);
    }
  }

  /** A bundle from the store does not clash with a release whose manifest is still in the store. */
  lemma StoreBundleTakesNothing(w: World, c: Command, chance: Schedule, groups: Retention.Groups, read: Reading,
                                build: Building, r: Release)
    requires (Safe(w.disk) || Stranded(w.disk)) && NamedBy(w.disk, r)
    requires Anchored(w.disk, groups, read) && Built(w.disk, build) && FromStore(c, groups, read, build)
    ensures !TakesFrom(w, c, chance, r)
  {
    NamedIsIdentified(w.disk, r);
  }

  lemma SessionKeepsAnchors(w: World, c: Command, s: Status, mid: World, next: World, chance: Schedule,
                            before: Retention.Groups, after: Retention.Groups, read: Reading, build: Building)
    requires Attended(w, c, s, mid, next, chance) && (Safe(w.disk) || Stranded(w.disk))
    requires Ready(w.disk, w.depot) && Anchored(w.disk, before, read) && FromStore(c, before, read, build)
    requires NamedBundlesKept(next.disk, before, after)
    ensures Anchored(next.disk, after, read)
  {
    forall r | NamedBy(next.disk, r) && !r.legacy
      ensures r.prefix.Some? && ManifestAt(after, r.prefix.value, read) == Some(r.manifest)
    {
      NamedIsIdentified(next.disk, r);
      assert Retention.At(after, r.prefix.value) == Retention.At(before, r.prefix.value);
      if !NamedBy(w.disk, r) {
        assert DownloadedBy(c) == Some(r.manifest);
      }
    }
  }

  /** A run of sessions on one store, all bundles from that store. */
  ghost predicate OnStore(trail: seq<World>, mids: seq<World>, commands: seq<Command>, status: seq<Status>,
                          chance: Schedule, begun: seq<Retention.Groups>, ended: seq<Retention.Groups>, read: Reading,
                          build: Building)
  {
    && Served(trail, mids, commands, status, chance) && StoresKept(trail, begun, ended)
    && (forall i :: 0 <= i < |commands| ==> FromStore(commands[i], begun[i], read, build))
    && (forall i :: 0 <= i < |trail| ==> Built(trail[i].disk, build))
  }

  /** Over every such run, whatever fails in it, every release that the machine may have to start can be
      started, and no load takes a tag from one: nothing needs to be assumed about the requests. */
  lemma {:induction false} StoreKeepsReady(trail: seq<World>, mids: seq<World>, commands: seq<Command>,
                                           status: seq<Status>, chance: Schedule, begun: seq<Retention.Groups>,
                                           ended: seq<Retention.Groups>, read: Reading, build: Building, i: nat)
    requires OnStore(trail, mids, commands, status, chance, begun, ended, read, build) && i < |trail|
    requires Ready(trail[0].disk, trail[0].depot)
    requires |begun| > 0 ==> Anchored(trail[0].disk, begun[0], read)
    ensures Safe(trail[i].disk) || Stranded(trail[i].disk)
    ensures Ready(trail[i].disk, trail[i].depot)
    ensures i < |begun| ==> Anchored(trail[i].disk, begun[i], read)
    ensures NoLossWithin(trail, commands, chance, i)
  {
    if i > 0 {
      var j := i - 1;
      StoreKeepsReady(trail, mids, commands, status, chance, begun, ended, read, build, j);
      assert Attended(trail[j], commands[j], status[j], mids[j], trail[i], chance);
      assert Built(trail[j].disk, build) && FromStore(commands[j], begun[j], read, build);
      forall r | NamedBy(trail[j].disk, r) ensures !TakesFrom(trail[j], commands[j], chance, r) {
        StoreBundleTakesNothing(trail[j], commands[j], chance, begun[j], read, build, r);
      }
      SessionKeepsReady(trail[j], commands[j], status[j], mids[j], trail[i], chance);
      SessionKeepsAnchors(trail[j], commands[j], status[j], mids[j], trail[i], chance, begun[j], ended[j], read, build);
      if i < |begun| {
        UploadsKeepAnchors(trail[i].disk, ended[j], begun[i], read);
      }
    }
  }

  // ---- a client that outlives its session ----

  /** The connection of an earlier session is lost while its client is still deleting: the server gives
      up the lock, and the rest of that run's deletions falls into later sessions. */
  ghost predicate Straggles(listing: Retention.Groups, s: Retention.Setting, now: Retention.Groups,
                            later: Retention.Groups)
  {
    forall p :: if Retention.Doomed(listing, s, p) then Retention.Remnant(Retention.At(now, p), Retention.At(later, p))
                else Retention.At(later, p) == Retention.At(now, p)
  }

  /** Such a client leaves a bundle alone for certain exactly when its own run had not doomed it, or
      nothing of it is there. */
  lemma StragglerSparesExactly(listing: Retention.Groups, s: Retention.Setting, now: Retention.Groups, p: string)
    ensures (forall later :: Straggles(listing, s, now, later) ==> Retention.At(later, p) == Retention.At(now, p))
            <==> !Retention.Doomed(listing, s, p) || Retention.At(now, p) == map[]
  {
    if Retention.Doomed(listing, s, p) && Retention.At(now, p) != map[] {
      var later := now[p := map[]];
      assert Straggles(listing, s, now, later);
      assert Retention.At(later, p) != Retention.At(now, p);
    }
  }

  /** So the bundle of a release that is recorded only after that run had planned its deletion can go. */
  lemma StragglerHitsRecord(listing: Retention.Groups, s: Retention.Setting, now: Retention.Groups, state: State,
                            e: Retention.Entry)
    returns (later: Retention.Groups)
    requires e in Retention.Planned(listing, s) && e.prefix in ProtectedPrefixes(ReceiptOf(state))
    requires Retention.At(now, e.prefix) == Retention.At(listing, e.prefix)
    ensures Straggles(listing, s, now, later) && !BundlesKept(state, now, later)
  {
    Retention.PlannedJudged(listing, s, e);
    later := now[e.prefix := map[]];
    assert Retention.At(later, e.prefix) != Retention.At(now, e.prefix);
  }

  // ---- the marker and the order of releases ----

  /** The bundle's marker is this object. */
  predicate Marks(g: Retention.Group, c: ImmutableStore.Content) {
    && c.MarkerOf? && Retention.Marker in g && g[Retention.Marker].document.MarkerDocument?
    && g[Retention.Marker].document.deployedAt == c.deployedAt
  }

  /** However often a release is finalized: while its marker stays in the store, its place among the
      successes is the one that the first finalization gave it. */
  lemma MarkerFixesPlace(trace: ImmutableStore.Trace, key: string, i: nat, j: nat, p: string,
                         before: Retention.Group, after: Retention.Group)
    requires ImmutableStore.NeverOverwritten(trace) && i <= j < |trace| && ImmutableStore.Steady(trace, key, i, j)
    requires Marks(before, trace[i][key]) && Marks(after, trace[j][key])
    ensures Retention.Entry(Retention.DeployedAt(before), p) == Retention.Entry(Retention.DeployedAt(after), p)
  {
    ImmutableStore.SteadyKeepsBytes(trace, key, i, j);
  }
}
