/** The images on the host: which image a tag names, what a release needs in order to be started,
    and the cleanup that removes the tags of images that nobody needs. */
module Images {
  import opened Releases

  /** The immutable tag of a release is made of its version and revision. */
  datatype Tag = ReleaseTag(version: Version, revision: string) | OtherTag(repository: string, name: string)

  type Tags = map<Tag, ImageId>

  datatype Inventory = Inventory(tags: Tags, images: set<ImageId>)

  /** Every tag names an image that is there. */
  type Depot = x: Inventory | x.tags.Values <= x.images witness Inventory(map[], {})

  const MANAGED_REPOSITORIES: set<string> := {"tennis-green-pms", "tennis-green-pms-app", "tennis-demo"}

  predicate Managed(t: Tag) {
    t.ReleaseTag? || t.repository in MANAGED_REPOSITORIES
  }

  function TagOf(r: Release): Tag {
    ReleaseTag(r.manifest.version, r.manifest.gitRevision)
  }

  /** A container of the release can be created: its image is there, and unless it was adopted, its
      tag names that image. */
  predicate Startable(x: Depot, r: Release) {
    && RuntimeImage(r) in x.images
    && (r.legacy || (TagOf(r) in x.tags && x.tags[TagOf(r)] == RuntimeImage(r)))
  }

  /** The release goes by the same version and revision, but runs another image. */
  predicate Clashes(r: Release, version: Version, revision: string, image: ImageId) {
    !r.legacy && r.manifest.version == version && r.manifest.gitRevision == revision && RuntimeImage(r) != image
  }

  /** The archive of a release carries its tag, which names the loaded image from then on. */
  function Loaded(x: Depot, version: Version, revision: string, image: ImageId): Depot {
    Inventory(x.tags[ReleaseTag(version, revision) := image], x.images + {image})
  }

  /** A load leaves a release startable exactly when it does not clash with it. */
  lemma LoadKeepsStartable(x: Depot, version: Version, revision: string, image: ImageId, r: Release)
    requires Startable(x, r)
    ensures Startable(Loaded(x, version, revision, image), r) <==> !Clashes(r, version, revision, image)
  {
  }

  /** Removing the last tag of an image removes the image. */
  function Untagged(x: Depot, t: Tag): Depot
    requires t in x.tags
  {
    var tags := x.tags - {t};
    Inventory(tags, if x.tags[t] in tags.Values then x.images else x.images - {x.tags[t]})
  }

  /** Removing a tag leaves a release startable exactly when the tag is not its own; an adopted release
      needs another tag to keep its image. */
  lemma UntagKeepsStartable(x: Depot, t: Tag, r: Release)
    requires Startable(x, r) && t in x.tags
    ensures Startable(Untagged(x, t), r) <==>
            if r.legacy then x.tags[t] != RuntimeImage(r) || exists u :: u in x.tags && u != t && x.tags[u] == x.tags[t]
            else t != ReleaseTag(r.manifest.version, r.manifest.gitRevision)
  {
    var tags := x.tags - {t};
    assert forall u :: u in x.tags && u != t ==> u in tags && tags[u] in tags.Values;
  }

  function OwnedTags(tags: Tags, image: ImageId): set<Tag> {
    set t | t in tags && tags[t] == image && Managed(t)
  }

  /** The images with a tag of this application. */
  function ManagedImages(x: Depot): set<ImageId> {
    set t | t in x.tags && Managed(t) :: x.tags[t]
  }

  /** The images that the record may still return to. */
  function ProtectedImages(s: State): set<ImageId> {
    {RuntimeImage(s.current)} + if s.previous.Some? then {RuntimeImage(s.previous.value)} else {}
  }

  /** Nothing of the image has been lost: neither the image nor any of its tags. */
  ghost predicate KeepsImage(before: Depot, after: Depot, image: ImageId) {
    && (image in before.images ==> image in after.images)
    && forall t :: t in before.tags && before.tags[t] == image ==> t in after.tags && after.tags[t] == image
  }

  ghost predicate KeepsRecorded(before: Depot, after: Depot, s: State) {
    forall image :: image in ProtectedImages(s) ==> KeepsImage(before, after, image)
  }

  lemma KeptTwice(first: Depot, second: Depot, third: Depot, s: State)
    requires KeepsRecorded(first, second, s) && KeepsRecorded(second, third, s)
    ensures KeepsRecorded(first, third, s)
  {
    forall image | image in ProtectedImages(s) ensures KeepsImage(first, third, image) {
      assert KeepsImage(first, second, image) && KeepsImage(second, third, image);
    }
  }

  lemma KeptIsStartable(before: Depot, after: Depot, r: Release)
    requires KeepsImage(before, after, RuntimeImage(r)) && Startable(before, r)
    ensures Startable(after, r)
  {
  }

  datatype Decision = KeepRecorded | KeepReferenced | Delete

  datatype Removal = Removed | Stuck | CutOff

  /** What happens at one removal; a removal that fails may still have been carried out. */
  datatype RemovalChance = RemovalChance(kill: bool, fail: bool, took: bool)

  /** The decisions so far are about the managed images that are not among those to come, which still
      have all their tags. */
  ghost predicate Visited(before: Depot, now: Depot, images: set<ImageId>, state: State,
                          decisions: map<ImageId, Decision>)
  {
    && (forall t :: t in now.tags ==> t in before.tags && now.tags[t] == before.tags[t])
    && (forall t :: t in before.tags && before.tags[t] in images ==> t in now.tags)
    && (forall image :: image in decisions <==> image in ManagedImages(before) && image !in images)
    && (forall image :: image in decisions ==>
          (decisions[image] == KeepRecorded <==> image in ProtectedImages(state)))
  }

  lemma VisitedNext(before: Depot, now: Depot, next: Depot, images: set<ImageId>, image: ImageId, state: State,
                    decisions: map<ImageId, Decision>, decision: Option<Decision>)
    requires Visited(before, now, images, state, decisions) && image in images
    requires forall t :: t in next.tags ==> t in now.tags && next.tags[t] == now.tags[t]
    requires forall other :: other != image ==> KeepsImage(now, next, other)
    requires decision.Some? <==> image in ManagedImages(now)
    requires decision.Some? ==> (decision.value == KeepRecorded <==> image in ProtectedImages(state))
    ensures Visited(before, next, images - {image}, state,
                    if decision.Some? then decisions[image := decision.value] else decisions)
  {
    forall t | t in before.tags && before.tags[t] in images - {image} ensures t in next.tags {
      assert KeepsImage(now, next, before.tags[t]);
    }
  }

  class ImageHost {
    var depot: Depot
    // The images that containers refer to, stopped ones included, at each moment of asking.
    const referenced: nat -> set<ImageId>
    const chance: nat -> RemovalChance
    var tick: nat

    constructor (depot: Depot, referenced: nat -> set<ImageId>, chance: nat -> RemovalChance)
      ensures this.depot == depot && this.referenced == referenced && this.chance == chance && tick == 0
    {
      this.depot, this.referenced, this.chance, tick := depot, referenced, chance, 0;
    }

    /** No removal fails or is cut off. */
    ghost predicate Smooth() {
      forall n: nat :: !chance(n).kill && !chance(n).fail
    }

    ghost predicate NeverReferenced(image: ImageId) {
      forall n: nat :: image !in referenced(n)
    }

    /** Removes one tag. Only tags of images that no container refers to at that moment are removed. */
    method RemoveTag(t: Tag, image: ImageId) returns (r: Removal)
      requires t in depot.tags && depot.tags[t] == image
      modifies this
      ensures depot == old(depot) || (depot == Untagged(old(depot), t) && image !in referenced(old(tick)))
      ensures forall other :: other != image ==> KeepsImage(old(depot), depot, other)
      ensures r == Removed ==> t !in depot.tags
      ensures tick == old(tick) + 1
      ensures var c, busy := chance(old(tick)), image in referenced(old(tick));
              && (r == if busy then Stuck else if c.kill then CutOff else if c.fail then Stuck else Removed)
              && depot == if !busy && (c.took || r == Removed) then Untagged(old(depot), t) else old(depot)
      ensures Smooth() && NeverReferenced(image) ==> r == Removed
    {
      var now := tick;
      tick := tick + 1;
      if image in referenced(now) { return Stuck; }
      var c := chance(now);
      if c.took || !(c.kill || c.fail) { depot := Untagged(depot, t); }
      r := if c.kill then CutOff else if c.fail then Stuck else Removed;
    }

    /** Tags have only gone away, each of them managed and at a moment when no container referred to
        its image, and no image has come. */
    ghost predicate Pruned(before: Depot, start: nat)
      reads this
    {
      && start <= tick && depot.images <= before.images
      && (forall t :: t in depot.tags ==> t in before.tags && depot.tags[t] == before.tags[t])
      && (forall t :: t in before.tags && t !in depot.tags ==> Managed(t) && Unreferenced(before.tags[t], start, tick))
    }

    ghost predicate Unreferenced(image: ImageId, start: nat, end: nat) {
      exists now :: start <= now < end && image !in referenced(now)
    }

    ghost predicate AlwaysReferenced(image: ImageId) {
      forall n: nat :: image in referenced(n)
    }

    /** Containers refer to a managed image that is not recorded all the time or never. */
    ghost predicate ReferencesStay(x: Depot, state: State) {
      forall t :: t in x.tags && Managed(t) && x.tags[t] !in ProtectedImages(state) ==>
        NeverReferenced(x.tags[t]) || AlwaysReferenced(x.tags[t])
    }

    /** No container ever refers to a managed image that is not recorded. */
    ghost predicate UnrecordedAreFree(x: Depot, state: State) {
      forall t :: t in x.tags && Managed(t) ==> x.tags[t] in ProtectedImages(state) || NeverReferenced(x.tags[t])
    }

    /** Removes managed tags of images that are neither recorded nor referred to. It succeeds only
        when no unrecorded image had to be kept for a container's sake. */
    method CleanupImages(state: State, dryRun: bool) returns (r: Removal, decisions: map<ImageId, Decision>)
      modifies this
      ensures Pruned(old(depot), old(tick))
      ensures KeepsRecorded(old(depot), depot, state)
      ensures dryRun ==> r != CutOff && depot == old(depot)
      ensures r == Removed && !dryRun ==> forall t :: t in depot.tags && Managed(t) ==>
                depot.tags[t] in ProtectedImages(state)
      ensures forall image :: image in decisions ==>
                (decisions[image] == KeepRecorded <==> image in ProtectedImages(state))
      ensures forall t: Tag :: t in old(depot).tags && t !in depot.tags && t.OtherTag? ==>
                t.repository == "tennis-green-pms" || t.repository == "tennis-green-pms-app"
                || t.repository == "tennis-demo"
      ensures r == Removed && !dryRun ==> forall t :: t in depot.tags ==>
                || depot.tags[t] == RuntimeImage(state.current)
                || (state.previous.Some? && depot.tags[t] == RuntimeImage(state.previous.value))
                || (&& t.OtherTag? && t.repository != "tennis-green-pms" && t.repository != "tennis-green-pms-app"
                    && t.repository != "tennis-demo")
      ensures r == Removed ==> forall image :: image in decisions <==> image in ManagedImages(old(depot))
      ensures Smooth() && ReferencesStay(old(depot), state) ==>
                && r != CutOff
                && (!dryRun ==> forall t :: t in depot.tags && Managed(t) ==>
                      depot.tags[t] in ProtectedImages(state) || AlwaysReferenced(depot.tags[t]))
      ensures Smooth() && UnrecordedAreFree(old(depot), state) ==> r == Removed
    {
      r, decisions := ConsiderAll(state, dryRun);
    }

    /** The images one after the other. */
    method ConsiderAll(state: State, dryRun: bool) returns (r: Removal, decisions: map<ImageId, Decision>)
      modifies this
      ensures Pruned(old(depot), old(tick))
      ensures KeepsRecorded(old(depot), depot, state)
      ensures dryRun ==> r != CutOff && depot == old(depot)
      ensures r == Removed && !dryRun ==> forall t :: t in depot.tags && Managed(t) ==>
                depot.tags[t] in ProtectedImages(state)
      ensures forall image :: image in decisions ==>
                (decisions[image] == KeepRecorded <==> image in ProtectedImages(state))
      ensures r == Removed ==> forall image :: image in decisions <==> image in ManagedImages(old(depot))
      ensures Smooth() && ReferencesStay(old(depot), state) ==>
                && r != CutOff
                && (!dryRun ==> forall t :: t in depot.tags && Managed(t) ==>
                      depot.tags[t] in ProtectedImages(state) || AlwaysReferenced(depot.tags[t]))
      ensures Smooth() && UnrecordedAreFree(old(depot), state) ==> r == Removed
    {
      decisions := map[];
      ghost var before, start := depot, tick;
      var images := set t | t in depot.tags :: depot.tags[t];
      var external := false;
      while images != {}
        invariant Underway(before, start, images, state, dryRun, decisions, external)
        decreases images
      {
        var image :| image in images;
        r, decisions, external := Visit(image, state, dryRun, decisions, external, before, start, images);
        if r != Removed { return; }
        images := images - {image};
      }
      r := if external then Stuck else Removed;
    }

    /** How far the loop has come. */
    ghost predicate Underway(before: Depot, start: nat, images: set<ImageId>, state: State, dryRun: bool,
                             decisions: map<ImageId, Decision>, external: bool)
      reads this
    {
      && Pruned(before, start) && KeepsRecorded(before, depot, state) && (dryRun ==> depot == before)
      && Visited(before, depot, images, state, decisions)
      && (dryRun || CleanBut(before, depot, images, state, external))
      && (Smooth() && UnrecordedAreFree(before, state) ==> !external)
    }

    method Visit(image: ImageId, state: State, dryRun: bool, sofar: map<ImageId, Decision>, busy: bool,
                 ghost before: Depot, ghost start: nat, ghost images: set<ImageId>)
      returns (r: Removal, decisions: map<ImageId, Decision>, external: bool)
      requires image in images && Underway(before, start, images, state, dryRun, sofar, busy)
      modifies this
      ensures Pruned(before, start) && KeepsRecorded(before, depot, state)
      ensures dryRun ==> r == Removed && depot == before
      ensures r != Removed ==> decisions == sofar
      ensures r == Removed ==> Underway(before, start, images - {image}, state, dryRun, decisions, external)
      ensures Smooth() && (ReferencesStay(before, state) || UnrecordedAreFree(before, state)) ==> r == Removed
    {
      ghost var now := depot;
      var decision;
      r, decision := Consider(image, state, dryRun);
      KeptTwice(before, now, depot, state);
      decisions, external := sofar, busy;
      if r != Removed { return; }
      VisitedNext(before, now, depot, images, image, state, sofar, decision);
      if decision.Some? {
        decisions := decisions[image := decision.value];
        external := external || decision.value == KeepReferenced;
      }
      if !dryRun { CleanNext(before, now, depot, images, image, state, busy, external); }
    }

    /** Besides the images to come, managed tags are left on recorded images only, or on referenced ones. */
    ghost predicate CleanBut(before: Depot, now: Depot, images: set<ImageId>, state: State, external: bool) {
      forall t :: t in now.tags && Managed(t) ==>
        now.tags[t] in images || MayStay(before, now.tags[t], state, external)
    }

    ghost predicate MayStay(before: Depot, image: ImageId, state: State, external: bool) {
      image in ProtectedImages(state)
      || (external && (Smooth() && ReferencesStay(before, state) ==> AlwaysReferenced(image)))
    }

    lemma CleanNext(before: Depot, now: Depot, next: Depot, images: set<ImageId>, image: ImageId, state: State,
                    external: bool, after: bool)
      requires CleanBut(before, now, images, state, external) && (external ==> after)
      requires forall t :: t in next.tags ==> t in now.tags && next.tags[t] == now.tags[t]
      requires forall t :: t in next.tags && Managed(t) && next.tags[t] == image ==>
                         MayStay(before, image, state, after)
      ensures CleanBut(before, next, images - {image}, state, after)
    {
    }

    /** One image: keep it for the record's sake or a container's, or remove its managed tags. */
    method Consider(image: ImageId, state: State, dryRun: bool) returns (r: Removal, decision: Option<Decision>)
      modifies this
      ensures Pruned(old(depot), old(tick))
      ensures KeepsRecorded(old(depot), depot, state)
      ensures dryRun ==> r == Removed && depot == old(depot)
      ensures r == Removed && (decision.None? || decision.value == Delete) && !dryRun ==>
                forall t :: t in depot.tags && Managed(t) ==> depot.tags[t] != image
      ensures decision == Some(KeepReferenced) && Smooth() && ReferencesStay(old(depot), state) ==>
                AlwaysReferenced(image)
      ensures decision.Some? ==> (decision.value == KeepRecorded <==> image in ProtectedImages(state))
      ensures decision.Some? <==> image in ManagedImages(old(depot))
      ensures forall other :: other != image ==> KeepsImage(old(depot), depot, other)
      ensures Smooth() && ReferencesStay(old(depot), state) ==> r == Removed
      ensures Smooth() && UnrecordedAreFree(old(depot), state) ==> r == Removed && decision != Some(KeepReferenced)
    {
      var owned := OwnedTags(depot.tags, image);
      if owned == {} {
        assert forall t :: t in depot.tags && Managed(t) && depot.tags[t] == image ==> t in owned;
        return Removed, None;
      }
      var now := tick;
      tick := tick + 1;
      if image in ProtectedImages(state) { return Removed, Some(KeepRecorded); }
      if image in referenced(now) { return Removed, Some(KeepReferenced); }
      if dryRun { return Removed, Some(Delete); }
      r := RemoveOwned(image, owned);
      decision := Some(Delete);
      assert forall t :: t in depot.tags && Managed(t) && depot.tags[t] == image ==> t in owned;
    }

    method RemoveOwned(image: ImageId, owned: set<Tag>) returns (r: Removal)
      requires owned == OwnedTags(depot.tags, image)
      modifies this
      ensures Pruned(old(depot), old(tick))
      ensures forall other :: other != image ==> KeepsImage(old(depot), depot, other)
      ensures r == Removed ==> forall t :: t in owned ==> t !in depot.tags
      ensures Smooth() && NeverReferenced(image) ==> r == Removed
    {
      var rest := owned;
      ghost var before, start := depot, tick;
      while rest != {}
        invariant rest <= owned && Pruned(before, start)
        invariant forall t :: t in rest ==> t in depot.tags
        invariant forall other :: other != image ==> KeepsImage(before, depot, other)
        invariant forall t :: t in owned - rest ==> t !in depot.tags
        decreases rest
      {
        var t :| t in rest;
        rest := rest - {t};
        ghost var now := depot;
        r := RemoveTag(t, image);
        forall other | other != image ensures KeepsImage(before, depot, other) {
          assert KeepsImage(before, now, other) && KeepsImage(now, depot, other);
        }
        if r != Removed { return; }
      }
      r := Removed;
    }
  }
}
