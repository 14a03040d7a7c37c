/** What the recorded releases need in order to be returned to - their images and tags on the host and
    their bundles in the store - and what commands, retention and cleanup leave of it. */
module Survival {
  import opened Releases
  import opened Images
  import opened Deployment
  import opened DeploymentRuns
  import Retention
  import RetentionRun

  function PrefixOf(r: Option<Release>): set<string> {
    if r.Some? && r.value.prefix.Some? && r.value.prefix.value != "" then {r.value.prefix.value} else {}
  }

  function ProtectedPrefixes(r: Receipt): set<string> {
    PrefixOf(Some(r.current)) + PrefixOf(r.previous) + PrefixOf(r.rollbackFrom)
  }

  /** Nothing of the bundles of the recorded releases has been deleted. */
  predicate BundlesKept(s: State, before: Retention.Groups, after: Retention.Groups) {
    forall p :: p in ProtectedPrefixes(ReceiptOf(s)) ==> Retention.At(after, p) == Retention.At(before, p)
  }

  datatype Finish = Complete | Incomplete | Severed

  /** What retention is told under a receipt. */
  function SettingFor(r: Receipt, c: Circumstance): Retention.Setting {
    Retention.Setting(ProtectedPrefixes(r), c.extras, c.unreadable, 5, c.cutoff)
  }

  /** Everything that the run has doomed is gone. */
  ghost predicate Swept(s: Retention.Setting, before: Retention.Groups, after: Retention.Groups) {
    forall p :: Retention.Doomed(before, s, p) ==> Retention.At(after, p) == map[]
  }

  /** Retention under a receipt's protection: at most five successes are kept besides. */
  method Sweep(store: RetentionRun.ReleaseStore, receipt: Receipt, c: Circumstance) returns (r: Finish)
    modifies store
    ensures Retention.Outcome(old(store.groups), store.groups, SettingFor(receipt, c))
    ensures r == Complete ==> Swept(SettingFor(receipt, c), old(store.groups), store.groups)
    ensures store.Smooth() ==> r == Complete
    ensures var setting := SettingFor(receipt, c);
            (exists x :: x in Retention.Retained(old(store.groups), setting) && x.prefix !in ProtectedPrefixes(receipt))
            ==> |Retention.Retained(old(store.groups), setting)| <= 5
    ensures forall p :: p in ProtectedPrefixes(receipt) ==>
              Retention.At(store.groups, p) == Retention.At(old(store.groups), p)
  {
    var setting := SettingFor(receipt, c);
    if x :| x in Retention.Retained(store.groups, setting) && x.prefix !in setting.protected {
      Retention.RetainedWithinKeep(store.groups, setting, x);
    }
    var swept, report := store.RetentionPlan(setting, false);
    forall p | p in setting.protected ensures Retention.At(store.groups, p) == Retention.At(old(store.groups), p) {
      Retention.ProtectedSurvive(old(store.groups), store.groups, setting, p);
    }
    r := if swept == RetentionRun.Killed then Severed else if report.failed != {} then Incomplete else Complete;
  }

  /** After the server has answered with a receipt: retention under the receipt's protection and,
      once that has succeeded, image cleanup under the recorded state. Stopping anywhere, with any
      deletions failing, it leaves the images and bundles of the recorded releases alone. */
  method Finalize(d: Deployer, store: RetentionRun.ReleaseStore, receipt: Receipt, c: Circumstance) returns (r: Finish)
    requires d.stateFile.Some? && receipt == ReceiptOf(d.stateFile.value)
    modifies store, d.host
    ensures BundlesKept(d.stateFile.value, old(store.groups), store.groups)
    ensures KeepsRecorded(old(d.host.depot), d.host.depot, d.stateFile.value)
    ensures OnlyLoses(old(d.host.depot), d.host.depot)
    ensures r == Complete || d.host.depot != old(d.host.depot) ==>
              Swept(SettingFor(receipt, c), old(store.groups), store.groups)
    ensures store.Smooth() && d.host.Smooth() && d.host.UnrecordedAreFree(old(d.host.depot), d.stateFile.value) ==>
              r == Complete
    ensures r == Complete ==>
              forall t :: t in d.host.depot.tags && Managed(t) ==>
                d.host.depot.tags[t] in ProtectedImages(d.stateFile.value)
  {
    r := Sweep(store, receipt, c);
    if r != Complete { return; }
    var removal, decisions := d.host.CleanupImages(d.stateFile.value, false);
    r := if removal == Removed then Complete else if removal == CutOff then Severed else Incomplete;
  }

  /** What one finalization meets: prefixes with unknown objects, prefixes that cannot be read, the age limit. */
  datatype Circumstance = Circumstance(extras: set<string>, unreadable: set<string>, cutoff: Timestamp)

  predicate Finalizes(c: Command) {
    c.DeployCommand? || c.MaintenanceCommand?
  }

  predicate OnlyLoses(before: Depot, after: Depot) {
    && after.images <= before.images
    && forall t :: t in after.tags ==> t in before.tags && after.tags[t] == before.tags[t]
  }

  /** Finalization changes the images only, and nothing of those that the record names. */
  ghost predicate Cleaned(w: World, next: World) {
    && next.disk == w.disk && next.tick == w.tick
    && (next.depot == w.depot
        || (&& w.disk.journal.None? && w.disk.state.Some? && KeepsRecorded(w.depot, next.depot, w.disk.state.value)
            && OnlyLoses(w.depot, next.depot)))
  }

  /** One session under the deployment lock, however the command and its finalization end. */
  method Session(d: Deployer, store: RetentionRun.ReleaseStore, command: Command, c: Circumstance)
    returns (s: Status, r: Finish, ghost mid: World)
    requires Safe(d.OnDisk()) || Stranded(d.OnDisk())
    modifies d, d.host, store
    ensures Attended(old(WorldOf(d)), command, s, mid, WorldOf(d), d.chance)
    ensures d.stateFile.Some? ==> BundlesKept(d.stateFile.value, old(store.groups), store.groups)
    ensures NamedBundlesKept(d.OnDisk(), old(store.groups), store.groups)
    ensures (command.MaintenanceCommand? || (command.DeployCommand? && !command.request.dryRun)) && s == Ok
            && store.Smooth() && d.host.Smooth() && d.stateFile.Some?
            && d.host.UnrecordedAreFree(mid.depot, d.stateFile.value)
            ==> r == Complete
    ensures r == Complete ==> s == Ok && Finalizes(command)
  {
    var receipt;
    s, receipt := Perform(d, command);
    mid := WorldOf(d);
    r := Incomplete;
    if Finalizes(command) && receipt.Some? {
      r := Finalize(d, store, receipt.value, c);
      forall release | NamedBy(d.OnDisk(), release) && release.prefix.Some?
        ensures Retention.At(store.groups, release.prefix.value) ==
                  Retention.At(old(store.groups), release.prefix.value)
      {
        NamedIsIdentified(d.OnDisk(), release);
      }
    }
  }

  /** Nothing of the bundles that the record or the journal names has been deleted. */
  ghost predicate NamedBundlesKept(d: Disk, before: Retention.Groups, after: Retention.Groups) {
    forall r :: NamedBy(d, r) && r.prefix.Some? ==>
      Retention.At(after, r.prefix.value) == Retention.At(before, r.prefix.value)
  }

  lemma NamedIsIdentified(d: Disk, r: Release)
    requires (Safe(d) || Stranded(d)) && NamedBy(d, r)
    ensures Identified(r)
    ensures r.prefix.Some? ==> r.prefix.value != ""
  {
    assert ROOT_PREFIX[0] == 't';
    if !r.legacy {
      assert ReleasePrefix(r.manifest.version, r.manifest.gitRevision)[0] == ROOT_PREFIX[0];
    }
  }

  // ---- whole runs ----

  /** Any sessions: each performs its command and then perhaps cleans up. */
  ghost predicate Served(trail: seq<World>, mids: seq<World>, commands: seq<Command>, status: seq<Status>,
                         chance: Schedule)
  {
    && |trail| == |commands| + 1 && |mids| == |status| == |commands|
    && Safe(trail[0].disk)
    && forall i :: 0 <= i < |commands| ==> Attended(trail[i], commands[i], status[i], mids[i], trail[i + 1], chance)
  }

  /** One session: its command, and then perhaps the cleanup. */
  ghost predicate Attended(w: World, c: Command, s: Status, mid: World, next: World, chance: Schedule) {
    Performed(w, c, s, mid, chance) && Cleaned(mid, next)
  }

  /** A session leaves each release that is then recorded startable, exactly when its command did not
      load another image for that release's version and revision. */
  lemma SessionKeepsStartable(w: World, c: Command, s: Status, mid: World, next: World, chance: Schedule, r: Release)
    requires Attended(w, c, s, mid, next, chance) && Startable(w.depot, r)
    requires next.disk.state.Some? && Returnable(next.disk.state.value, r)
    ensures Startable(next.depot, r) <==> !TakesFrom(w, c, chance, r)
  {
    StepKeepsStartable(w, c, s, mid, chance, r);
    if next.depot != mid.depot {
      assert KeepsImage(mid.depot, next.depot, RuntimeImage(r));
    }
  }

  /** The session moves the tag of the request's version and revision away from this image. */
  ghost predicate MovesTagOf(w: World, c: Command, chance: Schedule, image: ImageId) {
    && LoadsAt(w, c, chance)
    && var tag := ReleaseTag(c.request.version, c.request.revision);
    && c.request.fetched.value.image != image
    && tag in w.depot.tags && w.depot.tags[tag] == image
  }

  /** The image of a release that is recorded after a session keeps all its tags, exactly when the
      session did not move the one tag that the request is about away from it. */
  lemma SessionKeepsTags(w: World, c: Command, s: Status, mid: World, next: World, chance: Schedule, r: Release)
    requires Attended(w, c, s, mid, next, chance)
    requires next.disk.state.Some? && Returnable(next.disk.state.value, r)
    ensures KeepsImage(w.depot, next.depot, RuntimeImage(r)) <==> !MovesTagOf(w, c, chance, RuntimeImage(r))
  {
    CommandMovesTag(w, c, s, mid, chance, RuntimeImage(r));
    CleanupKeepsTags(w.depot, mid, next, r);
  }

  lemma CommandMovesTag(w: World, c: Command, s: Status, mid: World, chance: Schedule, image: ImageId)
    requires Performed(w, c, s, mid, chance)
    ensures KeepsImage(w.depot, mid.depot, image) <==> !MovesTagOf(w, c, chance, image)
  {
    if MovesTagOf(w, c, chance, image) {
      assert mid.depot.tags[ReleaseTag(c.request.version, c.request.revision)] == c.request.fetched.value.image;
    }
  }

  /** A cleanup takes nothing from a recorded image, and gives nothing back. */
  lemma CleanupKeepsTags(before: Depot, mid: World, next: World, r: Release)
    requires Cleaned(mid, next) && next.disk.state.Some? && Returnable(next.disk.state.value, r)
    ensures KeepsImage(before, next.depot, RuntimeImage(r)) <==> KeepsImage(before, mid.depot, RuntimeImage(r))
  {
    if next.depot != mid.depot {
      assert KeepsImage(mid.depot, next.depot, RuntimeImage(r));
    }
  }

  lemma SessionKeepsReady(w: World, c: Command, s: Status, mid: World, next: World, chance: Schedule)
    requires Attended(w, c, s, mid, next, chance) && Ready(w.disk, w.depot)
    requires forall r :: NamedBy(w.disk, r) ==> !TakesFrom(w, c, chance, r)
    ensures Ready(next.disk, next.depot)
  {
    StepKeepsReady(w, c, s, mid, chance);
    if next.depot != mid.depot {
      forall r | NamedBy(next.disk, r) ensures Startable(next.depot, r) {
        assert KeepsImage(mid.depot, next.depot, RuntimeImage(r));
        KeptIsStartable(mid.depot, next.depot, r);
      }
    }
  }

  /** Over any run of sessions, whatever fails in them, every release that the machine may have to start
      can be started, as long as no command loads another image for the version and revision of one. */
  lemma {:induction false} SessionsKeepReady(trail: seq<World>, mids: seq<World>, commands: seq<Command>,
                                             status: seq<Status>, chance: Schedule, i: nat)
    requires Served(trail, mids, commands, status, chance) && i < |trail|
    requires Ready(trail[0].disk, trail[0].depot) && NoLossWithin(trail, commands, chance, i)
    ensures Ready(trail[i].disk, trail[i].depot)
  {
    if i > 0 {
      SessionsKeepReady(trail, mids, commands, status, chance, i - 1);
      assert Attended(trail[i - 1], commands[i - 1], status[i - 1], mids[i - 1], trail[i], chance);
      SessionKeepsReady(trail[i - 1], commands[i - 1], status[i - 1], mids[i - 1], trail[i], chance);
    }
  }

  /** The release is recorded after the session, which moved no tag away from its image. */
  ghost predicate TagsSpared(w: World, c: Command, next: World, chance: Schedule, r: Release) {
    && next.disk.state.Some? && Returnable(next.disk.state.value, r)
    && !MovesTagOf(w, c, chance, RuntimeImage(r))
  }

  /** The image of a release that stays recorded keeps all its tags over any stretch of sessions in which
      no request is about a tag of that image. */
  lemma {:induction false} SessionsKeepTags(trail: seq<World>, mids: seq<World>, commands: seq<Command>,
                                            status: seq<Status>, chance: Schedule, i: nat, j: nat, r: Release)
    requires Served(trail, mids, commands, status, chance) && i <= j < |trail|
    requires forall k :: i < k <= j ==> TagsSpared(trail[k - 1], commands[k - 1], trail[k], chance, r)
    ensures KeepsImage(trail[i].depot, trail[j].depot, RuntimeImage(r))
    decreases j - i
  {
    if i < j {
      SessionsKeepTags(trail, mids, commands, status, chance, i, j - 1, r);
      var k := j - 1;
      assert TagsSpared(trail[k], commands[k], trail[j], chance, r);
      assert Attended(trail[k], commands[k], status[k], mids[k], trail[k + 1], chance);
      SessionKeepsTags(trail[k], commands[k], status[k], mids[k], trail[k + 1], chance, r);
    }
  }

  // ---- the store along a run of sessions ----

  /** Between two sessions other writers add objects to the store, and replace none. */
  predicate Uploaded(before: Retention.Groups, after: Retention.Groups) {
    forall p :: p in before ==>
      p in after && forall n :: n in before[p] ==> n in after[p] && after[p][n] == before[p][n]
  }

  /** Puts objects under names that are free. */
  method Upload(store: RetentionRun.ReleaseStore, more: Retention.Groups)
    modifies store
    ensures Uploaded(old(store.groups), store.groups)
  {
    store.groups := map p | p in store.groups.Keys + more.Keys :: Retention.At(more, p) + Retention.At(store.groups, p);
  }

  /** What the store held when each session began and when it ended. */
  ghost predicate StoresKept(trail: seq<World>, begun: seq<Retention.Groups>, ended: seq<Retention.Groups>) {
    && |trail| == |begun| + 1 && |ended| == |begun|
    && (forall i :: 0 <= i < |ended| ==>
          && NamedBundlesKept(trail[i + 1].disk, begun[i], ended[i])
          && (trail[i + 1].disk.state.Some? ==> BundlesKept(trail[i + 1].disk.state.value, begun[i], ended[i])))
    && (forall i :: 0 < i < |begun| ==> Uploaded(ended[i - 1], begun[i]))
  }

  /** What one session meets: what was uploaded before it, and its circumstances. */
  datatype Visit = Visit(command: Command, uploads: Retention.Groups, circumstance: Circumstance)

  function CommandsOf(visits: seq<Visit>): (commands: seq<Command>)
    ensures |commands| == |visits| && forall i :: 0 <= i < |visits| ==> commands[i] == visits[i].command
  {
    seq(|visits|, i requires 0 <= i < |visits| => visits[i].command)
  }

  /** Any sessions in a row. */
  method Serve(d: Deployer, store: RetentionRun.ReleaseStore, visits: seq<Visit>)
    returns (trail: seq<World>, begun: seq<Retention.Groups>, ended: seq<Retention.Groups>, status: seq<Status>,
             ghost mids: seq<World>)
    requires Safe(d.OnDisk())
    modifies d, d.host, store
    ensures Served(trail, mids, CommandsOf(visits), status, d.chance) && StoresKept(trail, begun, ended)
    ensures trail[0] == old(WorldOf(d))
  {
    trail, begun, ended, status, mids := [WorldOf(d)], [], [], [], [];
    for n := 0 to |visits|
      invariant Served(trail, mids, CommandsOf(visits[..n]), status, d.chance) && StoresKept(trail, begun, ended)
      invariant trail[0] == old(WorldOf(d)) && trail[n] == WorldOf(d)
      invariant n > 0 ==> ended[n - 1] == store.groups
      invariant Safe(trail[n].disk) || Stranded(trail[n].disk)
    {
      Upload(store, visits[n].uploads);
      ghost var start := store.groups;
      begun := begun + [store.groups];
      var s, r, mid := Session(d, store, visits[n].command, visits[n].circumstance);
      StoresLonger(trail, begun[..n], ended, WorldOf(d), start, store.groups);
      ServedLonger(trail, mids, CommandsOf(visits[..n]), status, d.chance, visits[n].command, s, mid, WorldOf(d));
      assert CommandsOf(visits[..n + 1]) == CommandsOf(visits[..n]) + [visits[n].command];
      trail, ended := trail + [WorldOf(d)], ended + [store.groups];
      status, mids := status + [s], mids + [mid];
    }
    assert visits[..|visits|] == visits;
  }

  lemma StoresLonger(trail: seq<World>, begun: seq<Retention.Groups>, ended: seq<Retention.Groups>, next: World,
                     start: Retention.Groups, end: Retention.Groups)
    requires StoresKept(trail, begun, ended) && (|ended| > 0 ==> Uploaded(ended[|ended| - 1], start))
    requires NamedBundlesKept(next.disk, start, end)
    requires next.disk.state.Some? ==> BundlesKept(next.disk.state.value, start, end)
    ensures StoresKept(trail + [next], begun + [start], ended + [end])
  {
  }

  lemma ServedLonger(trail: seq<World>, mids: seq<World>, commands: seq<Command>, status: seq<Status>, chance: Schedule,
                     c: Command, s: Status, mid: World, next: World)
    requires Served(trail, mids, commands, status, chance)
    requires Attended(trail[|commands|], c, s, mid, next, chance)
    ensures Served(trail + [next], mids + [mid], commands + [c], status + [s], chance)
  {
  }

  /** Over any run of sessions, whatever fails in them: no recorded bundle loses an object, and every
      release that the machine may have to start can be started, as long as no command loads another
      image for the version and revision of one. */
  method ServeAll(d: Deployer, store: RetentionRun.ReleaseStore, visits: seq<Visit>)
    returns (trail: seq<World>, begun: seq<Retention.Groups>, ended: seq<Retention.Groups>, status: seq<Status>,
             ghost mids: seq<World>)
    requires Safe(d.OnDisk()) && Ready(d.OnDisk(), d.host.depot)
    modifies d, d.host, store
    ensures Served(trail, mids, CommandsOf(visits), status, d.chance) && StoresKept(trail, begun, ended)
    ensures forall i :: 0 <= i < |trail| && NoLossWithin(trail, CommandsOf(visits), d.chance, i) ==>
              Ready(trail[i].disk, trail[i].depot)
  {
    trail, begun, ended, status, mids := Serve(d, store, visits);
    forall i | 0 <= i < |trail| && NoLossWithin(trail, CommandsOf(visits), d.chance, i)
      ensures Ready(trail[i].disk, trail[i].depot)
    {
      SessionsKeepReady(trail, mids, CommandsOf(visits), status, d.chance, i);
    }
  }
}
