/** The journalled deployment entry point: promotion, its failure branch, recovery,
    adoption, and the two-file AI configuration that shares the same journal.

    Every effect consults a schedule that may end the process before or after the
    effect (Killed), or raise with or without the effect having happened (Raised).
    A method's postcondition therefore speaks of every point at which it can stop. */
module Deployment {
  import opened Releases
  import opened Images

  datatype Failure = Refused | Broken | Restored | RecoveryRequired

  datatype Status = Ok | Raised(error: Failure) | Killed {
    predicate IsFailure() { !Ok? }
    function PropagateFailure(): Status
      requires IsFailure()
    {
      this
    }
  }

  datatype Left = OldContainer | NewContainer | NoContainer

  /** What the environment does at one effect. */
  datatype Chance = Chance(kill: bool, raise: bool, took: bool, left: Left, healthy: bool, now: Timestamp)

  type Schedule = nat -> Chance

  predicate Passes(c: Chance) {
    !c.kill && !c.raise
  }

  predicate Takes(c: Chance) {
    c.took || Passes(c)
  }

  predicate Interrupts(c: Chance) {
    c.raise && !c.kill
  }

  function Reported(c: Chance): Status {
    if c.kill then Killed else if c.raise then Raised(Broken) else Ok
  }

  predicate Calm(c: Chance) {
    Passes(c) && c.left == NewContainer && c.healthy
  }

  predicate PassesFor(chance: Schedule, from: nat, count: nat)
    decreases count
  {
    count == 0 || (Passes(chance(from)) && PassesFor(chance, from + 1, count - 1))
  }

  predicate ThreePass(chance: Schedule, from: nat) {
    Passes(chance(from)) && Passes(chance(from + 1)) && Passes(chance(from + 2))
  }

  ghost predicate CalmFor(chance: Schedule, from: nat, count: nat) {
    forall n: nat :: from <= n < from + count ==> Calm(chance(n))
  }

  ghost predicate CalmFrom(chance: Schedule, from: nat) {
    forall n: nat :: from <= n ==> Calm(chance(n))
  }

  /** One effect may raise, and whatever comes with that; no other is in trouble. */
  ghost predicate OneTrouble(chance: Schedule, from: nat) {
    exists k: nat :: !chance(k).kill && CalmBut(chance, from, k)
  }

  ghost predicate CalmBut(chance: Schedule, from: nat, k: nat) {
    forall n: nat :: from <= n && n != k ==> Calm(chance(n))
  }

  datatype Candidate = Candidate(compose: string, env: string, generated: bool)

  /** Four byte strings: the contents of a backup directory, and equally their checksums. */
  datatype Backup = Backup(composeBefore: string, composeAfter: string, envBefore: string, envAfter: string)

  datatype Transaction =
    | Promotion(before: State, target: Release)
    | Configuration(before: State, after: State, backup: string, files: Backup)

  /** Everything that outlives the process, but for the images. */
  datatype Disk = Disk(
    state: Option<State>, journal: Option<Transaction>, running: Option<ImageId>,
    compose: string, env: string, backups: map<string, Backup>)

  /** A downloaded bundle: its manifest, and the image that its archive becomes on this host. */
  datatype Bundle = Bundle(manifest: Manifest, image: ImageId)

  datatype Request = Request(
    version: Version, revision: string, key: string, checksum: Checksum,
    rollback: bool, dryRun: bool, fetched: Option<Bundle>)

  function Promoted(before: State, target: Release, rollback: bool, now: Timestamp): State {
    before.(current := target, previous := Some(before.current),
    rollbackFrom := if rollback then Some(before.current) else None, deployedAt := now)
  }

  /** The writes of one promotion, as recovery may find them. */
  predicate PromotionUnderway(d: Disk, before: State, target: Release) {
    && d.state.Some?
    && WellKept(before) && Identified(target)
    && Compatible(before.current, target, false)
    && before.configuration == ConfigurationHash(d.compose, d.env)
    && (d.state.value == before
        || (&& d.state.value == Promoted(before, target, d.state.value.rollbackFrom.Some?, d.state.value.deployedAt)
            && Succeeds(before, d.state.value)))
  }

  /** The writes of one configuration change, as recovery may find them. */
  predicate ConfigurationUnderway(d: Disk, before: State, after: State, backup: string, files: Backup) {
    && d.state.Some? && (d.state.value == before || d.state.value == after)
    && WellKept(before)
    && before.configuration == ConfigurationHash(files.composeBefore, files.envBefore)
    && after == before.(configuration := ConfigurationHash(files.composeAfter, files.envAfter))
    && (d.compose == files.composeBefore || d.compose == files.composeAfter)
    && (d.env == files.envBefore || d.env == files.envAfter)
    && backup in d.backups && d.backups[backup] == files
  }

  predicate Recorded(d: Disk) {
    d.journal.None?
    && (d.state.Some? ==>
          && WellKept(d.state.value)
          && d.state.value.configuration == ConfigurationHash(d.compose, d.env))
  }

  predicate Settled(d: Disk) {
    Recorded(d) && (d.state.Some? ==> d.running == Some(RuntimeImage(d.state.value.current)))
  }

  /** The record is in order and no journal is left, yet the recorded container is gone. */
  predicate Stranded(d: Disk) {
    Recorded(d) && d.state.Some? && d.running != Some(RuntimeImage(d.state.value.current))
  }

  /** The invariant of every moment but one: see Configure. */
  predicate Safe(d: Disk) {
    match d.journal
    case None => Settled(d)
    case Some(Promotion(before, target)) => PromotionUnderway(d, before, target)
    case Some(Configuration(before, after, backup, files)) =>
      ConfigurationUnderway(d, before, after, backup, files)
  }

  ghost predicate AllSane(moments: set<Disk>) {
    forall d :: d in moments ==> Safe(d) || Stranded(d)
  }

  /** The state that the latest journal-free moment recorded. */
  function Baseline(d: Disk): Option<State> {
    match d.journal
    case None => d.state
    case Some(t) => Some(t.before)
  }

  predicate Advances(a: Option<State>, b: Option<State>) {
    a.Some? ==> b.Some? && Succeeds(a.value, b.value)
  }

  // ---- which releases the machine may have to start ----

  predicate Returnable(s: State, r: Release) {
    r == s.current || s.previous == Some(r)
  }

  /** The releases that the record or an unfinished transaction names. */
  predicate NamedBy(d: Disk, r: Release) {
    || (d.state.Some? && Returnable(d.state.value, r))
    || (d.journal.Some? && (Returnable(d.journal.value.before, r)
                            || (d.journal.value.Promotion? && r == d.journal.value.target)))
  }

  /** Every named release can be started, and before adoption the image in use is there. */
  ghost predicate Ready(d: Disk, x: Depot) {
    && (forall r :: NamedBy(d, r) ==> Startable(x, r))
    && (d.state.None? && d.running.Some? ==> d.running.value in x.images)
  }

  /** Every release that has come to be named can be started, and was adopted or has this manifest. */
  ghost predicate Newcomers(before: Disk, d: Disk, x: Depot, downloaded: Option<Manifest>) {
    forall r :: NamedBy(d, r) && !NamedBy(before, r) ==> Startable(x, r) && (r.legacy || downloaded == Some(r.manifest))
  }

  /** The manifest that was fetched, when it is of the version, revision and place that was asked for. */
  function AskedFor(q: Request): Option<Manifest> {
    if q.fetched.Some? && q.key == ReleasePrefix(q.version, q.revision)
       && q.fetched.value.manifest.version == q.version && q.fetched.value.manifest.gitRevision == q.revision
    then Some(q.fetched.value.manifest) else None
  }

  // ---- what one deployment loads ----

  function Downloaded(q: Request): Release
    requires q.fetched.Some?
  {
    Release(false, Some(q.key), Some(q.checksum), q.fetched.value.manifest, None)
  }

  /** The release once its bundle is loaded. */
  function Running(q: Request): Release
    requires q.fetched.Some?
  {
    Downloaded(q).(runtimeImageId := Some(q.fetched.value.image))
  }

  /** The release runs, is recorded, and follows the one that was recorded before. */
  predicate Follows(d: Disk, before: State, r: Release, rollback: bool) {
    && Settled(d) && d.state.Some? && d.state.value.current == r && d.state.value.previous == Some(before.current)
    && d.state.value.rollbackFrom == (if rollback then Some(before.current) else None)
  }

  /** The adopted release has been named after the bundle with the same image. */
  predicate RenamesFrom(before: State, r: Receipt) {
    && before.current.legacy && !r.current.legacy && RuntimeImage(r.current) == before.current.manifest.imageId
    && r.current.manifest.version == before.current.manifest.version
    && r.current.manifest.gitRevision == before.current.manifest.gitRevision
    && r.previous == before.previous && r.rollbackFrom == before.rollbackFrom
  }

  /** What a receipt says of the releases before: nothing has changed, or the adopted release has been
      named after its bundle, or the recorded one has become the previous one. */
  predicate StepsFrom(before: State, r: Receipt, rollback: bool) {
    || r == ReceiptOf(before)
    || RenamesFrom(before, r)
    || (r.previous == Some(before.current) && r.rollbackFrom == (if rollback then Some(before.current) else None))
  }

  /** The release is the one that was downloaded, whatever image it has become. */
  predicate Identifies(r: Release, downloaded: Release) {
    r.prefix == downloaded.prefix && r.manifestSha256 == downloaded.manifestSha256 && r.manifest == downloaded.manifest
  }

  /** The adopted release and the bundle may be the same. */
  predicate Matches(current: Release, m: Manifest) {
    && current.legacy
    && (|| current.manifest.imageId == m.imageId
        || (current.manifest.version == m.version && current.manifest.gitRevision == m.gitRevision))
  }

  /** The bundle has to be loaded: it is not the image that is running already. */
  predicate NeedsLoad(current: Release, x: Depot, m: Manifest) {
    var tag := ReleaseTag(m.version, m.gitRevision);
    && m.imageId != current.manifest.imageId
    && (Matches(current, m) ==> tag in x.tags && x.tags[tag] != RuntimeImage(current))
  }

  /** A bundle is loaded for its own image only; a bundle that goes by the identity of the adopted release
      is loaded when its tag is there and names another image. */
  lemma LoadsNewImages(current: Release, x: Depot, m: Manifest)
    requires Identified(current)
    ensures !current.legacy ==> (NeedsLoad(current, x, m) <==> m.imageId != current.manifest.imageId)
    ensures current.legacy && (m.version != current.manifest.version || m.gitRevision != current.manifest.gitRevision)
            ==> (NeedsLoad(current, x, m) <==> m.imageId != current.manifest.imageId)
    ensures current.legacy && m.version == current.manifest.version && m.gitRevision == current.manifest.gitRevision
            ==> (NeedsLoad(current, x, m) <==>
                  && m.imageId != current.manifest.imageId
                  && ReleaseTag(m.version, m.gitRevision) in x.tags
                  && x.tags[ReleaseTag(m.version, m.gitRevision)] != current.manifest.imageId)
  {
  }

  function Lookups(current: Release, m: Manifest): nat {
    if Matches(current, m) then 1 else 0
  }

  /** The local previous release is the one that is asked for. */
  predicate ReturnsTo(s: State, q: Request) {
    && q.rollback && s.previous.Some?
    && s.previous.value.manifestSha256 == Some(q.checksum) && s.previous.value.prefix == Some(q.key)
  }

  /** The request passes the checks before anything is touched, and is meant. */
  predicate Admitted(d: Disk, q: Request) {
    && d.journal.None? && d.state.Some? && q.key == ReleasePrefix(q.version, q.revision) && !q.dryRun
    && d.state.value.configuration == ConfigurationHash(d.compose, d.env)
    && d.running == Some(RuntimeImage(d.state.value.current))
    && (q.rollback || AtLeast(q.version, d.state.value.current.manifest.version))
  }

  /** Nothing but trouble along the way keeps the request from loading its bundle. */
  predicate Loadable(d: Disk, x: Depot, q: Request) {
    Admitted(d, q) && !ReturnsTo(d.state.value, q) && Asked(d.state.value, x, q)
  }

  /** The bundle is the one that was asked for, and may follow the recorded release. */
  predicate Fitting(s: State, q: Request) {
    && q.fetched.Some?
    && var m := q.fetched.value.manifest;
    && ChecksumOf(m) == q.checksum && m.version == q.version && m.gitRevision == q.revision
    && Compatible(s.current, Downloaded(q), q.rollback)
  }

  /** Such a bundle has to be loaded. */
  predicate Asked(s: State, x: Depot, q: Request) {
    Fitting(s, q) && NeedsLoad(s.current, x, q.fetched.value.manifest)
  }

  /** The image behind the bundle's tag runs already, under the bundle's manifest or as the adopted
      release of the same identity. */
  predicate AtHand(current: Release, x: Depot, m: Manifest) {
    var tag := ReleaseTag(m.version, m.gitRevision);
    && tag in x.tags && x.tags[tag] == RuntimeImage(current)
    && (if current.legacy
        then current.manifest.version == m.version && current.manifest.gitRevision == m.gitRevision
             && current.manifest.requiredMigrations == m.requiredMigrations
        else current.manifest == m)
  }

  /** Nothing but trouble along the way keeps the request from being met with the images at hand: it goes
      back to the previous release, or the image that is asked for runs already. */
  predicate Repeats(d: Disk, x: Depot, q: Request) {
    && Admitted(d, q)
    && var s := d.state.value;
    if ReturnsTo(s, q) then Compatible(s.current, s.previous.value, true) && Startable(x, s.previous.value)
    else Fitting(s, q) && AtHand(s.current, x, q.fetched.value.manifest)
  }

  /** The effects before the load pass, and the load takes. */
  predicate Reaches(chance: Schedule, from: nat, lookups: nat) {
    PassesFor(chance, from, lookups) && Passes(chance(from + lookups)) && Takes(chance(from + lookups + 1))
  }

  /** The effects up to and with the load pass. */
  predicate GetsLoaded(chance: Schedule, from: nat, lookups: nat) {
    PassesFor(chance, from, lookups) && Passes(chance(from + lookups)) && Passes(chance(from + lookups + 1))
  }

  /** The same, with the download before them. */
  predicate FetchPasses(chance: Schedule, from: nat, lookups: nat) {
    Passes(chance(from)) && GetsLoaded(chance, from + 1, lookups)
  }

  /** The same, from the start of the deployment. */
  predicate PastLoad(chance: Schedule, from: nat, lookups: nat) {
    Passes(chance(from)) && FetchPasses(chance, from + 1, lookups)
  }

  /** The bundle asked for is downloaded and loaded. */
  predicate FetchLoads(chance: Schedule, tick: nat, before: State, x: Depot, q: Request) {
    && Asked(before, x, q) && Passes(chance(tick))
    && Reaches(chance, tick + 1, Lookups(before.current, q.fetched.value.manifest))
  }

  /** The deployment that begins at this tick loads its bundle. */
  predicate Loads(chance: Schedule, tick: nat, d: Disk, x: Depot, q: Request) {
    Loadable(d, x, q) && Passes(chance(tick)) && FetchLoads(chance, tick + 1, d.state.value, x, q)
  }

  // ---- what one configuration change strands ----

  predicate Changes(d: Disk, x: Depot, candidate: Option<Candidate>, backup: string) {
    && Settled(d) && d.state.Some? && Startable(x, d.state.value.current)
    && candidate.Some? && (candidate.value.compose != d.compose || candidate.value.env != d.env)
    && backup !in d.backups
  }

  /** The audit, both files, the restart under them, its key, the new record, its audit and the unlinked
      journal pass, and then comes an exception. */
  predicate LateException(chance: Schedule, t: nat) {
    && ThreePass(chance, t) && ThreePass(chance, t + 3) && ThreePass(chance, t + 6)
    && chance(t + 3).left != NoContainer && chance(t + 4).healthy
    && Interrupts(chance(t + 9))
  }

  /** The restart without a journal leaves no container. */
  predicate LosesContainer(chance: Schedule, t: nat) {
    Passes(chance(t)) && Passes(chance(t + 1)) && chance(t + 2).left == NoContainer
  }

  /** The journal is written, a late exception follows, and the container is lost. */
  predicate StrandsJournal(chance: Schedule, t: nat) {
    Passes(chance(t)) && LateException(chance, t + 1) && LosesContainer(chance, t + 11)
  }

  /** The backup comes first. */
  predicate StrandsFrom(chance: Schedule, t: nat) {
    Passes(chance(t)) && StrandsJournal(chance, t + 1)
  }

  /** A generated candidate needs one check more. */
  predicate StrandsGenerated(chance: Schedule, t: nat, generated: bool) {
    if generated then Passes(chance(t)) && StrandsFrom(chance, t + 1) else StrandsFrom(chance, t)
  }

  /** The schedules under which a configuration change that begins at t strands the machine. */
  predicate StrandedBy(chance: Schedule, t: nat, generated: bool) {
    Passes(chance(t)) && chance(t).healthy && StrandsGenerated(chance, t + 1, generated)
  }

  // ---- how a promotion that has written its journal fails ----

  /** After the switch it is the target that runs. */
  predicate LeavesTarget(c: Chance, same: bool) {
    c.left == NewContainer || (c.left == OldContainer && same)
  }

  /** The switch to the target raises. */
  predicate SwitchFails(chance: Schedule, t: nat, startable: bool) {
    !chance(t).kill && (chance(t).raise || !startable)
  }

  /** The switch passes, and the health gate of the target raises. The target and the release before
      it may be the same image. */
  predicate GateFails(chance: Schedule, t: nat, startable: bool, same: bool) {
    && startable && Passes(chance(t)) && !chance(t + 1).kill
    && (chance(t + 1).raise || !chance(t + 1).healthy || !LeavesTarget(chance(t), same))
  }

  /** The switch and the gate pass, and the write of the new record raises. */
  predicate WriteFails(chance: Schedule, t: nat, startable: bool, same: bool) {
    && startable && Passes(chance(t)) && LeavesTarget(chance(t), same)
    && Passes(chance(t + 1)) && chance(t + 1).healthy && Interrupts(chance(t + 2))
  }

  /** The process is killed at the switch, at the gate or at the write. */
  predicate Dies(chance: Schedule, t: nat, startable: bool, same: bool) {
    || chance(t).kill
    || (&& startable && Passes(chance(t))
        && (|| chance(t + 1).kill
            || (LeavesTarget(chance(t), same) && Passes(chance(t + 1)) && chance(t + 1).healthy && chance(t + 2).kill)))
  }

  /** One of the three raises, and no trouble comes after it. */
  ghost predicate FailsOnce(chance: Schedule, t: nat, startable: bool, same: bool) {
    || (SwitchFails(chance, t, startable) && CalmFrom(chance, t + 1))
    || (GateFails(chance, t, startable, same) && CalmFrom(chance, t + 2))
    || (WriteFails(chance, t, startable, same) && CalmFrom(chance, t + 3))
  }

  // ---- what only trouble along the way can keep from succeeding ----

  predicate MayRollBack(d: Disk, x: Depot) {
    && Settled(d) && d.state.Some? && d.state.value.previous.Some?
    && Compatible(d.state.value.current, d.state.value.previous.value, true)
    && Startable(x, d.state.value.previous.value)
  }

  predicate Recoverable(d: Disk, x: Depot) {
    Safe(d) && d.state.Some? && (d.journal.None? || Startable(x, d.state.value.current))
  }

  function WithBundle(x: Depot, bundle: Bundle): Depot {
    Loaded(x, bundle.manifest.version, bundle.manifest.gitRevision, bundle.image)
  }

  function Adopted(version: Version, revision: string, image: ImageId, migrations: seq<Migration>): Release {
    Release(true, None, None, Manifest(version, revision, image, migrations, SameMigrationsOnly), None)
  }

  class Deployer {
    var stateFile: Option<State>
    var journal: Option<Transaction>
    var running: Option<ImageId>
    var composeFile: string
    var envFile: string
    var backups: map<string, Backup>

    const host: ImageHost
    const chance: Schedule
    var tick: nat
    // The release whose health gate passed last, with no container switch since.
    ghost var vetted: Option<Release>
    // The disk after every effect so far.
    ghost var moments: set<Disk>

    constructor (chance: Schedule, host: ImageHost, running: Option<ImageId>, compose: string, env: string)
      ensures OnDisk() == Disk(None, None, running, compose, env, map[])
      ensures this.chance == chance && this.host == host && tick == 0 && moments == {OnDisk()}
    {
      this.chance, this.host := chance, host;
      stateFile, journal, this.running, backups := None, None, running, map[];
      composeFile, envFile, tick, vetted := compose, env, 0, None;
      moments := {Disk(None, None, running, compose, env, map[])};
    }

    function OnDisk(): Disk
      reads this
    {
      Disk(stateFile, journal, running, composeFile, envFile, backups)
    }

    predicate CanStart(r: Release)
      reads host
    {
      Startable(host.depot, r)
    }

    /** Every disk in between has been added, and was as good as those before. */
    twostate predicate Watched()
      reads this
    {
      && old(moments) <= moments && (AllSane(old(moments)) ==> AllSane(moments))
      && (old(OnDisk() in moments) ==> OnDisk() in moments)
    }

    /** The disk of this moment has been added. */
    twostate predicate Noted()
      reads this
    {
      OnDisk() in moments && old(moments) <= moments && (Safe(OnDisk()) || Stranded(OnDisk()) ==> Watched())
    }

    // ---- effects ----

    /** Auditing, reading, downloading and inspecting: may stop, leaves the disk alone. */
    method Checkpoint() returns (s: Status)
      modifies `tick
      ensures s == Reported(chance(old(tick))) && tick == old(tick) + 1
    {
      s := Reported(chance(tick));
      tick := tick + 1;
    }

    /** The audit of a failure, whose own exceptions are swallowed. */
    method Evidence() returns (s: Status)
      modifies `tick
      ensures s == if chance(old(tick)).kill then Killed else Ok
      ensures tick == old(tick) + 1
    {
      s := if chance(tick).kill then Killed else Ok;
      tick := tick + 1;
    }

    method WriteJournal(t: Transaction) returns (s: Status)
      modifies `tick, `journal, `moments
      ensures Noted()
      ensures s == Reported(chance(old(tick))) && tick == old(tick) + 1
      ensures journal == if Takes(chance(old(tick))) then Some(t) else old(journal)
    {
      s := Reported(chance(tick));
      if Takes(chance(tick)) { journal := Some(t); }
      tick := tick + 1;
      moments := moments + {OnDisk()};
    }

    /** A failed unlink removes nothing, and unlinking an absent journal raises. */
    method UnlinkJournal() returns (s: Status)
      modifies `tick, `journal, `moments
      ensures Noted()
      ensures tick == old(tick) + 1 && (s == Ok || s == Raised(Broken) || s == Killed)
      ensures s == Ok <==> Passes(chance(old(tick))) && old(journal).Some?
      ensures s == Killed <==> chance(old(tick)).kill
      ensures journal == old(journal) || journal == None
      ensures s == Ok ==> journal == None
      ensures s == Raised(Broken) ==> journal == old(journal)
    {
      var c := chance(tick);
      tick := tick + 1;
      s := if c.kill then Killed else if c.raise || journal.None? then Raised(Broken) else Ok;
      if s == Ok || (c.kill && c.took) { journal := None; }
      moments := moments + {OnDisk()};
    }

    /** Only a release that has just passed its health gate is ever recorded as current. */
    method ReplaceState(state: State) returns (s: Status)
      requires vetted == Some(state.current)
      modifies `tick, `stateFile, `moments
      ensures Noted()
      ensures s == Reported(chance(old(tick))) && tick == old(tick) + 1
      ensures stateFile == if Takes(chance(old(tick))) then Some(state) else old(stateFile)
    {
      s := Reported(chance(tick));
      if Takes(chance(tick)) { stateFile := Some(state); }
      tick := tick + 1;
      moments := moments + {OnDisk()};
    }

    method ReplaceCompose(bytes: string) returns (s: Status)
      modifies `tick, `composeFile, `moments
      ensures Noted()
      ensures s == Reported(chance(old(tick))) && tick == old(tick) + 1
      ensures composeFile == if Takes(chance(old(tick))) then bytes else old(composeFile)
    {
      s := Reported(chance(tick));
      if Takes(chance(tick)) { composeFile := bytes; }
      tick := tick + 1;
      moments := moments + {OnDisk()};
    }

    method ReplaceEnv(bytes: string) returns (s: Status)
      modifies `tick, `envFile, `moments
      ensures Noted()
      ensures s == Reported(chance(old(tick))) && tick == old(tick) + 1
      ensures envFile == if Takes(chance(old(tick))) then bytes else old(envFile)
    {
      s := Reported(chance(tick));
      if Takes(chance(tick)) { envFile := bytes; }
      tick := tick + 1;
      moments := moments + {OnDisk()};
    }

    /** A backup directory is written as a whole. */
    method WriteBackup(backup: string, files: Backup)
      modifies `backups, `moments
      ensures Noted()
      ensures backups == old(backups)[backup := files]
    {
      backups := backups[backup := files];
      moments := moments + {OnDisk()};
    }

    /** Looks the image up first, and refuses when it is not the recorded one. Recreating the container
        may then leave the old one, the new one or none, whatever it reports. */
    method Switch(release: Release) returns (s: Status)
      modifies `tick, `running, `vetted, `moments
      ensures Noted()
      ensures tick == old(tick) + 1 && (s == Ok || s == Raised(Broken) || s == Killed)
      ensures s == Ok <==> Passes(chance(old(tick))) && CanStart(release)
      ensures s == Killed <==> chance(old(tick)).kill
      ensures vetted.None?
      ensures running == if !CanStart(release) then old(running) else
                match chance(old(tick)).left
                case OldContainer => old(running)
                case NewContainer => Some(RuntimeImage(release))
                case NoContainer => None
    {
      var c := chance(tick);
      tick := tick + 1;
      vetted := None;
      s := if c.kill then Killed else if CanStart(release) then Reported(c) else Raised(Broken);
      if CanStart(release) {
        running := match c.left
          case OldContainer => running
          case NewContainer => Some(RuntimeImage(release))
          case NoContainer => None;
      }
      moments := moments + {OnDisk()};
    }

    /** The gate passes only while the release's own image is running. */
    method Health(release: Release) returns (s: Status)
      modifies `tick, `vetted
      ensures tick == old(tick) + 1 && (s == Ok || s == Raised(Broken) || s == Killed)
      ensures s == Ok <==>
                Passes(chance(old(tick))) && chance(old(tick)).healthy && running == Some(RuntimeImage(release))
      ensures s == Killed <==> chance(old(tick)).kill
      ensures vetted == if s == Ok then Some(release) else old(vetted)
    {
      var c := chance(tick);
      tick := tick + 1;
      if c.kill { return Killed; }
      if c.raise || !c.healthy || running != Some(RuntimeImage(release)) { return Raised(Broken); }
      vetted := Some(release);
      return Ok;
    }

    /** The container of the release, and its health gate. */
    method Restart(release: Release) returns (s: Status)
      requires Safe(OnDisk()) || Recorded(OnDisk())
      modifies `tick, `running, `vetted, `moments
      ensures Watched()
      ensures s == Ok || s == Raised(Broken) || s == Killed
      ensures tick == old(tick) + if CanStart(release) && Passes(chance(old(tick))) then 2 else 1
      ensures s == Killed <==> chance(tick - 1).kill
      ensures s == Ok ==> running == Some(RuntimeImage(release)) && vetted == Some(release) && CanStart(release)
      ensures s == Ok <==>
                && CanStart(release) && Passes(chance(old(tick))) && Passes(chance(old(tick) + 1))
                && chance(old(tick) + 1).healthy
                && LeavesTarget(chance(old(tick)), old(running) == Some(RuntimeImage(release)))
      ensures running == if !CanStart(release) then old(running) else
                match chance(old(tick)).left
                case OldContainer => old(running)
                case NewContainer => Some(RuntimeImage(release))
                case NoContainer => None
    {
      s := Switch(release);
      if s.IsFailure() { return; }
      s := Health(release);
    }

    /** The daemon names the image behind a tag, if there is one. */
    method Inspect(tag: Tag) returns (s: Status, image: ImageId)
      modifies `tick
      ensures tick == old(tick) + 1 && (s == Ok || s == Raised(Broken) || s == Killed)
      ensures s == Ok <==> Passes(chance(old(tick))) && tag in host.depot.tags
      ensures s == Ok ==> image == host.depot.tags[tag]
    {
      var c := chance(tick);
      tick := tick + 1;
      s := Reported(c);
      image := "";
      if tag in host.depot.tags { image := host.depot.tags[tag]; }
      else if !c.kill { s := Raised(Broken); }
    }

    /** Loads the archive of a bundle, which brings its tag along. */
    method Load(bundle: Bundle) returns (s: Status)
      modifies `tick, host
      ensures s == Reported(chance(old(tick))) && tick == old(tick) + 1
      ensures host.depot == if Takes(chance(old(tick))) then WithBundle(old(host.depot), bundle) else old(host.depot)
    {
      s := Reported(chance(tick));
      if Takes(chance(tick)) { host.depot := WithBundle(host.depot, bundle); }
      tick := tick + 1;
    }

    // ---- reading the record ----

    /** Reads the state file and refuses it when the external configuration has changed. */
    method ReadState() returns (s: Status, state: State)
      ensures s == Ok || s == Raised(Refused)
      ensures s == Ok ==> stateFile == Some(state)
      ensures s == Ok <==> stateFile.Some? && stateFile.value.configuration == ConfigurationHash(composeFile, envFile)
    {
      if stateFile.None? {
        state := *;
        return Raised(Refused), state;
      }
      state := stateFile.value;
      s := if state.configuration == ConfigurationHash(composeFile, envFile) then Ok else Raised(Refused);
    }

    method Observe(state: State) returns (s: Status)
      ensures s == Ok <==> running == Some(RuntimeImage(state.current))
      ensures s == Ok || s == Raised(Refused)
    {
      s := if running == Some(RuntimeImage(state.current)) then Ok else Raised(Refused);
    }

    // ---- promotion ----

    /** The guarded part of a promotion. */
    method SwitchOver(before: State, target: Release, rollback: bool) returns (s: Status, after: State)
      requires journal == Some(Promotion(before, target)) && stateFile == Some(before)
      requires Safe(OnDisk())
      requires Compatible(before.current, target, rollback)
      requires rollback || AtLeast(target.manifest.version, before.current.manifest.version)
      modifies `tick, `running, `vetted, `stateFile, `moments
      ensures Watched()
      ensures Safe(OnDisk())
      ensures s != Raised(Refused)
      ensures after == Promoted(before, target, rollback, after.deployedAt)
      ensures stateFile == Some(before) || stateFile == Some(after)
      ensures s == Ok ==> stateFile == Some(after) && CanStart(target)
      ensures s == Ok ==> running == Some(RuntimeImage(target)) && vetted == Some(target)
      ensures CalmFor(chance, old(tick), 3) && CanStart(target) ==> s == Ok && tick == old(tick) + 3
      ensures s == Ok || s == Killed || s == Raised(Broken)
      ensures s == Killed <==> Dies(chance, old(tick), CanStart(target), old(running) == Some(RuntimeImage(target)))
      ensures FailsOnce(chance, old(tick), CanStart(target), old(running) == Some(RuntimeImage(target))) ==>
                s == Raised(Broken) && CalmFrom(chance, tick)
    {
      after := Promoted(before, target, rollback, chance(tick).now);
      s := Restart(target);
      if s.IsFailure() { return; }
      s := ReplaceState(after);
    }

    /** The failure branch: put the previous container and the previous record back. Without further
        trouble it does so whenever the previous release can be started. */
    method Restore(before: State, target: Release) returns (s: Status)
      requires journal == Some(Promotion(before, target))
      requires Safe(OnDisk())
      modifies `tick, `running, `vetted, `stateFile, `journal, `moments
      ensures Watched()
      ensures Safe(OnDisk())
      ensures s == Killed || s == Raised(Restored) || s == Raised(RecoveryRequired)
      ensures Baseline(OnDisk()) == Some(before)
      ensures journal == old(journal) || journal == None
      ensures stateFile == old(stateFile) || stateFile == Some(before)
      ensures journal.None? ==> stateFile == Some(before) && running == Some(RuntimeImage(before.current))
      ensures s == Raised(Restored) ==> journal.None? && vetted == Some(before.current) && CanStart(before.current)
      ensures s == Raised(RecoveryRequired) ==> journal == old(journal)
      ensures chance(old(tick)).kill ==> s == Killed && OnDisk() == old(OnDisk())
      ensures CalmFrom(chance, old(tick)) && CanStart(before.current) ==> s == Raised(Restored)
    {
      s := Evidence();
      if s.IsFailure() { return; }
      s := PutBack(before, target);
      if s == Killed { return; }
      var audited := Evidence();
      s := if audited == Killed then Killed else if s == Ok then Raised(Restored) else Raised(RecoveryRequired);
    }

    method PutBack(before: State, target: Release) returns (s: Status)
      requires journal == Some(Promotion(before, target))
      requires Safe(OnDisk())
      modifies `tick, `running, `vetted, `stateFile, `journal, `moments
      ensures Watched()
      ensures Safe(OnDisk())
      ensures s == Ok || s == Killed || s == Raised(Broken)
      ensures Baseline(OnDisk()) == Some(before)
      ensures journal == old(journal) || journal == None
      ensures stateFile == old(stateFile) || stateFile == Some(before)
      ensures journal.None? ==> stateFile == Some(before) && running == Some(RuntimeImage(before.current))
      ensures s == Ok ==> journal.None? && vetted == Some(before.current) && CanStart(before.current)
      ensures s == Raised(Broken) ==> journal == old(journal)
      ensures CalmFrom(chance, old(tick)) && CanStart(before.current) ==> s == Ok
      ensures tick > old(tick)
    {
      s := Restart(before.current);
      if s.IsFailure() { return; }
      :- ReplaceState(before);
      s := UnlinkJournal();
    }

    /** A receipt means that the target is recorded, running and has passed its health
        gate. A restored failure means that nothing has changed. When recovery is said to
        be required the journal is still there. When the switch, the health gate or the write of
        the record raises and no trouble follows, everything is put back. */
    method Promote(before: State, target: Release, rollback: bool) returns (s: Status, receipt: Option<Receipt>)
      requires Recorded(OnDisk()) && stateFile == Some(before) && Identified(target)
      requires rollback || AtLeast(target.manifest.version, before.current.manifest.version)
      modifies `tick, `running, `vetted, `stateFile, `journal, `moments
      ensures Watched()
      ensures if old(Stranded(OnDisk())) then OnDisk() == old(OnDisk()) else Safe(OnDisk())
      ensures Advances(Some(before), Baseline(OnDisk()))
      ensures journal == None || journal == Some(Promotion(before, target))
      ensures stateFile == Some(before)
              || (stateFile.Some? && stateFile.value == Promoted(before, target, rollback, stateFile.value.deployedAt))
      ensures s == Ok <==> receipt.Some?
      ensures receipt.Some? ==> Delivered(receipt.value) && receipt.value.current == target && CanStart(target)
      ensures receipt.Some? ==>
                && receipt.value.previous == Some(before.current)
                && receipt.value.rollbackFrom == (if rollback then Some(before.current) else None)
                && stateFile.value.configuration == before.configuration
      ensures s == Raised(Restored) ==> CanStart(before.current)
      ensures receipt.Some? ==> stateFile.value == Promoted(before, target, rollback, stateFile.value.deployedAt)
      ensures s == Raised(Restored) ==> journal.None? && stateFile == Some(before) && running == old(running)
      ensures s == Raised(RecoveryRequired) ==> journal == Some(Promotion(before, target))
      ensures s == Raised(Refused) <==>
                || target.manifest.requiredMigrations != before.current.manifest.requiredMigrations
                || (rollback && target.manifest.rollbackMode != SameMigrationsOnly)
                || (rollback && before.current.manifest.rollbackMode != SameMigrationsOnly)
                || old(Stranded(OnDisk()))
      ensures s == Raised(Refused) ==> OnDisk() == old(OnDisk())
      ensures CalmFor(chance, old(tick), 6) && CanStart(target) && s != Raised(Refused) ==>
                s == Ok && tick == old(tick) + 6
      ensures Passes(chance(old(tick))) && s != Raised(Refused) && CanStart(before.current)
              && FailsOnce(chance, old(tick) + 1, CanStart(target), old(running) == Some(RuntimeImage(target)))
              ==> s == Raised(Restored)
    {
      receipt := None;
      if !Compatible(before.current, target, rollback) { return Raised(Refused), None; }
      s := Observe(before);
      if s.IsFailure() { return; }
      :- WriteJournal(Promotion(before, target));
      s, receipt := SwitchOrRestore(before, target, rollback);
    }

    /** The promotion once its journal is written. */
    method SwitchOrRestore(before: State, target: Release, rollback: bool) returns (s: Status, receipt: Option<Receipt>)
      requires journal == Some(Promotion(before, target)) && stateFile == Some(before)
      requires Safe(OnDisk())
      requires Compatible(before.current, target, rollback)
      requires rollback || AtLeast(target.manifest.version, before.current.manifest.version)
      modifies `tick, `running, `vetted, `stateFile, `journal, `moments
      ensures Watched()
      ensures Safe(OnDisk())
      ensures journal == None || journal == Some(Promotion(before, target))
      ensures stateFile == Some(before)
              || (stateFile.Some? && stateFile.value == Promoted(before, target, rollback, stateFile.value.deployedAt))
      ensures s == Ok <==> receipt.Some?
      ensures receipt.Some? ==> Delivered(receipt.value) && receipt.value.current == target && CanStart(target)
      ensures receipt.Some? ==> stateFile.value == Promoted(before, target, rollback, stateFile.value.deployedAt)
      ensures s == Raised(Restored) ==>
                && journal.None? && stateFile == Some(before) && running == Some(RuntimeImage(before.current))
                && CanStart(before.current)
      ensures s == Raised(RecoveryRequired) ==> journal == Some(Promotion(before, target))
      ensures s != Raised(Refused)
      ensures CalmFor(chance, old(tick), 5) && CanStart(target) ==> s == Ok && tick == old(tick) + 5
      ensures Dies(chance, old(tick), CanStart(target), old(running) == Some(RuntimeImage(target))) ==>
                s == Killed && journal == old(journal)
      ensures CanStart(before.current)
              && FailsOnce(chance, old(tick), CanStart(target), old(running) == Some(RuntimeImage(target)))
              ==> s == Raised(Restored)
    {
      receipt := None;
      var attempt, after := SwitchOver(before, target, rollback);
      if attempt == Killed { return Killed, None; }
      if attempt != Ok {
        s := Restore(before, target);
        return;
      }
      :- UnlinkJournal();
      :- Checkpoint();
      return Ok, Some(ReceiptOf(after));
    }

    // ---- recovery ----

    method RecoverPromotion(before: State, target: Release) returns (s: Status)
      requires journal == Some(Promotion(before, target)) && Safe(OnDisk())
      modifies `tick, `running, `vetted, `journal, `moments
      ensures Watched()
      ensures Safe(OnDisk())
      ensures s != Raised(Refused)
      ensures s == Ok ==> journal.None? && vetted == Some(stateFile.value.current) && CanStart(stateFile.value.current)
      ensures journal == old(journal) || journal == None
      ensures CalmFrom(chance, old(tick)) && CanStart(stateFile.value.current) ==> s == Ok
      ensures tick >= old(tick)
    {
      if before.configuration != ConfigurationHash(composeFile, envFile) { return Raised(Refused); }
      var recorded := stateFile.value;
      if !Compatible(target, recorded.current, false) { return Raised(Refused); }
      :- Restart(recorded.current);
      :- UnlinkJournal();
      :- Checkpoint();
      return Ok;
    }

    predicate UnderJournal(before: State, after: State, backup: string, files: Backup)
      reads this
    {
      journal == Some(Configuration(before, after, backup, files))
    }

    /** Writes one side of the change over both files, one after the other. */
    method WriteFiles(saved: Backup, committed: bool, ghost before: State, ghost after: State, ghost backup: string)
      returns (s: Status)
      requires ConfigurationUnderway(OnDisk(), before, after, backup, saved)
      requires UnderJournal(before, after, backup, saved)
               || (committed && Settled(OnDisk()) && stateFile == Some(after))
      modifies `tick, `composeFile, `envFile, `moments
      ensures Watched()
      ensures ConfigurationUnderway(OnDisk(), before, after, backup, saved)
      ensures s == Ok || s == Raised(Broken) || s == Killed
      ensures composeFile == saved.composeBefore || composeFile == saved.composeAfter
      ensures envFile == saved.envBefore || envFile == saved.envAfter
      ensures s == Ok ==> composeFile == if committed then saved.composeAfter else saved.composeBefore
      ensures s == Ok ==> envFile == if committed then saved.envAfter else saved.envBefore
      ensures composeFile != old(composeFile) ==>
                composeFile == if committed then saved.composeAfter else saved.composeBefore
      ensures envFile != old(envFile) ==> envFile == if committed then saved.envAfter else saved.envBefore
      ensures s == Ok <==> Passes(chance(old(tick))) && Passes(chance(old(tick) + 1))
      ensures tick == old(tick) + if Passes(chance(old(tick))) then 2 else 1
      ensures s == Killed <==> chance(tick - 1).kill
    {
      s := ReplaceCompose(if committed then saved.composeAfter else saved.composeBefore);
      if s.IsFailure() { return; }
      s := ReplaceEnv(if committed then saved.envAfter else saved.envBefore);
    }

    /** Restarts the recorded release under the restored files and closes the journal. */
    method RestartConfigured(state: State, committed: bool) returns (s: Status)
      requires stateFile == Some(state) && WellKept(state)
      requires state.configuration == ConfigurationHash(composeFile, envFile)
      requires journal.Some? ==> Safe(OnDisk())
      modifies `tick, `running, `vetted, `journal, `moments
      ensures Watched()
      ensures s == Ok || s == Raised(Broken) || s == Killed
      ensures journal == old(journal) || journal == None
      ensures old(journal).Some? && journal.None? ==>
                running == Some(RuntimeImage(state.current)) && vetted == Some(state.current)
      ensures s == Ok ==> old(journal).Some? && journal.None? && CanStart(state.current)
      ensures running == if !CanStart(state.current) then old(running) else
                match chance(old(tick)).left
                case OldContainer => old(running)
                case NewContainer => Some(RuntimeImage(state.current))
                case NoContainer => None
      ensures tick > old(tick)
      ensures old(journal).Some? && CalmFrom(chance, old(tick)) && CanStart(state.current) ==> s == Ok
      ensures CalmFrom(chance, old(tick)) ==> s != Killed
    {
      s := Restart(state.current);
      if s.IsFailure() { return; }
      s := CloseJournal(state, committed);
    }

    method CloseJournal(state: State, committed: bool) returns (s: Status)
      requires stateFile == Some(state) && WellKept(state)
      requires state.configuration == ConfigurationHash(composeFile, envFile)
      requires running == Some(RuntimeImage(state.current)) && (journal.Some? ==> Safe(OnDisk()))
      modifies `tick, `journal, `moments
      ensures Watched()
      ensures s == Ok || s == Raised(Broken) || s == Killed
      ensures journal == old(journal) || journal == None
      ensures s == Ok ==> old(journal).Some? && journal.None?
      ensures tick > old(tick)
      ensures old(journal).Some? && CalmFrom(chance, old(tick)) ==> s == Ok
      ensures CalmFrom(chance, old(tick)) ==> s != Killed
    {
      if committed {
        :- Checkpoint();  // the running container must hold a usable key
      }
      :- Checkpoint();
      :- UnlinkJournal();
      return Ok;
    }

    /** Normally called with the journal still there. When it is not (an exception came
        after it was unlinked) the record and the files stay right, but the restart is no
        longer protected: a switch that leaves no container leaves it so for good. */
    method RecoverConfiguration(before: State, after: State, backup: string, files: Backup) returns (s: Status)
      requires ConfigurationUnderway(OnDisk(), before, after, backup, files)
      requires journal == Some(Configuration(before, after, backup, files))
               || (Settled(OnDisk()) && stateFile == Some(after) && CanStart(after.current))
      modifies `tick, `running, `vetted, `journal, `composeFile, `envFile, `moments
      ensures Watched()
      ensures s != Raised(Refused)
      ensures journal == old(journal) || journal == None
      ensures old(journal).Some? ==> Safe(OnDisk())
      ensures old(journal).None? ==> Recorded(OnDisk()) && s != Ok
      ensures s == Ok ==> journal.None? && vetted == Some(stateFile.value.current) && CanStart(stateFile.value.current)
      ensures journal.None? ==>
                composeFile == if stateFile == Some(after) then files.composeAfter else files.composeBefore
      ensures journal.None? ==> envFile == if stateFile == Some(after) then files.envAfter else files.envBefore
      ensures old(journal).Some? && CalmFrom(chance, old(tick)) && CanStart(stateFile.value.current) ==> s == Ok
      ensures CalmFrom(chance, old(tick)) ==> s != Killed
      ensures old(journal).None? ==> (Stranded(OnDisk()) <==> LosesContainer(chance, old(tick)))
      ensures tick >= old(tick)
    {
      var state := stateFile.value;
      if state != before && state != after { return Raised(Refused); }
      var committed := state == after;
      // The backup directory must exist, both files must be one of the two recorded
      // versions, and the backups must carry the recorded checksums.
      if backup !in backups { return Raised(Refused); }
      if composeFile != files.composeBefore && composeFile != files.composeAfter { return Raised(Refused); }
      if envFile != files.envBefore && envFile != files.envAfter { return Raised(Refused); }
      if backups[backup] != files { return Raised(Refused); }
      s := ReplaceAndRestart(state, backups[backup], committed, before, after, backup);
    }

    method ReplaceAndRestart(state: State, saved: Backup, committed: bool,
                             ghost before: State, ghost after: State, ghost backup: string)
      returns (s: Status)
      requires ConfigurationUnderway(OnDisk(), before, after, backup, saved) && stateFile == Some(state)
      requires committed == (state == after)
      requires UnderJournal(before, after, backup, saved)
               || (committed && Settled(OnDisk()) && CanStart(after.current))
      modifies `tick, `running, `vetted, `journal, `composeFile, `envFile, `moments
      ensures Watched()
      ensures s != Raised(Refused)
      ensures journal == old(journal) || journal == None
      ensures old(journal).Some? ==> Safe(OnDisk())
      ensures old(journal).None? ==> Recorded(OnDisk()) && s != Ok
      ensures s == Ok ==> journal.None? && vetted == Some(state.current) && CanStart(state.current)
      ensures journal.None? ==> composeFile == if committed then saved.composeAfter else saved.composeBefore
      ensures journal.None? ==> envFile == if committed then saved.envAfter else saved.envBefore
      ensures old(journal).Some? && CalmFrom(chance, old(tick)) && CanStart(state.current) ==> s == Ok
      ensures CalmFrom(chance, old(tick)) ==> s != Killed
      ensures old(journal).None? ==> (Stranded(OnDisk()) <==> LosesContainer(chance, old(tick)))
      ensures tick >= old(tick)
    {
      s := WriteFiles(saved, committed, before, after, backup);
      if s.IsFailure() { return; }
      if state.configuration != ConfigurationHash(composeFile, envFile) { return Raised(Refused); }
      s := RestartConfigured(state, committed);
    }

    /** Recovery never refuses a state that a crash can leave, never moves the record,
        and when it finishes the recorded release runs and no journal remains. Under a
        schedule without further trouble it finishes exactly when the release can be started. */
    method Recover() returns (s: Status)
      requires Safe(OnDisk())
      modifies `tick, `running, `vetted, `journal, `composeFile, `envFile, `moments
      ensures Watched()
      ensures Safe(OnDisk())
      ensures s != Raised(Refused)
      ensures journal == old(journal) || journal == None
      ensures s == Ok ==> journal.None?
      ensures old(journal).Some? && s == Ok ==>
                vetted == Some(stateFile.value.current) && CanStart(stateFile.value.current)
      ensures old(journal).Some? && journal.None? && old(journal).value.Configuration? ==>
                var files := old(journal).value.files;
                (composeFile, envFile) == (if stateFile == Some(old(journal).value.after)
                                           then (files.composeAfter, files.envAfter)
                                           else (files.composeBefore, files.envBefore))
      ensures old(journal).None? ==> s == Ok && OnDisk() == old(OnDisk())
      ensures CalmFrom(chance, old(tick)) && (old(journal).None? || CanStart(stateFile.value.current)) ==> s == Ok
      ensures tick >= old(tick)
    {
      match journal {
        case None => s := Ok;
        case Some(Promotion(before, target)) => s := RecoverPromotion(before, target);
        case Some(Configuration(before, after, backup, files)) =>
          s := RecoverConfiguration(before, after, backup, files);
      }
    }

    // ---- the entry points ----

    /** The administrator records the container that is already running. */
    method Adopt(version: Version, revision: string, image: ImageId, migrations: seq<Migration>)
      returns (s: Status, receipt: Option<Receipt>)
      requires Safe(OnDisk()) || Stranded(OnDisk())
      modifies `tick, `vetted, `stateFile, `moments
      ensures Watched()
      ensures if old(Stranded(OnDisk())) then OnDisk() == old(OnDisk()) else Safe(OnDisk())
      ensures Advances(old(Baseline(OnDisk())), Baseline(OnDisk()))
      ensures old(Ready(OnDisk(), host.depot)) ==> Newcomers(old(OnDisk()), OnDisk(), host.depot, None)
      ensures s == Ok <==> receipt.Some?
      ensures receipt.Some? ==>
                && old(stateFile).None? && stateFile.Some? && receipt.value == ReceiptOf(stateFile.value)
                && running == Some(image) && RuntimeImage(stateFile.value.current) == image
                && stateFile.value.previous == None && vetted == Some(stateFile.value.current)
                && stateFile.value.current == Adopted(version, revision, image, migrations)
      ensures receipt.Some? ==>
                var r := receipt.value.current;
                && r.legacy && r.manifest.version == version && r.manifest.gitRevision == revision
                && r.manifest.imageId == image && r.manifest.requiredMigrations == migrations
                && r.manifest.rollbackMode == SameMigrationsOnly
                && receipt.value.previous.None? && receipt.value.rollbackFrom.None?
      ensures old(stateFile).None? && journal.None? && running == Some(image) && CalmFor(chance, old(tick), 3)
              ==> s == Ok && tick == old(tick) + 3
    {
      receipt := None;
      if stateFile.Some? || journal.Some? || running != Some(image) { return Raised(Refused), None; }
      var current := Adopted(version, revision, image, migrations);
      :- Health(current);
      var state := State(current, None, None, chance(tick).now, ConfigurationHash(composeFile, envFile));
      :- ReplaceState(state);
      :- Checkpoint();
      return Ok, Some(ReceiptOf(state));
    }

    /** The two files, the restart and the record of one configuration change. */
    method WriteAndCommit(before: State, after: State, files: Backup, ghost backup: string, ghost t: nat)
      returns (s: Status)
      requires tick == t + 1 && Passes(chance(t))
      requires UnderJournal(before, after, backup, files) && stateFile == Some(before)
      requires ConfigurationUnderway(OnDisk(), before, after, backup, files)
      requires composeFile == files.composeBefore && envFile == files.envBefore
      requires running == Some(RuntimeImage(before.current))
      modifies `tick, `running, `vetted, `journal, `stateFile, `composeFile, `envFile, `moments
      ensures Watched()
      ensures stateFile == Some(before) || stateFile == Some(after)
      ensures composeFile == files.composeBefore || composeFile == files.composeAfter
      ensures envFile == files.envBefore || envFile == files.envAfter
      ensures journal == old(journal) || journal == None
      ensures journal.None? ==>
                && stateFile == Some(after) && composeFile == files.composeAfter && envFile == files.envAfter
                && running == Some(RuntimeImage(after.current)) && vetted == Some(after.current)
                && CanStart(after.current)
      ensures s == Ok ==> journal.None?
      ensures s != Raised(Refused)
      ensures journal.None? && s.Raised? <==>
                CanStart(before.current) && LateException(chance, t)
      ensures journal.None? && s.Raised? ==> tick == t + 10
      ensures CalmFrom(chance, old(tick)) && CanStart(before.current) ==> s == Ok
      ensures OneTrouble(chance, old(tick)) && CanStart(before.current) ==>
                s != Killed && (s.Raised? ==> CalmFrom(chance, tick))
    {
      s := WriteFiles(files, true, before, after, backup);
      if s.IsFailure() { return; }
      s := SwitchAndCommit(before, after, files, backup, t);
    }

    method SwitchAndCommit(before: State, after: State, ghost files: Backup, ghost backup: string, ghost t: nat)
      returns (s: Status)
      requires tick == t + 3 && ThreePass(chance, t)
      requires UnderJournal(before, after, backup, files) && stateFile == Some(before)
      requires ConfigurationUnderway(OnDisk(), before, after, backup, files)
      requires composeFile == files.composeAfter && envFile == files.envAfter
      requires running == Some(RuntimeImage(before.current))
      modifies `tick, `running, `vetted, `journal, `stateFile, `moments
      ensures Watched()
      ensures stateFile == Some(before) || stateFile == Some(after)
      ensures journal == old(journal) || journal == None
      ensures journal.None? ==>
                && stateFile == Some(after) && running == Some(RuntimeImage(after.current))
                && vetted == Some(after.current) && CanStart(after.current)
      ensures s == Ok ==> journal.None?
      ensures s != Raised(Refused)
      ensures journal.None? && s.Raised? <==>
                CanStart(before.current) && LateException(chance, t)
      ensures journal.None? && s.Raised? ==> tick == t + 10
      ensures CalmFrom(chance, old(tick)) && CanStart(before.current) ==> s == Ok
      ensures OneTrouble(chance, old(tick)) && CanStart(before.current) ==>
                s != Killed && (s.Raised? ==> CalmFrom(chance, tick))
    {
      s := Restart(before.current);
      if s.IsFailure() { return; }
      :- Checkpoint();
      s := Commit(before, after, files, backup, t);
    }

    /** Records the change and closes the journal. */
    method Commit(ghost before: State, after: State, ghost files: Backup, ghost backup: string, ghost t: nat)
      returns (s: Status)
      requires tick == t + 6 && ThreePass(chance, t) && ThreePass(chance, t + 3)
      requires chance(t + 3).left != NoContainer && chance(t + 4).healthy
      requires UnderJournal(before, after, backup, files) && vetted == Some(after.current)
      requires ConfigurationUnderway(OnDisk(), before, after, backup, files)
      requires composeFile == files.composeAfter && envFile == files.envAfter
      requires running == Some(RuntimeImage(after.current))
      modifies `tick, `journal, `stateFile, `moments
      ensures Watched()
      ensures stateFile == old(stateFile) || stateFile == Some(after)
      ensures journal == old(journal) || (journal.None? && stateFile == Some(after))
      ensures s == Ok ==> journal.None?
      ensures s != Raised(Refused)
      ensures journal.None? && s.Raised? <==> LateException(chance, t)
      ensures journal.None? && s.Raised? ==> tick == t + 10
      ensures CalmFrom(chance, old(tick)) ==> s == Ok
      ensures OneTrouble(chance, old(tick)) ==> s != Killed && (s.Raised? ==> CalmFrom(chance, tick))
    {
      s := ReplaceState(after);
      if s.IsFailure() { return; }
      :- Checkpoint();
      :- UnlinkJournal();
      s := Checkpoint();
    }

    /** The journalled part of a configuration change. */
    method Reconfigure(before: State, candidate: Candidate, backup: string) returns (s: Status)
      requires Settled(OnDisk()) && stateFile == Some(before) && backup !in backups
      requires candidate.compose != composeFile || candidate.env != envFile
      modifies `tick, `running, `vetted, `journal, `stateFile, `composeFile, `envFile, `backups, `moments
      ensures Watched()
      ensures Safe(OnDisk()) || (s != Ok && Stranded(OnDisk()))
      ensures Stranded(OnDisk()) <==>
                CanStart(before.current) && StrandsJournal(chance, old(tick))
      ensures Baseline(OnDisk()).Some? && Baseline(OnDisk()).value.current == before.current
      ensures Advances(Some(before), Baseline(OnDisk()))
      ensures Newcomers(old(OnDisk()), OnDisk(), host.depot, None)
      ensures s == Ok ==> journal.None? && stateFile.Some? && vetted == Some(stateFile.value.current)
      ensures s == Ok ==> composeFile == candidate.compose && envFile == candidate.env
      ensures CalmFrom(chance, old(tick)) && CanStart(before.current) ==> s == Ok
    {
      var files := Backup(composeFile, candidate.compose, envFile, candidate.env);
      WriteBackup(backup, files);
      var after := before.(configuration := ConfigurationHash(candidate.compose, candidate.env));
      :- WriteJournal(Configuration(before, after, backup, files));
      s := ChangeOrRecover(before, after, backup, files);
    }

    /** The change, and recovery at once when it raises. */
    method ChangeOrRecover(before: State, after: State, backup: string, files: Backup) returns (s: Status)
      requires journal == Some(Configuration(before, after, backup, files)) && stateFile == Some(before)
      requires ConfigurationUnderway(OnDisk(), before, after, backup, files)
      requires composeFile == files.composeBefore && envFile == files.envBefore
      requires running == Some(RuntimeImage(before.current))
      modifies `tick, `running, `vetted, `journal, `stateFile, `composeFile, `envFile, `moments
      ensures Watched()
      ensures stateFile == Some(before) || stateFile == Some(after)
      ensures Safe(OnDisk()) || (s != Ok && Stranded(OnDisk()))
      ensures Stranded(OnDisk()) <==>
                CanStart(before.current) && LateException(chance, old(tick)) && LosesContainer(chance, old(tick) + 10)
      ensures journal == old(journal) || journal == None
      ensures s == Ok ==> journal.None? && vetted == Some(after.current)
      ensures s == Ok ==> composeFile == files.composeAfter && envFile == files.envAfter
      ensures CalmFrom(chance, old(tick)) && CanStart(before.current) ==> s == Ok
      ensures OneTrouble(chance, old(tick)) && CanStart(before.current) ==>
                s != Killed && journal.None? && Settled(OnDisk())
    {
      s := Change(before, after, backup, files);
      if s.Raised? { s := RecoverFrom(before, after, backup, files); }
    }

    /** The audit that the change begins, and the change. */
    method Change(before: State, after: State, backup: string, files: Backup) returns (s: Status)
      requires UnderJournal(before, after, backup, files) && stateFile == Some(before)
      requires ConfigurationUnderway(OnDisk(), before, after, backup, files)
      requires composeFile == files.composeBefore && envFile == files.envBefore
      requires running == Some(RuntimeImage(before.current))
      modifies `tick, `running, `vetted, `journal, `stateFile, `composeFile, `envFile, `moments
      ensures Watched()
      ensures stateFile == Some(before) || stateFile == Some(after)
      ensures Safe(OnDisk()) && ConfigurationUnderway(OnDisk(), before, after, backup, files)
      ensures journal == old(journal) || (journal == None && stateFile == Some(after) && CanStart(after.current))
      ensures s == Ok ==> journal.None? && vetted == Some(after.current)
      ensures s == Ok ==> composeFile == files.composeAfter && envFile == files.envAfter
      ensures journal.None? && s.Raised? <==> CanStart(before.current) && LateException(chance, old(tick))
      ensures journal.None? && s.Raised? ==> tick == old(tick) + 10
      ensures CalmFrom(chance, old(tick)) && CanStart(before.current) ==> s == Ok
      ensures OneTrouble(chance, old(tick)) && CanStart(before.current) ==>
                s != Killed && (s.Raised? ==> CalmFrom(chance, tick))
    {
      s := Checkpoint();
      if s == Ok { s := WriteAndCommit(before, after, files, backup, old(tick)); }
    }

    /** Whatever comes of the recovery, the change has failed. */
    method RecoverFrom(before: State, after: State, backup: string, files: Backup) returns (s: Status)
      requires ConfigurationUnderway(OnDisk(), before, after, backup, files) && Safe(OnDisk())
      requires UnderJournal(before, after, backup, files)
               || (journal.None? && stateFile == Some(after) && CanStart(after.current))
      modifies `tick, `running, `vetted, `journal, `composeFile, `envFile, `moments
      ensures Watched()
      ensures s == Raised(Broken) || s == Killed
      ensures journal == old(journal) || journal == None
      ensures Safe(OnDisk()) || Stranded(OnDisk())
      ensures Stranded(OnDisk()) <==> old(journal).None? && LosesContainer(chance, old(tick))
      ensures CalmFrom(chance, old(tick)) && CanStart(before.current) ==> s != Killed && journal.None?
    {
      s := RecoverConfiguration(before, after, backup, files);
      if s != Killed { s := Raised(Broken); }
    }

    /** No unfinished journal, files as recorded, the recorded release running and healthy. */
    method Standing() returns (s: Status, state: State)
      modifies `tick, `vetted
      ensures s == Ok || s == Raised(Refused) || s == Raised(Broken) || s == Killed
      ensures s == Ok ==> journal.None? && stateFile == Some(state)
      ensures s == Ok ==> state.configuration == ConfigurationHash(composeFile, envFile)
      ensures s == Ok ==> running == Some(RuntimeImage(state.current)) && vetted == Some(state.current)
      ensures s == Ok ==> tick == old(tick) + 1
      ensures s == Ok ==> Passes(chance(old(tick))) && chance(old(tick)).healthy
      ensures s == Raised(Refused) <==>
                || journal.Some? || stateFile.None?
                || stateFile.value.configuration != ConfigurationHash(composeFile, envFile)
                || running != Some(RuntimeImage(stateFile.value.current))
      ensures Settled(OnDisk()) && stateFile.Some? && Passes(chance(old(tick))) && chance(old(tick)).healthy ==> s == Ok
    {
      if journal.Some? {
        state := *;
        return Raised(Refused), state;
      }
      s, state := ReadState();
      if s.IsFailure() { return; }
      s := Observe(state);
      if s.IsFailure() { return; }
      s := Health(state.current);
    }

    /** Replaces the two configuration files and the recorded checksum together. It strands the
        machine exactly under the schedules that StrandedBy describes. */
    method Configure(candidate: Option<Candidate>, backup: string) returns (s: Status)
      requires Safe(OnDisk()) || Stranded(OnDisk())
      modifies `tick, `running, `vetted, `journal, `stateFile, `composeFile, `envFile, `backups, `moments
      ensures Watched()
      ensures if old(Stranded(OnDisk())) then OnDisk() == old(OnDisk())
              else Safe(OnDisk()) || (s != Ok && Stranded(OnDisk()))
      ensures old(Safe(OnDisk())) ==>
                (Stranded(OnDisk()) <==>
                  old(Changes(OnDisk(), host.depot, candidate, backup))
                  && StrandedBy(chance, old(tick), candidate.value.generated))
      ensures old(stateFile).None? ==> running == old(running)
      ensures Advances(old(Baseline(OnDisk())), Baseline(OnDisk()))
      ensures Newcomers(old(OnDisk()), OnDisk(), host.depot, None)
      ensures old(Baseline(OnDisk())).Some? ==>
                Baseline(OnDisk()).value.current == old(Baseline(OnDisk())).value.current
      ensures s == Ok ==>
                journal.None? && candidate.Some? && stateFile.Some? && vetted == Some(stateFile.value.current)
      ensures s == Ok ==> composeFile == candidate.value.compose && envFile == candidate.value.env
      ensures old(journal).Some? ==> s == Raised(Refused) && OnDisk() == old(OnDisk())
      ensures s == Ok ==> old(Settled(OnDisk())) && old(stateFile).Some?
      ensures CalmFrom(chance, old(tick)) && old(Changes(OnDisk(), host.depot, candidate, backup)) ==> s == Ok
    {
      var before: State;
      s, before := Standing();
      if s.IsFailure() { return; }
      s := Propose(before, candidate, backup, old(tick));
    }

    method Propose(before: State, candidate: Option<Candidate>, backup: string, ghost t: nat) returns (s: Status)
      requires tick == t + 1 && Passes(chance(t)) && chance(t).healthy
      requires Settled(OnDisk()) && stateFile == Some(before) && vetted == Some(before.current)
      modifies `tick, `running, `vetted, `journal, `stateFile, `composeFile, `envFile, `backups, `moments
      ensures Watched()
      ensures Safe(OnDisk()) || (s != Ok && Stranded(OnDisk()))
      ensures Stranded(OnDisk()) <==>
                && candidate.Some?
                && (candidate.value.compose != old(composeFile) || candidate.value.env != old(envFile))
                && CanStart(before.current) && backup !in old(backups)
                && StrandedBy(chance, t, candidate.value.generated)
      ensures Baseline(OnDisk()).Some? && Baseline(OnDisk()).value.current == before.current
      ensures Advances(Some(before), Baseline(OnDisk()))
      ensures Newcomers(old(OnDisk()), OnDisk(), host.depot, None)
      ensures s == Ok ==>
                journal.None? && candidate.Some? && stateFile.Some? && vetted == Some(stateFile.value.current)
      ensures s == Ok ==> composeFile == candidate.value.compose && envFile == candidate.value.env
      ensures CalmFrom(chance, old(tick)) && candidate.Some? && CanStart(before.current) && backup !in old(backups) ==>
                s == Ok
    {
      if candidate.None? { return Raised(Refused); }
      var proposed := candidate.value;
      if proposed.compose == composeFile && proposed.env == envFile {
        s := Checkpoint();  // the running container must hold a usable key
        return;
      }
      s := BackUpAndReconfigure(before, proposed, backup);
    }

    method BackUpAndReconfigure(before: State, proposed: Candidate, backup: string) returns (s: Status)
      requires Settled(OnDisk()) && stateFile == Some(before)
      requires proposed.compose != composeFile || proposed.env != envFile
      modifies `tick, `running, `vetted, `journal, `stateFile, `composeFile, `envFile, `backups, `moments
      ensures Watched()
      ensures Safe(OnDisk()) || (s != Ok && Stranded(OnDisk()))
      ensures Stranded(OnDisk()) <==>
                && CanStart(before.current) && backup !in old(backups)
                && StrandsGenerated(chance, old(tick), proposed.generated)
      ensures Baseline(OnDisk()).Some? && Baseline(OnDisk()).value.current == before.current
      ensures Advances(Some(before), Baseline(OnDisk()))
      ensures Newcomers(old(OnDisk()), OnDisk(), host.depot, None)
      ensures s == Ok ==> journal.None? && stateFile.Some? && vetted == Some(stateFile.value.current)
      ensures s == Ok ==> composeFile == proposed.compose && envFile == proposed.env
      ensures CalmFrom(chance, old(tick)) && CanStart(before.current) && backup !in old(backups) ==> s == Ok
    {
      if proposed.generated {
        :- Checkpoint();  // no provider key may be stored yet
      }
      s := BackUp(before, proposed, backup);
    }

    method BackUp(before: State, proposed: Candidate, backup: string) returns (s: Status)
      requires Settled(OnDisk()) && stateFile == Some(before)
      requires proposed.compose != composeFile || proposed.env != envFile
      modifies `tick, `running, `vetted, `journal, `stateFile, `composeFile, `envFile, `backups, `moments
      ensures Watched()
      ensures Safe(OnDisk()) || (s != Ok && Stranded(OnDisk()))
      ensures Stranded(OnDisk()) <==>
                CanStart(before.current) && backup !in old(backups) && StrandsFrom(chance, old(tick))
      ensures Baseline(OnDisk()).Some? && Baseline(OnDisk()).value.current == before.current
      ensures Advances(Some(before), Baseline(OnDisk()))
      ensures Newcomers(old(OnDisk()), OnDisk(), host.depot, None)
      ensures s == Ok ==> journal.None? && stateFile.Some? && vetted == Some(stateFile.value.current)
      ensures s == Ok ==> composeFile == proposed.compose && envFile == proposed.env
      ensures CalmFrom(chance, old(tick)) && CanStart(before.current) && backup !in old(backups) ==> s == Ok
    {
      s := Checkpoint();
      if s.IsFailure() { return; }
      if backup in backups { return Raised(Broken); }
      s := Reconfigure(before, proposed, backup);
    }

    /** Downloads, verifies and promotes one release, or returns to the previous one. The images at
        hand change exactly when the bundle is loaded. */
    method Deploy(q: Request) returns (s: Status, receipt: Option<Receipt>)
      requires Safe(OnDisk()) || Stranded(OnDisk())
      modifies `tick, `running, `vetted, `stateFile, `journal, `moments, host
      ensures Watched()
      ensures if old(Stranded(OnDisk())) then OnDisk() == old(OnDisk()) else Safe(OnDisk())
      ensures old(stateFile).None? ==> running == old(running)
      ensures Advances(old(Baseline(OnDisk())), Baseline(OnDisk()))
      ensures host.depot == if old(Loads(chance, tick, OnDisk(), host.depot, q))
                            then WithBundle(old(host.depot), q.fetched.value) else old(host.depot)
      ensures host.depot != old(host.depot) ==>
                && old(journal).None? && old(stateFile).Some? && !q.dryRun && q.fetched.Some?
                && var m, current := q.fetched.value.manifest, old(stateFile).value.current;
                && ChecksumOf(m) == q.checksum && m.version == q.version && m.gitRevision == q.revision
                && m.imageId != current.manifest.imageId
                && m.requiredMigrations == current.manifest.requiredMigrations
                && (q.rollback || AtLeast(m.version, current.manifest.version))
      ensures q.rollback && old(stateFile).Some? && old(stateFile).value.previous.Some?
              && old(stateFile).value.previous.value.prefix == Some(q.key)
              && old(stateFile).value.previous.value.manifestSha256 == Some(q.checksum)
              ==> host.depot == old(host.depot)
      ensures Newcomers(old(OnDisk()), OnDisk(), host.depot, AskedFor(q))
      ensures receipt.Some? ==> s == Ok && Delivered(receipt.value)
      ensures receipt.Some? ==>
                && receipt.value.current.prefix == Some(q.key)
                && receipt.value.current.manifestSha256 == Some(q.checksum)
                && ChecksumOf(receipt.value.current.manifest) == q.checksum
      ensures receipt.Some? ==> old(stateFile).Some? && StepsFrom(old(stateFile).value, receipt.value, q.rollback)
      ensures s == Ok && !q.dryRun ==> receipt.Some?
      ensures s == Ok ==> old(Settled(OnDisk())) && old(stateFile).Some?
      ensures q.dryRun ==> OnDisk() == old(OnDisk())
      ensures old(journal).Some? ==> s == Raised(Refused) && OnDisk() == old(OnDisk())
      ensures old(Loadable(OnDisk(), host.depot, q))
              && !PastLoad(chance, old(tick), Lookups(old(stateFile).value.current, q.fetched.value.manifest))
              ==> OnDisk() == old(OnDisk())
      ensures receipt.Some? ==>
                && old(stateFile).Some?
                && var current := old(stateFile).value.current;
                && receipt.value.current.manifest.requiredMigrations == current.manifest.requiredMigrations
                && (q.rollback ==> receipt.value.current.manifest.rollbackMode == SameMigrationsOnly
                                   && current.manifest.rollbackMode == SameMigrationsOnly)
      ensures CalmFor(chance, old(tick), 12) && old(Repeats(OnDisk(), host.depot, q)) ==> s == Ok
      ensures CalmFor(chance, old(tick), 12) && old(Loadable(OnDisk(), host.depot, q)) ==>
                && s == Ok && Follows(OnDisk(), old(stateFile).value, Running(q), q.rollback)
                && tick == old(tick) + 11 + Lookups(old(stateFile).value.current, q.fetched.value.manifest)
    {
      receipt := None;
      var before: State;
      s, before := Admit(q);
      if s.IsFailure() || q.dryRun { return; }
      s, receipt := ReturnOrFetch(before, q);
    }

    /** The checks before anything is touched. */
    method Admit(q: Request) returns (s: Status, before: State)
      ensures s == Ok || s == Raised(Refused)
      ensures s == Ok <==>
                && q.key == ReleasePrefix(q.version, q.revision) && journal.None? && stateFile.Some?
                && stateFile.value.configuration == ConfigurationHash(composeFile, envFile)
                && running == Some(RuntimeImage(stateFile.value.current))
                && (q.rollback || AtLeast(q.version, stateFile.value.current.manifest.version))
      ensures s == Ok ==> stateFile == Some(before)
    {
      before := *;
      if q.key != ReleasePrefix(q.version, q.revision) || journal.Some? { return Raised(Refused), before; }
      s, before := ReadState();
      if s.IsFailure() { return; }
      s := Observe(before);
      if s.IsFailure() { return; }
      if !q.rollback && !AtLeast(q.version, before.current.manifest.version) { s := Raised(Refused); }
    }

    method ReturnOrFetch(before: State, q: Request) returns (s: Status, receipt: Option<Receipt>)
      requires journal.None? && stateFile == Some(before) && Safe(OnDisk())
      requires q.key == ReleasePrefix(q.version, q.revision)
      requires q.rollback || AtLeast(q.version, before.current.manifest.version)
      modifies `tick, `running, `vetted, `stateFile, `journal, `moments, host
      ensures Watched()
      ensures Safe(OnDisk())
      ensures Advances(Some(before), Baseline(OnDisk()))
      ensures host.depot == if !ReturnsTo(before, q) && Passes(chance(old(tick)))
                               && old(FetchLoads(chance, tick + 1, before, host.depot, q))
                            then WithBundle(old(host.depot), q.fetched.value) else old(host.depot)
      ensures Newcomers(old(OnDisk()), OnDisk(), host.depot, AskedFor(q))
      ensures s == Ok <==> receipt.Some?
      ensures receipt.Some? ==> StepsFrom(before, receipt.value, q.rollback)
      ensures receipt.Some? ==>
                && Delivered(receipt.value) && receipt.value.current.prefix == Some(q.key)
                && receipt.value.current.manifestSha256 == Some(q.checksum)
                && ChecksumOf(receipt.value.current.manifest) == q.checksum
      ensures old(Asked(before, host.depot, q)) && !ReturnsTo(before, q)
              && !PastLoad(chance, old(tick), Lookups(before.current, q.fetched.value.manifest))
              ==> OnDisk() == old(OnDisk())
      ensures receipt.Some? ==> Compatible(before.current, receipt.value.current, q.rollback)
      ensures CalmFor(chance, old(tick), 12) && ReturnsTo(before, q) && CanStart(before.previous.value)
              && Compatible(before.current, before.previous.value, true)
              ==> s == Ok
      ensures CalmFor(chance, old(tick), 12) && !ReturnsTo(before, q) && Fitting(before, q)
              && old(AtHand(before.current, host.depot, q.fetched.value.manifest))
              ==> s == Ok
      ensures CalmFor(chance, old(tick), 12) && old(Asked(before, host.depot, q)) && !ReturnsTo(before, q) ==>
                && s == Ok && Follows(OnDisk(), before, Running(q), q.rollback)
                && tick == old(tick) + 11 + Lookups(before.current, q.fetched.value.manifest)
    {
      receipt := None;
      :- Checkpoint();
      if ReturnsTo(before, q) {
        s, receipt := Return(before);
        return;
      }
      s, receipt := Fetch(before, q);
    }

    /** Downloads the bundle that was asked for and installs it. */
    method Fetch(before: State, q: Request) returns (s: Status, receipt: Option<Receipt>)
      requires journal.None? && stateFile == Some(before) && Safe(OnDisk())
      requires q.key == ReleasePrefix(q.version, q.revision)
      requires q.rollback || AtLeast(q.version, before.current.manifest.version)
      modifies `tick, `running, `vetted, `stateFile, `journal, `moments, host
      ensures Watched()
      ensures Safe(OnDisk())
      ensures Advances(Some(before), Baseline(OnDisk()))
      ensures host.depot == if old(FetchLoads(chance, tick, before, host.depot, q))
                            then WithBundle(old(host.depot), q.fetched.value) else old(host.depot)
      ensures Newcomers(old(OnDisk()), OnDisk(), host.depot, AskedFor(q))
      ensures s == Ok <==> receipt.Some?
      ensures receipt.Some? ==> StepsFrom(before, receipt.value, q.rollback)
      ensures receipt.Some? ==>
                && Delivered(receipt.value) && receipt.value.current.prefix == Some(q.key)
                && receipt.value.current.manifestSha256 == Some(q.checksum)
                && ChecksumOf(receipt.value.current.manifest) == q.checksum
      ensures old(Asked(before, host.depot, q))
              && !FetchPasses(chance, old(tick), Lookups(before.current, q.fetched.value.manifest))
              ==> OnDisk() == old(OnDisk())
      ensures receipt.Some? ==> Compatible(before.current, receipt.value.current, q.rollback)
      ensures CalmFor(chance, old(tick), 11) && Fitting(before, q)
              && old(AtHand(before.current, host.depot, q.fetched.value.manifest))
              ==> s == Ok
      ensures CalmFor(chance, old(tick), 11) && old(Asked(before, host.depot, q)) ==>
                && s == Ok && Follows(OnDisk(), before, Running(q), q.rollback)
                && tick == old(tick) + 10 + Lookups(before.current, q.fetched.value.manifest)
    {
      receipt := None;
      :- Checkpoint();
      s, receipt := Accept(before, q);
    }

    /** Checks the bundle and installs it. */
    method Accept(before: State, q: Request) returns (s: Status, receipt: Option<Receipt>)
      requires journal.None? && stateFile == Some(before) && Safe(OnDisk())
      requires q.key == ReleasePrefix(q.version, q.revision)
      requires q.rollback || AtLeast(q.version, before.current.manifest.version)
      modifies `tick, `running, `vetted, `stateFile, `journal, `moments, host
      ensures Watched()
      ensures Safe(OnDisk())
      ensures Advances(Some(before), Baseline(OnDisk()))
      ensures host.depot == if old(Asked(before, host.depot, q))
                               && Reaches(chance, old(tick), Lookups(before.current, q.fetched.value.manifest))
                            then WithBundle(old(host.depot), q.fetched.value) else old(host.depot)
      ensures Newcomers(old(OnDisk()), OnDisk(), host.depot, AskedFor(q))
      ensures s == Ok <==> receipt.Some?
      ensures receipt.Some? ==> StepsFrom(before, receipt.value, q.rollback)
      ensures receipt.Some? ==>
                && Delivered(receipt.value) && receipt.value.current.prefix == Some(q.key)
                && receipt.value.current.manifestSha256 == Some(q.checksum)
                && ChecksumOf(receipt.value.current.manifest) == q.checksum
      ensures old(Asked(before, host.depot, q))
              && !GetsLoaded(chance, old(tick), Lookups(before.current, q.fetched.value.manifest))
              ==> OnDisk() == old(OnDisk())
      ensures receipt.Some? ==> Compatible(before.current, receipt.value.current, q.rollback)
      ensures CalmFor(chance, old(tick), 10) && Fitting(before, q)
              && old(AtHand(before.current, host.depot, q.fetched.value.manifest))
              ==> s == Ok
      ensures CalmFor(chance, old(tick), 10) && old(Asked(before, host.depot, q)) ==>
                && s == Ok && Follows(OnDisk(), before, Running(q), q.rollback)
                && tick == old(tick) + 9 + Lookups(before.current, q.fetched.value.manifest)
    {
      receipt := None;
      if q.fetched.None? { return Raised(Broken), None; }
      var m := q.fetched.value.manifest;
      if ChecksumOf(m) != q.checksum || m.version != q.version || m.gitRevision != q.revision {
        return Raised(Refused), None;
      }
      if !Compatible(before.current, Downloaded(q), q.rollback) { return Raised(Refused), None; }
      s, receipt := Install(before, Downloaded(q), q.fetched.value, q.rollback);
    }

    /** Back to the previous release, whose image must still be the one behind its tag. */
    method Return(before: State) returns (s: Status, receipt: Option<Receipt>)
      requires journal.None? && stateFile == Some(before) && Safe(OnDisk())
      requires before.previous.Some? && !before.previous.value.legacy
      modifies `tick, `running, `vetted, `stateFile, `journal, `moments
      ensures Watched()
      ensures Safe(OnDisk())
      ensures Advances(Some(before), Baseline(OnDisk()))
      ensures Newcomers(old(OnDisk()), OnDisk(), host.depot, None)
      ensures s == Ok <==> receipt.Some?
      ensures receipt.Some? ==> StepsFrom(before, receipt.value, true)
      ensures receipt.Some? ==> Delivered(receipt.value) && Some(receipt.value.current) == before.previous
      ensures receipt.Some? ==> Compatible(before.current, receipt.value.current, true)
      ensures !Passes(chance(old(tick))) || !CanStart(before.previous.value) ==> s != Ok && OnDisk() == old(OnDisk())
      ensures CalmFor(chance, old(tick), 7) && CanStart(before.previous.value)
              && Compatible(before.current, before.previous.value, true)
              ==> s == Ok
    {
      receipt := None;
      var previous := before.previous.value;
      if !Compatible(before.current, previous, true) { return Raised(Refused), None; }
      var image: ImageId;
      s, image := Inspect(TagOf(previous));
      if s.IsFailure() { return; }
      if image != RuntimeImage(previous) { return Raised(Broken), None; }
      s, receipt := Promote(before, previous, true);
    }

    /** The downloaded release: finalize an adoption, confirm a repeat, or load and promote. */
    method Install(before: State, downloaded: Release, bundle: Bundle, rollback: bool)
      returns (s: Status, receipt: Option<Receipt>)
      requires journal.None? && stateFile == Some(before) && Safe(OnDisk())
      requires !downloaded.legacy && Identified(downloaded) && downloaded.runtimeImageId == None
      requires downloaded.manifest == bundle.manifest
      requires Compatible(before.current, downloaded, rollback)
      requires rollback || AtLeast(downloaded.manifest.version, before.current.manifest.version)
      modifies `tick, `running, `vetted, `stateFile, `journal, `moments, host
      ensures Watched()
      ensures Safe(OnDisk())
      ensures Advances(Some(before), Baseline(OnDisk()))
      ensures host.depot == if old(NeedsLoad(before.current, host.depot, bundle.manifest))
                               && Reaches(chance, old(tick), Lookups(before.current, bundle.manifest))
                            then WithBundle(old(host.depot), bundle) else old(host.depot)
      ensures Newcomers(old(OnDisk()), OnDisk(), host.depot, Some(bundle.manifest))
      ensures s == Ok <==> receipt.Some?
      ensures receipt.Some? ==> StepsFrom(before, receipt.value, rollback)
      ensures receipt.Some? ==> Delivered(receipt.value)
      ensures receipt.Some? ==> Identifies(receipt.value.current, downloaded)
      ensures old(NeedsLoad(before.current, host.depot, bundle.manifest))
              && !GetsLoaded(chance, old(tick), Lookups(before.current, bundle.manifest))
              ==> OnDisk() == old(OnDisk())
      ensures CalmFor(chance, old(tick), 10) && old(AtHand(before.current, host.depot, bundle.manifest)) ==> s == Ok
      ensures CalmFor(chance, old(tick), 10) && old(NeedsLoad(before.current, host.depot, bundle.manifest)) ==>
                && s == Ok && Follows(OnDisk(), before, downloaded.(runtimeImageId := Some(bundle.image)), rollback)
                && tick == old(tick) + 9 + Lookups(before.current, bundle.manifest)
    {
      receipt := None;
      var current, m := before.current, bundle.manifest;
      if Matches(current, m) {
        var image: ImageId;
        s, image := Inspect(TagOf(downloaded));
        if s.IsFailure() { return; }
        if image == RuntimeImage(current) {
          assert !NeedsLoad(current, host.depot, m);
          s, receipt := Rename(before, downloaded, image);
          return;
        }
      }
      assert NeedsLoad(current, host.depot, m) <==> m.imageId != current.manifest.imageId;
      assert current.legacy ==> !AtHand(current, host.depot, m);
      s, receipt := ConfirmOrLoad(before, downloaded, bundle, rollback);
    }

    method ConfirmOrLoad(before: State, downloaded: Release, bundle: Bundle, rollback: bool)
      returns (s: Status, receipt: Option<Receipt>)
      requires journal.None? && stateFile == Some(before) && Safe(OnDisk())
      requires !downloaded.legacy && Identified(downloaded) && downloaded.manifest == bundle.manifest
      requires Compatible(before.current, downloaded, rollback)
      requires rollback || AtLeast(downloaded.manifest.version, before.current.manifest.version)
      modifies `tick, `running, `vetted, `stateFile, `journal, `moments, host
      ensures Watched()
      ensures Safe(OnDisk())
      ensures Advances(Some(before), Baseline(OnDisk()))
      ensures host.depot == if bundle.manifest.imageId != before.current.manifest.imageId
              && Reaches(chance, old(tick), 0)
                            then WithBundle(old(host.depot), bundle) else old(host.depot)
      ensures Newcomers(old(OnDisk()), OnDisk(), host.depot, Some(bundle.manifest))
      ensures s == Ok <==> receipt.Some?
      ensures receipt.Some? ==> StepsFrom(before, receipt.value, rollback)
      ensures receipt.Some? ==> Delivered(receipt.value) && Identifies(receipt.value.current, downloaded)
      ensures bundle.manifest.imageId != before.current.manifest.imageId && !GetsLoaded(chance, old(tick), 0) ==>
                OnDisk() == old(OnDisk())
      ensures CalmFor(chance, old(tick), 9) && !before.current.legacy
              && old(AtHand(before.current, host.depot, bundle.manifest))
              ==> s == Ok
      ensures CalmFor(chance, old(tick), 9) && bundle.manifest.imageId != before.current.manifest.imageId ==>
                && s == Ok && Follows(OnDisk(), before, downloaded.(runtimeImageId := Some(bundle.image)), rollback)
                && tick == old(tick) + 9
    {
      if before.current.manifest.imageId == bundle.manifest.imageId {
        s, receipt := Confirm(before, downloaded);
      } else {
        s, receipt := LoadAndPromote(before, downloaded, bundle, rollback);
      }
    }

    /** The bundle holds another image than the one that runs. */
    method LoadAndPromote(before: State, downloaded: Release, bundle: Bundle, rollback: bool)
      returns (s: Status, receipt: Option<Receipt>)
      requires journal.None? && stateFile == Some(before) && Safe(OnDisk())
      requires !downloaded.legacy && Identified(downloaded) && downloaded.manifest == bundle.manifest
      requires Compatible(before.current, downloaded, rollback)
      requires rollback || AtLeast(downloaded.manifest.version, before.current.manifest.version)
      modifies `tick, `running, `vetted, `stateFile, `journal, `moments, host
      ensures Watched()
      ensures Safe(OnDisk())
      ensures Advances(Some(before), Baseline(OnDisk()))
      ensures host.depot == if Reaches(chance, old(tick), 0)
                            then WithBundle(old(host.depot), bundle) else old(host.depot)
      ensures Newcomers(old(OnDisk()), OnDisk(), host.depot, Some(bundle.manifest))
      ensures s == Ok <==> receipt.Some?
      ensures receipt.Some? ==> StepsFrom(before, receipt.value, rollback)
      ensures receipt.Some? ==>
                Delivered(receipt.value) && receipt.value.current == downloaded.(runtimeImageId := Some(bundle.image))
      ensures !GetsLoaded(chance, old(tick), 0) ==> OnDisk() == old(OnDisk())
      ensures CalmFor(chance, old(tick), 9) ==>
                && s == Ok && Follows(OnDisk(), before, downloaded.(runtimeImageId := Some(bundle.image)), rollback)
                && tick == old(tick) + 9
    {
      receipt := None;
      :- Checkpoint();
      :- Load(bundle);
      s, receipt := PromoteLoaded(before, downloaded, bundle, rollback);
    }

    /** The image that the daemon names behind the tag is the one to promote. */
    method PromoteLoaded(before: State, downloaded: Release, bundle: Bundle, rollback: bool)
      returns (s: Status, receipt: Option<Receipt>)
      requires journal.None? && stateFile == Some(before) && Safe(OnDisk())
      requires !downloaded.legacy && Identified(downloaded) && downloaded.manifest == bundle.manifest
      requires Compatible(before.current, downloaded, rollback)
      requires rollback || AtLeast(downloaded.manifest.version, before.current.manifest.version)
      requires TagOf(downloaded) in host.depot.tags && host.depot.tags[TagOf(downloaded)] == bundle.image
      modifies `tick, `running, `vetted, `stateFile, `journal, `moments
      ensures Watched()
      ensures Safe(OnDisk())
      ensures Advances(Some(before), Baseline(OnDisk()))
      ensures Newcomers(old(OnDisk()), OnDisk(), host.depot, Some(bundle.manifest))
      ensures s == Ok <==> receipt.Some?
      ensures receipt.Some? ==> StepsFrom(before, receipt.value, rollback)
      ensures receipt.Some? ==>
                Delivered(receipt.value) && receipt.value.current == downloaded.(runtimeImageId := Some(bundle.image))
      ensures CalmFor(chance, old(tick), 7) ==>
                && s == Ok && Follows(OnDisk(), before, downloaded.(runtimeImageId := Some(bundle.image)), rollback)
                && tick == old(tick) + 7
    {
      receipt := None;
      var image: ImageId;
      s, image := Inspect(TagOf(downloaded));
      if s.IsFailure() { return; }
      s, receipt := Promote(before, downloaded.(runtimeImageId := Some(image)), rollback);
    }

    /** The image that runs is asked for again. */
    method Confirm(before: State, downloaded: Release) returns (s: Status, receipt: Option<Receipt>)
      requires journal.None? && stateFile == Some(before) && Safe(OnDisk())
      requires !downloaded.legacy && Identified(downloaded)
      modifies `tick, `vetted
      ensures s == Ok <==> receipt.Some?
      ensures receipt.Some? ==> Delivered(receipt.value) && receipt.value == ReceiptOf(before)
      ensures receipt.Some? ==> Identifies(receipt.value.current, downloaded)
      ensures s == Ok <==>
                && before.current.manifestSha256 == downloaded.manifestSha256
                && TagOf(downloaded) in host.depot.tags
                && host.depot.tags[TagOf(downloaded)] == RuntimeImage(before.current)
                && ThreePass(chance, old(tick)) && chance(old(tick) + 1).healthy
    {
      receipt := None;
      if before.current.manifestSha256 != downloaded.manifestSha256 { return Raised(Refused), None; }
      var image: ImageId;
      s, image := Inspect(TagOf(downloaded));
      if s.IsFailure() { return; }
      if image != RuntimeImage(before.current) { return Raised(Broken), None; }
      :- Health(before.current);
      :- Checkpoint();
      return Ok, Some(ReceiptOf(before));
    }

    /** The adopted image turns out to be that of the bundle. */
    method Rename(before: State, downloaded: Release, image: ImageId) returns (s: Status, receipt: Option<Receipt>)
      requires journal.None? && stateFile == Some(before) && Safe(OnDisk())
      requires before.current.legacy && Compatible(before.current, downloaded, false)
      requires !downloaded.legacy && Identified(downloaded)
      requires image == RuntimeImage(before.current)
      requires TagOf(downloaded) in host.depot.tags && host.depot.tags[TagOf(downloaded)] == image
      modifies `tick, `vetted, `stateFile, `moments
      ensures Watched()
      ensures Safe(OnDisk())
      ensures Advances(Some(before), Baseline(OnDisk()))
      ensures Newcomers(old(OnDisk()), OnDisk(), host.depot, Some(downloaded.manifest))
      ensures s == Ok <==> receipt.Some?
      ensures receipt.Some? ==> RenamesFrom(before, receipt.value)
      ensures receipt.Some? ==>
                Delivered(receipt.value) && receipt.value.current == downloaded.(runtimeImageId := Some(image))
      ensures s == Ok <==>
                && before.current.manifest.version == downloaded.manifest.version
                && before.current.manifest.gitRevision == downloaded.manifest.gitRevision
                && Passes(chance(old(tick))) && ThreePass(chance, old(tick) + 1) && chance(old(tick) + 1).healthy
    {
      var m := downloaded.manifest;
      if before.current.manifest.version != m.version || before.current.manifest.gitRevision != m.gitRevision
         || before.current.manifest.requiredMigrations != m.requiredMigrations {
        return Raised(Refused), None;
      }
      receipt := None;
      :- Checkpoint();
      s, receipt := FinalizeAdoption(before, downloaded.(runtimeImageId := Some(image)));
    }

    /** Names the adopted container after the bundle that holds the same image; no switch, no journal. */
    method FinalizeAdoption(before: State, target: Release) returns (s: Status, receipt: Option<Receipt>)
      requires journal.None? && stateFile == Some(before) && Safe(OnDisk())
      requires before.current.legacy && Identified(target) && Compatible(before.current, target, false)
      requires target.manifest.version == before.current.manifest.version
      requires RuntimeImage(target) == RuntimeImage(before.current)
      modifies `tick, `vetted, `stateFile, `moments
      ensures Watched()
      ensures Safe(OnDisk())
      ensures Advances(Some(before), Baseline(OnDisk()))
      ensures stateFile == Some(before)
              || (stateFile.Some?
                      && stateFile.value == before.(current := target, deployedAt := stateFile.value.deployedAt))
      ensures s == Ok <==> receipt.Some?
      ensures receipt.Some? ==> Delivered(receipt.value) && receipt.value.current == target
      ensures s == Ok <==> ThreePass(chance, old(tick)) && chance(old(tick)).healthy
      ensures receipt.Some? ==>
                receipt.value.previous == before.previous && receipt.value.rollbackFrom == before.rollbackFrom
    {
      receipt := None;
      :- Health(target);
      s := Observe(before);
      if s.IsFailure() { return; }
      var after := before.(current := target, deployedAt := chance(tick).now);
      :- ReplaceState(after);
      :- Checkpoint();
      return Ok, Some(ReceiptOf(after));
    }

    /** Straight back to the previous release, from the images at hand. */
    method RollbackLocal() returns (s: Status, receipt: Option<Receipt>)
      requires Safe(OnDisk()) || Stranded(OnDisk())
      modifies `tick, `running, `vetted, `stateFile, `journal, `moments
      ensures Watched()
      ensures if old(Stranded(OnDisk())) then OnDisk() == old(OnDisk()) else Safe(OnDisk())
      ensures old(stateFile).None? ==> running == old(running)
      ensures Advances(old(Baseline(OnDisk())), Baseline(OnDisk()))
      ensures Newcomers(old(OnDisk()), OnDisk(), host.depot, None)
      ensures s == Ok <==> receipt.Some?
      ensures receipt.Some? ==>
                && Delivered(receipt.value) && old(stateFile).Some? && old(stateFile).value.previous.Some?
                && receipt.value.current == old(stateFile).value.previous.value
                && receipt.value.previous == Some(old(stateFile).value.current)
                && receipt.value.rollbackFrom == Some(old(stateFile).value.current)
      ensures s == Ok ==> CanStart(stateFile.value.current)
      ensures CalmFrom(chance, old(tick)) && old(MayRollBack(OnDisk(), host.depot)) ==> s == Ok
    {
      receipt := None;
      if journal.Some? { return Raised(Refused), None; }
      var state: State;
      s, state := ReadState();
      if s.IsFailure() { return; }
      if state.previous.None? || !Compatible(state.current, state.previous.value, true) {
        return Raised(Refused), None;
      }
      s, receipt := Promote(state, state.previous.value, true);
    }

    /** The recover operation: whatever was cut short, then the record must stand. */
    method RecoverOperation() returns (s: Status, receipt: Option<Receipt>)
      requires Safe(OnDisk()) || Stranded(OnDisk())
      modifies `tick, `running, `vetted, `journal, `composeFile, `envFile, `moments
      ensures Watched()
      ensures if old(Stranded(OnDisk())) then OnDisk() == old(OnDisk()) else Safe(OnDisk())
      ensures old(stateFile).None? ==> running == old(running)
      ensures Advances(old(Baseline(OnDisk())), Baseline(OnDisk()))
      ensures journal == old(journal) || journal == None
      ensures s == Ok <==> receipt.Some?
      ensures receipt.Some? ==> Delivered(receipt.value)
      ensures s == Ok ==> old(journal).None? || CanStart(stateFile.value.current)
      ensures s == Raised(Refused) ==> old(stateFile).None? || old(Stranded(OnDisk()))
      ensures old(Stranded(OnDisk())) && Passes(chance(old(tick))) ==> s == Raised(Refused)
      ensures CalmFrom(chance, old(tick)) && old(Recoverable(OnDisk(), host.depot)) ==> s == Ok
    {
      receipt := None;
      if journal.Some? {
        :- Recover();
      }
      :- Checkpoint();  // stale downloads
      var state: State;
      s, state := ReadState();
      if s.IsFailure() { return; }
      s := Observe(state);
      if s.IsFailure() { return; }
      :- Health(state.current);
      return Ok, Some(ReceiptOf(state));
    }

    /** A receipt of the standing record, for retention and image cleanup. */
    method Maintenance() returns (s: Status, receipt: Option<Receipt>)
      requires Safe(OnDisk()) || Stranded(OnDisk())
      modifies `tick, `vetted
      ensures OnDisk() == old(OnDisk())
      ensures s == Ok <==> receipt.Some?
      ensures receipt.Some? ==> Delivered(receipt.value)
      ensures CalmFrom(chance, old(tick)) && old(Settled(OnDisk())) && stateFile.Some? ==> s == Ok
    {
      receipt := None;
      var state: State;
      s, state := Standing();
      if s.IsFailure() { return; }
      return Ok, Some(ReceiptOf(state));
    }

    ghost predicate Delivered(r: Receipt)
      reads this
    {
      && journal.None? && stateFile.Some? && r == ReceiptOf(stateFile.value)
      && running == Some(RuntimeImage(r.current)) && vetted == Some(r.current)
    }
  }
}
