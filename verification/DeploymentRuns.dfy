/** Whole runs of the deployment machine: any commands, each ending anywhere, under any schedule. */
module DeploymentRuns {
  import opened Releases
  import opened Images
  import opened Deployment

  // ---- whole runs ----

  datatype Command =
    | AdoptCommand(version: Version, revision: string, image: ImageId, migrations: seq<Migration>)
    | DeployCommand(request: Request)
    | RollbackLocalCommand
    | RecoverCommand
    | MaintenanceCommand
    | ConfigureCommand(candidate: Option<Candidate>, backup: string)

  /** The machine between two commands, and how far the schedule has come. */
  datatype World = World(disk: Disk, depot: Depot, tick: nat)

  /** The command is a configuration change that strands the machine. */
  ghost predicate Strands(w: World, c: Command, chance: Schedule) {
    && c.ConfigureCommand? && Changes(w.disk, w.depot, c.candidate, c.backup)
    && StrandedBy(chance, w.tick, c.candidate.value.generated)
  }

  /** The command is a deployment that loads its bundle. */
  ghost predicate LoadsAt(w: World, c: Command, chance: Schedule) {
    c.DeployCommand? && Loads(chance, w.tick, w.disk, w.depot, c.request)
  }

  /** The command loads another image for the version and revision of this release. */
  ghost predicate TakesFrom(w: World, c: Command, chance: Schedule, r: Release) {
    && LoadsAt(w, c, chance)
    && Clashes(r, c.request.version, c.request.revision, c.request.fetched.value.image)
  }

  /** What nothing but trouble along the way can keep from succeeding. */
  predicate Answerable(w: World, c: Command) {
    match c
    case AdoptCommand(_, _, image, _) => w.disk.state.None? && w.disk.journal.None? && w.disk.running == Some(image)
    case DeployCommand(q) => Loadable(w.disk, w.depot, q) || Repeats(w.disk, w.depot, q)
    case RollbackLocalCommand => MayRollBack(w.disk, w.depot)
    case RecoverCommand => Recoverable(w.disk, w.depot)
    case MaintenanceCommand => w.disk.state.Some? && Settled(w.disk)
    case ConfigureCommand(candidate, backup) => Changes(w.disk, w.depot, candidate, backup)
  }

  function DownloadedBy(c: Command): Option<Manifest> {
    if c.DeployCommand? then AskedFor(c.request) else None
  }

  /** What one command does to the machine. */
  ghost predicate Performed(w: World, c: Command, s: Status, next: World, chance: Schedule) {
    && (if Stranded(w.disk) then next.disk == w.disk else Safe(next.disk) || Stranded(next.disk))
    && (Safe(w.disk) ==> (Stranded(next.disk) <==> Strands(w, c, chance)))
    && Advances(Baseline(w.disk), Baseline(next.disk))
    && next.depot == (if LoadsAt(w, c, chance) then WithBundle(w.depot, c.request.fetched.value) else w.depot)
    && (Ready(w.disk, w.depot) ==> Newcomers(w.disk, next.disk, next.depot, DownloadedBy(c)))
    && (w.disk.state.None? && next.disk.state.None? ==> next.disk.running == w.disk.running)
    && (c.RecoverCommand? && s == Ok ==>
          && Settled(next.disk)
          && (w.disk.journal.Some? ==> w.disk.state.Some? && Startable(w.depot, w.disk.state.value.current)))
    && (Answerable(w, c) && CalmFrom(chance, w.tick) ==> s == Ok && Settled(next.disk) && next.disk.state.Some?)
  }

  /** What adoption and deployment make of the machine while nothing goes wrong, and that a deployment
      records nothing before its bundle is loaded. */
  ghost predicate Smoothly(w: World, c: Command, next: World, chance: Schedule) {
    && (c.AdoptCommand? && Answerable(w, c) && CalmFor(chance, w.tick, 3) ==>
          && next == World(w.disk.(state := next.disk.state), w.depot, w.tick + 3)
          && Safe(next.disk) && next.disk.state.Some? && next.disk.state.value.previous.None?
          && next.disk.state.value.current == Adopted(c.version, c.revision, c.image, c.migrations))
    && (c.DeployCommand? && Loadable(w.disk, w.depot, c.request) && CalmFor(chance, w.tick, 12) ==>
          && Follows(next.disk, w.disk.state.value, Running(c.request), c.request.rollback)
          && next.tick == w.tick + 11 + Lookups(w.disk.state.value.current, c.request.fetched.value.manifest))
    && (c.DeployCommand? && Loadable(w.disk, w.depot, c.request)
        && !PastLoad(chance, w.tick, Lookups(w.disk.state.value.current, c.request.fetched.value.manifest))
        ==> next.disk == w.disk)
  }

  /** What it means that a command has succeeded. */
  ghost predicate Achieved(d: Disk, c: Command, next: Disk) {
    && Settled(next) && next.state.Some?
    && var s := next.state.value;
    match c
    case AdoptCommand(version, revision, image, migrations) =>
      && d.state.None? && next == d.(state := next.state) && next.running == Some(image)
      && s.current == Adopted(version, revision, image, migrations) && s.previous.None? && s.rollbackFrom.None?
    case DeployCommand(q) =>
      if q.dryRun then next == d
      else s.current.prefix == Some(q.key) && s.current.manifestSha256 == Some(q.checksum)
    case RollbackLocalCommand =>
      && d.state.Some? && Some(s.current) == d.state.value.previous
      && s.previous == Some(d.state.value.current) && s.rollbackFrom == Some(d.state.value.current)
    case RecoverCommand => next.state == d.state
    case MaintenanceCommand => next == d
    case ConfigureCommand(candidate, _) =>
      && candidate.Some? && next.compose == candidate.value.compose && next.env == candidate.value.env
      && d.state.Some? && s.current == d.state.value.current
  }

  function WorldOf(d: Deployer): World
    reads d, d.host
  {
    World(d.OnDisk(), d.host.depot, d.tick)
  }

  /** One command against the machine, however it ends. */
  method Perform(d: Deployer, c: Command) returns (s: Status, receipt: Option<Receipt>)
    requires Safe(d.OnDisk()) || Stranded(d.OnDisk())
    modifies d, d.host
    ensures Performed(old(WorldOf(d)), c, s, WorldOf(d), d.chance) && d.Watched()
    ensures Smoothly(old(WorldOf(d)), c, WorldOf(d), d.chance)
    ensures s == Ok ==> Achieved(old(d.OnDisk()), c, d.OnDisk())
    ensures receipt.Some? ==> s == Ok && d.Delivered(receipt.value) && Safe(d.OnDisk())
    ensures s == Ok && (c.MaintenanceCommand? || (c.DeployCommand? && !c.request.dryRun)) ==> receipt.Some?
  {
    receipt := None;
    match c {
      case AdoptCommand(_, _, _, _) => s, receipt := PerformAdoption(d, c);
      case DeployCommand(_) => s, receipt := PerformDeployment(d, c);
      case ConfigureCommand(_, _) => s := PerformConfiguration(d, c);
      case _ => s, receipt := PerformPlain(d, c);
    }
  }

  method PerformAdoption(d: Deployer, c: Command) returns (s: Status, receipt: Option<Receipt>)
    requires c.AdoptCommand? && (Safe(d.OnDisk()) || Stranded(d.OnDisk()))
    modifies d
    ensures Performed(old(WorldOf(d)), c, s, WorldOf(d), d.chance) && d.Watched()
    ensures Smoothly(old(WorldOf(d)), c, WorldOf(d), d.chance)
    ensures s == Ok ==> Achieved(old(d.OnDisk()), c, d.OnDisk())
    ensures receipt.Some? ==> s == Ok && d.Delivered(receipt.value) && Safe(d.OnDisk())
  {
    s, receipt := d.Adopt(c.version, c.revision, c.image, c.migrations);
  }

  method PerformDeployment(d: Deployer, c: Command) returns (s: Status, receipt: Option<Receipt>)
    requires c.DeployCommand? && (Safe(d.OnDisk()) || Stranded(d.OnDisk()))
    modifies d, d.host
    ensures Performed(old(WorldOf(d)), c, s, WorldOf(d), d.chance) && d.Watched()
    ensures Smoothly(old(WorldOf(d)), c, WorldOf(d), d.chance)
    ensures s == Ok ==> Achieved(old(d.OnDisk()), c, d.OnDisk())
    ensures receipt.Some? ==> s == Ok && d.Delivered(receipt.value) && Safe(d.OnDisk())
    ensures s == Ok && !c.request.dryRun ==> receipt.Some?
  {
    s, receipt := d.Deploy(c.request);
  }

  method PerformConfiguration(d: Deployer, c: Command) returns (s: Status)
    requires c.ConfigureCommand? && (Safe(d.OnDisk()) || Stranded(d.OnDisk()))
    modifies d
    ensures Performed(old(WorldOf(d)), c, s, WorldOf(d), d.chance) && d.Watched()
    ensures s == Ok ==> Achieved(old(d.OnDisk()), c, d.OnDisk())
  {
    s := d.Configure(c.candidate, c.backup);
  }

  /** The commands without parameters, none of which changes the images. */
  method PerformPlain(d: Deployer, c: Command) returns (s: Status, receipt: Option<Receipt>)
    requires Safe(d.OnDisk()) || Stranded(d.OnDisk())
    requires c.RollbackLocalCommand? || c.RecoverCommand? || c.MaintenanceCommand?
    modifies d
    ensures Performed(old(WorldOf(d)), c, s, WorldOf(d), d.chance) && d.Watched()
    ensures s == Ok ==> Achieved(old(d.OnDisk()), c, d.OnDisk())
    ensures receipt.Some? <==> s == Ok
    ensures receipt.Some? ==> d.Delivered(receipt.value) && Safe(d.OnDisk())
  {
    if c.RollbackLocalCommand? {
      s, receipt := d.RollbackLocal();
    } else if c.RecoverCommand? {
      s, receipt := d.RecoverOperation();
    } else {
      s, receipt := d.Maintenance();
    }
  }

  ghost predicate Run(trail: seq<World>, commands: seq<Command>, status: seq<Status>, chance: Schedule) {
    && |trail| == |commands| + 1 && |status| == |commands|
    && Safe(trail[0].disk)
    && forall i :: 0 <= i < |commands| ==>
         && Performed(trail[i], commands[i], status[i], trail[i + 1], chance)
         && Smoothly(trail[i], commands[i], trail[i + 1], chance)
  }

  lemma RunLonger(trail: seq<World>, commands: seq<Command>, status: seq<Status>, chance: Schedule,
                  c: Command, s: Status, next: World)
    requires Run(trail, commands, status, chance)
    requires Performed(trail[|commands|], c, s, next, chance) && Smoothly(trail[|commands|], c, next, chance)
    ensures Run(trail + [next], commands + [c], status + [s], chance)
  {
    var ws, cs, ss := trail + [next], commands + [c], status + [s];
    forall i | 0 <= i < |cs|
      ensures Performed(ws[i], cs[i], ss[i], ws[i + 1], chance) && Smoothly(ws[i], cs[i], ws[i + 1], chance)
    {
      if i < |commands| {
        assert ws[i] == trail[i] && ws[i + 1] == trail[i + 1] && cs[i] == commands[i] && ss[i] == status[i];
      } else {
        assert ws[i] == trail[i] && ws[i + 1] == next && cs[i] == c && ss[i] == s;
      }
    }
  }

  /** The first of the commands that strands the machine, if one does. */
  ghost predicate StrandsWithin(trail: seq<World>, commands: seq<Command>, chance: Schedule, n: nat)
    requires n <= |commands| < |trail|
  {
    exists j :: 0 <= j < n && Safe(trail[j].disk) && Strands(trail[j], commands[j], chance)
  }

  /** No load takes the tag of a release that the machine may have to start. */
  ghost predicate NoLossWithin(trail: seq<World>, commands: seq<Command>, chance: Schedule, n: nat)
    requires n <= |commands| < |trail|
  {
    forall j, r :: 0 <= j < n && NamedBy(trail[j].disk, r) ==> !TakesFrom(trail[j], commands[j], chance, r)
  }

  /** What is true of every run: the invariant holds at every moment, but for a machine stranded by a
      schedule that StrandedBy describes, which then stays as it is; and every release that the machine
      may have to start can be started, unless a load took its tag. */
  ghost predicate Kept(trail: seq<World>, commands: seq<Command>, status: seq<Status>, chance: Schedule)
    requires |trail| == |commands| + 1 && |status| == |commands|
  {
    && (forall i :: 0 <= i < |trail| ==>
          && (Safe(trail[i].disk) <==> !StrandsWithin(trail, commands, chance, i))
          && (Stranded(trail[i].disk) <==> StrandsWithin(trail, commands, chance, i)))
    && (forall i, j :: 0 <= i <= j < |trail| && Stranded(trail[i].disk) ==> trail[j].disk == trail[i].disk)
    && (Ready(trail[0].disk, trail[0].depot) ==>
          forall i :: 0 <= i < |trail| && NoLossWithin(trail, commands, chance, i) ==>
            Ready(trail[i].disk, trail[i].depot))
    && (Ready(trail[0].disk, trail[0].depot) ==>
          forall i :: 0 <= i < |commands| ==> RecoveryFinishes(trail, commands, status, chance, i))
    && Trail(trail)
  }

  /** A recovery without further trouble finishes, after whatever trouble there was. */
  ghost predicate RecoveryFinishes(trail: seq<World>, commands: seq<Command>, status: seq<Status>, chance: Schedule,
                                   i: nat)
    requires |trail| == |commands| + 1 && |status| == |commands| && i < |commands|
  {
    && commands[i] == RecoverCommand && trail[i].disk.state.Some? && CalmFrom(chance, trail[i].tick)
    && !StrandsWithin(trail, commands, chance, i) && NoLossWithin(trail, commands, chance, i)
    ==> status[i] == Ok && Settled(trail[i + 1].disk)
  }

  /** Any commands under any schedule, from a machine that has not been adopted. The schedule may kill a
      command at any of its effects, and `moments` holds the disk after every single effect. */
  method Drive(chance: Schedule, depot: Depot, running: Option<ImageId>, compose: string, env: string,
               commands: seq<Command>)
    returns (trail: seq<World>, status: seq<Status>, ghost moments: set<Disk>)
    ensures Run(trail, commands, status, chance) && Kept(trail, commands, status, chance)
    ensures trail[0] == World(Disk(None, None, running, compose, env, map[]), depot, 0)
    ensures AllSane(moments) && forall w :: w in trail ==> w.disk in moments
  {
    var host := new ImageHost(depot, _ => {}, _ => RemovalChance(false, false, false));
    var d := new Deployer(chance, host, running, compose, env);
    trail, status := [WorldOf(d)], [];
    for n := 0 to |commands|
      invariant fresh(d) && fresh(d.host) && d.chance == chance
      invariant Run(trail, commands[..n], status, chance)
      invariant trail[0] == World(Disk(None, None, running, compose, env, map[]), depot, 0)
      invariant trail[n] == WorldOf(d) && (Safe(trail[n].disk) || Stranded(trail[n].disk))
      invariant AllSane(d.moments) && forall w :: w in trail ==> w.disk in d.moments
    {
      var s, _ := Perform(d, commands[n]);
      RunLonger(trail, commands[..n], status, chance, commands[n], s, WorldOf(d));
      assert commands[..n + 1] == commands[..n] + [commands[n]];
      trail, status := trail + [WorldOf(d)], status + [s];
    }
    assert commands[..|commands|] == commands;
    moments := d.moments;
    RunsKeep(trail, commands, status, chance);
  }

  // ---- what every run keeps ----

  lemma RunsKeep(trail: seq<World>, commands: seq<Command>, status: seq<Status>, chance: Schedule)
    requires Run(trail, commands, status, chance)
    ensures Kept(trail, commands, status, chance)
  {
    forall i | 0 <= i < |trail|
      ensures Safe(trail[i].disk) <==> !StrandsWithin(trail, commands, chance, i)
      ensures Stranded(trail[i].disk) <==> StrandsWithin(trail, commands, chance, i)
    {
      EveryMomentIsSafe(trail, commands, status, chance, i);
    }
    forall i, j | 0 <= i <= j < |trail| && Stranded(trail[i].disk) ensures trail[j].disk == trail[i].disk {
      StrandedForGood(trail, commands, status, chance, i, j);
    }
    if Ready(trail[0].disk, trail[0].depot) {
      forall i | 0 <= i < |trail| && NoLossWithin(trail, commands, chance, i)
        ensures Ready(trail[i].disk, trail[i].depot)
      {
        EveryMomentIsReady(trail, commands, status, chance, i);
      }
      forall i | 0 <= i < |commands| ensures RecoveryFinishes(trail, commands, status, chance, i) {
        RecoveryRestores(trail, commands, status, chance, i);
      }
    }
    forall i | 0 < i < |trail| ensures Advances(Baseline(trail[i - 1].disk), Baseline(trail[i].disk)) {
      assert Performed(trail[i - 1], commands[i - 1], status[i - 1], trail[i], chance);
    }
  }

  lemma SafeIsNotStranded(d: Disk)
    ensures !(Safe(d) && Stranded(d))
  {
  }

  lemma {:induction false} EveryMomentIsSafe(trail: seq<World>, commands: seq<Command>, status: seq<Status>,
                                             chance: Schedule, i: nat)
    requires Run(trail, commands, status, chance) && i < |trail|
    ensures Safe(trail[i].disk) <==> !StrandsWithin(trail, commands, chance, i)
    ensures Stranded(trail[i].disk) <==> StrandsWithin(trail, commands, chance, i)
  {
    SafeIsNotStranded(trail[i].disk);
    if i > 0 {
      EveryMomentIsSafe(trail, commands, status, chance, i - 1);
      assert Performed(trail[i - 1], commands[i - 1], status[i - 1], trail[i], chance);
      if StrandsWithin(trail, commands, chance, i) && !StrandsWithin(trail, commands, chance, i - 1) {
        var j :| 0 <= j < i && Safe(trail[j].disk) && Strands(trail[j], commands[j], chance);
        assert j == i - 1;
      }
    }
  }

  lemma {:induction false} StrandedForGood(trail: seq<World>, commands: seq<Command>, status: seq<Status>,
                                           chance: Schedule, i: nat, j: nat)
    requires Run(trail, commands, status, chance) && i <= j < |trail| && Stranded(trail[i].disk)
    ensures trail[j].disk == trail[i].disk
    decreases j - i
  {
    if i < j {
      StrandedForGood(trail, commands, status, chance, i, j - 1);
      assert Performed(trail[j - 1], commands[j - 1], status[j - 1], trail[j], chance);
    }
  }

  /** A command leaves a release startable exactly when it does not load another image for its
      version and revision. */
  lemma StepKeepsStartable(w: World, c: Command, s: Status, next: World, chance: Schedule, r: Release)
    requires Performed(w, c, s, next, chance) && Startable(w.depot, r)
    ensures Startable(next.depot, r) <==> !TakesFrom(w, c, chance, r)
  {
    if LoadsAt(w, c, chance) {
      LoadKeepsStartable(w.depot, c.request.version, c.request.revision, c.request.fetched.value.image, r);
    }
  }

  lemma {:induction false} EveryMomentIsReady(trail: seq<World>, commands: seq<Command>, status: seq<Status>,
                                              chance: Schedule, i: nat)
    requires Run(trail, commands, status, chance) && i < |trail|
    requires Ready(trail[0].disk, trail[0].depot) && NoLossWithin(trail, commands, chance, i)
    ensures Ready(trail[i].disk, trail[i].depot)
  {
    if i > 0 {
      EveryMomentIsReady(trail, commands, status, chance, i - 1);
      StepKeepsReady(trail[i - 1], commands[i - 1], status[i - 1], trail[i], chance);
    }
  }

  lemma StepKeepsReady(w: World, c: Command, s: Status, next: World, chance: Schedule)
    requires Performed(w, c, s, next, chance) && Ready(w.disk, w.depot)
    requires forall r :: NamedBy(w.disk, r) ==> !TakesFrom(w, c, chance, r)
    ensures Ready(next.disk, next.depot)
  {
    forall r | NamedBy(next.disk, r) ensures Startable(next.depot, r) {
      if NamedBy(w.disk, r) {
        StepKeepsStartable(w, c, s, next, chance, r);
      }
    }
  }

  lemma RecoveryRestores(trail: seq<World>, commands: seq<Command>, status: seq<Status>, chance: Schedule, i: nat)
    requires Run(trail, commands, status, chance) && i < |commands| && Ready(trail[0].disk, trail[0].depot)
    ensures RecoveryFinishes(trail, commands, status, chance, i)
  {
    assert Performed(trail[i], commands[i], status[i], trail[i + 1], chance);
    if trail[i].disk.state.Some? && !StrandsWithin(trail, commands, chance, i)
       && NoLossWithin(trail, commands, chance, i) {
      EveryMomentIsSafe(trail, commands, status, chance, i);
      EveryMomentIsReady(trail, commands, status, chance, i);
      assert NamedBy(trail[i].disk, trail[i].disk.state.value.current);
    }
  }

  ghost predicate Trail(trail: seq<World>) {
    forall i :: 0 < i < |trail| ==> Advances(Baseline(trail[i - 1].disk), Baseline(trail[i].disk))
  }

  /** The recorded release never comes to need other migrations, nor do the one before it and the one
      that was rolled back from ever differ from it. */
  lemma {:induction false} MigrationsNeverChange(trail: seq<World>, i: nat, j: nat)
    requires Trail(trail) && i <= j < |trail| && Baseline(trail[i].disk).Some?
    ensures Baseline(trail[j].disk).Some?
    ensures Baseline(trail[j].disk).value.current.manifest.requiredMigrations
            == Baseline(trail[i].disk).value.current.manifest.requiredMigrations
    decreases j - i
  {
    if i < j {
      MigrationsNeverChange(trail, i, j - 1);
    }
  }

  /** Every release that a moment names needs the migrations that every earlier moment recorded: the
      recorded one, its predecessor, the one rolled back from, and the target of an unfinished promotion. */
  lemma NamedReleasesShareMigrations(trail: seq<World>, commands: seq<Command>, status: seq<Status>, chance: Schedule,
                                     i: nat, j: nat, r: Release)
    requires Run(trail, commands, status, chance) && i <= j < |trail| && Baseline(trail[i].disk).Some?
    requires NamedBy(trail[j].disk, r)
             || (trail[j].disk.state.Some? && trail[j].disk.state.value.rollbackFrom == Some(r))
    ensures r.manifest.requiredMigrations == Baseline(trail[i].disk).value.current.manifest.requiredMigrations
  {
    RunsKeep(trail, commands, status, chance);
    MigrationsNeverChange(trail, i, j);
    assert Safe(trail[j].disk) || Stranded(trail[j].disk);
  }

  ghost predicate RollsBack(a: Option<State>, b: Option<State>) {
    && a.Some? && b.Some?
    && b.value.rollbackFrom == Some(a.value.current)
    && a.value.current.manifest.rollbackMode == SameMigrationsOnly
    && b.value.current.manifest.rollbackMode == SameMigrationsOnly
    && a.value.current.manifest.requiredMigrations == b.value.current.manifest.requiredMigrations
  }

  function VersionAt(w: World): Version
    requires Baseline(w.disk).Some?
  {
    Baseline(w.disk).value.current.manifest.version
  }

  /** A version can only have dropped across a stretch that holds a rollback between two
      releases that both allow it. */
  lemma {:induction false} VersionDropsOnlyInRollback(trail: seq<World>, i: nat, j: nat) returns (k: nat)
    requires Trail(trail) && i <= j < |trail| && Baseline(trail[i].disk).Some? && Baseline(trail[j].disk).Some?
    requires !AtLeast(VersionAt(trail[j]), VersionAt(trail[i]))
    ensures i < k <= j && RollsBack(Baseline(trail[k - 1].disk), Baseline(trail[k].disk))
    decreases j - i
  {
    assert i < j;
    MigrationsNeverChange(trail, i, j - 1);
    if AtLeast(VersionAt(trail[j - 1]), VersionAt(trail[i])) {
      k := j;
    } else {
      k := VersionDropsOnlyInRollback(trail, i, j - 1);
    }
  }
}
