/** Runs in which the machine is stranded, or loses what it needs to start a recorded release. */
module DeploymentCases {
  import opened Releases
  import opened Images
  import opened Deployment
  import opened DeploymentRuns

  const CALM := Chance(false, false, true, NewContainer, true, 0)

  const FIRST := Version(1, 0, 0)

  /** The way out of the invariant, taken: an adopted machine, one configuration change, an exception
      just after its journal is gone, and a restart that leaves no container. */
  method StrandedRun() returns (chance: Schedule, trail: seq<World>, commands: seq<Command>, status: seq<Status>)
    ensures Run(trail, commands, status, chance) && |commands| == 2
    ensures trail[0].disk == Disk(None, None, Some("A"), "services", "", map[])
    ensures Safe(trail[1].disk) && Strands(trail[1], commands[1], chance) && Stranded(trail[2].disk)
  {
    chance := (n: nat) =>
      if n == 15 then CALM.(raise := true) else if n == 18 then CALM.(left := NoContainer) else CALM;
    var candidate := Candidate("services", "KEY", false);
    commands := [AdoptCommand(FIRST, "r1", "A", []), ConfigureCommand(Some(candidate), "backup")];
    ghost var moments;
    trail, status, moments := Drive(chance, Inventory(map[], {"A"}), Some("A"), "services", "", commands);
    assert Performed(trail[0], commands[0], status[0], trail[1], chance)
            && Smoothly(trail[0], commands[0], trail[1], chance);
    assert trail[1].tick == 3 && Changes(trail[1].disk, trail[1].depot, commands[1].candidate, commands[1].backup);
    assert StrandedBy(chance, 3, false);
    assert Performed(trail[1], commands[1], status[1], trail[2], chance);
  }

  function BundleOf(revision: string, imageId: ImageId, image: ImageId): Bundle {
    Bundle(Manifest(FIRST, revision, imageId, [], SameMigrationsOnly), image)
  }

  function Deploying(b: Bundle): Command {
    var m := b.manifest;
    var key := ReleasePrefix(m.version, m.gitRevision);
    DeployCommand(Request(m.version, m.gitRevision, key, ChecksumOf(m), false, false, Some(b)))
  }

  /** Adopts image A under its own version and revision, deploys image B under another revision, and is
      killed while it loads image C. */
  method LoadAndStop(third: Bundle)
    returns (chance: Schedule, trail: seq<World>, commands: seq<Command>, status: seq<Status>)
    requires third.manifest.version == FIRST && third.manifest.requiredMigrations == [] && third.manifest.imageId == "c"
    ensures Run(trail, commands, status, chance) && |commands| == 3
    ensures trail[0] == World(Disk(None, None, Some("A"), "services", "", map[]),
                              DEPOT, 0)
    ensures commands[1] == Deploying(BundleOf("r2", "b", "B")) && commands[2] == Deploying(third)
    ensures Ready(trail[2].disk, trail[2].depot) && trail[2].disk.state.Some?
    ensures trail[2].disk.state.value.previous == Some(Adopted(FIRST, "r1", "A", []))
    ensures trail[2].disk.state.value.current == Running(commands[1].request)
    ensures trail[2].depot.tags == map[ReleaseTag(FIRST, "r1") := "A", ReleaseTag(FIRST, "r2") := "B"]
    ensures LoadsAt(trail[2], commands[2], chance) && trail[3].depot == WithBundle(trail[2].depot, third)
    ensures trail[3].disk == trail[2].disk
  {
    chance := (n: nat) => if n == 17 then CALM.(kill := true) else CALM;
    commands := [AdoptCommand(FIRST, "r1", "A", []), Deploying(BundleOf("r2", "b", "B")), Deploying(third)];
    ghost var moments;
    trail, status, moments := Drive(chance, DEPOT, Some("A"), "services", "", commands);
    TwoReleases(trail, commands, status, chance);
    assert Loadable(trail[2].disk, trail[2].depot, commands[2].request);
    assert LoadsAt(trail[2], commands[2], chance);
    assert !Passes(chance(17));
    assert Performed(trail[2], commands[2], status[2], trail[3], chance)
            && Smoothly(trail[2], commands[2], trail[3], chance);
  }

  const DEPOT: Depot := Inventory(map[ReleaseTag(FIRST, "r1") := "A"], {"A"})

  lemma TwoReleases(trail: seq<World>, commands: seq<Command>, status: seq<Status>, chance: Schedule)
    requires Run(trail, commands, status, chance) && |commands| == 3 && CalmFor(chance, 0, 17)
    requires trail[0] == World(Disk(None, None, Some("A"), "services", "", map[]), DEPOT, 0)
    requires commands[0] == AdoptCommand(FIRST, "r1", "A", []) && commands[1] == Deploying(BundleOf("r2", "b", "B"))
    ensures Settled(trail[2].disk) && trail[2].disk.state.Some?
    ensures trail[2].disk.state.value.previous == Some(Adopted(FIRST, "r1", "A", []))
    ensures trail[2].disk.state.value.current == Running(commands[1].request)
    ensures trail[2].depot.tags == map[ReleaseTag(FIRST, "r1") := "A", ReleaseTag(FIRST, "r2") := "B"]
    ensures trail[2].tick == 14 && Ready(trail[2].disk, trail[2].depot)
  {
    var w0, w1, w2 := trail[0], trail[1], trail[2];
    assert Performed(w0, commands[0], status[0], w1, chance) && Smoothly(w0, commands[0], w1, chance);
    assert w1.tick == 3 && w1.depot == DEPOT;
    assert Loadable(w1.disk, DEPOT, commands[1].request);
    assert Performed(w1, commands[1], status[1], w2, chance) && Smoothly(w1, commands[1], w2, chance);
    assert w2.tick == 14 && LoadsAt(w1, commands[1], chance);
  }

  /** Another bundle under the version and revision of the recorded release takes its tag: the recorded
      release, still running, can no longer be started. */
  method RecordedReleaseLosesTag()
    returns (chance: Schedule, trail: seq<World>, commands: seq<Command>, status: seq<Status>)
    ensures Run(trail, commands, status, chance) && |trail| == 4 && Ready(trail[2].disk, trail[2].depot)
    ensures trail[3].disk == trail[2].disk && trail[3].disk.state.Some? && Settled(trail[3].disk)
    ensures TakesFrom(trail[2], commands[2], chance, trail[3].disk.state.value.current)
    ensures !Startable(trail[3].depot, trail[3].disk.state.value.current)
  {
    chance, trail, commands, status := LoadAndStop(BundleOf("r2", "c", "C"));
  }

  /** The adopted image loses its only tag to a bundle of its own version and revision. It can still be
      started, because an adopted release is started by its image. */
  method AdoptedImageLosesTag()
    returns (chance: Schedule, trail: seq<World>, commands: seq<Command>, status: seq<Status>)
    ensures Run(trail, commands, status, chance) && |trail| == 4 && trail[3].disk == trail[2].disk
    ensures trail[3].disk.state.Some? && trail[3].disk.state.value.previous.Some?
    ensures var adopted := trail[3].disk.state.value.previous.value;
            && adopted.legacy && TagOf(adopted) in trail[2].depot.tags
            && trail[2].depot.tags[TagOf(adopted)] == RuntimeImage(adopted)
            && RuntimeImage(adopted) !in trail[3].depot.tags.Values
            && Startable(trail[3].depot, adopted)
  {
    chance, trail, commands, status := LoadAndStop(BundleOf("r1", "c", "C"));
    assert trail[3].depot.tags == map[ReleaseTag(FIRST, "r1") := "C", ReleaseTag(FIRST, "r2") := "B"];
  }
}
