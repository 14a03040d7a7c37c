/** The records that the deployment entry point, the retention plan and the
    orchestrator all read: releases, their manifests and the state file. */
module Releases {

  datatype Option<+T> = None | Some(value: T)

  type ImageId = string
  type Timestamp = int

  datatype Version = Version(major: nat, minor: nat, patch: nat)

  datatype Migration = Migration(name: string, sha256: string)

  datatype RollbackMode = SameMigrationsOnly | ForwardOnly

  datatype Manifest = Manifest(
    version: Version, gitRevision: string, imageId: ImageId,
    requiredMigrations: seq<Migration>, rollbackMode: RollbackMode)

  // SHA-256 is taken to be injective, so a checksum is represented by what it was taken of.
  datatype Checksum = ChecksumOf(manifest: Manifest)

  datatype Release = Release(
    legacy: bool, prefix: Option<string>, manifestSha256: Option<Checksum>,
    manifest: Manifest, runtimeImageId: Option<ImageId>)

  // The checksum of the two external configuration files together.
  datatype ConfigurationHash = ConfigurationHash(compose: string, env: string)

  datatype State = State(
    current: Release, previous: Option<Release>, rollbackFrom: Option<Release>,
    deployedAt: Timestamp, configuration: ConfigurationHash)

  datatype Receipt = Receipt(
    deployedAt: Timestamp, current: Release, previous: Option<Release>, rollbackFrom: Option<Release>)

  const ROOT_PREFIX := "tennis-green-pms/releases/"

  function Decimal(n: nat): string {
    if n < 10 then ["0123456789"[n]] else Decimal(n / 10) + ["0123456789"[n % 10]]
  }

  function VersionText(v: Version): string {
    "v" + Decimal(v.major) + "." + Decimal(v.minor) + "." + Decimal(v.patch)
  }

  function ReleasePrefix(v: Version, revision: string): string {
    ROOT_PREFIX + VersionText(v) + "/" + revision + "/"
  }

  predicate AtLeast(a: Version, b: Version) {
    a.major > b.major
    || (a.major == b.major && (a.minor > b.minor || (a.minor == b.minor && a.patch >= b.patch)))
  }

  /** Versions are ordered by their first difference: the major number decides before the minor one,
      and that before the patch number. */
  lemma VersionOrder(a: Version, b: Version, c: Version)
    ensures a.major > b.major ==> AtLeast(a, b) && !AtLeast(b, a)
    ensures a.major == b.major && a.minor > b.minor ==> AtLeast(a, b) && !AtLeast(b, a)
    ensures a.major == b.major && a.minor == b.minor && a.patch > b.patch ==> AtLeast(a, b) && !AtLeast(b, a)
    ensures AtLeast(a, a) && (AtLeast(a, b) || AtLeast(b, a))
    ensures AtLeast(a, b) && AtLeast(b, a) ==> a == b
    ensures AtLeast(a, b) && AtLeast(b, c) ==> AtLeast(a, c)
  {
  }

  function RuntimeImage(r: Release): ImageId {
    match r.runtimeImageId
    case Some(id) => id
    case None => r.manifest.imageId
  }

  function ReceiptOf(s: State): Receipt {
    Receipt(s.deployedAt, s.current, s.previous, s.rollbackFrom)
  }

  predicate Compatible(source: Release, target: Release, rollback: bool) {
    && source.manifest.requiredMigrations == target.manifest.requiredMigrations
    && (rollback ==> source.manifest.rollbackMode == SameMigrationsOnly
                     && target.manifest.rollbackMode == SameMigrationsOnly)
  }

  /** A release is either the adopted one, which has no bundle, or is named by the
      bundle it was downloaded from. */
  predicate Identified(r: Release) {
    if r.legacy then
      r.prefix == None && r.manifestSha256 == None && r.runtimeImageId == None
    else
      && r.prefix == Some(ReleasePrefix(r.manifest.version, r.manifest.gitRevision))
      && r.manifestSha256 == Some(ChecksumOf(r.manifest))
  }

  /** What every state file keeps about the releases it names. */
  predicate WellKept(s: State) {
    && Identified(s.current)
    && (s.previous.Some? ==>
          && Identified(s.previous.value)
          && Compatible(s.current, s.previous.value, false))
    && (s.rollbackFrom.Some? ==> s.rollbackFrom == s.previous)
  }

  /** How the recorded release may change between two moments without a journal. */
  predicate Succeeds(s: State, t: State) {
    && Compatible(s.current, t.current, false)
    && (AtLeast(t.current.manifest.version, s.current.manifest.version)
        || (t.rollbackFrom == Some(s.current) && Compatible(s.current, t.current, true)))
    && (t.current == s.current
        || t.previous == Some(s.current)
        || (s.current.legacy && RuntimeImage(t.current) == RuntimeImage(s.current)
            && t.previous == s.previous && t.rollbackFrom == s.rollbackFrom))
  }
}
