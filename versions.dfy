/** The Kubernetes versions offered for the training cluster
    (pkg/cluster/versions.go). */
module Versions {

  datatype SupportedVersion = SupportedVersion(version: string, nodeImage: string, isLatest: bool)

  const NodeImagePrefix := "kindest/node:"

  /** Latest GA first, then N-1; each node image is the kind image tagged
      with the version. */
  function SupportedVersions(): (vs: seq<SupportedVersion>)
    ensures |vs| == 2
    ensures vs[0].version == "v1.32.0" && vs[0].isLatest
    ensures vs[1].version == "v1.31.4" && !vs[1].isLatest
    ensures forall v <- vs :: v.nodeImage == NodeImagePrefix + v.version
  {
    [ SupportedVersion("v1.32.0", "kindest/node:v1.32.0", true),
      SupportedVersion("v1.31.4", "kindest/node:v1.31.4", false) ]
  }

  /** The first entry of `vs` marked latest, if any. */
  function FirstLatest(vs: seq<SupportedVersion>): (r: Option)
    ensures r.Found? ==> r.v in vs && r.v.isLatest
    ensures |vs| > 0 && vs[0].isLatest ==> r == Found(vs[0])
    ensures r.Missing? <==> forall v <- vs :: !v.isLatest
    ensures r.Found? ==> exists i :: 0 <= i < |vs| && vs[i] == r.v && forall j :: 0 <= j < i ==> !vs[j].isLatest
  {
    if |vs| == 0 then Missing
    else if vs[0].isLatest then Found(vs[0])
    else
      var rest := FirstLatest(vs[1..]);
      if rest.Found? then
        var i :| 0 <= i < |vs[1..]| && vs[1..][i] == rest.v && forall j :: 0 <= j < i ==> !vs[1..][j].isLatest;
        assert forall j :: 0 <= j < i + 1 ==> !vs[j].isLatest by {
          forall j | 0 <= j < i + 1
            ensures !vs[j].isLatest
          {
            if j > 0 {
              assert vs[j] == vs[1..][j - 1];
            }
          }
        }
        assert vs[i + 1] == rest.v;
        rest
      else rest
  }

  /** The first entry of `vs` whose version string is `version`, if any. */
  function FindVersion(vs: seq<SupportedVersion>, version: string): (r: Option)
    ensures r.Found? ==> r.v in vs && r.v.version == version
    ensures r.Missing? <==> forall v <- vs :: v.version != version
    ensures r.Found? ==> exists i :: 0 <= i < |vs| && vs[i] == r.v && forall j :: 0 <= j < i ==> vs[j].version != version
  {
    if |vs| == 0 then Missing
    else if vs[0].version == version then Found(vs[0])
    else
      var rest := FindVersion(vs[1..], version);
      if rest.Found? then
        var i :| 0 <= i < |vs[1..]| && vs[1..][i] == rest.v && forall j :: 0 <= j < i ==> vs[1..][j].version != version;
        assert forall j :: 0 <= j < i + 1 ==> vs[j].version != version by {
          forall j | 0 <= j < i + 1
            ensures vs[j].version != version
          {
            if j > 0 {
              assert vs[j] == vs[1..][j - 1];
            }
          }
        }
        assert vs[i + 1] == rest.v;
        rest
      else rest
  }

  datatype Option = Missing | Found(v: SupportedVersion)

  /** The first entry of a non-empty list marked latest, falling back to
      the list's first entry when none is marked. */
  function LatestIn(vs: seq<SupportedVersion>): (v: SupportedVersion)
    requires |vs| > 0
    ensures v in vs
    ensures vs[0].isLatest ==> v == vs[0]
    ensures (exists w <- vs :: w.isLatest) ==> v.isLatest
    ensures (forall w <- vs :: !w.isLatest) ==> v == vs[0]
    ensures (exists w <- vs :: w.isLatest) ==>
      exists i :: 0 <= i < |vs| && vs[i] == v && forall j :: 0 <= j < i ==> !vs[j].isLatest
  {
    match FirstLatest(vs)
    case Found(v) => v
    case Missing => vs[0]
  }

  /** The latest supported version. */
  function LatestVersion(): (v: SupportedVersion)
    ensures v.isLatest && v in SupportedVersions()
  {
    LatestIn(SupportedVersions())
  }

  /** The entry for `version`, or the latest version when it is unknown. */
  function GetVersion(version: string): (v: SupportedVersion)
    ensures v in SupportedVersions()
    ensures (exists w <- SupportedVersions() :: w.version == version) ==> v.version == version
    ensures (forall w <- SupportedVersions() :: w.version != version) ==> v == LatestVersion()
  {
    match FindVersion(SupportedVersions(), version)
    case Found(v) => v
    case Missing => LatestVersion()
  }

  /** Concretely: the latest version is v1.32.0, a listed version is found,
      and an unknown string falls back to v1.32.0. */
  lemma VersionSamples()
    ensures LatestVersion().version == "v1.32.0"
    ensures GetVersion("v1.31.4").nodeImage == "kindest/node:v1.31.4"
    ensures GetVersion("v1.29.0").version == "v1.32.0"
  {
    assert SupportedVersions()[1].version == "v1.31.4";
    assert GetVersion("v1.29.0") == LatestVersion();
  }
}
