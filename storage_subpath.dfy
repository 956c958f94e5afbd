/** The "Storage: File Wipeout" scenario (pkg/scenario/storage_subpath.go):
    the "config" volume must be mounted with a subPath instead of over the
    whole /etc/nginx directory. */
module StorageSubpath {
  import opened ScenarioTypes

  const SolvedMessage := "Success! subPath used."
  const UnsolvedMessage := "Volume mount is still overwriting entire directory."

  datatype VolumeMount = VolumeMount(name: string, subPath: string)
  datatype Container = Container(volumeMounts: seq<VolumeMount>)

  /** The pod "app", reduced to its containers' mounts. */
  datatype Pod = Pod(containers: seq<Container>)

  /** The seeded pod: one container mounting "config" with no subPath. */
  const SeededPod := Pod([Container([VolumeMount("config", "")])])

  predicate MountsConfigWithSubPath(vm: VolumeMount)
  {
    vm.name == "config" && vm.subPath != ""
  }

  /** The loop over the first container's mounts. */
  function FindConfigSubPath(mounts: seq<VolumeMount>): (found: bool)
    ensures found <==> exists vm <- mounts :: MountsConfigWithSubPath(vm)
  {
    if |mounts| == 0 then false
    else if mounts[0].name == "config" && mounts[0].subPath != "" then
      assert mounts[0] in mounts;
      true
    else
      assert forall vm <- mounts :: vm == mounts[0] || vm in mounts[1..];
      FindConfigSubPath(mounts[1..])
  }

  /** The check: only the first container is examined. */
  function Validate(pod: Fetch<Pod>): (r: Result)
    ensures pod.FetchErr? ==> r == Result(false, pod.err)
    ensures pod.Fetched? ==>
      (r.solved <==> |pod.obj.containers| > 0 &&
                     exists vm <- pod.obj.containers[0].volumeMounts :: MountsConfigWithSubPath(vm))
    ensures pod.Fetched? ==> r.message == (if r.solved then SolvedMessage else UnsolvedMessage)
  {
    match pod
    case FetchErr(e) => Result(false, e)
    case Fetched(p) =>
      if |p.containers| > 0 && FindConfigSubPath(p.containers[0].volumeMounts) then Result(true, SolvedMessage)
      else Result(false, UnsolvedMessage)
  }

  /** A fix made in a second container is not seen, and the seed is unsolved. */
  lemma OnlyFirstContainerCounts(fixed: Container)
    ensures !Validate(Fetched(SeededPod)).solved
    ensures !Validate(Fetched(Pod(SeededPod.containers + [fixed]))).solved
  {
    var c := SeededPod.containers + [fixed];
    assert c[0] == Container([VolumeMount("config", "")]);
  }
}
