/** The "Level 1: Image Pull Error" scenario (pkg/scenario/imagepull.go):
    its metadata and the check that the web-server pods recovered. */
module ImagePull {
  import opened Common
  import opened ScenarioTypes

  const Namespace := "dojo-level-1"
  /** The broken image tag the scenario seeds into the Deployment. */
  const SeededImage := "nginx:wrongtag"

  const NoPodsMessage := "No pods found. Deployment may have been deleted."
  const SolvedMessage := "\U{1F389} Congratulations! The web-server is now running!"
  const NotRunningMessage := "Pod is not yet running. Keep trying!"

  function StuckMessage(reason: string): string
  {
    "Pod is stuck in " + reason + ". Keep investigating!"
  }

  /** A container status: its readiness and, when it is waiting, the reason. */
  datatype ContainerStatus = ContainerStatus(ready: bool, waitingReason: Option<string>)

  /** A pod labelled app=web-server, reduced to the fields the check reads. */
  datatype Pod = Pod(phase: string, containerStatuses: seq<ContainerStatus>)

  function GetMetadata(): (m: Metadata)
    ensures m.id == "image-pull-backoff" && m.category == "Pods & Containers"
    ensures m.difficulty == Easy && m.timeLimitMinutes == 10
    ensures |m.hints| == 3
  {
    Metadata(
      "image-pull-backoff",
      "Level 1: Image Pull Error",
      "The web-server Deployment is failing to start. Investigate and fix the issue.",
      Easy,
      "Pods & Containers",
      [ "Check the Pod status using: kubectl get pods -n " + Namespace,
        "Look at the Pod events: kubectl describe pod -n " + Namespace,
        "The image tag might be incorrect..." ],
      10)
  }

  /** A pod that serves: Running, with every container status ready (a pod
      with no statuses at all qualifies). */
  predicate Serves(p: Pod)
  {
    p.phase == PodRunning && forall cs <- p.containerStatuses :: cs.ready
  }

  /** A container waiting because its image cannot be pulled. */
  predicate IsPullFailure(cs: ContainerStatus)
  {
    cs.waitingReason == Some("ImagePullBackOff") || cs.waitingReason == Some("ErrImagePull")
  }

  /** The readiness scan over one pod's statuses, stopping at the first
      status that is not ready. */
  function AllReady(statuses: seq<ContainerStatus>): (r: bool)
    ensures r <==> forall cs <- statuses :: cs.ready
  {
    if |statuses| == 0 then true
    else if !statuses[0].ready then false
    else AllReady(statuses[1..])
  }

  /** The first scan: is some pod Running with all containers ready? */
  function AnyServing(pods: seq<Pod>): (r: bool)
    ensures r <==> exists p <- pods :: Serves(p)
  {
    if |pods| == 0 then false
    else if pods[0].phase == PodRunning && AllReady(pods[0].containerStatuses) then
      assert Serves(pods[0]) && pods[0] in pods;
      true
    else
      assert forall p <- pods :: p == pods[0] || p in pods[1..];
      AnyServing(pods[1..])
  }

  /** Position i holds the first pull failure of the statuses. */
  predicate FirstFailureAt(statuses: seq<ContainerStatus>, i: int)
  {
    0 <= i < |statuses| && IsPullFailure(statuses[i]) &&
    forall j :: 0 <= j < i ==> !IsPullFailure(statuses[j])
  }

  /** A pod none of whose containers waits on a pull failure. */
  predicate NoPullFailure(p: Pod)
  {
    forall cs <- p.containerStatuses :: !IsPullFailure(cs)
  }

  /** The reason of the first pull failure among a pod's statuses. */
  function FirstPullFailureIn(statuses: seq<ContainerStatus>): (r: Option<string>)
    ensures r.Some? ==> r.value == "ImagePullBackOff" || r.value == "ErrImagePull"
    ensures r.Some? ==> exists i :: FirstFailureAt(statuses, i) && statuses[i].waitingReason == r
    ensures r.None? <==> forall cs <- statuses :: !IsPullFailure(cs)
  {
    if |statuses| == 0 then None
    else if statuses[0].waitingReason.Some? && IsPullFailure(statuses[0]) then
      assert FirstFailureAt(statuses, 0);
      statuses[0].waitingReason
    else
      var r := FirstPullFailureIn(statuses[1..]);
      if r.Some? then
        var i :| FirstFailureAt(statuses[1..], i) && statuses[1..][i].waitingReason == r;
        assert FirstFailureAt(statuses, i + 1);
        r
      else
        assert forall cs <- statuses :: cs == statuses[0] || cs in statuses[1..];
        r
  }

  /** The second scan: the first pull failure over all pods, in order: the
      first failure of the first pod that has one. */
  function FirstPullFailure(pods: seq<Pod>): (r: Option<string>)
    ensures r.Some? ==> r.value == "ImagePullBackOff" || r.value == "ErrImagePull"
    ensures r.Some? ==> exists i :: 0 <= i < |pods| && (forall k :: 0 <= k < i ==> NoPullFailure(pods[k])) &&
                                    FirstPullFailureIn(pods[i].containerStatuses) == r
    ensures r.None? <==> forall p <- pods, cs <- p.containerStatuses :: !IsPullFailure(cs)
  {
    if |pods| == 0 then None
    else match FirstPullFailureIn(pods[0].containerStatuses)
      case Some(reason) =>
        assert FirstPullFailureIn(pods[0].containerStatuses) == Some(reason);
        Some(reason)
      case None =>
        var r := FirstPullFailure(pods[1..]);
        if r.Some? then
          var i :| 0 <= i < |pods[1..]| && (forall k :: 0 <= k < i ==> NoPullFailure(pods[1..][k])) &&
                   FirstPullFailureIn(pods[1..][i].containerStatuses) == r;
          assert NoPullFailure(pods[0]);
          assert forall k :: 0 <= k < i + 1 ==> NoPullFailure(pods[k]);
          r
        else
          assert forall p <- pods :: p == pods[0] || p in pods[1..];
          r
  }

  /** The check, given the result of listing the app=web-server pods. */
  function Validate(pods: Fetch<seq<Pod>>): (r: Result)
    ensures pods.FetchErr? ==> r == Result(false, "Error checking pods: " + pods.err)
    ensures pods.Fetched? && |pods.obj| == 0 ==> r == Result(false, NoPodsMessage)
    ensures pods.Fetched? && |pods.obj| > 0 ==> (r.solved <==> exists p <- pods.obj :: Serves(p))
    ensures r.solved ==> r.message == SolvedMessage
    ensures pods.Fetched? && |pods.obj| > 0 && !r.solved ==>
      ((forall p <- pods.obj, cs <- p.containerStatuses :: !IsPullFailure(cs)) ==> r.message == NotRunningMessage)
    ensures pods.Fetched? && !r.solved ==>
      ((exists p <- pods.obj, cs <- p.containerStatuses :: IsPullFailure(cs)) ==>
         r.message == StuckMessage("ImagePullBackOff") || r.message == StuckMessage("ErrImagePull"))
    ensures pods.Fetched? && |pods.obj| > 0 && !r.solved && FirstPullFailure(pods.obj).Some? ==>
      r.message == StuckMessage(FirstPullFailure(pods.obj).value)
  {
    match pods
    case FetchErr(e) => Result(false, "Error checking pods: " + e)
    case Fetched(items) =>
      if |items| == 0 then Result(false, NoPodsMessage)
      else if AnyServing(items) then Result(true, SolvedMessage)
      else match FirstPullFailure(items)
        case Some(reason) => Result(false, StuckMessage(reason))
        case None => Result(false, NotRunningMessage)
  }

  /** One serving pod solves the scenario even while another pod is still
      stuck pulling its image: the readiness scan runs first. */
  lemma ServingPodWinsOverStuckPod(good: Pod, stuck: Pod)
    requires Serves(good)
    ensures Validate(Fetched([stuck, good])).solved
    ensures Validate(Fetched([good, stuck])).solved
  {
    assert good in [stuck, good] && good in [good, stuck];
  }
}
