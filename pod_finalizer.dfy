/** The "Lifecycle: The Undying Pod" scenario
    (pkg/scenario/pod_finalizer.go): the pod "zombie" is deleted while a
    finalizer no controller handles keeps it in Terminating. */
module PodFinalizer {
  import opened Common
  import opened ScenarioTypes

  const SolvedMessage := "Success! Pod is gone."
  const UnsolvedMessage := "Pod stuck in Terminating."
  const Finalizer := "example.com/lock"

  /** The fetched pod; the check only asks whether the lookup succeeds. */
  datatype Zombie = Zombie

  /** The cluster API calls the scenario issues, in the order issued. */
  datatype ApiCall =
    | CreateNamespace
    | CreatePod(name: string, finalizers: seq<string>)
    | DeletePod(name: string)
    | GetPod(name: string)
    | ClearFinalizers(name: string)
    | DeleteNamespace

  /** The check: any failure to fetch the pod, not only "not found", counts
      as the pod being gone. */
  function Validate(pod: Fetch<Zombie>): (r: Result)
    ensures r.solved <==> pod.FetchErr?
    ensures r.message == (if r.solved then SolvedMessage else UnsolvedMessage)
  {
    match pod
    case FetchErr(_) => Result(true, SolvedMessage)
    case Fetched(_) => Result(false, UnsolvedMessage)
  }

  /** Setup, given the outcomes of its two create calls. The delete that
      follows a successful pod creation has its error discarded, so its
      outcome is not an input. */
  function Setup(nsErr: Option<string>, podErr: Option<string>): (out: (seq<ApiCall>, Option<string>))
    ensures out.1 == (if nsErr.Some? then nsErr else podErr)
    ensures out.1.None? ==>
      out.0 == [CreateNamespace, CreatePod("zombie", [Finalizer]), DeletePod("zombie")]
    ensures out.1.Some? ==> DeletePod("zombie") !in out.0
    ensures nsErr.Some? ==> out.0 == [CreateNamespace]
  {
    if nsErr.Some? then ([CreateNamespace], nsErr)
    else if podErr.Some? then ([CreateNamespace, CreatePod("zombie", [Finalizer])], podErr)
    else ([CreateNamespace, CreatePod("zombie", [Finalizer]), DeletePod("zombie")], None)
  }

  /** Cleanup, given whether the pod is still retrievable and the outcome of
      deleting the namespace. */
  function Cleanup(podRetrievable: bool, nsDeleteErr: Option<string>): (out: (seq<ApiCall>, Option<string>))
    ensures out.1 == nsDeleteErr
    ensures ClearFinalizers("zombie") in out.0 <==> podRetrievable
    ensures |out.0| > 0 && out.0[0] == GetPod("zombie") && out.0[|out.0| - 1] == DeleteNamespace
  {
    if podRetrievable then ([GetPod("zombie"), ClearFinalizers("zombie"), DeleteNamespace], nsDeleteErr)
    else ([GetPod("zombie"), DeleteNamespace], nsDeleteErr)
  }

  /** A pod of the namespace as the API server keeps it. */
  datatype StoredPod = StoredPod(finalizers: seq<string>, deleting: bool)

  /** The effect of one call on the namespace's pods. Deleting a pod that
      carries finalizers only marks it for deletion (Terminating); it goes
      once its finalizers are cleared. Deleting the namespace removes the
      pods that carry none. */
  function Apply(pods: map<string, StoredPod>, c: ApiCall): (r: map<string, StoredPod>)
    ensures c.DeletePod? && c.name in pods && pods[c.name].finalizers != [] ==>
      c.name in r && r[c.name].deleting
    ensures c.ClearFinalizers? && c.name in pods && pods[c.name].deleting ==> c.name !in r
    ensures c.CreatePod? ==> c.name in r && r[c.name] == StoredPod(c.finalizers, false)
  {
    match c
    case CreatePod(n, f) => pods[n := StoredPod(f, false)]
    case DeletePod(n) =>
      if n !in pods then pods
      else if pods[n].finalizers == [] then pods - {n}
      else pods[n := pods[n].(deleting := true)]
    case ClearFinalizers(n) =>
      if n !in pods then pods
      else if pods[n].deleting then pods - {n}
      else pods[n := pods[n].(finalizers := [])]
    case DeleteNamespace =>
      map n | n in pods && pods[n].finalizers != [] :: pods[n].(deleting := true)
    case CreateNamespace => pods
    case GetPod(_) => pods
  }

  /** The pods after a sequence of calls, in order. */
  function Replay(pods: map<string, StoredPod>, calls: seq<ApiCall>): map<string, StoredPod>
    decreases |calls|
  {
    if |calls| == 0 then pods else Replay(Apply(pods, calls[0]), calls[1..])
  }

  /** What a lookup of a pod by name returns. */
  function Lookup(pods: map<string, StoredPod>, name: string): Fetch<Zombie>
  {
    if name in pods then Fetched(Zombie) else FetchErr("pods \"" + name + "\" not found")
  }

  /** After a successful Setup the pod is still stored, held by its
      finalizer and marked for deletion, so the check starts unsolved; once
      Cleanup has cleared the finalizer and deleted the namespace the pod
      can no longer be fetched and the check reads solved. Any failed
      lookup reads as solved. */
  lemma SetupLeavesUnsolved(e: string)
    ensures Setup(None, None).1.None? && !Validate(Fetched(Zombie)).solved
    ensures var pods := Replay(map[], Setup(None, None).0);
      "zombie" in pods && pods["zombie"].deleting && !Validate(Lookup(pods, "zombie")).solved
    ensures var pods := Replay(Replay(map[], Setup(None, None).0), Cleanup(true, None).0);
      "zombie" !in pods && Validate(Lookup(pods, "zombie")).solved
    ensures Validate(FetchErr(e)).solved
  {
    var calls := Setup(None, None).0;
    var p0: map<string, StoredPod> := map[];
    var p1 := Apply(p0, calls[0]);
    var p2 := Apply(p1, calls[1]);
    var p3 := Apply(p2, calls[2]);
    assert Replay(p0, calls) == p3 by {
      assert calls[1..][1..][1..] == [];
    }
    var clean := Cleanup(true, None).0;
    var q1 := Apply(p3, clean[0]);
    var q2 := Apply(q1, clean[1]);
    var q3 := Apply(q2, clean[2]);
    assert Replay(p3, clean) == q3 by {
      assert clean[1..][1..][1..] == [];
    }
  }
}
