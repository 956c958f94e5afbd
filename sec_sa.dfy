/** The "Security: No Certificates" scenario (pkg/scenario/sec_sa.go): the
    pod "dashboard" must get its service-account token mounted again. */
module SecSa {
  import opened Common
  import opened ScenarioTypes

  const SolvedMessage := "Success! Token is auto-mounted."
  const UnsolvedMessage := "Automount is disabled."

  /** The pod, reduced to its automountServiceAccountToken field. */
  datatype Pod = Pod(automountToken: Option<bool>)

  const SeededPod := Pod(Some(false))

  /** The check: solved unless automounting is explicitly switched off. */
  function Validate(pod: Fetch<Pod>): (r: Result)
    ensures pod.FetchErr? ==> r == Result(false, pod.err)
    ensures pod.Fetched? ==> (r.solved <==> pod.obj.automountToken != Some(false))
    ensures pod.Fetched? ==> r.message == (if r.solved then SolvedMessage else UnsolvedMessage)
  {
    match pod
    case FetchErr(e) => Result(false, e)
    case Fetched(p) =>
      if p.automountToken.None? || p.automountToken.value == true then Result(true, SolvedMessage)
      else Result(false, UnsolvedMessage)
  }

  lemma SeedIsUnsolved()
    ensures Validate(Fetched(SeededPod)) == Result(false, UnsolvedMessage)
    ensures Validate(Fetched(Pod(None))).solved
  {
  }
}
