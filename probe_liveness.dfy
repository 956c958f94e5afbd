/** The "Lifecycle: Liveness Failure" scenario
    (pkg/scenario/probe_liveness.go): the pod "unstable-app" probes a port
    nothing listens on. */
module ProbeLiveness {
  import opened Common
  import opened ScenarioTypes

  const SolvedMessage := "Success! Liveness probe port corrected."
  const UnsolvedMessage := "Liveness probe matches incorrect port."

  datatype HttpGetAction = HttpGetAction(port: IntOrString)

  /** A probe, reduced to its optional HTTP GET handler. */
  datatype Probe = Probe(httpGet: Option<HttpGetAction>)

  datatype Container = Container(livenessProbe: Option<Probe>)
  datatype Pod = Pod(containers: seq<Container>)

  const SeededPod := Pod([Container(Some(Probe(Some(HttpGetAction(IntVal(8080))))))])

  /** The first container's liveness probe is an HTTP GET on port 80. */
  predicate ProbesPort80(p: Pod)
  {
    |p.containers| > 0 &&
    p.containers[0].livenessProbe.Some? &&
    p.containers[0].livenessProbe.value.httpGet.Some? &&
    p.containers[0].livenessProbe.value.httpGet.value.port in {IntVal(80), StrVal("80")}
  }

  function Validate(pod: Fetch<Pod>): (r: Result)
    ensures pod.FetchErr? ==> r == Result(false, pod.err)
    ensures pod.Fetched? ==> (r.solved <==> ProbesPort80(pod.obj))
    ensures pod.Fetched? ==> r.message == (if r.solved then SolvedMessage else UnsolvedMessage)
  {
    match pod
    case FetchErr(e) => Result(false, e)
    case Fetched(p) =>
      if |p.containers| > 0 then
        var probe := p.containers[0].livenessProbe;
        if probe.Some? && probe.value.httpGet.Some? && IsPort80(probe.value.httpGet.value.port) then
          Result(true, SolvedMessage)
        else Result(false, UnsolvedMessage)
      else Result(false, UnsolvedMessage)
  }

  /** The seed is unsolved; a probe without an HTTP handler never solves it. */
  lemma SeedIsUnsolved()
    ensures !Validate(Fetched(SeededPod)).solved
    ensures !Validate(Fetched(Pod([Container(Some(Probe(None)))]))).solved
  {
  }
}
