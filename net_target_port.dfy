/** The "Network: The Unreachable Port" scenario
    (pkg/scenario/net_target_port.go): the Service "web-service" must target
    the container's port 80. */
module NetTargetPort {
  import opened ScenarioTypes

  const SolvedMessage := "Success! TargetPort matches container port."
  const UnsolvedMessage := "Service targetPort is still incorrect."

  datatype ServicePort = ServicePort(targetPort: IntOrString)
  datatype Service = Service(ports: seq<ServicePort>)

  const SeededService := Service([ServicePort(IntVal(8080))])

  /** The check: only the first port is examined. */
  function Validate(svc: Fetch<Service>): (r: Result)
    ensures svc.FetchErr? ==> r == Result(false, svc.err)
    ensures svc.Fetched? ==>
      (r.solved <==> |svc.obj.ports| > 0 &&
                     (svc.obj.ports[0].targetPort == IntVal(80) || svc.obj.ports[0].targetPort == StrVal("80")))
    ensures svc.Fetched? ==> r.message == (if r.solved then SolvedMessage else UnsolvedMessage)
  {
    match svc
    case FetchErr(e) => Result(false, e)
    case Fetched(s) =>
      if |s.ports| > 0 && IsPort80(s.ports[0].targetPort) then Result(true, SolvedMessage)
      else Result(false, UnsolvedMessage)
  }

  /** The seeded target 8080 is unsolved, a service without ports is
      unsolved, and a correct second port does not help. */
  lemma SeedIsUnsolved(p: ServicePort)
    ensures !Validate(Fetched(SeededService)).solved
    ensures !Validate(Fetched(Service([]))).solved
    ensures !Validate(Fetched(Service(SeededService.ports + [p]))).solved
  {
    assert (SeededService.ports + [p])[0] == ServicePort(IntVal(8080));
  }
}
