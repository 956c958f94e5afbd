/** The "Security: The Privileged Container" scenario
    (pkg/scenario/sec_priv.go): the Deployment "risky-app" must stop running
    its container privileged. */
module SecPriv {
  import opened Common
  import opened ScenarioTypes

  const SolvedMessage := "Success! Privileged flag removed."
  const UnsolvedMessage := "Container is still privileged."

  datatype SecurityContext = SecurityContext(privileged: Option<bool>)
  datatype Container = Container(securityContext: Option<SecurityContext>)

  /** The Deployment, reduced to its pod template's containers. */
  datatype Deployment = Deployment(containers: seq<Container>)

  const SeededDeployment := Deployment([Container(Some(SecurityContext(Some(true))))])

  /** A container that explicitly asks for privileged mode. */
  predicate ExplicitlyPrivileged(c: Container)
  {
    c.securityContext.Some? && c.securityContext.value.privileged == Some(true)
  }

  /** The check: the first container has no security context, no privileged
      flag, or the flag false. */
  function Validate(dep: Fetch<Deployment>): (r: Result)
    ensures dep.FetchErr? ==> r == Result(false, dep.err)
    ensures dep.Fetched? ==> (r.solved <==> |dep.obj.containers| > 0 && !ExplicitlyPrivileged(dep.obj.containers[0]))
    ensures dep.Fetched? ==> r.message == (if r.solved then SolvedMessage else UnsolvedMessage)
  {
    match dep
    case FetchErr(e) => Result(false, e)
    case Fetched(d) =>
      if |d.containers| > 0 then
        var sc := d.containers[0].securityContext;
        if sc.None? || sc.value.privileged.None? || sc.value.privileged.value == false then Result(true, SolvedMessage)
        else Result(false, UnsolvedMessage)
      else Result(false, UnsolvedMessage)
  }

  /** The seed is unsolved; so is a template without containers, although
      nothing in it is privileged. */
  lemma SeedAndEmptyAreUnsolved()
    ensures !Validate(Fetched(SeededDeployment)).solved
    ensures !Validate(Fetched(Deployment([]))).solved
  {
  }
}
