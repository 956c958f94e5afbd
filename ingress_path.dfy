/** The "Ingress: 404 Not Found" scenario (pkg/scenario/ingress_path.go): the
    Ingress "app-ingress" routes "/wrong-path" where "/app" is wanted. */
module IngressPath {
  import opened Common
  import opened ScenarioTypes

  const SolvedMessage := "Success! Ingress path updated to /app."
  const UnsolvedMessage := "Ingress path is still incorrect (Target: /app)."

  datatype HttpPath = HttpPath(path: string)
  datatype HttpRuleValue = HttpRuleValue(paths: seq<HttpPath>)

  /** A rule; its HTTP part is optional (a host-only rule has none). */
  datatype IngressRule = IngressRule(http: Option<HttpRuleValue>)
  datatype Ingress = Ingress(rules: seq<IngressRule>)

  const SeededIngress := Ingress([IngressRule(Some(HttpRuleValue([HttpPath("/wrong-path")])))])

  /** What a call of the check as written does: return a result, or fail on
      a nil dereference. */
  datatype Outcome = Returned(result: Result) | NilDereference

  /** The first rule's first HTTP path is "/app". */
  predicate RoutesApp(ing: Ingress)
  {
    |ing.rules| > 0 && ing.rules[0].http.Some? &&
    |ing.rules[0].http.value.paths| > 0 && ing.rules[0].http.value.paths[0].path == "/app"
  }

  /** The check as written: the first rule's HTTP part is dereferenced
      without a nil test. */
  function ValidateAsWritten(ing: Fetch<Ingress>): (o: Outcome)
    ensures o.NilDereference? <==> ing.Fetched? && |ing.obj.rules| > 0 && ing.obj.rules[0].http.None?
    ensures ing.FetchErr? ==> o == Returned(Result(false, ing.err))
    ensures ing.Fetched? && o.Returned? ==> (o.result.solved <==> RoutesApp(ing.obj))
  {
    match ing
    case FetchErr(e) => Returned(Result(false, e))
    case Fetched(i) =>
      if |i.rules| > 0 then
        if i.rules[0].http.None? then NilDereference
        else
          var paths := i.rules[0].http.value.paths;
          if |paths| > 0 && paths[0].path == "/app" then Returned(Result(true, SolvedMessage))
          else Returned(Result(false, UnsolvedMessage))
      else Returned(Result(false, UnsolvedMessage))
  }

  /** A first rule without an HTTP part makes the check as written fail. */
  lemma HostOnlyRuleCrashes()
    ensures ValidateAsWritten(Fetched(Ingress([IngressRule(None)]))) == NilDereference
  {
  }

  /** The check with the missing nil test added: a rule without an HTTP
      part routes nothing, so the path is still incorrect. */
  function Validate(ing: Fetch<Ingress>): (r: Result)
    ensures ing.FetchErr? ==> r == Result(false, ing.err)
    ensures ing.Fetched? ==> (r.solved <==> RoutesApp(ing.obj))
    ensures ing.Fetched? ==> r.message == (if r.solved then SolvedMessage else UnsolvedMessage)
  {
    match ing
    case FetchErr(e) => Result(false, e)
    case Fetched(i) =>
      if |i.rules| > 0 && i.rules[0].http.Some? then
        var paths := i.rules[0].http.value.paths;
        if |paths| > 0 && paths[0].path == "/app" then Result(true, SolvedMessage)
        else Result(false, UnsolvedMessage)
      else Result(false, UnsolvedMessage)
  }

  /** Wherever the check as written returns, the corrected check returns the
      same result; it differs only where the original crashes. */
  lemma CorrectedAgreesWhereOriginalReturns(ing: Fetch<Ingress>)
    ensures ValidateAsWritten(ing).Returned? ==> ValidateAsWritten(ing).result == Validate(ing)
    ensures ValidateAsWritten(ing).NilDereference? ==> Validate(ing) == Result(false, UnsolvedMessage)
  {
  }

  lemma SeedIsUnsolved()
    ensures Validate(Fetched(SeededIngress)) == Result(false, UnsolvedMessage)
  {
  }
}
