/** The "Ingress: TLS Secret Missing" scenario (pkg/scenario/ingress_tls.go):
    the Ingress "secure-ingress" references a TLS Secret that does not exist
    under that name. */
module IngressTls {
  import opened ScenarioTypes

  const SolvedMessage := "Success! Ingress TLS secret found."

  datatype IngressTls = IngressTls(secretName: string)
  datatype Ingress = Ingress(tls: seq<IngressTls>)

  /** The seed references "tls-secret" while the Secret it creates is named
      "connection-secure". */
  const SeededIngress := Ingress([IngressTls("tls-secret")])
  const SeededSecrets := {"connection-secure"}

  function MissingMessage(name: string): string
  {
    "Referenced TLS secret '" + name + "' not found."
  }

  /** The Secret name the check looks up: the first TLS entry's, or "". */
  function ReferencedSecret(ing: Ingress): (name: string)
    ensures |ing.tls| == 0 ==> name == ""
    ensures |ing.tls| > 0 ==> name == ing.tls[0].secretName
  {
    if |ing.tls| > 0 then ing.tls[0].secretName else ""
  }

  /** The check, given the Ingress fetch and the set of Secret names whose
      lookup succeeds in the namespace. The API server refuses a lookup by
      the empty name, so an Ingress without a TLS entry never passes. */
  function Validate(ing: Fetch<Ingress>, retrievable: set<string>): (r: Result)
    ensures ing.FetchErr? ==> r == Result(false, ing.err)
    ensures ing.Fetched? ==>
      (r.solved <==> ReferencedSecret(ing.obj) != "" && ReferencedSecret(ing.obj) in retrievable)
    ensures ing.Fetched? && r.solved ==> r.message == SolvedMessage
    ensures ing.Fetched? && !r.solved ==> r.message == MissingMessage(ReferencedSecret(ing.obj))
  {
    match ing
    case FetchErr(e) => Result(false, e)
    case Fetched(i) =>
      var name := ReferencedSecret(i);
      if name != "" && name in retrievable then Result(true, SolvedMessage) else Result(false, MissingMessage(name))
  }

  /** Both fixes work: renaming the Secret to "tls-secret", or pointing the
      Ingress at "connection-secure". The seed itself is unsolved. */
  lemma EitherFixSolves()
    ensures !Validate(Fetched(SeededIngress), SeededSecrets).solved
    ensures Validate(Fetched(SeededIngress), {"tls-secret"}).solved
    ensures Validate(Fetched(Ingress([IngressTls("connection-secure")])), SeededSecrets).solved
  {
    assert "tls-secret" != "connection-secure" by {
      assert |"tls-secret"| != |"connection-secure"|;
    }
  }
}
