/** The "Network Security: The Silent Block" scenario
    (pkg/scenario/net_pol.go): a deny-all egress policy must be amended to
    let DNS traffic through. */
module NetPol {
  import opened Common
  import opened ScenarioTypes

  const SolvedMessage := "Success! NetworkPolicy now allows DNS traffic."
  const UnsolvedMessage := "No NetworkPolicy rule found explicitly allowing Port 53."

  /** An egress port entry; its protocol is not read by the check. */
  datatype PolicyPort = PolicyPort(port: Option<IntOrString>)

  /** An egress rule: its ports and the number of peers in its To list. */
  datatype EgressRule = EgressRule(ports: seq<PolicyPort>, peerCount: nat)

  datatype Policy = Policy(egress: seq<EgressRule>)

  /** The policy the scenario seeds: egress enabled with no rule at all. */
  const SeededPolicy := Policy([])

  /** A port entry that opens port 53: the port is set and its integer
      value is 53 (a named port reads as integer 0). */
  predicate PortOpensDNS(p: PolicyPort)
  {
    p.port.Some? && IntValField(p.port.value) == 53
  }

  /** A rule the check accepts: it lists a DNS port, or it lists no port at
      all but at least one peer. */
  predicate RuleAllowsDNS(r: EgressRule)
  {
    (exists p <- r.ports :: PortOpensDNS(p)) || (|r.ports| == 0 && r.peerCount > 0)
  }

  /** The innermost loop over one rule's ports. */
  function AnyPortOpensDNS(ports: seq<PolicyPort>): (b: bool)
    ensures b <==> exists p <- ports :: PortOpensDNS(p)
  {
    if |ports| == 0 then false
    else if ports[0].port.Some? && IntValField(ports[0].port.value) == 53 then
      assert PortOpensDNS(ports[0]) && ports[0] in ports;
      true
    else
      assert forall p <- ports :: p == ports[0] || p in ports[1..];
      AnyPortOpensDNS(ports[1..])
  }

  /** The loop over one policy's egress rules. */
  function AnyRuleAllowsDNS(rules: seq<EgressRule>): (b: bool)
    ensures b <==> exists r <- rules :: RuleAllowsDNS(r)
  {
    if |rules| == 0 then false
    else
      if AnyPortOpensDNS(rules[0].ports) || (|rules[0].ports| == 0 && rules[0].peerCount > 0) then
        assert RuleAllowsDNS(rules[0]) && rules[0] in rules;
        true
      else
        assert forall r <- rules :: r == rules[0] || r in rules[1..];
        AnyRuleAllowsDNS(rules[1..])
  }

  /** The outer loop over all policies of the namespace. */
  function AnyPolicyAllowsDNS(pols: seq<Policy>): (b: bool)
    ensures b <==> exists pol <- pols, r <- pol.egress :: RuleAllowsDNS(r)
  {
    if |pols| == 0 then false
    else if AnyRuleAllowsDNS(pols[0].egress) then
      assert pols[0] in pols;
      true
    else
      assert forall pol <- pols :: pol == pols[0] || pol in pols[1..];
      AnyPolicyAllowsDNS(pols[1..])
  }

  /** The check, given the result of listing the namespace's policies. */
  function Validate(pols: Fetch<seq<Policy>>): (r: Result)
    ensures pols.FetchErr? ==> r == Result(false, pols.err)
    ensures pols.Fetched? ==> (r.solved <==> exists pol <- pols.obj, rule <- pol.egress :: RuleAllowsDNS(rule))
    ensures pols.Fetched? ==> r.message == (if r.solved then SolvedMessage else UnsolvedMessage)
  {
    match pols
    case FetchErr(e) => Result(false, e)
    case Fetched(items) =>
      if AnyPolicyAllowsDNS(items) then Result(true, SolvedMessage) else Result(false, UnsolvedMessage)
  }

  /** A named port never opens DNS, whatever its name, and a rule with
      neither ports nor peers is not accepted. */
  lemma NamedPortsAndEmptyRulesDoNotCount(name: string)
    ensures !PortOpensDNS(PolicyPort(Some(StrVal(name))))
    ensures !RuleAllowsDNS(EgressRule([], 0))
  {
  }

  /** Freshly seeded, the namespace holds only the deny-all policy, so the
      check starts unsolved. */
  lemma SeedIsUnsolved()
    ensures !Validate(Fetched([SeededPolicy])).solved
  {
  }
}
