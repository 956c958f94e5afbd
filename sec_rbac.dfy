/** The "Security: Access Denied" scenario (pkg/scenario/sec_rbac.go): the
    Role "pod-reader" must be granted the 'list' verb. */
module SecRbac {
  import opened ScenarioTypes

  const SolvedMessage := "Success! 'list' verb added."
  const UnsolvedMessage := "Role still missing 'list' verb."

  /** A policy rule, reduced to its verbs; resources and API groups are not read. */
  datatype PolicyRule = PolicyRule(verbs: seq<string>)

  datatype Role = Role(rules: seq<PolicyRule>)

  /** The seeded role: one rule granting get and watch on pods. */
  const SeededRole := Role([PolicyRule(["get", "watch"])])

  predicate GrantsList(v: string)
  {
    v == "list" || v == "*"
  }

  /** The inner loop over one rule's verbs. */
  function AnyVerbGrantsList(verbs: seq<string>): (found: bool)
    ensures found <==> exists v <- verbs :: GrantsList(v)
  {
    if |verbs| == 0 then false
    else if verbs[0] == "list" || verbs[0] == "*" then
      assert verbs[0] in verbs;
      true
    else
      assert forall v <- verbs :: v == verbs[0] || v in verbs[1..];
      AnyVerbGrantsList(verbs[1..])
  }

  /** The outer loop over the rules, returning at the first granting verb. */
  function AnyRuleGrantsList(rules: seq<PolicyRule>): (found: bool)
    ensures found <==> exists r <- rules, v <- r.verbs :: GrantsList(v)
  {
    if |rules| == 0 then false
    else if AnyVerbGrantsList(rules[0].verbs) then
      assert rules[0] in rules;
      true
    else
      assert forall r <- rules :: r == rules[0] || r in rules[1..];
      AnyRuleGrantsList(rules[1..])
  }

  /** The check, given the result of fetching the Role. */
  function Validate(role: Fetch<Role>): (r: Result)
    ensures role.FetchErr? ==> r == Result(false, role.err)
    ensures role.Fetched? ==> (r.solved <==> exists rule <- role.obj.rules, v <- rule.verbs :: GrantsList(v))
    ensures role.Fetched? ==> r.message == (if r.solved then SolvedMessage else UnsolvedMessage)
  {
    match role
    case FetchErr(e) => Result(false, e)
    case Fetched(ro) =>
      if AnyRuleGrantsList(ro.rules) then Result(true, SolvedMessage) else Result(false, UnsolvedMessage)
  }

  /** The seeded role grants only get and watch, so the check starts unsolved;
      adding a wildcard rule anywhere solves it. */
  lemma SeedIsUnsolved(extra: seq<PolicyRule>)
    ensures !Validate(Fetched(SeededRole)).solved
    ensures Validate(Fetched(Role(extra + [PolicyRule(["*"])]))).solved
  {
    var wild := PolicyRule(["*"]);
    var role := Role(extra + [wild]);
    assert role.rules[|extra|] == wild && wild.verbs[0] == "*";
    assert GrantsList(wild.verbs[0]);
  }
}
