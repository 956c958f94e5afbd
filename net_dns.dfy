/** The "Network: DNS 5s Latency" scenario (pkg/scenario/net_dns.go): the
    pod "legacy-app" must lower its resolver's ndots option below the
    default of 5. */
module NetDns {
  import opened Common
  import opened ScenarioTypes

  const SolvedMessage := "Success! ndots reduced to optimized level."
  const UnsolvedMessage := "ndots configuration not found or value too high."

  datatype DnsOption = DnsOption(name: string, value: Option<string>)

  /** The pod, reduced to its optional DNS configuration's options. */
  datatype Pod = Pod(dnsConfig: Option<seq<DnsOption>>)

  /** The seeded pod has no DNS configuration. */
  const SeededPod := Pod(None)

  /** The test as written: Go's `<` on strings, byte-wise lexicographic. */
  predicate LexBelowThree(v: string)
  {
    LexLess(v, "3")
  }

  /** Lexicographic comparison with "3" looks at the first character only. */
  lemma LexBelowThreeIsFirstChar(v: string)
    ensures LexBelowThree(v) <==> |v| == 0 || v[0] < '3'
  {
    var three := "3";
    assert three[1..] == [];
    if |v| > 0 {
      assert !LexLess(v[1..], three[1..]);
    }
  }

  /** The search loop as written, over the options in order. */
  function AnyLexBelowThree(opts: seq<DnsOption>): (found: bool)
    ensures found <==> exists o <- opts :: o.name == "ndots" && o.value.Some? && LexBelowThree(o.value.value)
  {
    if |opts| == 0 then false
    else if opts[0].name == "ndots" && opts[0].value.Some? && LexLess(opts[0].value.value, "3") then
      assert opts[0] in opts;
      true
    else
      assert forall o <- opts :: o == opts[0] || o in opts[1..];
      AnyLexBelowThree(opts[1..])
  }

  /** The check as written. */
  function ValidateAsWritten(pod: Fetch<Pod>): (r: Result)
    ensures pod.FetchErr? ==> r == Result(false, pod.err)
    ensures pod.Fetched? ==>
      (r.solved <==> pod.obj.dnsConfig.Some? &&
                     exists o <- pod.obj.dnsConfig.value :: o.name == "ndots" && o.value.Some? && LexBelowThree(o.value.value))
    ensures pod.Fetched? ==> r.message == (if r.solved then SolvedMessage else UnsolvedMessage)
  {
    match pod
    case FetchErr(e) => Result(false, e)
    case Fetched(p) =>
      if p.dnsConfig.Some? && AnyLexBelowThree(p.dnsConfig.value) then Result(true, SolvedMessage)
      else Result(false, UnsolvedMessage)
  }

  /** A pod whose only DNS option is ndots with the given value. */
  function PodWithNdots(v: string): Pod
  {
    Pod(Some([DnsOption("ndots", Some(v))]))
  }

  /** The as-written check accepts ndots "10", which is higher than the
      default it is meant to reduce, and an empty value. */
  lemma AsWrittenAcceptsTen()
    ensures ValidateAsWritten(Fetched(PodWithNdots("10"))).solved
    ensures ValidateAsWritten(Fetched(PodWithNdots(""))).solved
    ensures !ValidateAsWritten(Fetched(PodWithNdots("5"))).solved
  {
    assert PodWithNdots("10").dnsConfig.value[0] == DnsOption("ndots", Some("10"));
    assert PodWithNdots("").dnsConfig.value[0] == DnsOption("ndots", Some(""));
  }

  /** A non-empty string of ASCII digits. */
  predicate IsDecimal(v: string)
  {
    |v| > 0 && forall i :: 0 <= i < |v| ==> '0' <= v[i] <= '9'
  }

  /** The value of a string of digits, most significant digit first. */
  function DecimalValue(v: string): (n: nat)
    requires forall i :: 0 <= i < |v| ==> '0' <= v[i] <= '9'
    ensures |v| == 1 ==> n == (v[0] - '0') as nat
    ensures n < 3 ==> forall i :: 0 <= i < |v| - 1 ==> v[i] == '0'
  {
    if |v| == 0 then 0
    else
      var d := (v[|v| - 1] - '0') as nat;
      var rest := DecimalValue(v[..|v| - 1]);
      assert forall i :: 0 <= i < |v| - 2 ==> v[..|v| - 1][i] == v[i];
      rest * 10 + d
  }

  /** The intended test: the value is a number below 3. */
  predicate NumericBelowThree(v: string)
  {
    IsDecimal(v) && DecimalValue(v) < 3
  }

  function AnyNumericBelowThree(opts: seq<DnsOption>): (found: bool)
    ensures found <==> exists o <- opts :: o.name == "ndots" && o.value.Some? && NumericBelowThree(o.value.value)
  {
    if |opts| == 0 then false
    else if opts[0].name == "ndots" && opts[0].value.Some? && NumericBelowThree(opts[0].value.value) then
      assert opts[0] in opts;
      true
    else
      assert forall o <- opts :: o == opts[0] || o in opts[1..];
      AnyNumericBelowThree(opts[1..])
  }

  /** The check with the intended numeric comparison. */
  function Validate(pod: Fetch<Pod>): (r: Result)
    ensures pod.FetchErr? ==> r == Result(false, pod.err)
    ensures pod.Fetched? ==>
      (r.solved <==> pod.obj.dnsConfig.Some? &&
                     exists o <- pod.obj.dnsConfig.value :: o.name == "ndots" && o.value.Some? && NumericBelowThree(o.value.value))
    ensures pod.Fetched? ==> r.message == (if r.solved then SolvedMessage else UnsolvedMessage)
  {
    match pod
    case FetchErr(e) => Result(false, e)
    case Fetched(p) =>
      if p.dnsConfig.Some? && AnyNumericBelowThree(p.dnsConfig.value) then Result(true, SolvedMessage)
      else Result(false, UnsolvedMessage)
  }

  /** The intended check rejects "10" and "" and still accepts "2"; on single
      digits it agrees with the comparison as written. */
  lemma NumericCheckRejectsTen()
    ensures !Validate(Fetched(PodWithNdots("10"))).solved
    ensures !Validate(Fetched(PodWithNdots(""))).solved
    ensures Validate(Fetched(PodWithNdots("2"))).solved
  {
    assert PodWithNdots("2").dnsConfig.value[0] == DnsOption("ndots", Some("2"));
    assert DecimalValue("10") == 10 by {
      assert "10"[..1] == "1";
    }
  }

  /** An accepted value is zeros followed by one digit below 3, and for a
      single digit both comparisons agree. */
  lemma NumericBelowThreeShape(v: string)
    requires NumericBelowThree(v)
    ensures v[|v| - 1] < '3'
    ensures forall i :: 0 <= i < |v| - 1 ==> v[i] == '0'
  {
    if |v| > 1 {
      assert DecimalValue(v) == DecimalValue(v[..|v| - 1]) * 10 + (v[|v| - 1] - '0') as nat;
    }
  }

  lemma SingleDigitAgrees(v: string)
    requires |v| == 1 && '0' <= v[0] <= '9'
    ensures NumericBelowThree(v) <==> LexBelowThree(v)
  {
    LexBelowThreeIsFirstChar(v);
  }

  lemma SeedIsUnsolved()
    ensures !Validate(Fetched(SeededPod)).solved && !ValidateAsWritten(Fetched(SeededPod)).solved
  {
  }
}
