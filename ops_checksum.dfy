/** The "Ops: GitOps Trigger" scenario (pkg/scenario/ops_checksum.go): the
    Deployment's pod template must carry a checksum annotation so that a
    ConfigMap change rolls the pods. */
module OpsChecksum {
  import opened ScenarioTypes

  const SolvedMessage := "Success! Checksum annotation found."
  const UnsolvedMessage := "No checksum annotation found in Pod template."

  /** The Deployment "gitops-app", reduced to its pod template's annotation
      keys, listed in the order Go's map iteration happens to yield them. */
  datatype Deployment = Deployment(annotationKeys: seq<string>)

  function GetMetadata(): (m: Metadata)
    ensures m.id == "ops-config-checksum" && m.category == "Operations"
    ensures m.difficulty == Medium && m.timeLimitMinutes == 0 && |m.hints| == 2
  {
    Metadata(
      "ops-config-checksum",
      "Ops: GitOps Trigger",
      "The Deployment must restart when ConfigMap changes. Add a checksum annotation.",
      Medium,
      "Operations",
      ["Add an annotation to the Pod template", "Key typically contains 'checksum' or 'sha256'"],
      0)
  }

  /** A key longer than eight bytes whose first eight bytes are "checksum". */
  predicate HasChecksumPrefix(k: string)
  {
    |k| > 8 && k[..8] == "checksum"
  }

  /** The test applied to each key. */
  predicate IsChecksumKey(k: string)
  {
    k == "checksum/config" || HasChecksumPrefix(k)
  }

  /** The search loop over the annotation keys, stopping at the first match. */
  function FindChecksumKey(keys: seq<string>): (found: bool)
    ensures found <==> exists k <- keys :: IsChecksumKey(k)
  {
    if |keys| == 0 then false
    else if keys[0] == "checksum/config" || (|keys[0]| > 8 && keys[0][..8] == "checksum") then
      assert keys[0] in keys;
      true
    else
      assert forall k <- keys :: k == keys[0] || k in keys[1..];
      FindChecksumKey(keys[1..])
  }

  /** The check, given the result of fetching the Deployment. */
  function Validate(dep: Fetch<Deployment>): (r: Result)
    ensures dep.FetchErr? ==> r == Result(false, dep.err)
    ensures dep.Fetched? ==> (r.solved <==> exists k <- dep.obj.annotationKeys :: HasChecksumPrefix(k))
    ensures dep.Fetched? ==> r.message == (if r.solved then SolvedMessage else UnsolvedMessage)
  {
    match dep
    case FetchErr(e) => Result(false, e)
    case Fetched(d) =>
      ChecksumConfigIsRedundant();
      if FindChecksumKey(d.annotationKeys) then Result(true, SolvedMessage) else Result(false, UnsolvedMessage)
  }

  /** The explicit "checksum/config" alternative adds nothing: that key
      already has the checksum prefix. A bare "checksum" key does not count. */
  lemma ChecksumConfigIsRedundant()
    ensures forall k :: IsChecksumKey(k) <==> HasChecksumPrefix(k)
    ensures !IsChecksumKey("checksum")
  {
    assert "checksum/config"[..8] == "checksum";
  }

  /** The outcome does not depend on the map's iteration order: any
      reordering of the keys gives the same result. */
  lemma IterationOrderIrrelevant(a: seq<string>, b: seq<string>)
    requires multiset(a) == multiset(b)
    ensures Validate(Fetched(Deployment(a))) == Validate(Fetched(Deployment(b)))
  {
    assert forall k :: k in a <==> k in b by {
      forall k ensures k in a <==> k in b {
        assert k in a <==> k in multiset(a);
        assert k in b <==> k in multiset(b);
      }
    }
  }

  /** Without annotations the check is unsolved, which is the seeded state. */
  lemma SeedIsUnsolved()
    ensures Validate(Fetched(Deployment([]))) == Result(false, UnsolvedMessage)
  {
  }
}
