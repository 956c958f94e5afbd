/** The "Security: Supply Chain Integrity" scenario
    (pkg/scenario/sec_digest.go): the Deployment "web" must pin its image by
    digest. */
module SecDigest {
  import opened Common
  import opened ScenarioTypes

  const SolvedMessage := "Success! Image is pinned by digest."
  const UnsolvedMessage := "Image is still using a tag, not a digest."
  const DigestMarker := "@sha256:"

  datatype Container = Container(image: string)

  /** The Deployment, reduced to its pod template's containers. */
  datatype Deployment = Deployment(containers: seq<Container>)

  const SeededDeployment := Deployment([Container("nginx:latest")])

  /** The check: the first container's image contains "@sha256:". */
  function Validate(dep: Fetch<Deployment>): (r: Result)
    ensures dep.FetchErr? ==> r == Result(false, dep.err)
    ensures dep.Fetched? ==>
      (r.solved <==> |dep.obj.containers| > 0 && exists i :: OccursAt(dep.obj.containers[0].image, DigestMarker, i))
    ensures dep.Fetched? ==> r.message == (if r.solved then SolvedMessage else UnsolvedMessage)
  {
    match dep
    case FetchErr(e) => Result(false, e)
    case Fetched(d) =>
      if |d.containers| == 0 then Result(false, UnsolvedMessage)
      else
        ContainsIffOccurs(d.containers[0].image, DigestMarker);
        if Contains(d.containers[0].image, DigestMarker) then Result(true, SolvedMessage)
        else Result(false, UnsolvedMessage)
  }

  /** A string without the first character of `s` holds no occurrence of `s`. */
  lemma AbsentWithoutFirstChar(t: string, s: string)
    requires |s| > 0 && forall i :: 0 <= i < |t| ==> t[i] != s[0]
    ensures forall i :: !OccursAt(t, s, i)
  {
    forall i
      ensures !OccursAt(t, s, i)
    {
      if 0 <= i && i + |s| <= |t| {
        assert t[i..i + |s|][0] == t[i];
      }
    }
  }

  /** An image pinned by digest is accepted; the seeded tag is not. */
  lemma DigestAccepted(name: string, digest: string)
    ensures Validate(Fetched(Deployment([Container(name + DigestMarker + digest)]))).solved
    ensures !Validate(Fetched(SeededDeployment)).solved
  {
    var img := name + DigestMarker + digest;
    assert img[|name|..|name| + |DigestMarker|] == DigestMarker;
    assert OccursAt(img, DigestMarker, |name|);
    var seeded := "nginx:latest";
    assert forall i :: 0 <= i < |seeded| ==> seeded[i] != '@';
    AbsentWithoutFirstChar(seeded, DigestMarker);
  }
}
