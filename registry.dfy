/** The catalogue of scenarios (pkg/scenario/registry.go). A registered
    scenario is represented by the identifying part of its metadata and its
    namespace; its cluster behaviour lives in the per-scenario modules. */
module Registry {
  import opened Common
  import opened ScenarioTypes

  datatype Entry = Entry(
    id: string,
    name: string,
    difficulty: Difficulty,
    category: string,
    namespace: string)

  datatype Registry = Registry(scenarios: seq<Entry>)

  /** The thirty scenarios, in registration order. */
  function Catalogue(): (s: seq<Entry>)
    ensures |s| == 30
  {
    seq(30, i requires 0 <= i < 30 => CatalogueEntry(i))
  }

  /** The scenario registered at position i, found in its group of five. */
  function CatalogueEntry(i: nat): Entry
    requires i < 30
  {
    if i < 5 then Group0(i) else
    if i < 10 then Group1(i - 5) else
    if i < 15 then Group2(i - 10) else
    if i < 20 then Group3(i - 15) else
    if i < 25 then Group4(i - 20) else
    Group5(i - 25)
  }

  /** Scenarios 0 to 4 of the registration order. */
  function Group0(j: nat): Entry
    requires j < 5
  {
    if j == 0 then Entry("net-service-selector", "Network 101: Service Discovery Failure", Easy, "Networking", "net-service-selector") else
    if j == 1 then Entry("net-grpc-balance", "Network: gRPC Load Balancing", Medium, "Networking", "net-grpc-balance") else
    if j == 2 then Entry("net-source-ip", "Network: The Vanishing Source IP", Medium, "Networking", "net-source-ip") else
    if j == 3 then Entry("net-dns-ndots", "Network: DNS 5s Latency", Hard, "Networking", "net-dns-ndots") else
    Entry("netpol-dns-block", "Network Security: The Silent Block", Hard, "Networking", "netpol-dns-block")
  }

  /** Scenarios 5 to 9 of the registration order. */
  function Group1(j: nat): Entry
    requires j < 5
  {
    if j == 0 then Entry("image-pull-backoff", "Level 1: Image Pull Error", Easy, "Pods & Containers", "dojo-level-1") else
    if j == 1 then Entry("crashloop-missing-config", "Lifecycle: The CrashLoop Mystery", Easy, "Lifecycle", "life-crash-config") else
    if j == 2 then Entry("life-graceful-shutdown", "Lifecycle: Zero Downtime", Medium, "Lifecycle", "life-graceful") else
    if j == 3 then Entry("sched-node-affinity", "Scheduling: The Sticky GPU", Medium, "Scheduling", "sched-affinity") else
    Entry("sched-missing-scheduler", "Scheduling: The Ghost Scheduler", Easy, "Scheduling", "sched-missing")
  }

  /** Scenarios 10 to 14 of the registration order. */
  function Group2(j: nat): Entry
    requires j < 5
  {
    if j == 0 then Entry("rbac-forbidden", "Security: Access Denied", Medium, "Security", "sec-rbac") else
    if j == 1 then Entry("sec-privileged-policy", "Security: The Privileged Container", Easy, "Security", "sec-priv") else
    if j == 2 then Entry("sec-image-digest", "Security: Supply Chain Integrity", Medium, "Security", "sec-digest") else
    if j == 3 then Entry("storage-pvc-pending", "Storage: PVC Stuck Pending", Easy, "Storage", "storage-pvc") else
    Entry("storage-zonal-affinity", "Storage: Zonal Connectivity", Hard, "Storage", "storage-zonal")
  }

  /** Scenarios 15 to 19 of the registration order. */
  function Group3(j: nat): Entry
    requires j < 5
  {
    if j == 0 then Entry("kernel-oom-disable", "Kernel: OOM Survival", Hard, "Kernel", "kernel-oom") else
    if j == 1 then Entry("ops-config-checksum", "Ops: GitOps Trigger", Medium, "Operations", "ops-checksum") else
    if j == 2 then Entry("net-target-port-mismatch", "Network: The Unreachable Port", Easy, "Networking", "net-target-port") else
    if j == 3 then Entry("ingress-path-error", "Ingress: 404 Not Found", Medium, "Networking", "ingress-path") else
    Entry("ingress-tls-mismatch", "Ingress: TLS Secret Missing", Medium, "Networking", "ingress-tls")
  }

  /** Scenarios 20 to 24 of the registration order. */
  function Group4(j: nat): Entry
    requires j < 5
  {
    if j == 0 then Entry("probe-liveness-fail", "Lifecycle: Liveness Failure", Easy, "Lifecycle", "probe-fail") else
    if j == 1 then Entry("probe-readiness-timeout", "Lifecycle: Readiness Timeout", Medium, "Lifecycle", "probe-ready") else
    if j == 2 then Entry("init-container-crash", "Lifecycle: Stuck Initializing", Easy, "Lifecycle", "init-crash") else
    if j == 3 then Entry("pod-finalizer-stuck", "Lifecycle: The Undying Pod", Medium, "Lifecycle", "pod-stuck") else
    Entry("sched-taint-toleration", "Scheduling: Forbidden Node", Medium, "Scheduling", "sched-taint")
  }

  /** Scenarios 25 to 29 of the registration order. */
  function Group5(j: nat): Entry
    requires j < 5
  {
    if j == 0 then Entry("sec-fsgroup-denied", "Security: Permission Denied", Medium, "Security", "sec-fsgroup") else
    if j == 1 then Entry("sec-sa-nomount", "Security: No Certificates", Easy, "Security", "sec-sa") else
    if j == 2 then Entry("storage-subpath-overwrite", "Storage: File Wipeout", Medium, "Storage", "storage-subpath") else
    if j == 3 then Entry("resource-quota-exceeded", "Resources: Quota Limit Reached", Medium, "Resources", "res-quota") else
    Entry("resource-limit-range", "Resources: LimitRange Block", Easy, "Resources", "res-limit")
  }

  /** The registry built at start-up, holding the catalogue. */
  function NewRegistry(): (r: Registry)
    ensures |r.scenarios| == 30
    ensures r.scenarios[0].id == "net-service-selector"
    ensures r.scenarios[29].id == "resource-limit-range"
    ensures IdsDistinct(r.scenarios)
  {
    CatalogueIdsDistinct();
    Registry(Catalogue())
  }

  /** A numeric fingerprint of an ID (its length and its first and last two
      characters); equal IDs have equal fingerprints. */
  function Fingerprint(id: string): int
  {
    if |id| < 2 then 0
    else |id| * 1000000 + (id[0] as int) * 10000 + (id[|id| - 2] as int) * 100 + (id[|id| - 1] as int)
  }

  /** The fingerprints of the catalogue's IDs, in registration order. */
  function CatalogueFingerprints(): seq<int>
  {
    [
      21111214, 17110001, 14110612, 14111715, 17110007, 19060302,
      25000603, 23092010, 20161721, 24160214, 15150210, 22160021,
      17161616, 20161103, 23161721, 19080901, 20121809, 25110004,
      19061214, 21060004, 20130608, 24131816, 21061604, 20130007,
      23161210, 19160200, 15161116, 26161701, 24150200, 21150401
    ]
  }

  /** CatalogueTabulated for positions 0 to 4. */
  lemma CatalogueTabulated0()
    ensures forall k :: 0 <= k < 5 ==>
      Fingerprint(Catalogue()[k].id) == CatalogueFingerprints()[k] && Catalogue()[k].category !in {"", "Ops"}
  {
  }

  /** CatalogueTabulated for positions 5 to 9. */
  lemma CatalogueTabulated1()
    ensures forall k :: 5 <= k < 10 ==>
      Fingerprint(Catalogue()[k].id) == CatalogueFingerprints()[k] && Catalogue()[k].category !in {"", "Ops"}
  {
  }

  /** CatalogueTabulated for positions 10 to 14. */
  lemma CatalogueTabulated2()
    ensures forall k :: 10 <= k < 15 ==>
      Fingerprint(Catalogue()[k].id) == CatalogueFingerprints()[k] && Catalogue()[k].category !in {"", "Ops"}
  {
  }

  /** CatalogueTabulated for positions 15 to 19. */
  lemma CatalogueTabulated3()
    ensures forall k :: 15 <= k < 20 ==>
      Fingerprint(Catalogue()[k].id) == CatalogueFingerprints()[k] && Catalogue()[k].category !in {"", "Ops"}
  {
  }

  /** CatalogueTabulated for positions 20 to 24. */
  lemma CatalogueTabulated4()
    ensures forall k :: 20 <= k < 25 ==>
      Fingerprint(Catalogue()[k].id) == CatalogueFingerprints()[k] && Catalogue()[k].category !in {"", "Ops"}
  {
  }

  /** CatalogueTabulated for positions 25 to 29. */
  lemma CatalogueTabulated5()
    ensures forall k :: 25 <= k < 30 ==>
      Fingerprint(Catalogue()[k].id) == CatalogueFingerprints()[k] && Catalogue()[k].category !in {"", "Ops"}
  {
  }

  /** Each fingerprint in the table is that of the catalogue entry at the
      same position, and every entry is filed under a category other than
      the empty one and "Ops". */
  lemma CatalogueTabulated()
    ensures |CatalogueFingerprints()| == |Catalogue()|
    ensures forall k :: 0 <= k < |Catalogue()| ==>
      Fingerprint(Catalogue()[k].id) == CatalogueFingerprints()[k] && Catalogue()[k].category !in {"", "Ops"}
  {
    CatalogueTabulated0();
    CatalogueTabulated1();
    CatalogueTabulated2();
    CatalogueTabulated3();
    CatalogueTabulated4();
    CatalogueTabulated5();
  }

  /** No two fingerprints in the table are equal. */
  lemma FingerprintsDistinct()
    ensures forall i, j :: 0 <= i < j < |CatalogueFingerprints()| ==> CatalogueFingerprints()[i] != CatalogueFingerprints()[j]
  {
  }

  /** The catalogue's IDs are pairwise distinct, because already their
      fingerprints are. */
  lemma CatalogueIdsDistinct()
    ensures IdsDistinct(Catalogue())
  {
    CatalogueTabulated();
    FingerprintsDistinct();
  }

  /** No two entries share an ID. */
  predicate IdsDistinct(s: seq<Entry>)
  {
    forall i, j :: 0 <= i < j < |s| ==> s[i].id != s[j].id
  }

  /** All registered scenarios, in registration order. */
  function List(r: Registry): (s: seq<Entry>)
    ensures s == r.scenarios
  {
    r.scenarios
  }

  /** The number of registered scenarios. */
  function Count(r: Registry): (n: nat)
    ensures n == |List(r)|
  {
    |r.scenarios|
  }

  /** The position of the first entry of `s` whose ID is `id`. */
  function FirstWithId(s: seq<Entry>, id: string): (r: Option<nat>)
    ensures r.Some? ==> r.value < |s| && s[r.value].id == id
    ensures r.Some? ==> forall j :: 0 <= j < r.value ==> s[j].id != id
    ensures r.None? <==> forall e <- s :: e.id != id
  {
    if |s| == 0 then None
    else if s[0].id == id then Some(0)
    else match FirstWithId(s[1..], id)
      case None => None
      case Some(k) => Some(k + 1)
  }

  /** The first registered scenario whose ID is `id`, or None. */
  function Get(r: Registry, id: string): (e: Option<Entry>)
    ensures e.Some? ==> e.value in r.scenarios && e.value.id == id
    ensures e.None? <==> forall x <- r.scenarios :: x.id != id
    ensures e.Some? ==>
      exists k :: 0 <= k < |r.scenarios| && e.value == r.scenarios[k] && forall j :: 0 <= j < k ==> r.scenarios[j].id != id
  {
    match FirstWithId(r.scenarios, id)
    case None => None
    case Some(k) => Some(r.scenarios[k])
  }

  /** With distinct IDs, looking up a registered scenario's ID finds exactly
      that scenario. */
  lemma GetFindsEveryRegistered(r: Registry, i: nat)
    requires IdsDistinct(r.scenarios) && i < |r.scenarios|
    ensures Get(r, r.scenarios[i].id) == Some(r.scenarios[i])
  {
    var k := FirstWithId(r.scenarios, r.scenarios[i].id);
    assert k.Some?;
    assert !(k.value < i) && !(i < k.value);
  }

  /** Every scenario of the catalogue is reachable through its own ID. */
  lemma CatalogueLookups(i: nat)
    requires i < Count(NewRegistry())
    ensures Get(NewRegistry(), List(NewRegistry())[i].id) == Some(List(NewRegistry())[i])
  {
    GetFindsEveryRegistered(NewRegistry(), i);
  }
}
