/** What a cluster configuration asks for: its pods and nodes, the guard that compares them, and its defaults. */
module ClusterConfig {
  datatype AppType = Unset | Plain | Sidecar | Ambient | Waypoint | Gateway | External | Ztunnel | VM

  datatype ApplicationConfig = ApplicationConfig(name: string, kind: AppType, replicas: int, pods: int)

  datatype NamespaceConfig = NamespaceConfig(name: string, replicas: int, applications: seq<ApplicationConfig>)

  datatype NodeConfig = NodeConfig(name: string, count: int)

  datatype Config = Config(namespaces: seq<NamespaceConfig>, nodes: seq<NodeConfig>, stableNames: bool)

  function AppsTotal(apps: seq<ApplicationConfig>): int {
    if apps == [] then 0 else AppsTotal(apps[..|apps| - 1]) + apps[|apps| - 1].replicas * apps[|apps| - 1].pods
  }

  function PodTotal(namespaces: seq<NamespaceConfig>): int {
    if namespaces == [] then 0
    else
      var ns := namespaces[|namespaces| - 1];
      PodTotal(namespaces[..|namespaces| - 1]) + AppsTotal(ns.applications) * ns.replicas
  }

  function NodeTotal(nodes: seq<NodeConfig>): int {
    if nodes == [] then 0 else NodeTotal(nodes[..|nodes| - 1]) + nodes[|nodes| - 1].count
  }

  method PodCount(c: Config) returns (cnt: int)
    ensures cnt == PodTotal(c.namespaces)
  {
    cnt := 0;
    for i := 0 to |c.namespaces|
      invariant cnt == PodTotal(c.namespaces[..i])
    {
      var ns := c.namespaces[i];
      var apps := 0;
      for j := 0 to |ns.applications|
        invariant apps == AppsTotal(ns.applications[..j])
      {
        assert ns.applications[..j + 1][..j] == ns.applications[..j];
        apps := apps + ns.applications[j].replicas * ns.applications[j].pods;
      }
      assert ns.applications[..|ns.applications|] == ns.applications;
      assert c.namespaces[..i + 1][..i] == c.namespaces[..i];
      cnt := cnt + apps * ns.replicas;
    }
    assert c.namespaces[..|c.namespaces|] == c.namespaces;
  }

  method NodeCount(c: Config) returns (cnt: int)
    ensures cnt == NodeTotal(c.nodes)
  {
    cnt := 0;
    for i := 0 to |c.nodes|
      invariant cnt == NodeTotal(c.nodes[..i])
    {
      assert c.nodes[..i + 1][..i] == c.nodes[..i];
      cnt := cnt + c.nodes[i].count;
    }
    assert c.nodes[..|c.nodes|] == c.nodes;
  }

  /** Go's integer division drops the fraction towards zero. */
  function Quotient(a: int, b: int): int
    requires b > 0
  {
    if a >= 0 then a / b else -(-a / b)
  }

  /** The capacity guard lets the configuration pass. */
  predicate Passes(c: Config) {
    Quotient(PodTotal(c.namespaces), 255) <= NodeTotal(c.nodes)
  }

  function Times(n: int): nat {
    if n < 0 then 0 else n
  }

  /** Applications outside the mesh and virtual machines get no pods. */
  function AppPods(a: ApplicationConfig): nat {
    if a.kind == External || a.kind == VM then 0 else Times(a.pods)
  }

  function AppsBuilt(apps: seq<ApplicationConfig>): nat {
    if apps == [] then 0 else AppsBuilt(apps[..|apps| - 1]) + Times(apps[|apps| - 1].replicas) * AppPods(apps[|apps| - 1])
  }

  function PodsBuilt(namespaces: seq<NamespaceConfig>): nat {
    if namespaces == [] then 0
    else
      var ns := namespaces[|namespaces| - 1];
      PodsBuilt(namespaces[..|namespaces| - 1]) + Times(ns.replicas) * AppsBuilt(ns.applications)
  }

  function NodesBuilt(nodes: seq<NodeConfig>): nat {
    if nodes == [] then 0 else NodesBuilt(nodes[..|nodes| - 1]) + Times(nodes[|nodes| - 1].count)
  }

  lemma AppsStep(apps: seq<ApplicationConfig>, i: nat)
    requires i < |apps|
    ensures AppsBuilt(apps[..i + 1]) == AppsBuilt(apps[..i]) + Times(apps[i].replicas) * AppPods(apps[i])
  {
    assert apps[..i + 1][..i] == apps[..i];
  }

  lemma NamespacesStep(namespaces: seq<NamespaceConfig>, i: nat)
    requires i < |namespaces|
    ensures PodsBuilt(namespaces[..i + 1]) == PodsBuilt(namespaces[..i]) + Times(namespaces[i].replicas) * AppsBuilt(namespaces[i].applications)
  {
    assert namespaces[..i + 1][..i] == namespaces[..i];
  }

  lemma {:induction false} AppsBuiltAtLeast(apps: seq<ApplicationConfig>, i: nat)
    requires i <= |apps|
    ensures AppsBuilt(apps[..i]) <= AppsBuilt(apps)
  {
    if i == |apps| {
      assert apps[..i] == apps;
    } else {
      AppsBuiltAtLeast(apps[..|apps| - 1], i);
      assert apps[..|apps| - 1][..i] == apps[..i];
    }
  }

  lemma {:induction false} PodsBuiltAtLeast(namespaces: seq<NamespaceConfig>, i: nat)
    requires i <= |namespaces|
    ensures PodsBuilt(namespaces[..i]) <= PodsBuilt(namespaces)
  {
    if i == |namespaces| {
      assert namespaces[..i] == namespaces;
    } else {
      PodsBuiltAtLeast(namespaces[..|namespaces| - 1], i);
      assert namespaces[..|namespaces| - 1][..i] == namespaces[..i];
    }
  }

  function OneIfZero(n: int): int {
    if n == 0 then 1 else n
  }

  function DefaultApp(a: ApplicationConfig): ApplicationConfig {
    a.(replicas := OneIfZero(a.replicas), kind := if a.kind == Unset then Plain else a.kind)
  }

  ghost predicate DefaultedApps(before: seq<ApplicationConfig>, after: seq<ApplicationConfig>) {
    |after| == |before| && forall i :: 0 <= i < |before| ==> after[i] == DefaultApp(before[i])
  }

  ghost predicate DefaultedNamespace(before: NamespaceConfig, after: NamespaceConfig) {
    && after.name == before.name && after.replicas == OneIfZero(before.replicas)
    && DefaultedApps(before.applications, after.applications)
  }

  function NodesOrDefault(nodes: seq<NodeConfig>): seq<NodeConfig> {
    if nodes == [] then [NodeConfig("default", 1)] else nodes
  }

  ghost predicate Defaulted(before: Config, after: Config) {
    && after.nodes == NodesOrDefault(before.nodes) && after.stableNames == before.stableNames
    && |after.namespaces| == |before.namespaces|
    && forall i :: 0 <= i < |before.namespaces| ==> DefaultedNamespace(before.namespaces[i], after.namespaces[i])
  }

  /** A namespace as the program holds it, with its applications in a slice that copies of the configuration share. */
  datatype NamespaceSlice = NamespaceSlice(name: string, replicas: int, applications: array<ApplicationConfig>)

  ghost function Read(ns: NamespaceSlice): NamespaceConfig
    reads ns.applications
  {
    NamespaceConfig(ns.name, ns.replicas, ns.applications[..])
  }

  /**
    Writes the defaults through to the slices of namespaces and applications; only the list of nodes is
    replaced. Namespaces may share a slice: writing it twice changes nothing more.
   */
  method ApplyDefaults(nodes: seq<NodeConfig>, namespaces: array<NamespaceSlice>) returns (nodes': seq<NodeConfig>)
    modifies namespaces, set i | 0 <= i < namespaces.Length :: namespaces[i].applications
    ensures nodes' == NodesOrDefault(nodes)
    ensures forall i :: 0 <= i < namespaces.Length ==> namespaces[i].applications == old(namespaces[i].applications)
    ensures forall i :: 0 <= i < namespaces.Length ==> DefaultedNamespace(old(Read(namespaces[i])), Read(namespaces[i]))
  {
    nodes' := nodes;
    if |nodes'| == 0 {
      nodes' := [NodeConfig("default", 1)];
    }
    ghost var all := set i | 0 <= i < namespaces.Length :: namespaces[i].applications;
    ghost var done: set<array<ApplicationConfig>> := {};
    for n := 0 to namespaces.Length
      invariant done <= all
      invariant forall i :: 0 <= i < n ==> old(namespaces[i].applications) in done
      invariant forall i :: 0 <= i < n ==> namespaces[i] == old(namespaces[i]).(replicas := OneIfZero(old(namespaces[i]).replicas))
      invariant forall i :: n <= i < namespaces.Length ==> namespaces[i] == old(namespaces[i])
      invariant forall a :: a in all ==> Written(a[..], old(a[..]), a in done)
    {
      var ns := namespaces[n];
      if ns.replicas == 0 {
        ns := ns.(replicas := 1);
      }
      assert ns.applications in all;
      DefaultApplications(ns.applications);
      done := done + {ns.applications};
      namespaces[n] := ns;
    }
  }

  /** The contents of a slice: with the defaults, or as they were. */
  ghost predicate Written(now: seq<ApplicationConfig>, was: seq<ApplicationConfig>, done: bool) {
    if done then DefaultedApps(was, now) else now == was
  }

  method DefaultApplications(apps: array<ApplicationConfig>)
    modifies apps
    ensures DefaultedApps(old(apps[..]), apps[..])
  {
    for d := 0 to apps.Length
      invariant forall i :: 0 <= i < d ==> apps[i] == DefaultApp(old(apps[i]))
      invariant forall i :: d <= i < apps.Length ==> apps[i] == old(apps[i])
    {
      var dp := apps[d];
      if dp.replicas == 0 {
        dp := dp.(replicas := 1);
      }
      if dp.kind == Unset {
        dp := dp.(kind := Plain);
      }
      apps[d] := dp;
    }
  }

  /** Applying defaults twice changes nothing more. */
  lemma DefaultsOnce(c: Config, once: Config, twice: Config)
    requires Defaulted(c, once) && Defaulted(once, twice)
    ensures twice == once
  {
    forall i | 0 <= i < |once.namespaces| ensures twice.namespaces[i] == once.namespaces[i] {
      assert DefaultedApps(c.namespaces[i].applications, once.namespaces[i].applications);
      assert twice.namespaces[i].applications == once.namespaces[i].applications;
    }
    assert twice.namespaces == once.namespaces;
  }

  /** The defaults, item by item: what is zero, unset or missing is filled in, and everything given is kept. */
  lemma DefaultsFillIn(c: Config, after: Config, i: nat, j: nat)
    requires Defaulted(c, after) && i < |c.namespaces| && j < |c.namespaces[i].applications|
    ensures after.nodes == if |c.nodes| == 0 then [NodeConfig("default", 1)] else c.nodes
    ensures |after.namespaces| == |c.namespaces| && |after.namespaces[i].applications| == |c.namespaces[i].applications|
    ensures var ns, ns' := c.namespaces[i], after.namespaces[i];
      ns'.name == ns.name && ns'.replicas == if ns.replicas == 0 then 1 else ns.replicas
    ensures var a, a' := c.namespaces[i].applications[j], after.namespaces[i].applications[j];
      a' == ApplicationConfig(a.name, if a.kind == Unset then Plain else a.kind, if a.replicas == 0 then 1 else a.replicas, a.pods)
  {
    assert DefaultedApps(c.namespaces[i].applications, after.namespaces[i].applications);
  }

  /** Pods are counted as the product of pods, replicas and namespace replicas, and add up over applications and namespaces. */
  lemma PodsAddUp(namespaces: seq<NamespaceConfig>, name: string, replicas: int, apps: seq<ApplicationConfig>, a: ApplicationConfig)
    ensures PodTotal([]) == 0
    ensures PodTotal(namespaces + [NamespaceConfig(name, replicas, [])]) == PodTotal(namespaces)
    ensures PodTotal(namespaces + [NamespaceConfig(name, replicas, apps + [a])])
         == PodTotal(namespaces + [NamespaceConfig(name, replicas, apps)]) + a.pods * a.replicas * replicas
  {
    assert (apps + [a])[..|apps|] == apps;
    assert (namespaces + [NamespaceConfig(name, replicas, [])])[..|namespaces|] == namespaces;
    assert (namespaces + [NamespaceConfig(name, replicas, apps)])[..|namespaces|] == namespaces;
    assert (namespaces + [NamespaceConfig(name, replicas, apps + [a])])[..|namespaces|] == namespaces;
    Distributes(AppsTotal(apps), a.replicas, a.pods, replicas);
  }

  lemma Distributes(t: int, x: int, y: int, r: int)
    ensures (t + x * y) * r == t * r + y * x * r
  {
    assert (t + x * y) * r == t * r + (x * y) * r;
  }

  lemma NodesAddUp(nodes: seq<NodeConfig>, n: NodeConfig)
    ensures NodeTotal([]) == 0 && NodeTotal(nodes + [n]) == NodeTotal(nodes) + n.count
  {
    assert (nodes + [n])[..|nodes|] == nodes;
  }
}
