/** How the pods and nodes a configuration asks for relate to those that are built, and to the guard. */
module ClusterCapacity {
  import opened ClusterConfig

  predicate NonNegative(c: Config) {
    && (forall n :: n in c.nodes ==> n.count >= 0)
    && (forall ns :: ns in c.namespaces ==> ns.replicas >= 0 && NonNegativeApps(ns.applications))
  }

  predicate NonNegativeApps(apps: seq<ApplicationConfig>) {
    forall a :: a in apps ==> a.replicas >= 0 && a.pods >= 0
  }

  /** An application that asks for pods and gets none. */
  predicate Podless(a: ApplicationConfig) {
    (a.kind == External || a.kind == VM) && a.replicas * a.pods != 0
  }

  lemma Scaled(n: nat, small: int, large: int)
    requires small <= large
    ensures n * small <= n * large
    ensures n * small == n * large <==> n == 0 || small == large
  {
  }

  lemma {:induction false} AppsBounded(apps: seq<ApplicationConfig>)
    requires NonNegativeApps(apps)
    ensures AppsBuilt(apps) <= AppsTotal(apps)
    ensures AppsBuilt(apps) == AppsTotal(apps) <==> forall a :: a in apps ==> !Podless(a)
  {
    if apps != [] {
      var front, last := apps[..|apps| - 1], apps[|apps| - 1];
      assert apps == front + [last];
      assert NonNegativeApps(front) && last in apps;
      AppsBounded(front);
      Scaled(last.replicas, AppPods(last), last.pods);
      assert (forall a :: a in apps ==> !Podless(a)) <==> !Podless(last) && forall a :: a in front ==> !Podless(a);
    }
  }

  /** A namespace that is built and misses pods. */
  predicate Short(ns: NamespaceConfig) {
    ns.replicas > 0 && exists a :: a in ns.applications && Podless(a)
  }

  lemma ShortSplit(namespaces: seq<NamespaceConfig>, front: seq<NamespaceConfig>, last: NamespaceConfig)
    requires namespaces == front + [last]
    ensures (forall ns :: ns in namespaces ==> !Short(ns)) <==> !Short(last) && forall ns :: ns in front ==> !Short(ns)
  {
  }

  lemma NamespaceBounded(ns: NamespaceConfig)
    requires ns.replicas >= 0 && NonNegativeApps(ns.applications)
    ensures ns.replicas * AppsBuilt(ns.applications) <= AppsTotal(ns.applications) * ns.replicas
    ensures ns.replicas * AppsBuilt(ns.applications) == AppsTotal(ns.applications) * ns.replicas <==> !Short(ns)
  {
    AppsBounded(ns.applications);
    Scaled(ns.replicas, AppsBuilt(ns.applications), AppsTotal(ns.applications));
  }

  /** At most the configured pods are built; all of them exactly when no application outside the mesh asks for one. */
  lemma {:induction false} PodsBounded(namespaces: seq<NamespaceConfig>)
    requires forall ns :: ns in namespaces ==> ns.replicas >= 0 && NonNegativeApps(ns.applications)
    ensures PodsBuilt(namespaces) <= PodTotal(namespaces)
    ensures PodsBuilt(namespaces) == PodTotal(namespaces) <==> forall ns :: ns in namespaces ==> !Short(ns)
  {
    if namespaces != [] {
      var front, last := namespaces[..|namespaces| - 1], namespaces[|namespaces| - 1];
      assert namespaces == front + [last];
      assert last in namespaces;
      PodsBounded(front);
      NamespaceBounded(last);
      ShortSplit(namespaces, front, last);
    }
  }

  lemma {:induction false} NodesExact(nodes: seq<NodeConfig>)
    requires forall n :: n in nodes ==> n.count >= 0
    ensures NodesBuilt(nodes) == NodeTotal(nodes)
  {
    if nodes != [] {
      assert nodes[|nodes| - 1] in nodes;
      NodesExact(nodes[..|nodes| - 1]);
    }
  }

  /** The guard as a bound on pods, for every configuration. */
  lemma GuardBound(c: Config)
    ensures NodeTotal(c.nodes) >= 0 ==> (Passes(c) <==> PodTotal(c.namespaces) < 255 * (NodeTotal(c.nodes) + 1))
    ensures NodeTotal(c.nodes) < 0 ==> (Passes(c) <==> PodTotal(c.namespaces) <= 255 * NodeTotal(c.nodes))
  {
  }

  /** What NewCluster builds from a non-negative configuration that passes the guard. */
  lemma Capacity(c: Config)
    requires NonNegative(c) && Passes(c)
    ensures NodesBuilt(c.nodes) == NodeTotal(c.nodes)
    ensures PodsBuilt(c.namespaces) <= PodTotal(c.namespaces) < 255 * (NodeTotal(c.nodes) + 1)
    ensures PodsBuilt(c.namespaces) == PodTotal(c.namespaces) <==> forall ns :: ns in c.namespaces ==> !Short(ns)
  {
    NodesExact(c.nodes);
    PodsBounded(c.namespaces);
    GuardBound(c);
  }

  lemma {:induction false} NoNodesBuilt(nodes: seq<NodeConfig>)
    ensures NodesBuilt(nodes) == 0 <==> forall n :: n in nodes ==> n.count <= 0
  {
    if nodes != [] {
      NoNodesBuilt(nodes[..|nodes| - 1]);
      assert nodes == nodes[..|nodes| - 1] + [nodes[|nodes| - 1]];
    }
  }

  /** With defaults applied, a cluster has no node exactly when nodes were configured, none with a positive count. */
  lemma DefaultNodes(c: Config, after: Config)
    requires Defaulted(c, after)
    ensures NodesBuilt(after.nodes) == 0 <==> c.nodes != [] && forall n :: n in c.nodes ==> n.count <= 0
  {
    NoNodesBuilt(after.nodes);
    if c.nodes == [] {
      assert after.nodes[0] in after.nodes;
    }
  }

  /**
    The guard lets up to 254 pods pass without any node, and placing them then fails. Defaults do not prevent
    it: an entry for nodes whose count is left out is kept and makes none.
   */
  lemma PodsWithoutNodes(pods: int)
    requires 0 < pods < 255
    ensures var c := Config([NamespaceConfig("", 1, [ApplicationConfig("", Plain, 1, pods)])], [NodeConfig("", 0)], true);
      Defaulted(c, c) && Passes(c) && NodesBuilt(c.nodes) == 0 && PodsBuilt(c.namespaces) == pods
  {
    var a, n := ApplicationConfig("", Plain, 1, pods), NodeConfig("", 0);
    assert AppsBuilt([a]) == pods by { assert [a][..0] == []; }
    assert AppsTotal([a]) == pods by { assert [a][..0] == []; }
    assert NodesBuilt([n]) == 0 by { assert [n][..0] == []; }
    assert NodeTotal([n]) == 0 by { assert [n][..0] == []; }
    var ns := NamespaceConfig("", 1, [a]);
    assert [ns][..0] == [];
  }
}
