/** Building a cluster from its configuration: the guard, the nodes, and the namespaces. */
module ClusterBuild {
  import opened ClusterConfig
  import opened Expansion
  import opened NamespaceBuild
  import opened StableNames

  /** Refused: fewer nodes than the pods need. NoNode: a pod was to be placed and there is no node, where the source panics. */
  datatype Outcome = Refused | NoNode | Built(nodes: seq<Node>, namespaces: seq<Namespace>)

  function PodsOf(namespaces: seq<Namespace>): nat {
    if namespaces == [] then 0 else PodsOf(namespaces[..|namespaces| - 1]) + PodsIn(namespaces[|namespaces| - 1].deployments)
  }

  lemma PodsOfMore(namespaces: seq<Namespace>, ns: Namespace)
    ensures PodsOf(namespaces + [ns]) == PodsOf(namespaces) + PodsIn(ns.deployments)
  {
    assert (namespaces + [ns])[..|namespaces|] == namespaces;
  }

  ghost function NamespaceCounts(namespaces: seq<NamespaceConfig>): seq<int> {
    seq(|namespaces|, i requires 0 <= i < |namespaces| => namespaces[i].replicas)
  }

  ghost function NodeCounts(nodes: seq<NodeConfig>): seq<int> {
    seq(|nodes|, i requires 0 <= i < |nodes| => nodes[i].count)
  }

  ghost predicate NodesFor(nodes: seq<Node>, places: seq<Place>, configs: seq<NodeConfig>) {
    && |nodes| == |places|
    && forall i :: 0 <= i < |nodes| ==> places[i].0 < |configs| && nodes[i] == Node(configs[places[i].0].name, i)
  }

  lemma NodesForMore(nodes: seq<Node>, before: seq<Place>, configs: seq<NodeConfig>, index: nat, n: nat)
    requires index < |configs| && NodesFor(nodes, before + Row(index, n), configs)
    ensures NodesFor(nodes + [Node(configs[index].name, |nodes|)], before + Row(index, n + 1), configs)
  {
    RowMore(index, n);
    assert before + Row(index, n + 1) == before + Row(index, n) + [(index, n)];
  }

  method NewNodes(configs: seq<NodeConfig>) returns (nodes: seq<Node>)
    ensures NodesFor(nodes, Places(NodeCounts(configs), |configs|), configs)
    ensures |nodes| == NodesBuilt(configs)
  {
    nodes := [];
    for i := 0 to |configs|
      invariant NodesFor(nodes, Places(NodeCounts(configs), i), configs)
      invariant |nodes| == NodesBuilt(configs[..i])
    {
      ghost var places := Places(NodeCounts(configs), i);
      RowMore(i, 0);
      var r: nat := 0;
      while r < configs[i].count
        invariant r == 0 || r <= configs[i].count
        invariant NodesFor(nodes, places + Row(i, r), configs)
        invariant |nodes| == NodesBuilt(configs[..i]) + r
      {
        NodesForMore(nodes, places, configs, i, r);
        nodes := nodes + [Node(configs[i].name, |nodes|)];
        r := r + 1;
      }
      assert configs[..i + 1][..i] == configs[..i];
    }
    assert configs[..|configs|] == configs;
  }

  /** A configuration that is replicated gets an identifier in its name, others keep their name. */
  function NamespaceName(c: NamespaceConfig, index: nat, r: nat): string {
    if c.replicas > 1 then StringDefault(c.name, "namespace") + "-" + StableIdentifier(index, r) else StringDefault(c.name, "namespace")
  }

  ghost predicate NamespaceAt(ns: Namespace, place: Place, c: Config, nodes: seq<Node>) {
    && place.0 < |c.namespaces|
    && NamespaceFor(ns, c.namespaces[place.0].applications, c.stableNames, nodes)
    && (c.stableNames || c.namespaces[place.0].replicas <= 1 ==> ns.name == NamespaceName(c.namespaces[place.0], place.0, place.1))
  }

  ghost predicate NamespacesFor(built: seq<Namespace>, places: seq<Place>, c: Config, nodes: seq<Node>) {
    && |built| == |places|
    && forall i :: 0 <= i < |places| ==> NamespaceAt(built[i], places[i], c, nodes)
  }

  lemma NamespacesForMore(built: seq<Namespace>, ns: Namespace, before: seq<Place>, c: Config, nodes: seq<Node>, index: nat, n: nat)
    requires NamespacesFor(built, before + Row(index, n), c, nodes) && NamespaceAt(ns, (index, n), c, nodes)
    ensures NamespacesFor(built + [ns], before + Row(index, n + 1), c, nodes)
  {
    RowMore(index, n);
    assert before + Row(index, n + 1) == before + Row(index, n) + [(index, n)];
  }

  /** One replica of a namespace. */
  method NewNamespaceAt(nsId: nat, n: nat, c: Config, nodes: seq<Node>, before: seq<Namespace>, ghost places: seq<Place>, ghost each: nat)
    returns (r: Maybe<seq<Namespace>>)
    requires nsId < |c.namespaces| && NamespacesFor(before, places + Row(nsId, n), c, nodes)
    requires each == AppsBuilt(c.namespaces[nsId].applications)
    ensures r.Just? <==> nodes != [] || each == 0
    ensures r.Just? ==> NamespacesFor(r.value, places + Row(nsId, n + 1), c, nodes)
    ensures r.Just? ==> PodsOf(r.value) == PodsOf(before) + each
  {
    var ns := c.namespaces[nsId];
    var name := StringDefault(ns.name, "namespace");
    if ns.replicas > 1 {
      var id: string := *;
      if c.stableNames {
        id := StableIdentifier(nsId, n);
      }
      name := name + "-" + id;
    }
    var made := NewNamespace(name, ns.applications, c.stableNames, nodes);
    if made == Panic {
      return Panic;
    }
    PodsOfMore(before, made.value);
    NamespacesForMore(before, made.value, places, c, nodes, nsId, n);
    r := Just(before + [made.value]);
  }

  /** The replicas of one namespace. */
  method NewNamespaces(nsId: nat, c: Config, nodes: seq<Node>, before: seq<Namespace>, ghost places: seq<Place>) returns (r: Maybe<seq<Namespace>>)
    requires nsId < |c.namespaces| && NamespacesFor(before, places, c, nodes)
    ensures r.Just? <==> nodes != [] || Times(c.namespaces[nsId].replicas) * AppsBuilt(c.namespaces[nsId].applications) == 0
    ensures r.Just? ==> NamespacesFor(r.value, places + Row(nsId, Times(c.namespaces[nsId].replicas)), c, nodes)
    ensures r.Just? ==> PodsOf(r.value) == PodsOf(before) + Times(c.namespaces[nsId].replicas) * AppsBuilt(c.namespaces[nsId].applications)
  {
    var built, ns := before, c.namespaces[nsId];
    ghost var each := AppsBuilt(ns.applications);
    assert places + Row(nsId, 0) == places;
    var n: nat := 0;
    while n < ns.replicas
      invariant n == 0 || n <= ns.replicas
      invariant NamespacesFor(built, places + Row(nsId, n), c, nodes)
      invariant PodsOf(built) == PodsOf(before) + n * each
      invariant n > 0 ==> nodes != [] || each == 0
    {
      var made := NewNamespaceAt(nsId, n, c, nodes, built, places, each);
      if made == Panic {
        Positive(Times(ns.replicas), each);
        return Panic;
      }
      OneMore(n, each);
      built := made.value;
      n := n + 1;
    }
    r := Just(built);
  }

  /** The namespaces of a cluster, in the order of the configuration. */
  method NewAllNamespaces(c: Config, nodes: seq<Node>) returns (r: Maybe<seq<Namespace>>)
    ensures r.Just? <==> nodes != [] || PodsBuilt(c.namespaces) == 0
    ensures r.Just? ==> NamespacesFor(r.value, Places(NamespaceCounts(c.namespaces), |c.namespaces|), c, nodes)
    ensures r.Just? ==> PodsOf(r.value) == PodsBuilt(c.namespaces)
  {
    var namespaces: seq<Namespace> := [];
    ghost var counts := NamespaceCounts(c.namespaces);
    for nsId := 0 to |c.namespaces|
      invariant NamespacesFor(namespaces, Places(counts, nsId), c, nodes)
      invariant PodsOf(namespaces) == PodsBuilt(c.namespaces[..nsId])
      invariant nodes != [] || PodsBuilt(c.namespaces[..nsId]) == 0
    {
      NamespacesStep(c.namespaces, nsId);
      var made := NewNamespaces(nsId, c, nodes, namespaces, Places(counts, nsId));
      if made == Panic {
        PodsBuiltAtLeast(c.namespaces, nsId + 1);
        return Panic;
      }
      PlacesStep(counts, nsId);
      namespaces := made.value;
    }
    assert c.namespaces[..|c.namespaces|] == c.namespaces;
    r := Just(namespaces);
  }

  method NewCluster(c: Config) returns (o: Outcome)
    ensures o == Refused <==> !Passes(c)
    ensures o == NoNode <==> Passes(c) && NodesBuilt(c.nodes) == 0 && PodsBuilt(c.namespaces) > 0
    ensures o.Built? ==> NodesFor(o.nodes, Places(NodeCounts(c.nodes), |c.nodes|), c.nodes)
    ensures o.Built? ==> NamespacesFor(o.namespaces, Places(NamespaceCounts(c.namespaces), |c.namespaces|), c, o.nodes)
    ensures o.Built? ==> |o.nodes| == NodesBuilt(c.nodes) && PodsOf(o.namespaces) == PodsBuilt(c.namespaces)
  {
    var podCount := PodCount(c);
    var nodeCount := NodeCount(c);
    if nodeCount < Quotient(podCount, 255) {
      return Refused;
    }
    var nodes := NewNodes(c.nodes);
    var namespaces := NewAllNamespaces(c, nodes);
    if namespaces == Panic {
      return NoNode;
    }
    o := Built(nodes, namespaces.value);
  }

  /** And the replicas of replicated namespaces have names of their own. */
  lemma ReplicatedNamespacesDistinct(built: seq<Namespace>, c: Config, nodes: seq<Node>, i: nat, j: nat)
    requires c.stableNames && i < j < |built|
    requires NamespacesFor(built, Places(NamespaceCounts(c.namespaces), |c.namespaces|), c, nodes)
    requires var places := Places(NamespaceCounts(c.namespaces), |c.namespaces|);
      c.namespaces[places[i].0].replicas > 1 && c.namespaces[places[j].0].replicas > 1
    ensures built[i].name != built[j].name
  {
    var places := Places(NamespaceCounts(c.namespaces), |c.namespaces|);
    PlacesAscend(NamespaceCounts(c.namespaces), |c.namespaces|);
    var p, q := places[i], places[j];
    assert Precedes(p, q);
    assert NamespaceAt(built[i], p, c, nodes) && NamespaceAt(built[j], q, c, nodes);
    IdentifiedNames(StringDefault(c.namespaces[p.0].name, "namespace"), p, StringDefault(c.namespaces[q.0].name, "namespace"), q);
  }

  lemma IdentifiedNames(base: string, p: Place, base': string, q: Place)
    requires base != "" && base' != "" && p != q
    ensures base + "-" + StableIdentifier(p.0, p.1) != base' + "-" + StableIdentifier(q.0, q.1)
  {
    if base + "-" + StableIdentifier(p.0, p.1) == base' + "-" + StableIdentifier(q.0, q.1) {
      assert AppName(base, false, p.0, p.1) == AppName(base', false, q.0, q.1);
      NamesDistinct(base, p.0, p.1, base', q.0, q.1);
    }
  }
}
