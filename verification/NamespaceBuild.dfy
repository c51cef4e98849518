/** Building one namespace: the applications of every place, their names, and the nodes their pods run on. */
module NamespaceBuild {
  import opened ClusterConfig
  import opened Expansion
  import opened StableNames

  /** A node, by its configuration's name and its number among all nodes, which stands for the random suffix. */
  datatype Node = Node(name: string, number: nat)

  /** An application of a namespace, with the node of each of its pods. */
  datatype Deployment = Deployment(name: string, kind: AppType, pods: seq<Node>)

  datatype Namespace = Namespace(name: string, deployments: seq<Deployment>)

  datatype Maybe<+T> = Panic | Just(value: T)

  function PodsIn(deployments: seq<Deployment>): nat {
    if deployments == [] then 0 else PodsIn(deployments[..|deployments| - 1]) + |deployments[|deployments| - 1].pods|
  }

  /** Every pod sits on one of the nodes. */
  ghost predicate Placed(deployments: seq<Deployment>, nodes: seq<Node>) {
    forall a, p :: a in deployments && p in a.pods ==> p in nodes
  }

  lemma PodsInMore(deployments: seq<Deployment>, a: Deployment)
    ensures PodsIn(deployments + [a]) == PodsIn(deployments) + |a.pods|
  {
    assert (deployments + [a])[..|deployments|] == deployments;
  }

  lemma PlacedMore(deployments: seq<Deployment>, a: Deployment, nodes: seq<Node>)
    requires Placed(deployments, nodes) && forall p :: p in a.pods ==> p in nodes
    ensures Placed(deployments + [a], nodes)
  {
  }

  /** Any node. */
  method SelectNode(nodes: seq<Node>) returns (n: Node)
    requires nodes != []
    ensures n in nodes
  {
    var i :| 0 <= i < |nodes|;
    n := nodes[i];
  }

  method NewApplication(name: string, c: ApplicationConfig, nodes: seq<Node>) returns (r: Maybe<Deployment>)
    ensures r.Just? <==> nodes != [] || AppPods(c) == 0
    ensures r.Just? ==> r.value.name == name && r.value.kind == c.kind
    ensures r.Just? ==> |r.value.pods| == AppPods(c) && forall p :: p in r.value.pods ==> p in nodes
  {
    var pods: seq<Node> := [];
    if c.kind == External || c.kind == VM {
      return Just(Deployment(name, c.kind, pods));
    }
    var i := 0;
    while i < c.pods
      invariant i == |pods| && (i <= c.pods || i == 0)
      invariant (forall p :: p in pods ==> p in nodes) && (i > 0 ==> nodes != [])
    {
      if nodes == [] {
        return Panic;
      }
      var node := SelectNode(nodes);
      pods := pods + [node];
      i := i + 1;
    }
    r := Just(Deployment(name, c.kind, pods));
  }

  ghost function AppCounts(apps: seq<ApplicationConfig>): seq<int> {
    seq(|apps|, i requires 0 <= i < |apps| => apps[i].replicas)
  }

  /** An application made for a place. */
  ghost predicate AppFor(a: Deployment, place: Place, apps: seq<ApplicationConfig>, stableNames: bool) {
    && place.0 < |apps| && a.kind == apps[place.0].kind && |a.pods| == AppPods(apps[place.0])
    && (stableNames || a.kind == Waypoint ==> a.name == AppName(apps[place.0].name, a.kind == Waypoint, place.0, place.1))
  }

  ghost predicate AppsFor(deployments: seq<Deployment>, places: seq<Place>, apps: seq<ApplicationConfig>, stableNames: bool) {
    && |deployments| == |places|
    && forall i :: 0 <= i < |places| ==> AppFor(deployments[i], places[i], apps, stableNames)
  }

  lemma AppsForMore(deployments: seq<Deployment>, a: Deployment, before: seq<Place>, apps: seq<ApplicationConfig>, stableNames: bool, index: nat, n: nat)
    requires AppsFor(deployments, before + Row(index, n), apps, stableNames) && AppFor(a, (index, n), apps, stableNames)
    ensures AppsFor(deployments + [a], before + Row(index, n + 1), apps, stableNames)
  {
    RowMore(index, n);
    assert before + Row(index, n + 1) == before + Row(index, n) + [(index, n)];
  }

  /** One replica of an application of a namespace. */
  method NewReplica(idx: nat, n: nat, apps: seq<ApplicationConfig>, stableNames: bool, nodes: seq<Node>, before: seq<Deployment>, ghost places: seq<Place>)
    returns (r: Maybe<seq<Deployment>>)
    requires idx < |apps| && Placed(before, nodes) && AppsFor(before, places + Row(idx, n), apps, stableNames)
    ensures r.Just? <==> nodes != [] || AppPods(apps[idx]) == 0
    ensures r.Just? ==> Placed(r.value, nodes) && AppsFor(r.value, places + Row(idx, n + 1), apps, stableNames)
    ensures r.Just? ==> PodsIn(r.value) == PodsIn(before) + AppPods(apps[idx])
  {
    var d := apps[idx];
    var suffix: string := *;
    if stableNames {
      suffix := StableIdentifier(idx, n);
    }
    if d.kind == Waypoint {
      suffix := "static";
    }
    var name := StringDefault(d.name, "app") + "-" + suffix;
    var made := NewApplication(name, d, nodes);
    if made == Panic {
      return Panic;
    }
    PodsInMore(before, made.value);
    PlacedMore(before, made.value, nodes);
    AppsForMore(before, made.value, places, apps, stableNames, idx, n);
    r := Just(before + [made.value]);
  }

  /** The replicas of one application of a namespace. */
  method NewReplicas(idx: nat, apps: seq<ApplicationConfig>, stableNames: bool, nodes: seq<Node>, before: seq<Deployment>, ghost places: seq<Place>)
    returns (r: Maybe<seq<Deployment>>)
    requires idx < |apps| && Placed(before, nodes) && AppsFor(before, places, apps, stableNames)
    ensures r.Just? <==> nodes != [] || Times(apps[idx].replicas) * AppPods(apps[idx]) == 0
    ensures r.Just? ==> Placed(r.value, nodes) && AppsFor(r.value, places + Row(idx, Times(apps[idx].replicas)), apps, stableNames)
    ensures r.Just? ==> PodsIn(r.value) == PodsIn(before) + Times(apps[idx].replicas) * AppPods(apps[idx])
  {
    var deployments, d := before, apps[idx];
    ghost var each := AppPods(d);
    assert places + Row(idx, 0) == places;
    var n: nat := 0;
    while n < d.replicas
      invariant n == 0 || n <= d.replicas
      invariant Placed(deployments, nodes) && AppsFor(deployments, places + Row(idx, n), apps, stableNames)
      invariant PodsIn(deployments) == PodsIn(before) + n * each
      invariant n > 0 ==> nodes != [] || each == 0
    {
      var made := NewReplica(idx, n, apps, stableNames, nodes, deployments, places);
      if made == Panic {
        Positive(Times(d.replicas), each);
        return Panic;
      }
      OneMore(n, each);
      deployments := made.value;
      n := n + 1;
    }
    r := Just(deployments);
  }

  /** What a namespace made from a list of applications holds. */
  ghost predicate NamespaceFor(ns: Namespace, apps: seq<ApplicationConfig>, stableNames: bool, nodes: seq<Node>) {
    && AppsFor(ns.deployments, Places(AppCounts(apps), |apps|), apps, stableNames)
    && Placed(ns.deployments, nodes)
  }

  /** All deployments of a namespace, in the order of its applications. */
  method NewNamespace(name: string, apps: seq<ApplicationConfig>, stableNames: bool, nodes: seq<Node>) returns (r: Maybe<Namespace>)
    ensures r.Just? <==> nodes != [] || AppsBuilt(apps) == 0
    ensures r.Just? ==> r.value.name == name && NamespaceFor(r.value, apps, stableNames, nodes)
    ensures r.Just? ==> PodsIn(r.value.deployments) == AppsBuilt(apps)
  {
    var deployments: seq<Deployment> := [];
    ghost var counts := AppCounts(apps);
    for idx := 0 to |apps|
      invariant Placed(deployments, nodes) && PodsIn(deployments) == AppsBuilt(apps[..idx])
      invariant nodes != [] || AppsBuilt(apps[..idx]) == 0
      invariant AppsFor(deployments, Places(counts, idx), apps, stableNames)
    {
      AppsStep(apps, idx);
      PlacesStep(counts, idx);
      var made := NewReplicas(idx, apps, stableNames, nodes, deployments, Places(counts, idx));
      if made == Panic {
        AppsBuiltAtLeast(apps, idx + 1);
        return Panic;
      }
      deployments := made.value;
    }
    assert apps[..|apps|] == apps;
    r := Just(Namespace(name, deployments));
  }

  /** Only two waypoints may share a name. */
  ghost predicate DistinctNames(deployments: seq<Deployment>) {
    forall i, j | 0 <= i < j < |deployments| && (deployments[i].kind != Waypoint || deployments[j].kind != Waypoint) ::
      deployments[i].name != deployments[j].name
  }

  /** In stable mode the applications of a namespace that are not waypoints have names of their own. */
  lemma StableNamesDistinct(ns: Namespace, apps: seq<ApplicationConfig>, nodes: seq<Node>)
    requires NamespaceFor(ns, apps, true, nodes)
    ensures DistinctNames(ns.deployments)
  {
    var deployments, places := ns.deployments, Places(AppCounts(apps), |apps|);
    PlacesAscend(AppCounts(apps), |apps|);
    forall i, j | 0 <= i < j < |deployments| && (deployments[i].kind != Waypoint || deployments[j].kind != Waypoint)
      ensures deployments[i].name != deployments[j].name
    {
      assert Precedes(places[i], places[j]);
      assert AppFor(deployments[i], places[i], apps, true) && AppFor(deployments[j], places[j], apps, true);
      DifferentPlaces(deployments[i], places[i], deployments[j], places[j], apps);
    }
  }

  lemma DifferentPlaces(a: Deployment, p: Place, b: Deployment, q: Place, apps: seq<ApplicationConfig>)
    requires AppFor(a, p, apps, true) && AppFor(b, q, apps, true) && p != q && (a.kind != Waypoint || b.kind != Waypoint)
    ensures a.name != b.name
  {
    if a.kind == Waypoint {
      NotAWaypointName(apps[q.0].name, q.0, q.1, apps[p.0].name, p.0, p.1);
    } else if b.kind == Waypoint {
      NotAWaypointName(apps[p.0].name, p.0, p.1, apps[q.0].name, q.0, q.1);
    } else if a.name == b.name {
      NamesDistinct(apps[p.0].name, p.0, p.1, apps[q.0].name, q.0, q.1);
    }
  }
}
