/** When the namespaces of a cluster all have names of their own, in terms of the configuration. */
module NamespaceNames {
  import opened ClusterConfig
  import opened Expansion
  import opened NamespaceBuild
  import opened ClusterBuild
  import opened StableNames

  function Base(c: NamespaceConfig): string {
    StringDefault(c.name, "namespace")
  }

  /** The name made for a place. */
  function NameAt(configs: seq<NamespaceConfig>, p: Place): string
    requires p.0 < |configs|
  {
    NamespaceName(configs[p.0], p.0, p.1)
  }

  predicate IdentifierOf(configs: seq<NamespaceConfig>, name: string, j: nat, r: nat) {
    j < |configs| && 1 < configs[j].replicas && r < configs[j].replicas && name == NameAt(configs, (j, r))
  }

  /** Namespaces that are not replicated have base names of their own, none of which spells out the name of a replica. */
  ghost predicate NamesApart(configs: seq<NamespaceConfig>) {
    && (forall i, j | 0 <= i < j < |configs| && configs[i].replicas == 1 && configs[j].replicas == 1 ::
         Base(configs[i]) != Base(configs[j]))
    && (forall i: nat, j, r | i < |configs| && configs[i].replicas == 1 :: !IdentifierOf(configs, Base(configs[i]), j, r))
  }

  ghost predicate AllDistinct(built: seq<Namespace>) {
    forall i, j :: 0 <= i < j < |built| ==> built[i].name != built[j].name
  }

  lemma ApartAtPlaces(configs: seq<NamespaceConfig>, p: Place, q: Place)
    requires NamesApart(configs) && Precedes(p, q)
    requires p.0 < |configs| && p.1 < configs[p.0].replicas && q.0 < |configs| && q.1 < configs[q.0].replicas
    ensures NameAt(configs, p) != NameAt(configs, q)
  {
    if configs[p.0].replicas > 1 && configs[q.0].replicas > 1 {
      IdentifiedNames(Base(configs[p.0]), p, Base(configs[q.0]), q);
    } else if configs[p.0].replicas > 1 {
      assert !IdentifierOf(configs, Base(configs[q.0]), p.0, p.1);
    } else if configs[q.0].replicas > 1 {
      assert !IdentifierOf(configs, Base(configs[p.0]), q.0, q.1);
    }
  }

  /** Two places with one name are two namespaces with one name. */
  lemma SameNameTwice(built: seq<Namespace>, c: Config, nodes: seq<Node>, p: Place, q: Place)
    requires c.stableNames && NamespacesFor(built, Places(NamespaceCounts(c.namespaces), |c.namespaces|), c, nodes)
    requires p != q && p.0 < |c.namespaces| && q.0 < |c.namespaces|
    requires p.1 < c.namespaces[p.0].replicas && q.1 < c.namespaces[q.0].replicas
    requires NameAt(c.namespaces, p) == NameAt(c.namespaces, q)
    ensures !AllDistinct(built)
  {
    var counts := NamespaceCounts(c.namespaces);
    var places := Places(counts, |counts|);
    EveryPlace(counts, |counts|, p.0, p.1);
    EveryPlace(counts, |counts|, q.0, q.1);
    var i :| 0 <= i < |places| && places[i] == p;
    var j :| 0 <= j < |places| && places[j] == q;
    assert NamespaceAt(built[i], p, c, nodes) && NamespaceAt(built[j], q, c, nodes);
    assert built[i].name == built[j].name && i != j;
    assert i < j || j < i;
  }

  /** In stable mode all namespaces have different names exactly when the configured names are apart. */
  lemma NamespacesDistinctExactly(built: seq<Namespace>, c: Config, nodes: seq<Node>)
    requires c.stableNames && NamespacesFor(built, Places(NamespaceCounts(c.namespaces), |c.namespaces|), c, nodes)
    ensures AllDistinct(built) <==> NamesApart(c.namespaces)
  {
    var configs, places := c.namespaces, Places(NamespaceCounts(c.namespaces), |c.namespaces|);
    if NamesApart(configs) {
      PlacesAscend(NamespaceCounts(configs), |configs|);
      forall i, j | 0 <= i < j < |built| ensures built[i].name != built[j].name {
        assert Precedes(places[i], places[j]) && places[i] in places && places[j] in places;
        assert NamespaceAt(built[i], places[i], c, nodes) && NamespaceAt(built[j], places[j], c, nodes);
        ApartAtPlaces(configs, places[i], places[j]);
      }
    } else if i, j :| 0 <= i < j < |configs| && configs[i].replicas == 1 && configs[j].replicas == 1 && Base(configs[i]) == Base(configs[j]) {
      SameNameTwice(built, c, nodes, (i, 0), (j, 0));
    } else {
      var i: nat, j, r :| i < |configs| && configs[i].replicas == 1 && IdentifierOf(configs, Base(configs[i]), j, r);
      SameNameTwice(built, c, nodes, (i, 0), (j, r));
    }
  }

  /** The first replica of a replicated namespace and a single namespace that spells out its name. */
  lemma SpelledOutNameCollides(apps: seq<ApplicationConfig>)
    ensures !NamesApart([NamespaceConfig("a", 2, apps), NamespaceConfig("a-0-0", 1, apps)])
  {
    var configs := [NamespaceConfig("a", 2, apps), NamespaceConfig("a-0-0", 1, apps)];
    assert StableIdentifier(0, 0) == "0-0";
    assert NameAt(configs, (0, 0)) == "a-0-0";
    assert IdentifierOf(configs, Base(configs[1]), 0, 0);
  }

  /** A namespace that is not replicated has its configured name, or namespace; a replica has index and number added. */
  lemma NamespaceSpelled(c: NamespaceConfig, index: nat, r: nat) returns (d: string, e: string)
    ensures Spells(d, index) && Spells(e, r)
    ensures NamespaceName(c, index, r)
         == (if c.name == "" then "namespace" else c.name) + if c.replicas > 1 then "-" + d + "-" + e else ""
  {
    d, e := Decimal(index), Decimal(r);
    DecimalSpells(index);
    DecimalSpells(r);
    var b := StringDefault(c.name, "namespace");
    assert b + "-" + (d + "-" + e) == b + ("-" + d + "-" + e) && b + "" == b;
  }
}
