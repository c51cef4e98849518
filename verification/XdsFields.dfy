/** What both clients look for in clusters and listeners, in terms of the messages' own fields. */
module XdsFields {
  import opened Xds
  import opened DeltaGraph
  import opened DeltaSpec

  /** A chain of a listener: one of its list, or the default one. */
  predicate ChainOf(l: Listener, fc: FilterChain) {
    fc in l.filterChains || l.defaultChain == Some(fc)
  }

  lemma ChainsOfListener(l: Listener, fc: FilterChain)
    ensures fc in FilterChains(l) <==> ChainOf(l, fc)
  {
  }

  /** A connection manager of the listener names this route configuration. */
  ghost predicate NamesRoute(l: Listener, x: string) {
    x != "" && exists fc, f :: ChainOf(l, fc) && f in fc.filters && f.ConnectionManager? && f.rdsName == x
  }

  lemma {:induction false} RoutesOfFilters(fs: seq<Filter>, x: string)
    ensures x in FilterRoutes(fs) <==> x != "" && exists f :: f in fs && f.ConnectionManager? && f.rdsName == x
  {
    if fs != [] {
      var front, last := fs[..|fs| - 1], fs[|fs| - 1];
      assert fs == front + [last];
      RoutesOfFilters(front, x);
    }
  }

  lemma {:induction false} RoutesOfChains(chains: seq<FilterChain>, x: string)
    ensures x in ChainRoutes(chains) <==> exists fc :: fc in chains && x in FilterRoutes(fc.filters)
  {
    if chains != [] {
      var front, last := chains[..|chains| - 1], chains[|chains| - 1];
      assert chains == front + [last];
      RoutesOfChains(front, x);
    }
  }

  /** The routes a listener is read for are those its connection managers name, in all chains with the default one. */
  lemma RoutesOfListener(l: Listener, x: string)
    ensures x in ListenerRoutes(l) <==> NamesRoute(l, x)
  {
    RoutesOfChains(FilterChains(l), x);
    forall fc ensures fc in FilterChains(l) <==> ChainOf(l, fc) {
      ChainsOfListener(l, fc);
    }
    if x in ListenerRoutes(l) {
      var fc :| fc in FilterChains(l) && x in FilterRoutes(fc.filters);
      RoutesOfFilters(fc.filters, x);
    }
    if NamesRoute(l, x) {
      var fc, f :| ChainOf(l, fc) && f in fc.filters && f.ConnectionManager? && f.rdsName == x;
      RoutesOfFilters(fc.filters, x);
    }
  }

  /** And they come in the order of chains and filters, as often as they are named: a listener without chains has none. */
  lemma NoChains(name: string)
    ensures ListenerRoutes(Listener(name, [], None)) == []
  {
    assert FilterChains(Listener(name, [], None)) == [];
  }

  /** A chain without filters adds nothing. */
  lemma EmptyChain(name: string, chains: seq<FilterChain>, socket: Option<TransportSocket>)
    ensures ListenerRoutes(Listener(name, chains + [FilterChain([], socket)], None)) == ListenerRoutes(Listener(name, chains, None))
  {
    OneMoreChain(name, chains, FilterChain([], socket));
  }

  /** One more filter at the end of the last chain adds its route or nothing. */
  lemma RoutesInOrder(name: string, chains: seq<FilterChain>, fs: seq<Filter>, f: Filter, socket: Option<TransportSocket>)
    ensures ListenerRoutes(Listener(name, chains + [FilterChain(fs + [f], socket)], None))
         == ListenerRoutes(Listener(name, chains + [FilterChain(fs, socket)], None))
          + if f.ConnectionManager? && f.rdsName != "" then [f.rdsName] else []
  {
    var before := ListenerRoutes(Listener(name, chains, None));
    OneMoreChain(name, chains, FilterChain(fs, socket));
    OneMoreChain(name, chains, FilterChain(fs + [f], socket));
    OneMoreFilter(fs, f);
    Associates(before, FilterRoutes(fs), if f.ConnectionManager? && f.rdsName != "" then [f.rdsName] else []);
  }

  lemma Associates(a: seq<string>, b: seq<string>, c: seq<string>)
    ensures a + (b + c) == a + b + c
  {
  }

  lemma OneMoreFilter(fs: seq<Filter>, f: Filter)
    ensures FilterRoutes(fs + [f]) == FilterRoutes(fs) + if f.ConnectionManager? && f.rdsName != "" then [f.rdsName] else []
  {
    assert (fs + [f])[..|fs|] == fs;
  }

  lemma OneMoreChain(name: string, chains: seq<FilterChain>, fc: FilterChain)
    ensures ListenerRoutes(Listener(name, chains + [fc], None)) == ListenerRoutes(Listener(name, chains, None)) + FilterRoutes(fc.filters)
  {
    assert FilterChains(Listener(name, chains + [fc], None)) == chains + [fc];
    assert FilterChains(Listener(name, chains, None)) == chains;
    assert (chains + [fc])[..|chains|] == chains;
  }

  /** The default chain counts as one more, the last. */
  lemma DefaultChainIsLast(name: string, chains: seq<FilterChain>, fc: FilterChain)
    ensures ListenerRoutes(Listener(name, chains, Some(fc))) == ListenerRoutes(Listener(name, chains + [fc], None))
  {
    assert FilterChains(Listener(name, chains, Some(fc))) == chains + [fc];
    assert FilterChains(Listener(name, chains + [fc], None)) == chains + [fc];
  }

  // ----- what the delta client refers to -----

  /** A cluster refers to its endpoint unless it declares a discovery type other than EDS. */
  lemma ReferencesOfCluster(name: string, c: Cluster)
    ensures References(Resource(name, ClusterBody(c))) == if c.discovery == OtherDiscoveryType then [] else [Key(EndpointType, c.name)]
  {
  }

  /** A listener refers to the routes it names, anything else to nothing. */
  lemma ReferencesOfListener(name: string, l: Listener, k: ResourceKey)
    ensures k in References(Resource(name, ListenerBody(l)))
       <==> k.typeUrl == RouteType && k.name.Interned? && NamesRoute(l, k.name.value)
    ensures References(Resource(name, OpaqueBody)) == []
  {
    var routes := ListenerRoutes(l);
    if k.name.Interned? {
      RoutesOfListener(l, k.name.value);
    }
    if k in RouteKeys(routes) {
      var i :| 0 <= i < |routes| && RouteKeys(routes)[i] == k;
      assert routes[i] in routes;
    }
    if k.name.Interned? && k.typeUrl == RouteType && k.name.value in routes {
      var i :| 0 <= i < |routes| && routes[i] == k.name.value;
      assert RouteKeys(routes)[i] == k;
    }
  }
}
