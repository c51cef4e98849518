/** What the state-of-the-world client wants, over every run, in terms of the fields of the resources it received. */
module AdsFields {
  import opened Xds
  import opened XdsFields
  import opened SortedStrings
  import opened AdsSpec
  import opened AdsRuns

  // ----- one response -----

  /** A cluster of this name that declares EDS or no discovery type. */
  predicate Counts(p: Packed, x: string) {
    p == PackedCluster(Cluster(x, Eds)) || p == PackedCluster(Cluster(x, CustomOrUnset))
  }

  /** Where a response has such clusters. */
  function ClustersNamed(ps: seq<Packed>, x: string): set<nat> {
    set i: nat | i < |ps| && Counts(ps[i], x)
  }

  lemma {:induction false} EdsNamesCount(ps: seq<Packed>, x: string)
    ensures multiset(EdsNames(ClustersIn(ps)))[x] == |ClustersNamed(ps, x)|
  {
    if ps == [] {
      assert ClustersNamed(ps, x) == {};
    } else {
      var front, last := ps[..|ps| - 1], ps[|ps| - 1];
      assert ps == front + [last];
      EdsNamesCount(front, x);
      ClustersNamedMore(front, last, x);
      EdsNamesMore(front, last, x);
    }
  }

  lemma ClustersNamedMore(front: seq<Packed>, p: Packed, x: string)
    ensures |ClustersNamed(front + [p], x)| == |ClustersNamed(front, x)| + if Counts(p, x) then 1 else 0
  {
    var n: nat := |front|;
    assert n !in ClustersNamed(front, x);
    assert ClustersNamed(front + [p], x) == ClustersNamed(front, x) + if Counts(p, x) then {n} else {};
  }

  lemma EdsNamesMore(front: seq<Packed>, p: Packed, x: string)
    ensures multiset(EdsNames(ClustersIn(front + [p])))[x] == multiset(EdsNames(ClustersIn(front)))[x] + if Counts(p, x) then 1 else 0
  {
    assert (front + [p])[..|front|] == front;
    var cs := ClustersIn(front);
    if p.PackedCluster? {
      assert ClustersIn(front + [p]) == cs + [p.cluster];
      assert (cs + [p.cluster])[..|cs|] == cs;
      assert Counts(p, x) <==> p.cluster.name == x && p.cluster.discovery != OtherDiscoveryType;
    } else {
      assert ClustersIn(front + [p]) == cs;
    }
  }

  lemma {:induction false} ListenersPacked(ps: seq<Packed>, l: Listener)
    ensures l in ListenersIn(ps) <==> PackedListener(l) in ps
  {
    if ps != [] {
      assert ps == ps[..|ps| - 1] + [ps[|ps| - 1]];
      ListenersPacked(ps[..|ps| - 1], l);
    }
  }

  /** A network filter fetched by config discovery has this name, or an HTTP filter of a connection manager does. */
  ghost predicate Discovers(ps: seq<Packed>, x: string) {
    exists l, fc, f :: PackedListener(l) in ps && ChainOf(l, fc) && f in fc.filters && Discovery(f, x)
  }

  predicate Discovery(f: Filter, x: string) {
    f == Discovered(x) || (f.ConnectionManager? && HttpFilter(x, true) in f.httpFilters)
  }

  lemma ExtensionsOfFilter(f: Filter, x: string)
    ensures x in FilterExtensions(f) <==> Discovery(f, x)
  {
    if f.ConnectionManager? {
      if x in DiscoveredIn(f.httpFilters) {
        var h :| h in f.httpFilters && h.configDiscovery && h.name == x;
        assert h == HttpFilter(x, true);
      }
      if HttpFilter(x, true) in f.httpFilters {
        assert HttpFilter(x, true).name == x;
      }
    }
  }

  lemma ExtensionsOfListener(l: Listener, x: string)
    ensures x in ChainsExtensions(FilterChains(l)) <==> exists fc, f :: ChainOf(l, fc) && f in fc.filters && Discovery(f, x)
  {
    if x in ChainsExtensions(FilterChains(l)) {
      var fc :| fc in FilterChains(l) && x in FiltersExtensions(fc.filters);
      var f :| f in fc.filters && x in FilterExtensions(f);
      ChainsOfListener(l, fc);
      ExtensionsOfFilter(f, x);
    }
    if fc, f :| ChainOf(l, fc) && f in fc.filters && Discovery(f, x) {
      ChainsOfListener(l, fc);
      ExtensionsOfFilter(f, x);
      assert x in FiltersExtensions(fc.filters);
    }
  }

  lemma ExtensionsOfResponse(ps: seq<Packed>, x: string)
    ensures x in ExtensionsOf(ListenersIn(ps)) <==> Discovers(ps, x)
  {
    if x in ExtensionsOf(ListenersIn(ps)) {
      var l :| l in ListenersIn(ps) && x in ChainsExtensions(FilterChains(l));
      ListenersPacked(ps, l);
      ExtensionsOfListener(l, x);
    }
    if Discovers(ps, x) {
      var l, fc, f :| PackedListener(l) in ps && ChainOf(l, fc) && f in fc.filters && Discovery(f, x);
      ListenersPacked(ps, l);
      ExtensionsOfListener(l, x);
    }
  }

  /** A transport socket of a chain names this secret, and it is not one that needs no fetching. */
  ghost predicate MentionsSecret(ps: seq<Packed>, x: string) {
    && x != "" && x != "ROOTCA" && x != "default"
    && exists l, fc :: PackedListener(l) in ps && ChainOf(l, fc) && fc.socket.Some?
         && (fc.socket.value.validationSecret == x || x in fc.socket.value.certificateSecrets)
  }

  lemma {:induction false} SocketsOfChains(chains: seq<FilterChain>, s: TransportSocket)
    ensures s in ChainsSockets(chains) <==> exists fc :: fc in chains && fc.socket == Some(s)
  {
    if chains != [] {
      assert chains == chains[..|chains| - 1] + [chains[|chains| - 1]];
      SocketsOfChains(chains[..|chains| - 1], s);
    }
  }

  lemma SocketsOfListener(l: Listener, s: TransportSocket)
    ensures s in ListenerSockets(l) <==> exists fc :: ChainOf(l, fc) && fc.socket == Some(s)
  {
    SocketsOfChains(FilterChains(l), s);
    forall fc ensures fc in FilterChains(l) <==> ChainOf(l, fc) {
      ChainsOfListener(l, fc);
    }
    if l.defaultChain.Some? {
      SocketsOfChains([l.defaultChain.value], s);
    }
  }

  lemma {:induction false} SocketsOfListeners(ls: seq<Listener>, s: TransportSocket)
    ensures s in SocketsOf(ls) <==> exists l :: l in ls && s in ListenerSockets(l)
  {
    if ls != [] {
      assert ls == ls[..|ls| - 1] + [ls[|ls| - 1]];
      SocketsOfListeners(ls[..|ls| - 1], s);
    }
  }

  lemma SecretsMentioned(ps: seq<Packed>, x: string)
    requires x in SecretsOf(ListenersIn(ps))
    ensures MentionsSecret(ps, x)
  {
    var ls := ListenersIn(ps);
    var s :| s in SocketsOf(ls) && x in SocketSecrets(s);
    SocketsOfListeners(ls, s);
    var l :| l in ls && s in ListenerSockets(l);
    SocketsOfListener(l, s);
    var fc :| ChainOf(l, fc) && fc.socket == Some(s);
    ListenersPacked(ps, l);
    SecretsOfSocket(s, x);
  }

  lemma SecretsOfSocket(s: TransportSocket, x: string)
    ensures x in SocketSecrets(s) <==> s.validationSecret == x || x in s.certificateSecrets
  {
  }

  lemma SecretsFetched(ps: seq<Packed>, l: Listener, fc: FilterChain, s: TransportSocket, x: string)
    requires PackedListener(l) in ps && ChainOf(l, fc) && fc.socket == Some(s)
    requires (s.validationSecret == x || x in s.certificateSecrets) && x != "" && x != "ROOTCA" && x != "default"
    ensures x in SecretsOf(ListenersIn(ps))
  {
    ListenersPacked(ps, l);
    SocketsOfListener(l, s);
    SocketsOfListeners(ListenersIn(ps), s);
    SecretsOfSocket(s, x);
    assert x in SocketsSecrets(SocketsOf(ListenersIn(ps)));
  }

  lemma SecretsOfResponse(ps: seq<Packed>, x: string)
    ensures x in SecretsOf(ListenersIn(ps)) <==> MentionsSecret(ps, x)
  {
    if x in SecretsOf(ListenersIn(ps)) {
      SecretsMentioned(ps, x);
    }
    if MentionsSecret(ps, x) {
      var l, fc :| PackedListener(l) in ps && ChainOf(l, fc) && fc.socket.Some?
        && (fc.socket.value.validationSecret == x || x in fc.socket.value.certificateSecrets);
      SecretsFetched(ps, l, fc, fc.socket.value, x);
    }
  }

  lemma {:induction false} RoutesOfListeners(ls: seq<Listener>, x: string)
    ensures x in RoutesOf(ls) <==> exists l :: l in ls && x in ListenerRoutes(l)
  {
    if ls != [] {
      assert ls == ls[..|ls| - 1] + [ls[|ls| - 1]];
      RoutesOfListeners(ls[..|ls| - 1], x);
    }
  }

  lemma RoutesOfResponse(ps: seq<Packed>, x: string)
    ensures x in RoutesOf(ListenersIn(ps)) <==> exists l :: PackedListener(l) in ps && NamesRoute(l, x)
  {
    RoutesOfListeners(ListenersIn(ps), x);
    forall l ensures l in ListenersIn(ps) <==> PackedListener(l) in ps {
      ListenersPacked(ps, l);
    }
    forall l ensures x in ListenerRoutes(l) <==> NamesRoute(l, x) {
      RoutesOfListener(l, x);
    }
  }

  /** Routes are wanted as often as the listeners name them: one more listener adds its own. */
  lemma RoutesAddUp(ps: seq<Packed>, p: Packed)
    ensures RoutesOf(ListenersIn([])) == []
    ensures RoutesOf(ListenersIn(ps + [p])) == RoutesOf(ListenersIn(ps)) + if p.PackedListener? then ListenerRoutes(p.listener) else []
  {
    assert (ps + [p])[..|ps|] == ps;
    var ls := ListenersIn(ps);
    if p.PackedListener? {
      assert ListenersIn(ps + [p]) == ls + [p.listener];
      assert (ls + [p.listener])[..|ls|] == ls;
    } else {
      assert ListenersIn(ps + [p]) == ls;
    }
  }

  /** An ACK of anything but EDS lists the endpoint, route, secret and extension resources of the response, in order. */
  lemma NamesAddUp(ps: seq<Packed>, p: Packed, x: string)
    ensures NamesIn([]) == []
    ensures NamesIn(ps + [p]) == NamesIn(ps) +
      (if exists y :: p == PackedEndpoint(y) || p == PackedRoute(y) || p == PackedSecret(y) || p == PackedExtension(y) then [p.name] else [])
  {
    assert (ps + [p])[..|ps|] == ps;
    if p.PackedEndpoint? {
      assert p == PackedEndpoint(p.name);
    } else if p.PackedRoute? {
      assert p == PackedRoute(p.name);
    } else if p.PackedSecret? {
      assert p == PackedSecret(p.name);
    } else if p.PackedExtension? {
      assert p == PackedExtension(p.name);
    }
  }

  // ----- runs -----

  /** Of EDS a name is wanted exactly as often as the latest cluster response has such clusters of that name. */
  lemma EndpointsWanted(run: seq<Response>, x: string)
    ensures Wanted(run, EndpointType)[x] == |ClustersNamed(LatestResources(run, ClusterType), x)|
  {
    EdsNamesCount(LatestResources(run, ClusterType), x);
    WantedFromLatest(run);
    if !Seen(run, ClusterType) {
      NothingLatest(run, ClusterType);
    }
  }

  lemma {:induction false} NothingLatest(run: seq<Response>, t: TypeUrl)
    requires !Seen(run, t)
    ensures LatestResources(run, t) == []
    ensures t == ClusterType ==> LatestEndpoints(run) == multiset{}
    ensures t == ListenerType ==> LatestRoutes(run) == multiset{}
  {
    if run != [] {
      NothingLatest(run[..|run| - 1], t);
    }
  }

  /** A route is wanted exactly when a listener of the latest listener response names it. */
  lemma RoutesWanted(run: seq<Response>, x: string)
    ensures x in Wanted(run, RouteType) <==> exists l :: PackedListener(l) in LatestResources(run, ListenerType) && NamesRoute(l, x)
  {
    RoutesOfResponse(LatestResources(run, ListenerType), x);
    WantedFromLatest(run);
    if !Seen(run, ListenerType) {
      NothingLatest(run, ListenerType);
    }
  }

  lemma ExtensionsStep(run: seq<Response>, named: set<string>)
    requires run != [] && named == ExtensionsOf(ListenersIn(run[|run| - 1].resources))
    ensures Wanted(run, ExtensionType)
         == if run[|run| - 1].typeUrl == ListenerType && named != {} then multiset(named) else Wanted(run[..|run| - 1], ExtensionType)
  {
  }

  lemma ExtensionsNamed(ps: seq<Packed>) returns (named: set<string>)
    ensures named == ExtensionsOf(ListenersIn(ps)) && forall x :: x in named <==> Discovers(ps, x)
  {
    named := ExtensionsOf(ListenersIn(ps));
    forall x ensures x in named <==> Discovers(ps, x) {
      ExtensionsOfResponse(ps, x);
    }
  }

  /** A listener response that names extensions makes exactly those wanted; any other leaves them as they were. */
  lemma ExtensionsWanted(run: seq<Response>) returns (named: set<string>)
    requires run != []
    ensures forall x :: x in named <==> Discovers(run[|run| - 1].resources, x)
    ensures Wanted(run, ExtensionType)
         == if run[|run| - 1].typeUrl == ListenerType && named != {} then multiset(named) else Wanted(run[..|run| - 1], ExtensionType)
  {
    named := ExtensionsNamed(run[|run| - 1].resources);
    ExtensionsStep(run, named);
  }

  lemma SecretsStep(run: seq<Response>, named: set<string>)
    requires run != [] && named == SecretsOf(ListenersIn(run[|run| - 1].resources))
    ensures Wanted(run, SecretType)
         == if run[|run| - 1].typeUrl == ListenerType && named != {} then multiset(named) else Wanted(run[..|run| - 1], SecretType)
  {
  }

  lemma SecretsNamed(ps: seq<Packed>) returns (named: set<string>)
    ensures named == SecretsOf(ListenersIn(ps)) && forall x :: x in named <==> MentionsSecret(ps, x)
  {
    named := SecretsOf(ListenersIn(ps));
    forall x ensures x in named <==> MentionsSecret(ps, x) {
      SecretsOfResponse(ps, x);
    }
  }

  /** Secrets likewise. */
  lemma SecretsWanted(run: seq<Response>) returns (named: set<string>)
    requires run != []
    ensures forall x :: x in named <==> MentionsSecret(run[|run| - 1].resources, x)
    ensures Wanted(run, SecretType)
         == if run[|run| - 1].typeUrl == ListenerType && named != {} then multiset(named) else Wanted(run[..|run| - 1], SecretType)
  {
    named := SecretsNamed(run[|run| - 1].resources);
    SecretsStep(run, named);
  }
}
