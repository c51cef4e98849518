/** The state-of-the-world xDS client. Every method is tied to AdsSpec. */
module AdsClient {
  import opened Xds
  import opened SortedStrings
  import opened AdsSpec
  import opened AdsRuns

  /** The first place the lists disagree decides, after their lengths. */
  method ListEqual(a: seq<string>, b: seq<string>) returns (same: bool)
    ensures same <==> a == b
  {
    if |a| != |b| {
      return false;
    }
    for i := 0 to |a|
      invariant a[..i] == b[..i]
    {
      if a[i] != b[i] {
        return false;
      }
    }
    return true;
  }

  /** The names of the clusters not of another discovery type, in order. */
  method ClusterNames(cs: seq<Cluster>) returns (names: seq<string>)
    ensures names == EdsNames(cs)
  {
    names := [];
    for i := 0 to |cs|
      invariant names == EdsNames(cs[..i])
    {
      assert cs[..i + 1][..i] == cs[..i];
      if !EdsBacked(cs[i]) {
        continue;
      }
      names := names + [cs[i].name];
    }
    assert cs[..|cs|] == cs;
  }

  lemma FiltersStep(fs: seq<Filter>, i: nat)
    requires i < |fs|
    ensures FilterRoutes(fs[..i + 1]) == FilterRoutes(fs[..i]) + FilterRoute(fs[i])
    ensures FiltersExtensions(fs[..i + 1]) == FiltersExtensions(fs[..i]) + FilterExtensions(fs[i])
  {
    assert fs[..i + 1][..i] == fs[..i];
    assert fs[..i + 1] == fs[..i] + [fs[i]];
  }

  lemma ChainsStep(chains: seq<FilterChain>, i: nat)
    requires i < |chains|
    ensures ChainRoutes(chains[..i + 1]) == ChainRoutes(chains[..i]) + FilterRoutes(chains[i].filters)
    ensures ChainsExtensions(chains[..i + 1]) == ChainsExtensions(chains[..i]) + FiltersExtensions(chains[i].filters)
    ensures ChainsSockets(chains[..i + 1])
         == ChainsSockets(chains[..i]) + match chains[i].socket case None => [] case Some(s) => [s]
  {
    assert chains[..i + 1][..i] == chains[..i];
    assert chains[..i + 1] == chains[..i] + [chains[i]];
  }

  lemma ListenersStep(ls: seq<Listener>, i: nat)
    requires i < |ls|
    ensures RoutesOf(ls[..i + 1]) == RoutesOf(ls[..i]) + ListenerRoutes(ls[i])
    ensures ExtensionsOf(ls[..i + 1]) == ExtensionsOf(ls[..i]) + ChainsExtensions(FilterChains(ls[i]))
    ensures SocketsOf(ls[..i + 1]) == SocketsOf(ls[..i]) + ListenerSockets(ls[i])
  {
    assert ls[..i + 1][..i] == ls[..i];
    assert ls[..i + 1] == ls[..i] + [ls[i]];
  }

  lemma SocketsStep(ss: seq<TransportSocket>, i: nat)
    requires i < |ss|
    ensures SocketsSecrets(ss[..i + 1]) == SocketsSecrets(ss[..i]) + SocketSecrets(ss[i])
  {
    assert ss[..i + 1] == ss[..i] + [ss[i]];
  }

  lemma ResourcesStep(ps: seq<Packed>, i: nat)
    requires i < |ps|
    ensures NamesIn(ps[..i + 1]) == NamesIn(ps[..i]) + NameIn(ps[i])
    ensures ListenersIn(ps[..i + 1]) == ListenersIn(ps[..i]) + match ps[i] case PackedListener(l) => [l] case _ => []
    ensures ClustersIn(ps[..i + 1]) == ClustersIn(ps[..i]) + match ps[i] case PackedCluster(c) => [c] case _ => []
  {
    assert ps[..i + 1][..i] == ps[..i];
  }

  /** What the filters of one chain refer to. */
  method ReadFilters(fs: seq<Filter>) returns (routes: seq<string>, extensions: set<string>)
    ensures routes == FilterRoutes(fs) && extensions == FiltersExtensions(fs)
  {
    routes, extensions := [], {};
    for i := 0 to |fs|
      invariant routes == FilterRoutes(fs[..i]) && extensions == FiltersExtensions(fs[..i])
    {
      FiltersStep(fs, i);
      match fs[i] {
        case ConnectionManager(_, rds, httpFilters) =>
          if rds != "" {
            routes := routes + [rds];
          }
          extensions := extensions + DiscoveredIn(httpFilters);
        case Discovered(name) =>
          extensions := extensions + {name};
        case OtherFilter(_) =>
      }
    }
    assert fs[..|fs|] == fs;
  }

  method ReadChains(chains: seq<FilterChain>)
    returns (routes: seq<string>, extensions: set<string>, sockets: seq<TransportSocket>)
    ensures routes == ChainRoutes(chains) && extensions == ChainsExtensions(chains) && sockets == ChainsSockets(chains)
  {
    routes, extensions, sockets := [], {}, [];
    for i := 0 to |chains|
      invariant routes == ChainRoutes(chains[..i]) && extensions == ChainsExtensions(chains[..i])
      invariant sockets == ChainsSockets(chains[..i])
    {
      ChainsStep(chains, i);
      var rs, xs := ReadFilters(chains[i].filters);
      routes, extensions := routes + rs, extensions + xs;
      match chains[i].socket {
        case Some(s) => sockets := sockets + [s];
        case None =>
      }
    }
    assert chains[..|chains|] == chains;
  }

  /** The secrets named by the sockets, less those that need no fetching. */
  method ReadSecrets(sockets: seq<TransportSocket>) returns (secrets: set<string>)
    ensures secrets == SocketsSecrets(sockets) - {"", "ROOTCA", "default"}
  {
    secrets := {};
    for i := 0 to |sockets|
      invariant secrets == SocketsSecrets(sockets[..i])
    {
      SocketsStep(sockets, i);
      secrets := secrets + {sockets[i].validationSecret} + set c | c in sockets[i].certificateSecrets;
    }
    assert sockets[..|sockets|] == sockets;
    secrets := secrets - {""} - {"ROOTCA"} - {"default"};
  }

  method ReadListeners(ls: seq<Listener>) returns (routes: seq<string>, extensions: set<string>, secrets: set<string>)
    ensures routes == RoutesOf(ls) && extensions == ExtensionsOf(ls) && secrets == SecretsOf(ls)
  {
    var sockets := [];
    routes, extensions := [], {};
    for i := 0 to |ls|
      invariant routes == RoutesOf(ls[..i]) && extensions == ExtensionsOf(ls[..i]) && sockets == SocketsOf(ls[..i])
    {
      ListenersStep(ls, i);
      var rs, xs, ss := ReadChains(FilterChains(ls[i]));
      routes, extensions := routes + rs, extensions + xs;
      match ls[i].defaultChain {
        case Some(fc) =>
          var _, _, again := ReadChains([fc]);
          sockets := sockets + (ss + again);
        case None =>
          sockets := sockets + ss;
      }
    }
    assert ls[..|ls|] == ls;
    secrets := ReadSecrets(sockets);
  }

  /** Sorts the resources of a response by the type they are packed as. */
  method Unpack(ps: seq<Packed>) returns (listeners: seq<Listener>, clusters: seq<Cluster>, names: seq<string>)
    ensures listeners == ListenersIn(ps) && clusters == ClustersIn(ps) && names == NamesIn(ps)
  {
    listeners, clusters, names := [], [], [];
    for i := 0 to |ps|
      invariant listeners == ListenersIn(ps[..i]) && clusters == ClustersIn(ps[..i]) && names == NamesIn(ps[..i])
    {
      ResourcesStep(ps, i);
      match ps[i] {
        case PackedListener(l) => listeners := listeners + [l];
        case PackedCluster(c) => clusters := clusters + [c];
        case PackedEndpoint(n) => names := names + [n];
        case PackedRoute(n) => names := names + [n];
        case PackedSecret(n) => names := names + [n];
        case PackedExtension(n) => names := names + [n];
        case PackedOther =>
      }
    }
    assert ps[..|ps|] == ps;
  }

  class Client {
    var watches: Watches
    var initialLoad: bool
    var sent: seq<Request>  // everything handed to the stream

    function State(): State
      reads this
    {
      AdsSpec.State(watches, initialLoad)
    }

    constructor ()
      ensures State() == Start && sent == []
    {
      watches, initialLoad, sent := map[], false, [];
    }

    /** Asks for clusters; everything else follows from the responses. */
    method WatchClusters()
      modifies this`sent
      ensures sent == old(sent) + [Request(ClusterType, [], "", "", Init)]
    {
      sent := sent + [Request(ClusterType, [], "", "", Init)];
    }

    method Acknowledged(r: Response, names: seq<string>)
      requires names == NamesIn(r.resources)
      modifies this`watches, this`sent
      ensures watches == Acknowledge(old(watches), r)
      ensures sent == old(sent) + [AckOf(old(watches), r)]
    {
      var watch := WatchOf(watches, r.typeUrl);
      watch := watch.(lastNonce := r.nonce, lastVersion := r.version);
      watches := watches[r.typeUrl := watch];
      var all := if r.typeUrl == EndpointType then watch.resources else names;
      sent := sent + [Request(r.typeUrl, all, r.nonce, r.version, Ack)];
    }

    method HandleResourceUpdate(t: TypeUrl, resources: seq<string>, ghost before: seq<Request>, ghost mine: seq<Request>)
      requires sent == before + mine
      modifies this`watches, this`sent
      ensures var turn := Follow(Turn(old(State()), mine), t, resources);
        State() == turn.state && sent == before + turn.sent
    {
      var watch := WatchOf(watches, t);
      var same := ListEqual(watch.resources, resources);
      if !same {
        watch := watch.(resources := resources);
        watches := watches[t := watch];
        sent := sent + [Request(t, watch.resources, watch.lastNonce, watch.lastVersion, Rewatch)];
      }
    }

    method UpdateNonempty(t: TypeUrl, names: set<string>, ghost before: seq<Request>, ghost mine: seq<Request>)
      requires sent == before + mine
      modifies this`watches, this`sent
      ensures var turn := FollowNonempty(Turn(old(State()), mine), t, names);
        State() == turn.state && sent == before + turn.sent
    {
      if |names| > 0 {
        var list := SortedList(names);
        SortedUnique(list, Listing(names));
        HandleResourceUpdate(t, list, before, mine);
      }
    }

    method HandleLDS(ls: seq<Listener>, ghost before: seq<Request>, ghost mine: seq<Request>, ghost f: Found)
      requires sent == before + mine
      requires (f.secrets, f.extensions, f.routes) == (SecretsOf(ls), ExtensionsOf(ls), Sort(RoutesOf(ls)))
      modifies this`watches, this`sent
      ensures var turn := HandleListeners(Turn(old(State()), mine), f);
        State() == turn.state && sent == before + turn.sent
    {
      var routes, extensions, secrets := ReadListeners(ls);
      ghost var t0 := Turn(State(), mine);
      UpdateNonempty(SecretType, secrets, before, mine);
      ghost var t1 := FollowNonempty(t0, SecretType, secrets);
      UpdateNonempty(ExtensionType, extensions, before, t1.sent);
      ghost var t2 := FollowNonempty(t1, ExtensionType, extensions);
      HandleResourceUpdate(RouteType, Sort(routes), before, t2.sent);
    }

    method HandleCDS(cs: seq<Cluster>, ghost before: seq<Request>, ghost mine: seq<Request>, ghost f: Found)
      requires sent == before + mine && f.endpoints == Sort(EdsNames(cs))
      modifies this
      ensures var turn := HandleClusters(Turn(old(State()), mine), f);
        State() == turn.state && sent == before + turn.sent
    {
      var names := ClusterNames(cs);
      HandleResourceUpdate(EndpointType, Sort(names), before, mine);
      if !initialLoad {
        sent := sent + [Request(ListenerType, [], "", "", Init)];
        initialLoad := true;
      }
    }

    /** One turn of the receive loop. */
    method HandleResponse(r: Response)
      modifies this
      ensures State() == Step(old(State()), r).state
      ensures sent == old(sent) + Step(old(State()), r).sent
    {
      var listeners, clusters, names := Unpack(r.resources);
      ghost var before, mine := sent, [AckOf(watches, r)];
      Acknowledged(r, names);
      match r.typeUrl {
        case ListenerType => HandleLDS(listeners, before, mine, FoundIn(r));
        case ClusterType => HandleCDS(clusters, before, mine, FoundIn(r));
        case _ =>
      }
    }

    /** The receive loop over the responses of a stream, up to its end. */
    method HandleRecv(inbox: seq<Response>, ghost before: seq<Response>)
      requires State() == StateAfter(before)
      modifies this
      ensures State() == StateAfter(before + inbox)
      ensures sent == old(sent) + SentDuring(before, inbox)
    {
      ghost var had := sent;
      assert before + inbox[..0] == before;
      for i := 0 to |inbox|
        invariant State() == StateAfter(before + inbox[..i])
        invariant sent == had + SentDuring(before, inbox[..i])
      {
        NextTurn(before, inbox, i, had);
        HandleResponse(inbox[i]);
      }
      assert inbox[..|inbox|] == inbox;
    }
  }
}
