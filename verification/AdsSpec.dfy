/** What one state-of-the-world response does to the client's watches, and what it makes the client send. */
module AdsSpec {
  import opened Xds
  import opened SortedStrings

  /** A resource by the type it is packed as, which need not be the type of the response. */
  datatype Packed =
    | PackedListener(listener: Listener)
    | PackedCluster(cluster: Cluster)
    | PackedEndpoint(name: string)
    | PackedRoute(name: string)
    | PackedSecret(name: string)
    | PackedExtension(name: string)
    | PackedOther

  datatype Response = Response(typeUrl: TypeUrl, resources: seq<Packed>, nonce: string, version: string)

  datatype Reason = Ack | Rewatch | Init

  datatype Request = Request(typeUrl: TypeUrl, names: seq<string>, nonce: string, version: string, reason: Reason)

  datatype Watch = Watch(resources: seq<string>, lastNonce: string, lastVersion: string)

  type Watches = map<TypeUrl, Watch>

  function WatchOf(w: Watches, t: TypeUrl): Watch {
    if t in w then w[t] else Watch([], "", "")
  }

  // ----- what a response carries -----

  function NameIn(p: Packed): seq<string> {
    if p.PackedEndpoint? || p.PackedRoute? || p.PackedSecret? || p.PackedExtension? then [p.name] else []
  }

  function NamesIn(ps: seq<Packed>): seq<string> {
    if ps == [] then [] else NamesIn(ps[..|ps| - 1]) + NameIn(ps[|ps| - 1])
  }

  function ListenersIn(ps: seq<Packed>): seq<Listener> {
    if ps == [] then []
    else ListenersIn(ps[..|ps| - 1]) + match ps[|ps| - 1] case PackedListener(l) => [l] case _ => []
  }

  function ClustersIn(ps: seq<Packed>): seq<Cluster> {
    if ps == [] then []
    else ClustersIn(ps[..|ps| - 1]) + match ps[|ps| - 1] case PackedCluster(c) => [c] case _ => []
  }

  // ----- what clusters and listeners make the client follow -----

  function EdsNames(cs: seq<Cluster>): seq<string> {
    if cs == [] then []
    else EdsNames(cs[..|cs| - 1]) + if EdsBacked(cs[|cs| - 1]) then [cs[|cs| - 1].name] else []
  }

  function RoutesOf(ls: seq<Listener>): seq<string> {
    if ls == [] then [] else RoutesOf(ls[..|ls| - 1]) + ListenerRoutes(ls[|ls| - 1])
  }

  function DiscoveredIn(fs: seq<HttpFilter>): set<string> {
    set f | f in fs && f.configDiscovery :: f.name
  }

  function FilterExtensions(f: Filter): set<string> {
    match f
    case ConnectionManager(_, _, httpFilters) => DiscoveredIn(httpFilters)
    case Discovered(name) => {name}
    case OtherFilter(_) => {}
  }

  function FiltersExtensions(fs: seq<Filter>): set<string> {
    set f, x | f in fs && x in FilterExtensions(f) :: x
  }

  function ChainsExtensions(chains: seq<FilterChain>): set<string> {
    set fc, x | fc in chains && x in FiltersExtensions(fc.filters) :: x
  }

  function ExtensionsOf(ls: seq<Listener>): set<string> {
    set l, x | l in ls && x in ChainsExtensions(FilterChains(l)) :: x
  }

  function ChainsSockets(chains: seq<FilterChain>): seq<TransportSocket> {
    if chains == [] then []
    else ChainsSockets(chains[..|chains| - 1]) + match chains[|chains| - 1].socket case None => [] case Some(s) => [s]
  }

  /** The default chain's socket is listed with the other chains and once more. */
  function ListenerSockets(l: Listener): seq<TransportSocket> {
    ChainsSockets(FilterChains(l)) + match l.defaultChain case None => [] case Some(fc) => ChainsSockets([fc])
  }

  function SocketsOf(ls: seq<Listener>): seq<TransportSocket> {
    if ls == [] then [] else SocketsOf(ls[..|ls| - 1]) + ListenerSockets(ls[|ls| - 1])
  }

  function SocketSecrets(s: TransportSocket): set<string> {
    {s.validationSecret} + set c | c in s.certificateSecrets
  }

  function SocketsSecrets(ss: seq<TransportSocket>): set<string> {
    set s, x | s in ss && x in SocketSecrets(s) :: x
  }

  /** Secrets the client fetches: not the unnamed one and not the two that are always present. */
  function SecretsOf(ls: seq<Listener>): set<string> {
    SocketsSecrets(SocketsOf(ls)) - {"", "ROOTCA", "default"}
  }

  // ----- one response -----

  datatype State = State(watches: Watches, initialLoad: bool)

  const Start := State(map[], false)

  datatype Turn = Turn(state: State, sent: seq<Request>)

  function Acknowledge(w: Watches, r: Response): Watches {
    w[r.typeUrl := WatchOf(w, r.typeUrl).(lastNonce := r.nonce, lastVersion := r.version)]
  }

  /** An EDS response may be partial, but its ACK names the whole watch. */
  function AckOf(w: Watches, r: Response): Request {
    Request(r.typeUrl,
      if r.typeUrl == EndpointType then WatchOf(w, EndpointType).resources else NamesIn(r.resources),
      r.nonce, r.version, Ack)
  }

  /** Stores a new resource list and asks for it, if it differs from the stored one. */
  function Follow(turn: Turn, t: TypeUrl, resources: seq<string>): Turn {
    var w := WatchOf(turn.state.watches, t);
    if w.resources == resources then turn
    else Turn(
      turn.state.(watches := turn.state.watches[t := w.(resources := resources)]),
      turn.sent + [Request(t, resources, w.lastNonce, w.lastVersion, Rewatch)])
  }

  ghost function FollowNonempty(turn: Turn, t: TypeUrl, names: set<string>): Turn {
    if names == {} then turn else Follow(turn, t, Listing(names))
  }

  /** What a response found to follow; only the fields its type concerns are used. */
  datatype Found = Found(secrets: set<string>, extensions: set<string>, routes: seq<string>, endpoints: seq<string>)

  function FoundIn(r: Response): Found {
    var ls := ListenersIn(r.resources);
    Found(SecretsOf(ls), ExtensionsOf(ls), Sort(RoutesOf(ls)), Sort(EdsNames(ClustersIn(r.resources))))
  }

  ghost function HandleListeners(turn: Turn, f: Found): Turn {
    Follow(
      FollowNonempty(FollowNonempty(turn, SecretType, f.secrets), ExtensionType, f.extensions),
      RouteType, f.routes)
  }

  /** The first cluster response also asks for listeners. */
  function HandleClusters(turn: Turn, f: Found): Turn {
    var next := Follow(turn, EndpointType, f.endpoints);
    if next.state.initialLoad then next
    else Turn(next.state.(initialLoad := true), next.sent + [Request(ListenerType, [], "", "", Init)])
  }

  function Acked(s: State, r: Response): Turn {
    Turn(s.(watches := Acknowledge(s.watches, r)), [AckOf(s.watches, r)])
  }

  ghost function Step(s: State, r: Response): Turn {
    match r.typeUrl
    case ListenerType => HandleListeners(Acked(s, r), FoundIn(r))
    case ClusterType => HandleClusters(Acked(s, r), FoundIn(r))
    case _ => Acked(s, r)
  }
}
