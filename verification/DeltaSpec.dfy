/**
  What one delta message does to the client, on values: the graph, the known names per type and
  the requests owed. The heap client refines Step; the run theorems are proved about it.
 */
module DeltaSpec {
  import opened Xds
  import opened DeltaGraph
  import opened DeltaHeap

  datatype Body = ClusterBody(cluster: Cluster) | ListenerBody(listener: Listener) | OpaqueBody

  datatype Resource = Resource(name: string, body: Body)

  datatype Message = Message(typeUrl: TypeUrl, resources: seq<Resource>, removed: seq<string>, nonce: string)

  datatype Request = Request(typeUrl: TypeUrl, subscribe: seq<string>, unsubscribe: seq<string>, nonce: string)

  /** Each resource carries the type of its message, and a cluster is named as its resource. */
  predicate WellTyped(m: Message) {
    forall r :: r in m.resources ==>
      match r.body
      case ClusterBody(c) => m.typeUrl == ClusterType && c.name == r.name
      case ListenerBody(_) => m.typeUrl == ListenerType
      case OpaqueBody => m.typeUrl != ClusterType && m.typeUrl != ListenerType
  }

  const ListenerRoot := ResourceKey(Zero, ListenerType)
  const ClusterRoot := ResourceKey(Zero, ClusterType)

  function Key(t: TypeUrl, name: string): ResourceKey {
    ResourceKey(Interned(name), t)
  }

  predicate HasChildTypes(t: TypeUrl) {
    match t
    case SecretType | EndpointType | RouteType | ExtensionType => false
    case WorkloadAuthorizationType | AddressType | WorkloadType => false
    case ClusterType | ListenerType => true
    case InternalType(_) => true
  }

  predicate IsWildcard(t: TypeUrl) {
    match t
    case SecretType | EndpointType | RouteType | ExtensionType => false
    case _ => true
  }

  function RouteKeys(names: seq<string>): seq<ResourceKey> {
    seq(|names|, i requires 0 <= i < |names| => Key(RouteType, names[i]))
  }

  /** The endpoints or routes a resource makes the client follow. */
  function References(r: Resource): seq<ResourceKey> {
    match r.body
    case ClusterBody(c) => if EdsBacked(c) then [Key(EndpointType, c.name)] else []
    case ListenerBody(l) => RouteKeys(ListenerRoutes(l))
    case OpaqueBody => []
  }

  function InitialWatches(ztunnel: bool): seq<TypeUrl> {
    if ztunnel then [AddressType, WorkloadAuthorizationType] else [ClusterType, ListenerType]
  }

  /** Both roots are present, edges stay inside the graph, and only interned keys are children. */
  ghost predicate WellKeyed(g: Graph) {
    && ListenerRoot in g.nodes && ClusterRoot in g.nodes
    && Within(g.edges, g.nodes)
    && (forall e :: e in g.edges ==> e.1.name.Interned?)
  }

  // ----- taking in resources -----

  datatype Intake = Intake(graph: Graph, names: set<Name>, requests: Names)

  function RootEdges(t: TypeUrl, key: ResourceKey): set<Edge> {
    match t
    case ListenerType => {(ListenerRoot, key)}
    case ClusterType => {(ClusterRoot, key)}
    case _ => {}
  }

  function TakeReference(w: Intake, from: ResourceKey, to: ResourceKey): Intake {
    Intake(
      Graph(w.graph.nodes + {to}, w.graph.edges + {(from, to)}),
      w.names,
      if to in w.graph.nodes then w.requests else List(w.requests, to))
  }

  function TakeReferences(w: Intake, from: ResourceKey, refs: seq<ResourceKey>): Intake {
    if refs == [] then w
    else TakeReference(TakeReferences(w, from, refs[..|refs| - 1]), from, refs[|refs| - 1])
  }

  /** A resource is dropped only when its type is not wildcard and no one refers to it. */
  predicate Ignored(w: Intake, t: TypeUrl, key: ResourceKey) {
    key !in w.graph.nodes && !HasChildTypes(t) && !IsWildcard(t)
  }

  function Register(w: Intake, t: TypeUrl, key: ResourceKey): Intake {
    Intake(
      if key !in w.graph.nodes && HasChildTypes(t) then Graph(w.graph.nodes + {key}, w.graph.edges + RootEdges(t, key)) else w.graph,
      w.names + {key.name},
      w.requests)
  }

  function TakeResource(w: Intake, t: TypeUrl, r: Resource): Intake {
    var key := Key(t, r.name);
    if Ignored(w, t, key) then w else TakeReferences(Register(w, t, key), key, References(r))
  }

  function TakeResources(w: Intake, t: TypeUrl, rs: seq<Resource>): Intake {
    if rs == [] then w else TakeResource(TakeResources(w, t, rs[..|rs| - 1]), t, rs[|rs| - 1])
  }

  // ----- removing names -----

  datatype Pruning = Pruning(graph: Graph, cut: set<Edge>)

  ghost function RemoveName(p: Pruning, key: ResourceKey): Pruning {
    if key !in p.graph.nodes then p
    else
      var gone := Cascade(p.graph.edges, key);
      Pruning(Without(p.graph, gone), p.cut + Out(p.graph.edges, gone, key))
  }

  ghost function RemoveNames(p: Pruning, t: TypeUrl, names: seq<string>): Pruning {
    if names == [] then p else RemoveName(RemoveNames(p, t, names[..|names| - 1]), Key(t, names[|names| - 1]))
  }

  function Handles(names: seq<string>): set<Name> {
    set n | n in names :: Interned(n)
  }

  // ----- one message -----

  datatype ClientState = ClientState(graph: Graph, resources: map<TypeUrl, set<Name>>)

  const Initial := ClientState(Graph({ListenerRoot, ClusterRoot}, {}), map[])

  function Known(resources: map<TypeUrl, set<Name>>, t: TypeUrl): set<Name> {
    if t in resources then resources[t] else {}
  }

  function TakeAll(s: ClientState, m: Message): Intake {
    TakeResources(Intake(s.graph, Known(s.resources, m.typeUrl), map[]), m.typeUrl, m.resources)
  }

  ghost function Prune(s: ClientState, m: Message): Pruning {
    RemoveNames(Pruning(TakeAll(s, m).graph, {}), m.typeUrl, m.removed)
  }

  ghost function Step(s: ClientState, m: Message): ClientState {
    ClientState(
      Prune(s, m).graph,
      s.resources[m.typeUrl := TakeAll(s, m).names - Handles(m.removed)])
  }

  /** The list holds each name of the type once for every cut edge into its node. */
  ghost predicate CutNames(cut: set<Edge>, t: TypeUrl, names: seq<string>) {
    forall n :: multiset(names)[n] == |Into(cut, Key(t, n))|
  }

  ghost predicate SameNames(names: seq<Name>, texts: seq<string>) {
    |names| == |texts| && forall i :: 0 <= i < |names| ==> names[i] == Interned(texts[i])
  }

  ghost function CutTypes(cut: set<Edge>): set<TypeUrl> {
    set e | e in cut :: e.1.typeUrl
  }

  function TypesOf(sent: seq<Request>): seq<TypeUrl> {
    seq(|sent|, i requires 0 <= i < |sent| => sent[i].typeUrl)
  }

  /** A request that subscribes to what the message made new and unsubscribes from what it cut. */
  ghost predicate Owed(requests: Names, cut: set<Edge>, r: Request) {
    && r.nonce == ""
    && SameNames(Listed(requests, r.typeUrl), r.subscribe)
    && CutNames(cut, r.typeUrl, r.unsubscribe)
  }

  /**
    What the client may send for a message: one owed request for every type with new names and one
    for every type with cut edges, so a type with both is sent twice, in any order; then the ACK.
   */
  ghost predicate Answers(s: ClientState, m: Message, sent: seq<Request>) {
    var requests := TakeAll(s, m).requests;
    var cut := Prune(s, m).cut;
    && |sent| > 0
    && sent[|sent| - 1] == Request(m.typeUrl, [], [], m.nonce)
    && multiset(TypesOf(sent[..|sent| - 1])) == multiset(requests.Keys) + multiset(CutTypes(cut))
    && forall r :: r in sent[..|sent| - 1] ==> Owed(requests, cut, r)
  }

  // ----- taking in only adds -----

  ghost predicate Grown(w: Intake, w': Intake) {
    && w.graph.nodes <= w'.graph.nodes && w.graph.edges <= w'.graph.edges && w.names <= w'.names
  }

  lemma {:induction false} TakeReferencesGrow(w: Intake, from: ResourceKey, refs: seq<ResourceKey>)
    ensures Grown(w, TakeReferences(w, from, refs))
  {
    if refs != [] {
      TakeReferencesGrow(w, from, refs[..|refs| - 1]);
    }
  }

  lemma {:induction false} TakeReferencesNames(w: Intake, from: ResourceKey, refs: seq<ResourceKey>)
    ensures TakeReferences(w, from, refs).names == w.names
  {
    if refs != [] {
      TakeReferencesNames(w, from, refs[..|refs| - 1]);
    }
  }

  lemma {:induction false} TakeResourcesGrow(w: Intake, t: TypeUrl, rs: seq<Resource>)
    ensures Grown(w, TakeResources(w, t, rs))
  {
    if rs != [] {
      TakeResourcesGrow(w, t, rs[..|rs| - 1]);
      var w', r := TakeResources(w, t, rs[..|rs| - 1]), rs[|rs| - 1];
      TakeReferencesGrow(Register(w', t, Key(t, r.name)), Key(t, r.name), References(r));
    }
  }

  lemma NamesGrow(s: ClientState, m: Message)
    ensures Known(s.resources, m.typeUrl) <= TakeAll(s, m).names
  {
    TakeResourcesGrow(Intake(s.graph, Known(s.resources, m.typeUrl), map[]), m.typeUrl, m.resources);
  }

  // ----- requests name interned handles only -----

  ghost predicate AllInterned(names: Names) {
    && (forall t :: t in names ==> names[t] != [])
    && (forall t, i :: t in names && 0 <= i < |names[t]| ==> names[t][i].Interned?)
  }

  lemma {:induction false} TakeReferencesInterned(w: Intake, from: ResourceKey, refs: seq<ResourceKey>)
    requires AllInterned(w.requests) && forall k :: k in refs ==> k.name.Interned?
    ensures AllInterned(TakeReferences(w, from, refs).requests)
  {
    if refs != [] {
      TakeReferencesInterned(w, from, refs[..|refs| - 1]);
    }
  }

  lemma {:induction false} TakeResourcesInterned(w: Intake, t: TypeUrl, rs: seq<Resource>)
    requires AllInterned(w.requests)
    ensures AllInterned(TakeResources(w, t, rs).requests)
  {
    if rs != [] {
      TakeResourcesInterned(w, t, rs[..|rs| - 1]);
      var w', r := TakeResources(w, t, rs[..|rs| - 1]), rs[|rs| - 1];
      TakeReferencesInterned(Register(w', t, Key(t, r.name)), Key(t, r.name), References(r));
    }
  }

  lemma RequestsInterned(s: ClientState, m: Message)
    ensures AllInterned(TakeAll(s, m).requests)
  {
    TakeResourcesInterned(Intake(s.graph, Known(s.resources, m.typeUrl), map[]), m.typeUrl, m.resources);
  }

  // ----- removing keeps the graph well keyed -----

  lemma RemoveNameKeeps(p: Pruning, key: ResourceKey)
    requires WellKeyed(p.graph) && p.cut !! p.graph.edges && key.name.Interned?
    ensures WellKeyed(RemoveName(p, key).graph)
    ensures RemoveName(p, key).cut !! RemoveName(p, key).graph.edges
  {
    CascadeTargets(p.graph.edges, key);
  }

  lemma {:induction false} RemoveNamesKeep(p: Pruning, t: TypeUrl, names: seq<string>)
    requires WellKeyed(p.graph) && p.cut !! p.graph.edges && forall e :: e in p.cut ==> e.1.name.Interned?
    ensures WellKeyed(RemoveNames(p, t, names).graph)
    ensures RemoveNames(p, t, names).cut !! RemoveNames(p, t, names).graph.edges
    ensures forall e :: e in RemoveNames(p, t, names).cut ==> e.1.name.Interned?
  {
    if names != [] {
      RemoveNamesKeep(p, t, names[..|names| - 1]);
      RemoveNameKeeps(RemoveNames(p, t, names[..|names| - 1]), Key(t, names[|names| - 1]));
    }
  }
}
