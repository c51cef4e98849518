/** The server's view: which names the requests sent so far leave subscribed, against what the client's graph holds. */
module DeltaSubscriptions {
  import opened Xds
  import opened DeltaGraph
  import opened DeltaHeap
  import opened DeltaSpec
  import opened DeltaRuns

  /** A server may apply the two lists of one request in either order. */
  datatype Order = SubscribeFirst | UnsubscribeFirst

  function Listing(names: seq<string>): set<string> {
    set n | n in names
  }

  function Change(order: Order, subscribed: set<string>, add: set<string>, remove: set<string>): set<string> {
    match order
    case SubscribeFirst => subscribed + add - remove
    case UnsubscribeFirst => subscribed - remove + add
  }

  function Apply(order: Order, subscribed: set<string>, t: TypeUrl, r: Request): set<string> {
    if r.typeUrl == t then Change(order, subscribed, Listing(r.subscribe), Listing(r.unsubscribe)) else subscribed
  }

  function Replay(order: Order, subscribed: set<string>, t: TypeUrl, sent: seq<Request>): set<string> {
    if sent == [] then subscribed
    else Apply(order, Replay(order, subscribed, t, sent[..|sent| - 1]), t, sent[|sent| - 1])
  }

  /** The names of a type with a node in the graph. */
  ghost function Live(g: Graph, t: TypeUrl): set<string> {
    set k | k in g.nodes && k.typeUrl == t && k.name.Interned? :: k.name.value
  }

  ghost function Wanted(requests: Names, t: TypeUrl): set<string> {
    set n: Name | n in Listed(requests, t) && n.Interned? :: n.value
  }

  ghost function CutOff(cut: set<Edge>, t: TypeUrl): set<string> {
    set e | e in cut && e.1.typeUrl == t && e.1.name.Interned? :: e.1.name.value
  }

  lemma OwedListings(requests: Names, cut: set<Edge>, r: Request)
    requires Owed(requests, cut, r)
    ensures Listing(r.subscribe) == Wanted(requests, r.typeUrl)
    ensures Listing(r.unsubscribe) == CutOff(cut, r.typeUrl)
  {
    var t, names := r.typeUrl, Listed(requests, r.typeUrl);
    forall n | n in Wanted(requests, t) ensures n in r.subscribe {
      var i :| 0 <= i < |names| && names[i] == Interned(n);
      assert r.subscribe[i] == n;
    }
    forall n | n in r.subscribe ensures n in Wanted(requests, t) {
      var i :| 0 <= i < |r.subscribe| && r.subscribe[i] == n;
      assert names[i] == Interned(n);
    }
    forall n ensures n in r.unsubscribe <==> n in CutOff(cut, t) {
      assert multiset(r.unsubscribe)[n] == |Into(cut, Key(t, n))|;
      if n in CutOff(cut, t) {
        var e :| e in cut && e.1 == Key(t, n);
        assert e in Into(cut, Key(t, n));
      }
      if n in r.unsubscribe {
        assert n in multiset(r.unsubscribe);
        var e :| e in Into(cut, Key(t, n));
        assert e.1.name.value == n;
      }
    }
  }

  /** Owed requests change the set once, however many are sent and in whatever order. */
  lemma {:induction false} ReplayOwed(order: Order, subscribed: set<string>, t: TypeUrl, sent: seq<Request>, requests: Names, cut: set<Edge>)
    requires forall r :: r in sent ==> Owed(requests, cut, r)
    ensures Replay(order, subscribed, t, sent)
         == if t in TypesOf(sent) then Change(order, subscribed, Wanted(requests, t), CutOff(cut, t)) else subscribed
  {
    if sent != [] {
      var front, r := sent[..|sent| - 1], sent[|sent| - 1];
      assert r in sent && forall q :: q in front ==> q in sent;
      ReplayOwed(order, subscribed, t, front, requests, cut);
      OwedListings(requests, cut, r);
      assert TypesOf(sent) == TypesOf(front) + [r.typeUrl];
    }
  }

  lemma NothingOwed(requests: Names, cut: set<Edge>, t: TypeUrl)
    requires t !in requests && t !in CutTypes(cut)
    ensures Wanted(requests, t) == {} && CutOff(cut, t) == {}
  {
    forall e | e in cut ensures e.1.typeUrl != t {
      assert e.1.typeUrl in CutTypes(cut);
    }
  }

  lemma TypeSent(types: seq<TypeUrl>, a: set<TypeUrl>, b: set<TypeUrl>, t: TypeUrl)
    requires multiset(types) == multiset(a) + multiset(b)
    ensures t in types <==> t in a || t in b
  {
    assert t in types <==> t in multiset(types);
  }

  /** One message changes the server's set by the new names and the cut ones, although a type may be sent twice. */
  lemma AnswersReplayed(order: Order, subscribed: set<string>, t: TypeUrl, s: ClientState, m: Message, sent: seq<Request>)
    requires Answers(s, m, sent)
    ensures Replay(order, subscribed, t, sent)
         == Change(order, subscribed, Wanted(TakeAll(s, m).requests, t), CutOff(Prune(s, m).cut, t))
  {
    var requests, cut := TakeAll(s, m).requests, Prune(s, m).cut;
    var front, ack := sent[..|sent| - 1], sent[|sent| - 1];
    ReplayOwed(order, subscribed, t, front, requests, cut);
    TypeSent(TypesOf(front), requests.Keys, CutTypes(cut), t);
    if t !in TypesOf(front) {
      NothingOwed(requests, cut, t);
    }
    assert Listing(ack.subscribe) == {} && Listing(ack.unsubscribe) == {};
    ReplayAck(order, subscribed, t, sent);
    ChangeTwice(order, subscribed, Wanted(requests, t), CutOff(cut, t));
  }

  lemma ReplayAck(order: Order, subscribed: set<string>, t: TypeUrl, sent: seq<Request>)
    requires sent != [] && sent[|sent| - 1].subscribe == [] && sent[|sent| - 1].unsubscribe == []
    ensures Replay(order, subscribed, t, sent) == Replay(order, subscribed, t, sent[..|sent| - 1])
  {
    assert Listing([]) == {};
  }

  lemma ChangeTwice(order: Order, subscribed: set<string>, add: set<string>, remove: set<string>)
    ensures Change(order, Change(order, subscribed, add, remove), add, remove) == Change(order, subscribed, add, remove)
    ensures Change(order, subscribed, {}, {}) == subscribed
  {
  }

  // ----- which names are new, cut and kept -----

  ghost predicate Followed(t: TypeUrl) {
    t == EndpointType || t == RouteType
  }

  /** While resources are taken in, a name is requested exactly when its node is new. */
  ghost predicate RequestsAreNew(w0: Intake, w: Intake, t: TypeUrl) {
    Live(w.graph, t) == Live(w0.graph, t) + Wanted(w.requests, t) && Live(w0.graph, t) !! Wanted(w.requests, t)
  }

  lemma {:induction false} ReferencesRequested(w0: Intake, w: Intake, from: ResourceKey, refs: seq<ResourceKey>, t: TypeUrl)
    requires RequestsAreNew(w0, w, t) && forall k :: k in refs ==> k.name.Interned?
    ensures RequestsAreNew(w0, TakeReferences(w, from, refs), t)
  {
    if refs != [] {
      var front, k := refs[..|refs| - 1], refs[|refs| - 1];
      assert refs == front + [k];
      ReferencesRequested(w0, w, from, front, t);
      ReferenceRequested(w0, TakeReferences(w, from, front), from, k, t);
    }
  }

  lemma ReferenceRequested(w0: Intake, w: Intake, from: ResourceKey, k: ResourceKey, t: TypeUrl)
    requires RequestsAreNew(w0, w, t) && k.name.Interned?
    ensures RequestsAreNew(w0, TakeReference(w, from, k), t)
  {
    var w' := TakeReference(w, from, k);
    if k.typeUrl == t {
      assert Live(w'.graph, t) == Live(w.graph, t) + {k.name.value};
      if k !in w.graph.nodes {
        assert Wanted(w'.requests, t) == Wanted(w.requests, t) + {k.name.value};
        assert k.name.value !in Live(w.graph, t);
      } else {
        assert k.name.value in Live(w.graph, t);
      }
    } else {
      assert Live(w'.graph, t) == Live(w.graph, t);
      assert Wanted(w'.requests, t) == Wanted(w.requests, t);
    }
  }

  lemma {:induction false} ResourcesRequested(w0: Intake, w: Intake, mt: TypeUrl, rs: seq<Resource>, t: TypeUrl)
    requires RequestsAreNew(w0, w, t) && Followed(t)
    ensures RequestsAreNew(w0, TakeResources(w, mt, rs), t)
  {
    if rs != [] {
      var front, r := rs[..|rs| - 1], rs[|rs| - 1];
      ResourcesRequested(w0, w, mt, front, t);
      var w1, key := TakeResources(w, mt, front), Key(mt, r.name);
      if !Ignored(w1, mt, key) {
        assert Live(Register(w1, mt, key).graph, t) == Live(w1.graph, t);
        ReferencesRequested(w0, Register(w1, mt, key), key, References(r), t);
      }
    }
  }

  lemma IntakeRequested(s: ClientState, m: Message, t: TypeUrl)
    requires Followed(t)
    ensures Live(TakeAll(s, m).graph, t) == Live(s.graph, t) + Wanted(TakeAll(s, m).requests, t)
    ensures Live(s.graph, t) !! Wanted(TakeAll(s, m).requests, t)
  {
    var w := Intake(s.graph, Known(s.resources, m.typeUrl), map[]);
    assert Wanted(w.requests, t) == {};
    ResourcesRequested(w, w, m.typeUrl, m.resources, t);
  }

  /** A followed node that goes was cut off, unless the server removed it by name. */
  lemma GoneWasCut(g: Graph, mt: TypeUrl, gone: set<ResourceKey>, t: TypeUrl)
    requires Layered(g) && OneType(g, mt, gone) && Followed(t)
    ensures mt != t ==> Live(g, t) - Live(Removed(g, gone).graph, t) <= CutOff(Removed(g, gone).cut, t)
    ensures mt == t ==> CutOff(Removed(g, gone).cut, t) == {}
    ensures Live(Removed(g, gone).graph, t) <= Live(g, t)
    ensures CutOff(Removed(g, gone).cut, t) <= Live(g, t)
  {
    var p := Removed(g, gone);
    OrphansAreLeaves(g, mt, gone);
    forall n | n in Live(g, t) - Live(p.graph, t) && mt != t ensures n in CutOff(p.cut, t) {
      var k := Key(t, n);
      assert k in OrphansOf(g, gone);
      var q :| q in gone && (q, k) in g.edges;
      assert (q, k) in p.cut && (q, k).1 == k;
    }
    forall n | n in CutOff(p.cut, t) ensures n in Live(g, t) && mt != t {
      var e :| e in p.cut && e.1 == Key(t, n);
      assert e.1 in g.nodes;
    }
  }

  /** An endpoint has one parent, so an endpoint that is cut off goes. */
  lemma EndpointsCutAreGone(g: Graph, mt: TypeUrl, gone: set<ResourceKey>)
    requires Layered(g) && OneType(g, mt, gone)
    ensures CutOff(Removed(g, gone).cut, EndpointType) !! Live(Removed(g, gone).graph, EndpointType)
  {
    var p := Removed(g, gone);
    forall n | n in CutOff(p.cut, EndpointType) ensures Key(EndpointType, n) !in p.graph.nodes {
      var k := Key(EndpointType, n);
      var e :| e in p.cut && e.1 == k;
      forall q | (q, k) in g.edges ensures q in gone {
        assert Shaped((q, k)) && Shaped(e);
      }
      assert e.0 in gone && (e.0, k) in g.edges;
      assert k in OrphansOf(g, gone);
    }
  }

  // ----- where edges come from -----

  /** An edge that a carried resource asks for. */
  ghost predicate Referenced(t: TypeUrl, rs: seq<Resource>, e: Edge) {
    exists r :: r in rs && e.0 == Key(t, r.name) && e.1 in References(r)
  }

  lemma {:induction false} ReferenceEdges(w: Intake, from: ResourceKey, refs: seq<ResourceKey>)
    ensures TakeReferences(w, from, refs).graph.edges == w.graph.edges + set k | k in refs :: (from, k)
  {
    if refs != [] {
      ReferenceEdges(w, from, refs[..|refs| - 1]);
      assert refs == refs[..|refs| - 1] + [refs[|refs| - 1]];
    }
  }

  /** One resource adds its root edge and its references, and at least the references when its type has children. */
  lemma ResourceEdges(w: Intake, t: TypeUrl, r: Resource)
    ensures forall e :: e in TakeResource(w, t, r).graph.edges ==>
      e in w.graph.edges || IsRoot(e.0) || (e.0 == Key(t, r.name) && e.1 in References(r))
    ensures w.graph.edges <= TakeResource(w, t, r).graph.edges
    ensures HasChildTypes(t) ==> forall k :: k in References(r) ==> (Key(t, r.name), k) in TakeResource(w, t, r).graph.edges
  {
    ReferenceEdges(Register(w, t, Key(t, r.name)), Key(t, r.name), References(r));
  }

  /** Edges are old, leave a root, or are referenced by a carried resource. */
  lemma {:induction false} EdgesAreReferenced(w: Intake, t: TypeUrl, rs: seq<Resource>)
    ensures forall e :: e in TakeResources(w, t, rs).graph.edges ==> e in w.graph.edges || IsRoot(e.0) || Referenced(t, rs, e)
  {
    if rs != [] {
      var front, last := rs[..|rs| - 1], rs[|rs| - 1];
      assert rs == front + [last];
      EdgesAreReferenced(w, t, front);
      ResourceEdges(TakeResources(w, t, front), t, last);
      forall e | e in TakeResources(w, t, rs).graph.edges ensures e in w.graph.edges || IsRoot(e.0) || Referenced(t, rs, e) {
        assert Referenced(t, front, e) ==> Referenced(t, rs, e);
      }
    }
  }

  /** And all references get their edge. */
  lemma {:induction false} ReferencesGetEdges(w: Intake, t: TypeUrl, rs: seq<Resource>, r: Resource, k: ResourceKey)
    requires HasChildTypes(t) && r in rs && k in References(r)
    ensures (Key(t, r.name), k) in TakeResources(w, t, rs).graph.edges
  {
    var front, last := rs[..|rs| - 1], rs[|rs| - 1];
    assert rs == front + [last];
    ResourceEdges(TakeResources(w, t, front), t, last);
    if r in front {
      ReferencesGetEdges(w, t, front, r, k);
    }
  }

  // ----- names that are new and cut at once -----

  /** The message both carries and removes a resource that refers to something the client does not know yet. */
  ghost predicate TakenAndCut(s: ClientState, m: Message, t: TypeUrl) {
    exists r, k :: r in m.resources && k in References(r) && k.typeUrl == t && r.name in m.removed && k !in s.graph.nodes
  }

  lemma CutOfNew(s: ClientState, m: Message, e: Edge)
    requires Invariant(s) && WellTyped(m) && e in Prune(s, m).cut && e.1 !in s.graph.nodes
    ensures TakenAndCut(s, m, e.1.typeUrl)
  {
    var w := Intake(s.graph, Known(s.resources, m.typeUrl), map[]);
    PruneInClosedForm(s, m);
    EdgesAreReferenced(w, m.typeUrl, m.resources);
    assert Referenced(m.typeUrl, m.resources, e);
    var r :| r in m.resources && e.0 == Key(m.typeUrl, r.name) && e.1 in References(r);
    assert r.name in m.removed;
  }

  lemma NewIsCut(s: ClientState, m: Message, r: Resource, k: ResourceKey)
    requires Invariant(s) && WellTyped(m) && r in m.resources && k in References(r) && r.name in m.removed
    ensures k.name.Interned? && k in TakeAll(s, m).graph.nodes && (Key(m.typeUrl, r.name), k) in Prune(s, m).cut
  {
    var w, key := Intake(s.graph, Known(s.resources, m.typeUrl), map[]), Key(m.typeUrl, r.name);
    assert WellTyped(Message(m.typeUrl, [r], [], ""));
    ReferencesShaped(m.typeUrl, r);
    ReferencesGetEdges(w, m.typeUrl, m.resources, r, k);
    PruneInClosedForm(s, m);
    assert (key, k) in TakeAll(s, m).graph.edges;
    assert key in Present(TakeAll(s, m).graph, m.typeUrl, m.removed);
  }

  /** A name is subscribed to and unsubscribed from at once exactly in that case. */
  lemma NewAndCut(s: ClientState, m: Message, t: TypeUrl)
    requires Invariant(s) && WellTyped(m) && Followed(t)
    ensures Wanted(TakeAll(s, m).requests, t) !! CutOff(Prune(s, m).cut, t) <==> !TakenAndCut(s, m, t)
  {
    var wanted, cut := Wanted(TakeAll(s, m).requests, t), CutOff(Prune(s, m).cut, t);
    IntakeRequested(s, m, t);
    if TakenAndCut(s, m, t) {
      var r, k :| r in m.resources && k in References(r) && k.typeUrl == t && r.name in m.removed && k !in s.graph.nodes;
      NewIsCut(s, m, r, k);
      assert (Key(m.typeUrl, r.name), k).1 == k;
      assert k.name.value in cut;
      assert k.name.value in Live(TakeAll(s, m).graph, t) - Live(s.graph, t);
      assert k.name.value in wanted * cut;
    } else {
      forall n | n in wanted ensures n !in cut {
        if e :| e in Prune(s, m).cut && e.1.typeUrl == t && e.1.name.Interned? && e.1.name.value == n {
          assert n !in Live(s.graph, t);
          CutOfNew(s, m, e);
        }
      }
    }
  }

  lemma {:induction false} OnlyParentsRequest(w: Intake, mt: TypeUrl, rs: seq<Resource>)
    requires WellTyped(Message(mt, rs, [], "")) && mt != ClusterType && mt != ListenerType
    ensures TakeResources(w, mt, rs).requests == w.requests
    ensures TakeResources(w, mt, rs).graph.edges == w.graph.edges
  {
    if rs != [] {
      assert forall r :: r in rs[..|rs| - 1] ==> r in rs;
      OnlyParentsRequest(w, mt, rs[..|rs| - 1]);
      assert rs[|rs| - 1] in rs;
    }
  }

  // ----- names the server removes itself -----

  /** The server removes by name an endpoint, or a route, that the client follows. */
  ghost predicate Drops(s: ClientState, m: Message, t: TypeUrl) {
    m.typeUrl == t && exists n :: n in m.removed && n in Live(s.graph, t)
  }

  /** Such a message takes exactly the named nodes, and nothing is requested or cut. */
  lemma DroppedByName(s: ClientState, m: Message)
    requires Invariant(s) && WellTyped(m) && Followed(m.typeUrl)
    ensures Wanted(TakeAll(s, m).requests, m.typeUrl) == {} && CutOff(Prune(s, m).cut, m.typeUrl) == {}
    ensures Live(Step(s, m).graph, m.typeUrl) == Live(s.graph, m.typeUrl) - Listing(m.removed)
  {
    var t, g := m.typeUrl, TakeAll(s, m).graph;
    var gone := Present(g, t, m.removed);
    PruneInClosedForm(s, m);
    IntakeRequested(s, m, t);
    assert WellTyped(Message(t, m.resources, [], ""));
    OnlyParentsRequest(Intake(s.graph, Known(s.resources, t), map[]), t, m.resources);
    OrphansAreLeaves(g, t, gone);
    GoneWasCut(g, t, gone, t);
    var after := Step(s, m).graph;
    forall n ensures n in Live(after, t) <==> n in Live(g, t) && n !in m.removed {
      var k := Key(t, n);
      assert k in after.nodes <==> k in g.nodes && k !in gone;
      assert k.name.value == n;
    }
  }

  // ----- endpoints, one message -----

  /** An endpoint has one parent, so the endpoints cut off are exactly those that go. */
  lemma EndpointsGone(s: ClientState, m: Message)
    requires Invariant(s) && WellTyped(m) && m.typeUrl != EndpointType
    ensures Live(Step(s, m).graph, EndpointType)
         == Live(s.graph, EndpointType) + Wanted(TakeAll(s, m).requests, EndpointType) - CutOff(Prune(s, m).cut, EndpointType)
  {
    var g := TakeAll(s, m).graph;
    var gone := Present(g, m.typeUrl, m.removed);
    PruneInClosedForm(s, m);
    IntakeRequested(s, m, EndpointType);
    GoneWasCut(g, m.typeUrl, gone, EndpointType);
    EndpointsCutAreGone(g, m.typeUrl, gone);
  }

  /**
    The server removes no endpoint the client follows, and, should it unsubscribe first, does not carry and
    remove a cluster whose endpoint is new.
   */
  ghost predicate KeepsEndpoints(order: Order, s: ClientState, m: Message) {
    !Drops(s, m, EndpointType) && (order == UnsubscribeFirst ==> !TakenAndCut(s, m, EndpointType))
  }

  lemma EndpointsAfterMessage(order: Order, s: ClientState, m: Message, sent: seq<Request>, subscribed: set<string>)
    requires Invariant(s) && WellTyped(m) && Answers(s, m, sent)
    requires Live(s.graph, EndpointType) <= subscribed
    ensures Live(Step(s, m).graph, EndpointType) <= Replay(order, subscribed, EndpointType, sent)
    ensures Live(s.graph, EndpointType) == subscribed
      ==> (Live(Step(s, m).graph, EndpointType) == Replay(order, subscribed, EndpointType, sent) <==> KeepsEndpoints(order, s, m))
  {
    AnswersReplayed(order, subscribed, EndpointType, s, m, sent);
    if m.typeUrl == EndpointType {
      EndpointsDropped(order, s, m, subscribed);
    } else {
      NewAndCut(s, m, EndpointType);
      IntakeRequested(s, m, EndpointType);
      EndpointsGone(s, m);
      ChangeMatches(order, Live(s.graph, EndpointType), subscribed, Wanted(TakeAll(s, m).requests, EndpointType), CutOff(Prune(s, m).cut, EndpointType));
    }
  }

  lemma EndpointsDropped(order: Order, s: ClientState, m: Message, subscribed: set<string>)
    requires Invariant(s) && WellTyped(m) && m.typeUrl == EndpointType
    requires Live(s.graph, EndpointType) <= subscribed
    ensures var after := Change(order, subscribed, Wanted(TakeAll(s, m).requests, EndpointType), CutOff(Prune(s, m).cut, EndpointType));
      && Live(Step(s, m).graph, EndpointType) <= after
      && (Live(s.graph, EndpointType) == subscribed ==>
           (Live(Step(s, m).graph, EndpointType) == after <==> KeepsEndpoints(order, s, m)))
  {
    var live := Live(s.graph, EndpointType);
    DroppedByName(s, m);
    ChangeTwice(order, subscribed, {}, {});
    assert !TakenAndCut(s, m, EndpointType) by {
      NewAndCut(s, m, EndpointType);
    }
    if Drops(s, m, EndpointType) {
      var n :| n in m.removed && n in live;
      assert n !in live - Listing(m.removed);
    } else {
      assert live - Listing(m.removed) == live;
    }
  }

  /** The server's set and the graph's change alike unless, unsubscribing first, the server takes a cut name in again. */
  lemma ChangeMatches(order: Order, live: set<string>, subscribed: set<string>, add: set<string>, remove: set<string>)
    requires live <= subscribed && live !! add
    ensures live + add - remove <= Change(order, subscribed, add, remove)
    ensures live == subscribed ==>
      (live + add - remove == Change(order, subscribed, add, remove) <==> order == SubscribeFirst || add !! remove)
  {
    if order != SubscribeFirst && !(add !! remove) {
      var n :| n in add && n in remove;
      assert n in Change(order, subscribed, add, remove) && n !in live + add - remove;
    }
  }

  // ----- routes, one message -----

  /**
    Every route of a removed listener has all its parents removed by the same message. A server that
    unsubscribes first subscribes to a new route again, so then only routes known before matter.
   */
  ghost predicate SparesRoutes(order: Order, s: ClientState, m: Message) {
    var g := TakeAll(s, m).graph;
    var gone := Present(g, m.typeUrl, m.removed);
    forall e, p | e in g.edges && e.0 in gone && e.1.typeUrl == RouteType && (p, e.1) in g.edges ::
      (order == SubscribeFirst || e.1 in s.graph.nodes) ==> p in gone
  }

  /** The routes that stay and are cut off all the same. */
  ghost function Lost(s: ClientState, m: Message): set<string> {
    Live(Step(s, m).graph, RouteType) * CutOff(Prune(s, m).cut, RouteType)
  }

  lemma CutWithoutGoing(s: ClientState, m: Message, e: Edge, p: ResourceKey)
    requires Invariant(s) && WellTyped(m)
    requires e in TakeAll(s, m).graph.edges && e.1.typeUrl == RouteType && (p, e.1) in TakeAll(s, m).graph.edges
    requires var gone := Present(TakeAll(s, m).graph, m.typeUrl, m.removed); e.0 in gone && p !in gone
    ensures e.1.name.Interned? && e.1.name.value in Lost(s, m)
    ensures e.1 in s.graph.nodes ==> e.1.name.value in Live(s.graph, RouteType)
  {
    var g := TakeAll(s, m).graph;
    var gone := Present(g, m.typeUrl, m.removed);
    PruneInClosedForm(s, m);
    OrphansAreLeaves(g, m.typeUrl, gone);
    assert Shaped(e);
    assert e in Prune(s, m).cut && e.1 in g.nodes && e.1 !in OrphansOf(g, gone);
    assert e.1 in Step(s, m).graph.nodes;
  }

  lemma LostHasBoth(s: ClientState, m: Message, n: string) returns (e: Edge, p: ResourceKey)
    requires Invariant(s) && WellTyped(m) && n in Lost(s, m)
    ensures e in TakeAll(s, m).graph.edges && e.1 == Key(RouteType, n) && (p, e.1) in TakeAll(s, m).graph.edges
    ensures var gone := Present(TakeAll(s, m).graph, m.typeUrl, m.removed); e.0 in gone && p !in gone
  {
    var g := TakeAll(s, m).graph;
    var gone := Present(g, m.typeUrl, m.removed);
    PruneInClosedForm(s, m);
    e :| e in Prune(s, m).cut && e.1.typeUrl == RouteType && e.1.name.Interned? && e.1.name.value == n;
    assert (e.0, e.1) in g.edges && e.1 in Step(s, m).graph.nodes;
    assert !Orphaned(g.edges, gone, e.1);
    p :| (p, e.1) in g.edges && p !in gone;
  }

  lemma SparedIsUncut(order: Order, s: ClientState, m: Message)
    requires Invariant(s) && WellTyped(m)
    ensures SparesRoutes(order, s, m) <==> forall n :: n in Lost(s, m) ==> order != SubscribeFirst && n !in Live(s.graph, RouteType)
  {
    var g := TakeAll(s, m).graph;
    var gone := Present(g, m.typeUrl, m.removed);
    if SparesRoutes(order, s, m) {
      forall n | n in Lost(s, m) ensures order != SubscribeFirst && n !in Live(s.graph, RouteType) {
        var e, p := LostHasBoth(s, m, n);
        assert order == SubscribeFirst || e.1 in s.graph.nodes ==> p in gone;
        LiveMeansNode(s.graph, RouteType, n);
      }
    } else {
      var e, p :| e in g.edges && e.0 in gone && e.1.typeUrl == RouteType && (p, e.1) in g.edges
        && (order == SubscribeFirst || e.1 in s.graph.nodes) && p !in gone;
      CutWithoutGoing(s, m, e, p);
    }
  }

  lemma LiveMeansNode(g: Graph, t: TypeUrl, n: string)
    ensures n in Live(g, t) <==> Key(t, n) in g.nodes
  {
    assert Key(t, n).name.value == n;
  }

  /** What one message leaves of the routes, and what of it is cut. */
  lemma RoutesGone(s: ClientState, m: Message)
    requires Invariant(s) && WellTyped(m) && m.typeUrl != RouteType
    ensures var g := Live(s.graph, RouteType) + Wanted(TakeAll(s, m).requests, RouteType);
      Live(Step(s, m).graph, RouteType) <= g <= Live(Step(s, m).graph, RouteType) + CutOff(Prune(s, m).cut, RouteType)
  {
    var g := TakeAll(s, m).graph;
    PruneInClosedForm(s, m);
    IntakeRequested(s, m, RouteType);
    GoneWasCut(g, m.typeUrl, Present(g, m.typeUrl, m.removed), RouteType);
  }

  lemma RoutesAfterMessage(order: Order, s: ClientState, m: Message, sent: seq<Request>, subscribed: set<string>)
    requires Invariant(s) && WellTyped(m) && Answers(s, m, sent)
    requires Live(s.graph, RouteType) <= subscribed
    ensures Live(Step(s, m).graph, RouteType) <= Replay(order, subscribed, RouteType, sent) <==> SparesRoutes(order, s, m)
  {
    AnswersReplayed(order, subscribed, RouteType, s, m, sent);
    SparedIsUncut(order, s, m);
    IntakeRequested(s, m, RouteType);
    if m.typeUrl == RouteType {
      DroppedByName(s, m);
    } else {
      RoutesGone(s, m);
    }
    LostIsMissing(order, s, m, subscribed);
  }

  lemma LostIsMissing(order: Order, s: ClientState, m: Message, subscribed: set<string>)
    requires Live(s.graph, RouteType) <= subscribed
    requires Live(Step(s, m).graph, RouteType) <= Live(s.graph, RouteType) + Wanted(TakeAll(s, m).requests, RouteType)
    requires Live(s.graph, RouteType) !! Wanted(TakeAll(s, m).requests, RouteType)
    ensures Live(Step(s, m).graph, RouteType)
            <= Change(order, subscribed, Wanted(TakeAll(s, m).requests, RouteType), CutOff(Prune(s, m).cut, RouteType))
       <==> forall n :: n in Lost(s, m) ==> order != SubscribeFirst && n !in Live(s.graph, RouteType)
  {
  }

  /** A route that is new to the client loses all its listeners by the message that brings it. */
  ghost predicate OrphansNewRoute(s: ClientState, m: Message) {
    var g := TakeAll(s, m).graph;
    exists k :: k in g.nodes && k.typeUrl == RouteType && k !in s.graph.nodes && k in OrphansOf(g, Present(g, m.typeUrl, m.removed))
  }

  lemma NewRoutesStay(s: ClientState, m: Message)
    requires Invariant(s) && WellTyped(m) && m.typeUrl != RouteType
    ensures Wanted(TakeAll(s, m).requests, RouteType) <= Live(Step(s, m).graph, RouteType) <==> !OrphansNewRoute(s, m)
  {
    var g, wanted := TakeAll(s, m).graph, Wanted(TakeAll(s, m).requests, RouteType);
    var gone := Present(g, m.typeUrl, m.removed);
    PruneInClosedForm(s, m);
    IntakeRequested(s, m, RouteType);
    var after := Step(s, m).graph;
    if OrphansNewRoute(s, m) {
      var k :| k in g.nodes && k.typeUrl == RouteType && k !in s.graph.nodes && k in OrphansOf(g, gone);
      var p :| p in gone && (p, k) in g.edges;
      assert Shaped((p, k));
      assert k.name.value in Live(g, RouteType) && k == Key(RouteType, k.name.value);
      assert k.name.value in wanted && k.name.value !in Live(after, RouteType);
    } else {
      forall n | n in wanted ensures n in Live(after, RouteType) {
        var k := Key(RouteType, n);
        assert n in Live(g, RouteType) && n !in Live(s.graph, RouteType);
        assert k in g.nodes && k.name.value == n && k !in s.graph.nodes;
        assert k in after.nodes;
      }
    }
  }

  /** The server removes no route the client follows, and no message cuts off only some, or brings and orphans, a route. */
  ghost predicate KeepsRoutes(order: Order, s: ClientState, m: Message) {
    && !Drops(s, m, RouteType) && SparesRoutes(order, s, m)
    && (order == UnsubscribeFirst ==> !OrphansNewRoute(s, m))
  }

  lemma RoutesMatchAfterMessage(order: Order, s: ClientState, m: Message, sent: seq<Request>)
    requires Invariant(s) && WellTyped(m) && Answers(s, m, sent)
    ensures Live(Step(s, m).graph, RouteType) == Replay(order, Live(s.graph, RouteType), RouteType, sent) <==> KeepsRoutes(order, s, m)
  {
    var live := Live(s.graph, RouteType);
    AnswersReplayed(order, live, RouteType, s, m, sent);
    RoutesAfterMessage(order, s, m, sent, live);
    IntakeRequested(s, m, RouteType);
    if m.typeUrl == RouteType {
      DroppedByName(s, m);
      NothingOrphaned(s, m);
    } else {
      RoutesGone(s, m);
      NewRoutesStay(s, m);
    }
  }

  lemma NothingOrphaned(s: ClientState, m: Message)
    requires Invariant(s) && WellTyped(m) && m.typeUrl == RouteType
    ensures !OrphansNewRoute(s, m)
  {
    PruneInClosedForm(s, m);
    OrphansAreLeaves(TakeAll(s, m).graph, m.typeUrl, Present(TakeAll(s, m).graph, m.typeUrl, m.removed));
  }

  /** Only names without a node are ever subscribed to: a name that was lost is not subscribed to again while its node stays. */
  lemma LostStaysLost(order: Order, s: ClientState, m: Message, sent: seq<Request>, subscribed: set<string>, t: TypeUrl, n: string)
    requires Answers(s, m, sent) && Followed(t) && n in Live(s.graph, t) && n !in subscribed
    ensures n !in Replay(order, subscribed, t, sent)
  {
    AnswersReplayed(order, subscribed, t, s, m, sent);
    IntakeRequested(s, m, t);
  }

  // ----- some answer always exists -----

  lemma {:induction false} ListOf(types: set<TypeUrl>) returns (list: seq<TypeUrl>)
    ensures multiset(list) == multiset(types)
  {
    list := [];
    if types != {} {
      var t :| t in types;
      var rest := ListOf(types - {t});
      assert multiset(types) == multiset(types - {t}) + multiset{t};
      list := rest + [t];
    }
  }

  lemma {:induction false} CutTexts(cut: set<Edge>, t: TypeUrl) returns (names: seq<string>)
    ensures CutNames(cut, t, names)
  {
    names := [];
    if cut == {} {
      forall n ensures |Into(cut, Key(t, n))| == 0 {
        assert Into(cut, Key(t, n)) == {};
      }
    } else {
      var e :| e in cut;
      var rest := CutTexts(cut - {e}, t);
      names := if e.1.typeUrl == t && e.1.name.Interned? then rest + [e.1.name.value] else rest;
      assert cut == cut - {e} + {e};
      forall n ensures multiset(names)[n] == |Into(cut, Key(t, n))| {
        assert multiset(rest)[n] == |Into(cut - {e}, Key(t, n))|;
        IntoOne(cut - {e}, e, Key(t, n));
      }
    }
  }

  lemma SomeOwed(requests: Names, cut: set<Edge>, t: TypeUrl) returns (r: Request)
    requires AllInterned(requests)
    ensures Owed(requests, cut, r) && r.typeUrl == t
  {
    var names := Listed(requests, t);
    var cutNames := CutTexts(cut, t);
    r := Request(t, seq(|names|, i requires 0 <= i < |names| && names[i].Interned? => names[i].value), cutNames, "");
  }

  lemma {:induction false} AllOwed(requests: Names, cut: set<Edge>, types: seq<TypeUrl>) returns (sent: seq<Request>)
    requires AllInterned(requests)
    ensures TypesOf(sent) == types && forall r :: r in sent ==> Owed(requests, cut, r)
  {
    sent := [];
    if types != [] {
      var front := AllOwed(requests, cut, types[..|types| - 1]);
      var r := SomeOwed(requests, cut, types[|types| - 1]);
      sent := front + [r];
      assert TypesOf(sent) == TypesOf(front) + [r.typeUrl];
    }
  }

  /** Every message has an answer, so every stream of well-typed messages makes a legal run. */
  lemma Answerable(s: ClientState, m: Message) returns (sent: seq<Request>)
    ensures Answers(s, m, sent)
  {
    var requests, cut := TakeAll(s, m).requests, Prune(s, m).cut;
    RequestsInterned(s, m);
    var a := ListOf(requests.Keys);
    var b := ListOf(CutTypes(cut));
    var front := AllOwed(requests, cut, a + b);
    sent := front + [Request(m.typeUrl, [], [], m.nonce)];
    assert sent[..|sent| - 1] == front;
  }
}
