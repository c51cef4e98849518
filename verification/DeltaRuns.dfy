/** What holds after every run of delta messages, and what a server has been asked for along the way. */
module DeltaRuns {
  import opened Xds
  import opened DeltaGraph
  import opened DeltaHeap
  import opened DeltaSpec

  // ----- the shape of reachable graphs -----

  predicate IsRoot(k: ResourceKey) {
    k == ListenerRoot || k == ClusterRoot
  }

  /** Edges run only root to cluster or listener, cluster to its own endpoint, and listener to route. */
  predicate Shaped(e: Edge) {
    || (e.0 == ListenerRoot && e.1.name.Interned? && e.1.typeUrl == ListenerType)
    || (e.0 == ClusterRoot && e.1.name.Interned? && e.1.typeUrl == ClusterType)
    || (e.0.name.Interned? && e.0.typeUrl == ClusterType && e.1 == ResourceKey(e.0.name, EndpointType))
    || (e.0.name.Interned? && e.0.typeUrl == ListenerType && e.1.name.Interned? && e.1.typeUrl == RouteType)
  }

  predicate NeedsParent(k: ResourceKey) {
    k.name.Interned? && (k.typeUrl == ClusterType || k.typeUrl == ListenerType || k.typeUrl == EndpointType || k.typeUrl == RouteType)
  }

  ghost predicate HasParent(g: Graph, k: ResourceKey) {
    exists p :: (p, k) in g.edges
  }

  ghost predicate Layered(g: Graph) {
    && WellKeyed(g)
    && (forall e :: e in g.edges ==> Shaped(e))
    && (forall k :: k in g.nodes && k.name == Zero ==> IsRoot(k))
    && (forall k :: k in g.nodes && NeedsParent(k) ==> HasParent(g, k))
  }

  /** For every type that keeps nodes of its own, the known names are the names of its nodes. */
  ghost predicate NamesAgree(g: Graph, t: TypeUrl, names: set<Name>) {
    && (forall n :: n in names ==> n.Interned?)
    && (HasChildTypes(t) ==> forall n: Name :: n.Interned? ==> (n in names <==> ResourceKey(n, t) in g.nodes))
  }

  ghost predicate Invariant(s: ClientState) {
    && Layered(s.graph)
    && (forall t :: NamesAgree(s.graph, t, Known(s.resources, t)))
  }

  /** Among the types with nodes of their own, only t changes. */
  ghost predicate OtherTypesKept(g: Graph, g': Graph, t: TypeUrl) {
    forall k: ResourceKey :: k.typeUrl != t && HasChildTypes(k.typeUrl) ==> (k in g'.nodes <==> k in g.nodes)
  }

  /** A path of edges from a root. */
  ghost predicate PathFromRoot(g: Graph, path: seq<ResourceKey>, k: ResourceKey) {
    && path != [] && IsRoot(path[0]) && path[0] in g.nodes && path[|path| - 1] == k
    && forall i :: 0 <= i < |path| - 1 ==> (path[i], path[i + 1]) in g.edges
  }

  lemma ReachedFromRoot(g: Graph, k: ResourceKey) returns (path: seq<ResourceKey>)
    requires Layered(g) && k in g.nodes && (NeedsParent(k) || IsRoot(k))
    ensures PathFromRoot(g, path, k) && |path| <= 3
  {
    if IsRoot(k) {
      return [k];
    }
    var p :| (p, k) in g.edges;
    if IsRoot(p) {
      return [p, k];
    }
    assert Shaped((p, k)) && NeedsParent(p);
    var q :| (q, p) in g.edges;
    assert Shaped((q, p));
    return [q, p, k];
  }

  // ----- taking in resources keeps the shape -----

  lemma {:induction false} TakeReferencesLayered(w: Intake, from: ResourceKey, refs: seq<ResourceKey>)
    requires Layered(w.graph) && from in w.graph.nodes
    requires forall k :: k in refs ==> Shaped((from, k))
    ensures Layered(TakeReferences(w, from, refs).graph)
    ensures forall k :: k in TakeReferences(w, from, refs).graph.nodes <==> k in w.graph.nodes || k in refs
  {
    if refs != [] {
      var front, last := refs[..|refs| - 1], refs[|refs| - 1];
      assert refs == front + [last];
      TakeReferencesLayered(w, from, front);
      TakeReferencesGrow(w, from, front);
      var g, g' := TakeReferences(w, from, front).graph, TakeReferences(w, from, refs).graph;
      assert Shaped((from, last));
      forall k | k in g'.nodes && NeedsParent(k) ensures HasParent(g', k) {
        if k == last {
          assert (from, k) in g'.edges;
        } else {
          var p :| (p, k) in g.edges;
          assert (p, k) in g'.edges;
        }
      }
    }
  }

  lemma RegisterLayered(w: Intake, t: TypeUrl, key: ResourceKey)
    requires Layered(w.graph) && key.name.Interned? && key.typeUrl == t
    ensures Layered(Register(w, t, key).graph)
  {
    var g, g' := w.graph, Register(w, t, key).graph;
    forall k | k in g'.nodes && NeedsParent(k) ensures HasParent(g', k) {
      if k in g.nodes {
        var p :| (p, k) in g.edges;
        assert (p, k) in g'.edges;
      } else {
        assert (ListenerRoot, k) in g'.edges || (ClusterRoot, k) in g'.edges;
      }
    }
  }

  lemma ReferencesShaped(t: TypeUrl, r: Resource)
    requires WellTyped(Message(t, [r], [], ""))
    ensures forall k :: k in References(r) ==> Shaped((Key(t, r.name), k)) && !HasChildTypes(k.typeUrl)
    ensures References(r) != [] ==> HasChildTypes(t)
  {
    assert r in [r];
  }

  lemma RegisterNames(w: Intake, t: TypeUrl, key: ResourceKey)
    requires NamesAgree(w.graph, t, w.names) && key.name.Interned? && key.typeUrl == t && !Ignored(w, t, key)
    ensures NamesAgree(Register(w, t, key).graph, t, Register(w, t, key).names)
    ensures OtherTypesKept(w.graph, Register(w, t, key).graph, t)
    ensures HasChildTypes(t) ==> key in Register(w, t, key).graph.nodes
  {
  }

  /** One resource: the graph stays layered and only its own name is added among types with nodes. */
  lemma TakeResourceInvariant(w: Intake, t: TypeUrl, r: Resource)
    requires Layered(w.graph) && NamesAgree(w.graph, t, w.names) && WellTyped(Message(t, [r], [], ""))
    ensures var w' := TakeResource(w, t, r);
      && Layered(w'.graph) && NamesAgree(w'.graph, t, w'.names)
      && OtherTypesKept(w.graph, w'.graph, t)
  {
    var key := Key(t, r.name);
    if !Ignored(w, t, key) {
      var w1, refs := Register(w, t, key), References(r);
      RegisterLayered(w, t, key);
      RegisterNames(w, t, key);
      ReferencesShaped(t, r);
      TakeReferencesNames(w1, key, refs);
      if refs != [] {
        TakeReferencesLayered(w1, key, refs);
      }
    }
  }

  lemma {:induction false} TakeResourcesInvariant(w: Intake, t: TypeUrl, rs: seq<Resource>)
    requires Layered(w.graph) && NamesAgree(w.graph, t, w.names) && WellTyped(Message(t, rs, [], ""))
    ensures var w' := TakeResources(w, t, rs);
      && Layered(w'.graph) && NamesAgree(w'.graph, t, w'.names)
      && OtherTypesKept(w.graph, w'.graph, t)
  {
    if rs != [] {
      var front, last := rs[..|rs| - 1], rs[|rs| - 1];
      assert forall r :: r in front ==> r in rs;
      TakeResourcesInvariant(w, t, front);
      assert last in rs;
      TakeResourceInvariant(TakeResources(w, t, front), t, last);
    }
  }

  // ----- what removing names does to a layered graph, in closed form -----

  ghost function Present(g: Graph, t: TypeUrl, names: seq<string>): set<ResourceKey> {
    set n | n in names && Key(t, n) in g.nodes :: Key(t, n)
  }

  ghost function OrphansOf(g: Graph, gone: set<ResourceKey>): set<ResourceKey> {
    set k | k in g.nodes && Orphaned(g.edges, gone, k)
  }

  /** The graph without the removed keys and the nodes that lose their last parent; every edge out of a removed key is cut. */
  ghost function Removed(g: Graph, gone: set<ResourceKey>): Pruning {
    Pruning(
      Without(g, gone + OrphansOf(g, gone)),
      set e | e in g.edges && e.0 in gone)
  }

  /** In a layered graph a delete takes the node and the children that have no other parent. */
  lemma CascadeInLayers(g: Graph, start: ResourceKey)
    requires Layered(g) && start in g.nodes && start.name.Interned?
    ensures Cascade(g.edges, start) == {start} + OrphansOf(g, {start})
    ensures forall e :: e in g.edges && e.0 in Cascade(g.edges, start) ==> e.0 == start
  {
    var gone := {start} + OrphansOf(g, {start});
    CascadeIsLeastClosed(g.edges, start);
    var cascade := Cascade(g.edges, start);
    forall k | k in OrphansOf(g, {start}) ensures k in cascade {
      OrphanedMonotone(g.edges, {start}, cascade, k);
    }
    OneLayerIsClosed(g, start);
  }

  /** The orphans of one node have no children, so there is no second round. */
  lemma OneLayerIsClosed(g: Graph, start: ResourceKey)
    requires Layered(g) && start in g.nodes && start.name.Interned?
    ensures var gone := {start} + OrphansOf(g, {start});
      Closed(g.edges, gone) && forall e :: e in g.edges && e.0 in gone ==> e.0 == start
  {
    var gone := {start} + OrphansOf(g, {start});
    forall e | e in g.edges && e.0 in gone ensures e.0 == start {
      assert e.0 != start ==> (start, e.0) in g.edges && Shaped((start, e.0)) && Shaped(e);
    }
    forall k | Orphaned(g.edges, gone, k) ensures k in gone {
      var p :| p in gone && (p, k) in g.edges;
      assert (p, k).0 == start;
      assert forall q :: (q, k) in g.edges ==> (q, k).0 == start;
    }
  }

  /** The removed keys all have one type, as the names of one message do. */
  ghost predicate OneType(g: Graph, t: TypeUrl, gone: set<ResourceKey>) {
    forall k :: k in gone ==> k in g.nodes && k.typeUrl == t && k.name.Interned?
  }

  /** Children of removed keys have no children of their own and another type. */
  lemma OrphansAreLeaves(g: Graph, t: TypeUrl, gone: set<ResourceKey>)
    requires Layered(g) && OneType(g, t, gone)
    ensures forall e :: e in g.edges && e.0 in gone ==> e.1.typeUrl != t && !HasChildTypes(e.1.typeUrl) && e.1 !in gone
    ensures forall e :: e in g.edges ==> e.0 !in OrphansOf(g, gone)
    ensures forall k :: k in OrphansOf(g, gone) ==> k.typeUrl != t && !HasChildTypes(k.typeUrl)
  {
    forall e | e in g.edges && e.0 in gone
      ensures e.1.typeUrl != t && !HasChildTypes(e.1.typeUrl) && e.1 !in gone
    {
      assert Shaped(e);
    }
    forall k | k in OrphansOf(g, gone)
      ensures k.typeUrl != t && !HasChildTypes(k.typeUrl) && k !in set e | e in g.edges :: e.0
    {
      var p :| p in gone && (p, k) in g.edges;
      assert Shaped((p, k));
      assert forall e :: e in g.edges ==> Shaped(e);
    }
  }

  lemma RemovedLayered(g: Graph, t: TypeUrl, gone: set<ResourceKey>)
    requires Layered(g) && OneType(g, t, gone)
    ensures Layered(Removed(g, gone).graph)
  {
    OrphansAreLeaves(g, t, gone);
    var g' := Removed(g, gone).graph;
    forall k | k in g'.nodes && NeedsParent(k) ensures HasParent(g', k) {
      var q :| (q, k) in g.edges;
      assert k !in OrphansOf(g, gone);
      assert q in gone ==> HasParentIn(g.edges, gone, k);
      var p :| (p, k) in g.edges && p !in gone;
      assert (p, k).0 !in OrphansOf(g, gone);
      assert (p, k) in g'.edges;
    }
    assert forall k :: IsRoot(k) ==> k !in OrphansOf(g, gone);
  }

  lemma WithoutTwice(g: Graph, first: set<ResourceKey>, second: set<ResourceKey>)
    ensures Without(Without(g, first), second) == Without(g, first + second)
  {
  }

  lemma RemoveOneMore(g: Graph, t: TypeUrl, gone: set<ResourceKey>, key: ResourceKey)
    requires Layered(g) && OneType(g, t, gone + {key}) && key !in gone
    ensures RemoveName(Removed(g, gone), key) == Removed(g, gone + {key})
  {
    var p, more := Removed(g, gone), gone + {key};
    var orphans := OrphansOf(p.graph, {key});
    KeyStays(g, t, gone, key);
    RemovedLayered(g, t, gone);
    CascadeInLayers(p.graph, key);
    OrphansAddUp(g, t, gone, key);
    WithoutTwice(g, gone + OrphansOf(g, gone), {key} + orphans);
    assert gone + OrphansOf(g, gone) + ({key} + orphans) == more + OrphansOf(g, more);
    CutOneMore(g, t, gone, key);
  }

  lemma KeyStays(g: Graph, t: TypeUrl, gone: set<ResourceKey>, key: ResourceKey)
    requires Layered(g) && OneType(g, t, gone + {key}) && key !in gone
    ensures key in Removed(g, gone).graph.nodes
  {
    OrphansAreLeaves(g, t, gone);
    assert key in gone + {key};
  }

  lemma CutOneMore(g: Graph, t: TypeUrl, gone: set<ResourceKey>, key: ResourceKey)
    requires Layered(g) && OneType(g, t, gone + {key}) && key !in gone
    requires var p := Removed(g, gone).graph;
      && key in p.nodes
      && (forall e :: e in p.edges && e.0 in Cascade(p.edges, key) ==> e.0 == key)
      && key in Cascade(p.edges, key)
    ensures Removed(g, gone).cut + Out(Removed(g, gone).graph.edges, Cascade(Removed(g, gone).graph.edges, key), key)
         == Removed(g, gone + {key}).cut
  {
    OrphansAddUp(g, t, gone, key);
    OrphansAreLeaves(g, t, gone + {key});
  }

  /** What leaves the next key is still there when the keys before it and their orphans are gone. */
  lemma EdgesStay(g: Graph, t: TypeUrl, gone: set<ResourceKey>, key: ResourceKey)
    requires Layered(g) && OneType(g, t, gone + {key}) && key !in gone
    ensures forall e :: e in g.edges && e.0 == key && e.1 !in OrphansOf(g, gone) ==> e in Removed(g, gone).graph.edges
    ensures forall e :: e in g.edges && e.0 == key ==> e.1 !in OrphansOf(g, gone) && e.1 !in gone
  {
    OrphansAreLeaves(g, t, gone);
    OrphansAreLeaves(g, t, gone + {key});
    KeyStays(g, t, gone, key);
  }

  lemma OrphansStay(g: Graph, t: TypeUrl, gone: set<ResourceKey>, key: ResourceKey, k: ResourceKey)
    requires Layered(g) && OneType(g, t, gone + {key}) && key !in gone
    requires k in OrphansOf(g, gone) || k in OrphansOf(Removed(g, gone).graph, {key})
    ensures k in OrphansOf(g, gone + {key})
  {
    var g', more := Removed(g, gone).graph, gone + {key};
    OrphansAreLeaves(g, t, gone);
    if k in OrphansOf(g, gone) {
      OrphanedMonotone(g.edges, gone, more, k);
    } else {
      assert (key, k) in g.edges;
      forall q | (q, k) in g.edges ensures q in more {
        assert q !in gone ==> (q, k) in g'.edges;
      }
    }
  }

  lemma OrphansAreNew(g: Graph, t: TypeUrl, gone: set<ResourceKey>, key: ResourceKey, k: ResourceKey)
    requires Layered(g) && OneType(g, t, gone + {key}) && key !in gone
    requires k in OrphansOf(g, gone + {key}) && k !in OrphansOf(g, gone)
    ensures k in OrphansOf(Removed(g, gone).graph, {key})
  {
    var q :| q in gone + {key} && (q, k) in g.edges;
    EdgesStay(g, t, gone, key);
    if (key, k) !in g.edges {
      assert HasParentIn(g.edges, gone, k);
      assert false;
    }
    assert (key, k) in Removed(g, gone).graph.edges;
  }

  lemma OrphansAddUp(g: Graph, t: TypeUrl, gone: set<ResourceKey>, key: ResourceKey)
    requires Layered(g) && OneType(g, t, gone + {key}) && key !in gone
    ensures OrphansOf(g, gone + {key}) == OrphansOf(g, gone) + OrphansOf(Removed(g, gone).graph, {key})
    ensures forall e :: e in g.edges && e.0 == key ==> e in Removed(g, gone).graph.edges
  {
    EdgesStay(g, t, gone, key);
    forall k ensures k in OrphansOf(g, gone + {key}) <==> k in OrphansOf(g, gone) || k in OrphansOf(Removed(g, gone).graph, {key}) {
      if k in OrphansOf(g, gone) || k in OrphansOf(Removed(g, gone).graph, {key}) {
        OrphansStay(g, t, gone, key, k);
      } else if k in OrphansOf(g, gone + {key}) {
        OrphansAreNew(g, t, gone, key, k);
      }
    }
  }

  /** Removing names one by one does what removing them at once does. */
  lemma {:induction false} RemoveNamesAtOnce(g: Graph, t: TypeUrl, names: seq<string>)
    requires Layered(g)
    ensures RemoveNames(Pruning(g, {}), t, names) == Removed(g, Present(g, t, names))
  {
    if names == [] {
      assert Present(g, t, names) == {};
      assert Without(g, {}) == g;
    } else {
      var front, key := names[..|names| - 1], Key(t, names[|names| - 1]);
      var gone := Present(g, t, front);
      assert names == front + [names[|names| - 1]];
      RemoveNamesAtOnce(g, t, front);
      if key !in g.nodes || key in gone {
        assert Present(g, t, names) == gone;
      } else {
        assert Present(g, t, names) == gone + {key};
        RemoveOneMore(g, t, gone, key);
      }
    }
  }

  /** What a message leaves behind, in terms of the graph once its resources are taken in. */
  lemma PruneInClosedForm(s: ClientState, m: Message)
    requires Invariant(s) && WellTyped(m)
    ensures Layered(TakeAll(s, m).graph)
    ensures NamesAgree(TakeAll(s, m).graph, m.typeUrl, TakeAll(s, m).names)
    ensures OtherTypesKept(s.graph, TakeAll(s, m).graph, m.typeUrl)
    ensures Prune(s, m) == Removed(TakeAll(s, m).graph, Present(TakeAll(s, m).graph, m.typeUrl, m.removed))
    ensures OneType(TakeAll(s, m).graph, m.typeUrl, Present(TakeAll(s, m).graph, m.typeUrl, m.removed))
  {
    var w := Intake(s.graph, Known(s.resources, m.typeUrl), map[]);
    assert WellTyped(Message(m.typeUrl, m.resources, [], ""));
    TakeResourcesInvariant(w, m.typeUrl, m.resources);
    RemoveNamesAtOnce(TakeAll(s, m).graph, m.typeUrl, m.removed);
  }

  lemma InitialInvariant()
    ensures Invariant(Initial)
  {
  }

  lemma StepInvariant(s: ClientState, m: Message)
    requires Invariant(s) && WellTyped(m)
    ensures Invariant(Step(s, m))
  {
    PruneInClosedForm(s, m);
    var g, gone := TakeAll(s, m).graph, Present(TakeAll(s, m).graph, m.typeUrl, m.removed);
    RemovedLayered(g, m.typeUrl, gone);
    OrphansAreLeaves(g, m.typeUrl, gone);
    var s' := Step(s, m);
    forall t ensures NamesAgree(s'.graph, t, Known(s'.resources, t)) {
      assert NamesAgree(s.graph, t, Known(s.resources, t));
      if HasChildTypes(t) {
        forall n: Name | n.Interned? ensures n in Known(s'.resources, t) <==> ResourceKey(n, t) in s'.graph.nodes {
          assert t == m.typeUrl ==> (ResourceKey(n, t) in gone <==> n in Handles(m.removed) && ResourceKey(n, t) in g.nodes) by {
            if t == m.typeUrl && n in Handles(m.removed) {
              assert Key(t, n.value) == ResourceKey(n, t);
            }
          }
        }
      }
    }
  }

  // ----- runs -----

  /** A message received and what the client sent for it. */
  datatype Event = Event(msg: Message, sent: seq<Request>)

  ghost function StateAfter(run: seq<Event>): ClientState {
    if run == [] then Initial else Step(StateAfter(run[..|run| - 1]), run[|run| - 1].msg)
  }

  ghost predicate Legal(run: seq<Event>) {
    run == [] || (Legal(run[..|run| - 1]) && LegalNext(StateAfter(run[..|run| - 1]), run[|run| - 1]))
  }

  ghost predicate LegalNext(s: ClientState, e: Event) {
    WellTyped(e.msg) && Answers(s, e.msg, e.sent)
  }

  function MessagesOf(run: seq<Event>): seq<Message> {
    if run == [] then [] else MessagesOf(run[..|run| - 1]) + [run[|run| - 1].msg]
  }

  function SentIn(run: seq<Event>): seq<Request> {
    if run == [] then [] else SentIn(run[..|run| - 1]) + run[|run| - 1].sent
  }

  lemma SentMore(run: seq<Event>, e: Event)
    ensures SentIn(run + [e]) == SentIn(run) + e.sent
    ensures MessagesOf(run + [e]) == MessagesOf(run) + [e.msg]
  {
    assert (run + [e])[..|run|] == run;
  }

  lemma LegalMore(run: seq<Event>, e: Event)
    requires Legal(run) && LegalNext(StateAfter(run), e)
    ensures Legal(run + [e]) && StateAfter(run + [e]) == Step(StateAfter(run), e.msg)
  {
    assert (run + [e])[..|run|] == run;
  }

  /** Every reachable state: layered, rooted, and known names equal to the nodes for each type with nodes. */
  lemma {:induction false} RunInvariant(run: seq<Event>)
    requires Legal(run)
    ensures Invariant(StateAfter(run))
  {
    if run == [] {
      InitialInvariant();
    } else {
      var before, last := run[..|run| - 1], run[|run| - 1];
      RunInvariant(before);
      assert LegalNext(StateAfter(before), last);
      StepInvariant(StateAfter(before), last.msg);
    }
  }

  // ----- known names as a plain fold -----

  function Received(m: Message): set<Name> {
    set r | r in m.resources :: Interned(r.name)
  }

  /** Old names and received names, less the removed ones, message by message. */
  function FoldNames(run: seq<Event>, t: TypeUrl): set<Name> {
    if run == [] then {}
    else
      var before, m := FoldNames(run[..|run| - 1], t), run[|run| - 1].msg;
      if m.typeUrl == t then before + Received(m) - Handles(m.removed) else before
  }

  lemma {:induction false} WildcardIntake(w: Intake, t: TypeUrl, rs: seq<Resource>)
    requires IsWildcard(t)
    ensures TakeResources(w, t, rs).names == w.names + set r | r in rs :: Interned(r.name)
  {
    if rs != [] {
      var front, r := rs[..|rs| - 1], rs[|rs| - 1];
      assert rs == front + [r];
      WildcardIntake(w, t, front);
      var w' := TakeResources(w, t, front);
      TakeReferencesNames(Register(w', t, Key(t, r.name)), Key(t, r.name), References(r));
    }
  }

  /** Wildcard types never drop a resource, so what is known is the fold; a step adds exactly the names new to it. */
  lemma {:induction false} WildcardNamesAreTheFold(run: seq<Event>, t: TypeUrl)
    requires IsWildcard(t)
    ensures Known(StateAfter(run).resources, t) == FoldNames(run, t)
    ensures forall m: Message :: m.typeUrl == t ==>
      TakeAll(StateAfter(run), m).names - Known(StateAfter(run).resources, t) == Received(m) - FoldNames(run, t)
  {
    if run != [] {
      var before, last := run[..|run| - 1], run[|run| - 1].msg;
      WildcardNamesAreTheFold(before, t);
      if last.typeUrl == t {
        WildcardIntake(Intake(StateAfter(before).graph, Known(StateAfter(before).resources, t), map[]), t, last.resources);
      }
    }
    forall m: Message | m.typeUrl == t
      ensures TakeAll(StateAfter(run), m).names == Known(StateAfter(run).resources, t) + Received(m)
    {
      WildcardIntake(Intake(StateAfter(run).graph, Known(StateAfter(run).resources, t), map[]), t, m.resources);
    }
  }
}
