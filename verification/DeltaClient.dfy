/** The delta xDS client: one call of HandleMessage is one turn of its receive loop. */
module DeltaClient {
  import opened Xds
  import opened DeltaGraph
  import opened DeltaHeap
  import opened DeltaSpec
  import opened DeltaRuns

  lemma ValuesAfter(tree: Tree, key: ResourceKey, node: ResourceNode)
    requires key !in tree
    ensures tree[key := node].Values == tree.Values + {node}
  {
    var after := tree[key := node];
    assert after[key] == node;
    forall v | v in tree.Values ensures v in after.Values {
      var k :| k in tree && tree[k] == v;
      assert after[k] == v;
    }
  }

  lemma FilterRoutesStep(done: seq<string>, filters: seq<Filter>, j: nat)
    requires j < |filters|
    ensures RouteKeys(done + FilterRoutes(filters[..j + 1]))
         == RouteKeys(done + FilterRoutes(filters[..j])) + RouteKeys(FilterRoute(filters[j]))
  {
    assert filters[..j + 1][..j] == filters[..j];
    assert done + FilterRoutes(filters[..j + 1]) == done + FilterRoutes(filters[..j]) + FilterRoute(filters[j]);
  }

  lemma ChainRoutesStep(chains: seq<FilterChain>, i: nat)
    requires i < |chains|
    ensures ChainRoutes(chains[..i + 1]) == ChainRoutes(chains[..i]) + FilterRoutes(chains[i].filters)
  {
    assert chains[..i + 1][..i] == chains[..i];
  }

  lemma ReferencesInterned(r: Resource)
    ensures forall k :: k in References(r) ==> k.name.Interned?
  {
  }

  lemma ReferencesNeedNode(t: TypeUrl, r: Resource)
    requires WellTyped(Message(t, [r], [], ""))
    ensures References(r) != [] ==> t == ClusterType || t == ListenerType
  {
    assert r in [r];
  }

  lemma OneWellTyped(m: Message, i: nat)
    requires WellTyped(m) && i < |m.resources|
    ensures WellTyped(Message(m.typeUrl, [m.resources[i]], [], ""))
  {
    assert m.resources[i] in m.resources;
  }

  function Texts(names: seq<Name>): seq<string>
    requires forall i :: 0 <= i < |names| ==> names[i].Interned?
  {
    seq(|names|, i requires 0 <= i < |names| => names[i].value)
  }

  lemma {:induction false} TextsCount(names: seq<Name>, n: string)
    requires forall i :: 0 <= i < |names| ==> names[i].Interned?
    ensures multiset(Texts(names))[n] == multiset(names)[Interned(n)]
  {
    if names != [] {
      var front := names[..|names| - 1];
      TextsCount(front, n);
      assert names == front + [names[|names| - 1]];
      assert Texts(names) == Texts(front) + [names[|names| - 1].value];
    }
  }

  lemma TakeReferencesStep(w: Intake, from: ResourceKey, refs: seq<ResourceKey>, i: nat)
    requires i < |refs|
    ensures TakeReferences(w, from, refs[..i + 1]) == TakeReference(TakeReferences(w, from, refs[..i]), from, refs[i])
  {
    assert refs[..i + 1][..i] == refs[..i];
  }

  lemma TakeResourcesStep(w: Intake, t: TypeUrl, rs: seq<Resource>, i: nat)
    requires i < |rs|
    ensures TakeResources(w, t, rs[..i + 1]) == TakeResource(TakeResources(w, t, rs[..i]), t, rs[i])
  {
    assert rs[..i + 1][..i] == rs[..i];
  }

  lemma RemoveNamesStep(p: Pruning, t: TypeUrl, names: seq<string>, i: nat)
    requires i < |names|
    ensures RemoveNames(p, t, names[..i + 1]) == RemoveName(RemoveNames(p, t, names[..i]), Key(t, names[i]))
  {
    assert names[..i + 1][..i] == names[..i];
  }

  lemma CountAdded(known: set<Name>, names: set<Name>)
    requires known <= names
    ensures |names| - |known| == |names - known|
  {
    assert names == known + (names - known);
  }

  lemma TextsMatch(requests: Names, removals: Names, cut: set<Edge>, t: TypeUrl)
    requires Tallied(removals, cut) && AllInterned(requests) && AllInterned(removals)
    ensures Owed(requests, cut, Request(t, Texts(Listed(requests, t)), Texts(Listed(removals, t)), ""))
  {
    forall n ensures multiset(Texts(Listed(removals, t)))[n] == |Into(cut, Key(t, n))| {
      TextsCount(Listed(removals, t), n);
      assert Count(removals, Key(t, n)) == |Into(cut, Key(t, n))|;
    }
  }

  /** The lists hold the names of interned targets only, so printing them is safe, and a type is listed when it was cut. */
  lemma TalliedInterned(removals: Names, cut: set<Edge>)
    requires Tallied(removals, cut) && forall e :: e in cut ==> e.1.name.Interned?
    ensures AllInterned(removals) && removals.Keys == CutTypes(cut)
  {
    forall t, i | t in removals && 0 <= i < |removals[t]|
      ensures removals[t][i].Interned? && t in CutTypes(cut)
    {
      var k := ResourceKey(removals[t][i], t);
      assert k.name in multiset(removals[t]);
      assert Count(removals, k) == |Into(cut, k)|;
      var e :| e in Into(cut, k);
    }
    forall t | t in removals ensures t in CutTypes(cut) {
      assert removals[t][0] == removals[t][0];
    }
    forall e | e in cut ensures e.1.typeUrl in removals {
      assert e in Into(cut, e.1);
      assert Count(removals, e.1) > 0;
    }
  }

  /** The keys of the first map in any order, then those of the second. */
  method KeysOfMaps(a: Names, b: Names) returns (res: seq<TypeUrl>)
    ensures multiset(res) == multiset(a.Keys) + multiset(b.Keys)
  {
    res := KeysInAnyOrder(a);
    var more := KeysInAnyOrder(b);
    res := res + more;
  }

  method KeysInAnyOrder(a: Names) returns (res: seq<TypeUrl>)
    ensures multiset(res) == multiset(a.Keys)
  {
    res := [];
    var left := a.Keys;
    while left != {}
      invariant left <= a.Keys && multiset(res) + multiset(left) == multiset(a.Keys)
    {
      var t :| t in left;
      res := res + [t];
      left := left - {t};
    }
  }

  lemma Turn(before: seq<Event>, events: seq<Event>, e: Event)
    requires Legal(before + events) && LegalNext(StateAfter(before + events), e)
    ensures Legal(before + (events + [e]))
    ensures StateAfter(before + (events + [e])) == Step(StateAfter(before + events), e.msg)
    ensures SentIn(events + [e]) == SentIn(events) + e.sent
    ensures MessagesOf(events + [e]) == MessagesOf(events) + [e.msg]
  {
    LegalMore(before + events, e);
    SentMore(events, e);
    assert before + (events + [e]) == before + events + [e];
  }

  lemma SentSplit(had: seq<Request>, mine: seq<Request>, sent: seq<Request>)
    requires |had + mine| <= |sent| && sent[..|had + mine|] == had + mine
    ensures sent == had + (mine + sent[|had + mine|..])
  {
  }

  lemma Take(inbox: seq<Message>, i: nat)
    requires i < |inbox|
    ensures inbox[..i + 1] == inbox[..i] + [inbox[i]] && inbox[i] in inbox
  {
  }

  class Client {
    const initialWatches: seq<TypeUrl>
    var resources: map<TypeUrl, set<Name>>
    var tree: Tree
    var sent: seq<Request>  // everything handed to the stream
    ghost var edges: set<Edge>

    ghost predicate Valid()
      reads this, tree.Values
    {
      && Indexed(tree)
      && Linked(tree, edges, edges)
      && WellKeyed(Graph(tree.Keys, edges))
    }

    ghost function State(): ClientState
      reads this
    {
      ClientState(Graph(tree.Keys, edges), resources)
    }

    /** A dialled client; ztunnels watch other types first. */
    constructor (ztunnel: bool)
      ensures Valid() && fresh(tree.Values)
      ensures State() == Initial && sent == []
      ensures initialWatches == if ztunnel then [AddressType, WorkloadAuthorizationType] else [ClusterType, ListenerType]
    {
      var listener := new ResourceNode(ListenerRoot);
      var cluster := new ResourceNode(ClusterRoot);
      initialWatches := InitialWatches(ztunnel);
      resources := map[];
      tree := map[ListenerRoot := listener, ClusterRoot := cluster];
      sent := [];
      edges := {};
    }

    /** Subscribes to the first two types as wildcards. */
    method Watch()
      modifies this`sent
      ensures sent == old(sent) + seq(|initialWatches|, i requires 0 <= i < |initialWatches| => Request(initialWatches[i], [], [], ""))
    {
      for i := 0 to |initialWatches|
        invariant sent == old(sent) + seq(i, j requires 0 <= j < |initialWatches| => Request(initialWatches[j], [], [], ""))
      {
        sent := sent + [Request(initialWatches[i], [], [], "")];
      }
    }

    /** Finds a node or makes one with no links. */
    method GetNode(key: ResourceKey) returns (node: ResourceNode, found: bool)
      requires Indexed(tree) && Linked(tree, edges, edges) && Within(edges, tree.Keys)
      modifies this`tree
      ensures Indexed(tree) && Linked(tree, edges, edges)
      ensures found == (key in old(tree)) && key in tree && tree[key] == node
      ensures forall k :: k in old(tree) ==> k in tree && tree[k] == old(tree)[k]
      ensures tree.Keys == old(tree).Keys + {key}
      ensures tree.Values == old(tree.Values) + {node} && (!found ==> fresh(node))
    {
      found := true;
      if key !in tree {
        ghost var before := tree;
        var made := new ResourceNode(key);
        tree := tree[key := made];
        found := false;
        ValuesAfter(before, key, made);
      }
      node := tree[key];
    }

    /** Adds one edge, at both ends. */
    method Relate(parent: ResourceNode, child: ResourceNode)
      requires Indexed(tree) && Linked(tree, edges, edges)
      requires parent.Key in tree && tree[parent.Key] == parent && child.Key in tree && tree[child.Key] == child
      modifies parent`Children, child`Parents, this`edges
      ensures edges == old(edges) + {(parent.Key, child.Key)}
      ensures Linked(tree, edges, edges)
    {
      parent.Children := parent.Children + {child};
      child.Parents := child.Parents + {parent};
      edges := edges + {(parent.Key, child.Key)};
    }

    /** First half of a delete: every parent forgets the node. */
    method Detach(ghost all: Tree, node: ResourceNode, ghost up: set<Edge>, ghost down: set<Edge>)
      requires Indexed(all) && node.Key in all && all[node.Key] == node
      requires Linked(all, up, down)
      modifies all.Values`Children
      ensures Linked(all, up, set e | e in down && !(e.1 == node.Key && (e.0, node.Key) in up))
    {
      var parents := node.Parents;
      while parents != {}
        invariant parents <= node.Parents == old(node.Parents)
        invariant forall k :: k in all ==> all[k].Parents == old(all[k].Parents)
        invariant forall k :: k in all ==>
          all[k].Children == old(all[k].Children) - if all[k] in node.Parents - parents then {node} else {}
      {
        var p :| p in parents;
        assert p.Key in all && all[p.Key] == p;
        p.Children := p.Children - {node};
        parents := parents - {p};
      }
    }

    /** A child forgets the deleted node. */
    method Cut(ghost all: Tree, node: ResourceNode, child: ResourceNode, ghost up: set<Edge>, ghost down: set<Edge>)
      requires Indexed(all) && node.Key in all && all[node.Key] == node && child.Key in all && all[child.Key] == child
      requires Linked(all, up, down)
      modifies child`Parents
      ensures Linked(all, up - {(node.Key, child.Key)}, down)
      ensures child.Parents == {} <==> forall p :: (p, child.Key) in up - {(node.Key, child.Key)} ==> p !in all
    {
      child.Parents := child.Parents - {node};
      if child.Parents != {} {
        var p :| p in child.Parents;
        assert p.Key in all && all[p.Key] == p;
      }
    }

    /** Takes a node out of the index and out of its parents' child sets. */
    method Unindex(node: ResourceNode, ghost removals: Names, ghost progress: Progress, ghost cutBefore: set<Edge>)
      returns (ghost after: Progress)
      requires Tracks(progress, tree, removals, cutBefore)
      requires progress.MayDelete(node.Key) && progress.all[node.Key] == node
      modifies this`tree, progress.all.Values
      ensures after == progress.(gone := progress.gone + {node.Key})
      ensures Tracks(after, tree, removals, cutBefore)
      ensures after.Sound({}) && after.start in after.gone
      ensures node.Children == Kids(after, node.Key) && ChildrenOf(after, node.Key, node.Children)
    {
      tree := tree - {node.Key};
      Detach(progress.all, node, progress.edges - progress.cut, progress.Down());
      after := progress.(gone := progress.gone + {node.Key});
      DetachStarts(progress, node.Key);
      KidsLinked(after, node.Key);
    }

    /**
      The recursive delete. progress says what an enclosing delete has already done; out-parameter
      after says what has been done when this call returns, for any order in which the sets are walked.
     */
    method DeleteNode(node: ResourceNode, removals: Names, ghost progress: Progress, ghost cutBefore: set<Edge>)
      returns (removals': Names, ghost after: Progress)
      requires Tracks(progress, tree, removals, cutBefore)
      requires progress.MayDelete(node.Key) && progress.all[node.Key] == node
      modifies this`tree, progress.all.Values
      decreases progress.all.Keys - progress.gone, 0
      ensures Tracks(after, tree, removals', cutBefore)
      ensures after.all == progress.all && after.edges == progress.edges && after.start == progress.start
      ensures after.Sound({})
      ensures progress.gone + {node.Key} <= after.gone
      ensures after.cut == progress.cut + Out(after.edges, after.gone - progress.gone, after.start)
    {
      ghost var n := node.Key;
      after := Unindex(node, removals, progress, cutBefore);
      removals' := removals;
      var children := node.Children;
      WalkStarts(progress, after, n);
      while children != {}
        invariant node.Children == Kids(after, n)  // the walk does not disturb the set it walks
        invariant ChildrenOf(after, n, children)
        invariant Tracks(after, tree, removals', cutBefore)
        invariant after.all == progress.all && after.edges == progress.edges && after.start == progress.start
        invariant after.Sound({}) && after.start in after.gone
        invariant progress.gone + {n} <= after.gone
        invariant after.cut == progress.cut + Out(after.edges, after.gone - progress.gone - {n}, after.start) + Walked(after, n, children)
      {
        var child :| child in children;
        removals', after := VisitNext(node, child, removals', after, cutBefore, progress.gone, progress.cut, children);
        children := children - {child};
      }
      WalkedAll(progress, after, n);
    }

    /** One step of the walk over the children of a node deleted when gone nodes were gone and some edges cut. */
    method VisitNext(node: ResourceNode, child: ResourceNode, removals: Names, ghost progress: Progress, ghost cutBefore: set<Edge>,
      ghost gone: set<ResourceKey>, ghost cut: set<Edge>, ghost left: set<ResourceNode>)
      returns (removals': Names, ghost after: Progress)
      requires Tracks(progress, tree, removals, cutBefore)
      requires progress.Sound({}) && progress.start in progress.gone
      requires node.Key in progress.gone && node.Key !in gone && progress.all[node.Key] == node
      requires gone <= progress.gone && cut <= Out(progress.edges, gone, progress.start)
      requires child in left && ChildrenOf(progress, node.Key, left)
      requires progress.cut == cut + Out(progress.edges, progress.gone - gone - {node.Key}, progress.start) + Walked(progress, node.Key, left)
      modifies this`tree, progress.all.Values
      decreases progress.all.Keys - progress.gone, 2
      ensures Tracks(after, tree, removals', cutBefore)
      ensures after.all == progress.all && after.edges == progress.edges && after.start == progress.start
      ensures after.Sound({}) && progress.gone <= after.gone
      ensures after.cut == cut + Out(after.edges, after.gone - gone - {node.Key}, after.start) + Walked(after, node.Key, left - {child})
      ensures node.Children == Kids(after, node.Key) && ChildrenOf(after, node.Key, left - {child})
    {
      NotYetCut(progress, node.Key, left, child, gone, cut);
      removals', after := VisitChild(node, child, removals, progress, cutBefore);
      WalkOne(progress, after, node.Key, left, child, gone, cut);
      KidsLinked(after, node.Key);
    }

    /** One iteration of the loop over a deleted node's children. */
    method VisitChild(node: ResourceNode, child: ResourceNode, removals: Names, ghost progress: Progress, ghost cutBefore: set<Edge>)
      returns (removals': Names, ghost after: Progress)
      requires Tracks(progress, tree, removals, cutBefore)
      requires progress.Sound({}) && progress.start in progress.gone
      requires node.Key in progress.gone && progress.all[node.Key] == node
      requires child.Key in progress.all && progress.all[child.Key] == child && child.Key != progress.start
      requires (node.Key, child.Key) in progress.edges - progress.cut
      modifies this`tree, progress.all.Values
      decreases progress.all.Keys - progress.gone, 1
      ensures Tracks(after, tree, removals', cutBefore)
      ensures after.all == progress.all && after.edges == progress.edges && after.start == progress.start
      ensures after.Sound({})
      ensures progress.gone <= after.gone
      ensures after.cut == progress.cut + {(node.Key, child.Key)} + Out(after.edges, after.gone - progress.gone, after.start)
    {
      ghost var e := (node.Key, child.Key);
      CutOne(progress, node.Key, child.Key);
      Cut(progress.all, node, child, progress.edges - progress.cut, progress.Down());
      TallyOne(removals, cutBefore + progress.cut, e);
      removals' := List(removals, child.Key);
      after := progress.(cut := progress.cut + {e});
      CutProgress(progress, e, cutBefore);
      if child.Parents == {} {
        removals', after := DeleteNode(child, removals', after, cutBefore);
      }
    }

    /** The references of a resource, gathered by walking its filter chains. */
    method ExtractReferencedKeys(r: Resource) returns (res: seq<ResourceKey>)
      ensures res == References(r)
    {
      res := [];
      match r.body {
        case ClusterBody(c) =>
          if !EdsBacked(c) {
            return;
          }
          res := res + [Key(EndpointType, c.name)];
        case ListenerBody(l) =>
          res := RouteReferences(FilterChains(l));
        case OpaqueBody =>
      }
    }

    method RouteReferences(chains: seq<FilterChain>) returns (res: seq<ResourceKey>)
      ensures res == RouteKeys(ChainRoutes(chains))
    {
      res := [];
      for i := 0 to |chains|
        invariant res == RouteKeys(ChainRoutes(chains[..i]))
      {
        var filters := chains[i].filters;
        ghost var done := ChainRoutes(chains[..i]);
        for j := 0 to |filters|
          invariant res == RouteKeys(done + FilterRoutes(filters[..j]))
        {
          var f := filters[j];
          if f.ConnectionManager? && f.rdsName != "" {
            res := res + [Key(RouteType, f.rdsName)];
          }
          FilterRoutesStep(done, filters, j);
        }
        assert filters[..|filters|] == filters;
        ChainRoutesStep(chains, i);
      }
      assert chains[..|chains|] == chains;
    }

    /** Links a node to one thing its resource refers to, and lists a request for it if it was not known. */
    method TakeReferenceOf(node: ResourceNode, key: ResourceKey, requests: Names, ghost w: Intake) returns (requests': Names)
      requires Valid() && node.Key in tree && tree[node.Key] == node && key.name.Interned?
      requires w.graph == State().graph && w.requests == requests
      modifies this`tree, this`edges, tree.Values
      ensures Valid() && fresh(tree.Values - old(tree.Values)) && node.Key in tree && tree[node.Key] == node
      ensures State().graph == TakeReference(w, node.Key, key).graph
      ensures requests' == TakeReference(w, node.Key, key).requests
    {
      requests' := requests;
      var child, found := GetNode(key);
      if !found {
        requests' := List(requests', key);
      }
      Relate(node, child);
    }

    /** Links a node to everything its resource refers to. */
    method TakeReferencesOf(node: ResourceNode, refs: seq<ResourceKey>, requests: Names, ghost w: Intake)
      returns (requests': Names)
      requires Valid() && w.graph == State().graph && w.requests == requests
      requires node.Key in tree && tree[node.Key] == node
      requires forall k :: k in refs ==> k.name.Interned?
      modifies this`tree, this`edges, tree.Values
      ensures Valid() && fresh(tree.Values - old(tree.Values))
      ensures State().graph == TakeReferences(w, node.Key, refs).graph
      ensures requests' == TakeReferences(w, node.Key, refs).requests
    {
      requests' := requests;
      ghost var w' := w;
      for i := 0 to |refs|
        invariant Valid() && fresh(tree.Values - old(tree.Values))
        invariant node.Key in tree && tree[node.Key] == node
        invariant w' == TakeReferences(w, node.Key, refs[..i])
        invariant State().graph == w'.graph && requests' == w'.requests
      {
        TakeReferencesStep(w, node.Key, refs, i);
        requests' := TakeReferenceOf(node, refs[i], requests', w');
        w' := TakeReference(w', node.Key, refs[i]);
      }
      assert refs[..|refs|] == refs;
    }

    /** Hangs a node below a root. */
    method Hang(root: ResourceKey, made: ResourceNode)
      requires Valid() && root in tree && made.Key in tree && tree[made.Key] == made && made.Key.name.Interned?
      modifies this`edges, tree.Values
      ensures Valid() && edges == old(edges) + {(root, made.Key)}
    {
      Relate(tree[root], made);
    }

    /** A node for a resource not seen before; listeners and clusters hang below their root. */
    method Admit(t: TypeUrl, key: ResourceKey)
      requires Valid() && key !in tree && key.name.Interned?
      modifies this`tree, this`edges, tree.Values
      ensures Valid() && fresh(tree.Values - old(tree.Values))
      ensures State().graph == Graph(old(tree.Keys) + {key}, old(edges) + RootEdges(t, key))
    {
      var made, _ := GetNode(key);
      match t {
        case ListenerType => Hang(ListenerRoot, made);
        case ClusterType => Hang(ClusterRoot, made);
        case _ =>
      }
    }

    /** One resource of a message. */
    method TakeResourceIn(t: TypeUrl, r: Resource, names: set<Name>, requests: Names, ghost w: Intake)
      returns (names': set<Name>, requests': Names)
      requires Valid() && w == Intake(State().graph, names, requests)
      requires WellTyped(Message(t, [r], [], ""))
      modifies this`tree, this`edges, tree.Values
      ensures Valid() && fresh(tree.Values - old(tree.Values))
      ensures Intake(State().graph, names', requests') == TakeResource(w, t, r)
    {
      names', requests' := names, requests;
      var key := Key(t, r.name);
      if key !in tree && HasChildTypes(t) {
        Admit(t, key);
      } else if !IsWildcard(t) && key !in tree {
        return;
      }
      names' := names' + {key.name};
      assert State().graph == Register(w, t, key).graph;
      var referenced := ExtractReferencedKeys(r);
      ReferencesInterned(r);
      ReferencesNeedNode(t, r);
      TakeReferencesNames(Register(w, t, key), key, referenced);
      if referenced != [] {
        requests' := TakeReferencesOf(tree[key], referenced, requests', Register(w, t, key));
      }
    }

    /** One removed name of a message. */
    method RemoveNameOf(key: ResourceKey, removals: Names, ghost p: Pruning) returns (removals': Names)
      requires Valid() && p.graph == State().graph && key.name.Interned?
      requires Tallied(removals, p.cut) && p.cut !! edges
      modifies this`tree, this`edges, tree.Values
      ensures Valid() && tree.Values <= old(tree.Values)
      ensures State().graph == RemoveName(p, key).graph
      ensures Tallied(removals', RemoveName(p, key).cut) && RemoveName(p, key).cut !! edges
    {
      removals' := removals;
      if key !in tree {
        return;
      }
      ghost var progress := Progress(tree, edges, key, {}, {});
      ghost var after;
      BeginDelete(progress, tree, removals, p.cut);
      removals', after := DeleteNode(tree[key], removals', progress, p.cut);
      EndDelete(progress, after, tree, removals', p.cut);
      edges := Without(p.graph, after.gone).edges;
      RemoveNameKeeps(p, key);
    }

    method TakeResourcesIn(m: Message, names: set<Name>, requests: Names, ghost w: Intake)
      returns (names': set<Name>, requests': Names)
      requires Valid() && WellTyped(m) && w == Intake(State().graph, names, requests)
      modifies this`tree, this`edges, tree.Values
      ensures Valid() && fresh(tree.Values - old(tree.Values))
      ensures Intake(State().graph, names', requests') == TakeResources(w, m.typeUrl, m.resources)
    {
      names', requests' := names, requests;
      ghost var w' := w;
      for i := 0 to |m.resources|
        invariant Valid() && fresh(tree.Values - old(tree.Values))
        invariant w' == Intake(State().graph, names', requests') == TakeResources(w, m.typeUrl, m.resources[..i])
      {
        var r := m.resources[i];
        TakeResourcesStep(w, m.typeUrl, m.resources, i);
        OneWellTyped(m, i);
        names', requests' := TakeResourceIn(m.typeUrl, r, names', requests', w');
        w' := TakeResource(w', m.typeUrl, r);
      }
      assert m.resources[..|m.resources|] == m.resources;
    }

    method RemoveNamesOf(m: Message, ghost p: Pruning) returns (removals: Names)
      requires Valid() && p == Pruning(State().graph, {})
      modifies this`tree, this`edges, tree.Values
      ensures Valid() && tree.Values <= old(tree.Values)
      ensures State().graph == RemoveNames(p, m.typeUrl, m.removed).graph
      ensures Tallied(removals, RemoveNames(p, m.typeUrl, m.removed).cut)
    {
      removals := map[];
      ghost var p' := p;
      for i := 0 to |m.removed|
        invariant Valid() && tree.Values <= old(tree.Values)
        invariant p' == RemoveNames(p, m.typeUrl, m.removed[..i])
        invariant State().graph == p'.graph && Tallied(removals, p'.cut) && p'.cut !! edges
      {
        RemoveNamesStep(p, m.typeUrl, m.removed, i);
        removals := RemoveNameOf(Key(m.typeUrl, m.removed[i]), removals, p');
        p' := RemoveName(p', Key(m.typeUrl, m.removed[i]));
      }
      assert m.removed[..|m.removed|] == m.removed;
    }

    /** Sends what is owed for each type, then the ACK. */
    method SendAnswers(m: Message, requests: Names, removals: Names, ghost s: ClientState)
      requires requests == TakeAll(s, m).requests && AllInterned(requests)
      requires Tallied(removals, Prune(s, m).cut) && AllInterned(removals) && removals.Keys == CutTypes(Prune(s, m).cut)
      modifies this`sent
      ensures |old(sent)| <= |sent| && sent[..|old(sent)|] == old(sent)
      ensures Answers(s, m, sent[|old(sent)|..])
    {
      ghost var cut := Prune(s, m).cut;
      ghost var answers: seq<Request> := [];
      var types := KeysOfMaps(requests, removals);
      for i := 0 to |types|
        invariant sent == old(sent) + answers && |answers| == i
        invariant forall j :: 0 <= j < i ==> answers[j].typeUrl == types[j] && Owed(requests, cut, answers[j])
      {
        var t := types[i];
        assert t in multiset(types);
        if Listed(requests, t) == [] && Listed(removals, t) == [] {
          assert false;
        } else {
          var request := Request(t, Texts(Listed(requests, t)), Texts(Listed(removals, t)), "");
          TextsMatch(requests, removals, cut, t);
          sent := sent + [request];
          answers := answers + [request];
        }
      }
      sent := sent + [Request(m.typeUrl, [], [], m.nonce)];
      answers := answers + [Request(m.typeUrl, [], [], m.nonce)];
      assert sent == old(sent) + answers;
      assert answers[..|types|] == answers[..|answers| - 1];
      assert TypesOf(answers[..|types|]) == types;
    }

    /** Reads a message into the graph and the known names. Returns the count of added names, which the source logs. */
    method Update(m: Message) returns (added: int, requests: Names, removals: Names)
      requires Valid() && WellTyped(m)
      modifies this`tree, this`edges, this`resources, tree.Values
      ensures Valid() && fresh(tree.Values - old(tree.Values))
      ensures State() == Step(old(State()), m)
      ensures requests == TakeAll(old(State()), m).requests && AllInterned(requests)
      ensures Tallied(removals, Prune(old(State()), m).cut) && AllInterned(removals)
      ensures removals.Keys == CutTypes(Prune(old(State()), m).cut)
      ensures added == |TakeAll(old(State()), m).names - Known(old(resources), m.typeUrl)|
    {
      ghost var s := State();
      var known := if m.typeUrl in resources then resources[m.typeUrl] else {};
      var names;
      names, requests := TakeResourcesIn(m, known, map[], Intake(s.graph, known, map[]));
      RequestsInterned(s, m);
      removals := Finish(m, names, s);
      NamesGrow(s, m);
      CountAdded(known, names);
      added := |names| - |known|;
    }

    /** The second half of a message: names are removed and the known names stored. */
    method Finish(m: Message, names: set<Name>, ghost s: ClientState) returns (removals: Names)
      requires Valid() && State() == ClientState(TakeAll(s, m).graph, s.resources) && names == TakeAll(s, m).names
      modifies this`tree, this`edges, this`resources, tree.Values
      ensures Valid() && tree.Values <= old(tree.Values)
      ensures State() == Step(s, m)
      ensures Tallied(removals, Prune(s, m).cut) && AllInterned(removals) && removals.Keys == CutTypes(Prune(s, m).cut)
    {
      ghost var taken := Pruning(State().graph, {});
      RemoveNamesKeep(taken, m.typeUrl, m.removed);
      removals := RemoveNamesOf(m, taken);
      resources := resources[m.typeUrl := names - Handles(m.removed)];
      TalliedInterned(removals, Prune(s, m).cut);
    }

    /** One turn of the receive loop. */
    method HandleMessage(m: Message) returns (added: int)
      requires Valid() && WellTyped(m)
      modifies this, tree.Values
      ensures Valid() && fresh(tree.Values - old(tree.Values))
      ensures State() == Step(old(State()), m)
      ensures |old(sent)| <= |sent| && sent[..|old(sent)|] == old(sent)
      ensures Answers(old(State()), m, sent[|old(sent)|..])
      ensures added == |TakeAll(old(State()), m).names - Known(old(resources), m.typeUrl)|
    {
      ghost var s := State();
      var requests, removals;
      added, requests, removals := Update(m);
      SendAnswers(m, requests, removals, s);
    }

    /** The receive loop over the messages of a stream, up to its end: every state it passes through is a run. */
    method HandleRecv(inbox: seq<Message>, ghost before: seq<Event>) returns (ghost events: seq<Event>)
      requires Valid() && (forall m :: m in inbox ==> WellTyped(m))
      requires Legal(before) && State() == StateAfter(before)
      modifies this, tree.Values
      ensures Valid() && Legal(before + events) && State() == StateAfter(before + events)
      ensures MessagesOf(events) == inbox
      ensures sent == old(sent) + SentIn(events)
    {
      events := [];
      assert before + events == before;
      ghost var had := sent;
      for i := 0 to |inbox|
        invariant Valid() && fresh(tree.Values - old(tree.Values))
        invariant Legal(before + events) && State() == StateAfter(before + events)
        invariant MessagesOf(events) == inbox[..i] && sent == had + SentIn(events)
      {
        Take(inbox, i);
        events := HandleNext(inbox[i], before, events, had);
      }
      assert inbox[..|inbox|] == inbox;
    }

    method HandleNext(m: Message, ghost before: seq<Event>, ghost events: seq<Event>, ghost had: seq<Request>)
      returns (ghost events': seq<Event>)
      requires Valid() && WellTyped(m) && Legal(before + events) && State() == StateAfter(before + events)
      requires sent == had + SentIn(events)
      modifies this, tree.Values
      ensures Valid() && fresh(tree.Values - old(tree.Values))
      ensures Legal(before + events') && State() == StateAfter(before + events')
      ensures MessagesOf(events') == MessagesOf(events) + [m]
      ensures sent == had + SentIn(events')
    {
      ghost var sentBefore := sent;
      var added := HandleMessage(m);
      ghost var e := Event(m, sent[|sentBefore|..]);
      events' := events + [e];
      Turn(before, events, e);
      SentSplit(had, SentIn(events), sent);
    }
  }
}
