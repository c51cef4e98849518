/** What the client knows by name of the types whose nodes are made by references only, such as endpoints and routes. */
module DeltaKnownNames {
  import opened Xds
  import opened DeltaGraph
  import opened DeltaSpec
  import opened DeltaRuns
  import opened DeltaSubscriptions
  import opened DeltaSubscriptionRuns

  /** A type that is neither subscribed to as a whole nor keeps nodes of its own. */
  predicate Referred(t: TypeUrl) {
    !HasChildTypes(t) && !IsWildcard(t)
  }

  /** The received names that something in the graph refers to. */
  function Heard(g: Graph, m: Message): set<Name> {
    set r | r in m.resources && Key(m.typeUrl, r.name) in g.nodes :: Interned(r.name)
  }

  /** Old names and received names that had a node at that time, less the removed ones, message by message. */
  ghost function HeardNames(run: seq<Event>, t: TypeUrl): set<Name> {
    if run == [] then {}
    else
      var before, m := run[..|run| - 1], run[|run| - 1].msg;
      if m.typeUrl == t then HeardNames(before, t) + Heard(StateAfter(before).graph, m) - Handles(m.removed)
      else HeardNames(before, t)
  }

  lemma {:induction false} ReferredIntake(w: Intake, t: TypeUrl, rs: seq<Resource>)
    requires Referred(t) && WellTyped(Message(t, rs, [], ""))
    ensures TakeResources(w, t, rs).graph == w.graph
    ensures TakeResources(w, t, rs).names == w.names + Heard(w.graph, Message(t, rs, [], ""))
  {
    if rs != [] {
      var front, r := rs[..|rs| - 1], rs[|rs| - 1];
      assert rs == front + [r] && r in rs && forall q :: q in front ==> q in rs;
      ReferredIntake(w, t, front);
      assert References(r) == [];
    }
  }

  /** The index of such a type is that fold, over every run. */
  lemma {:induction false} ReferredNamesAreTheFold(run: seq<Event>, t: TypeUrl)
    requires Legal(run) && Referred(t)
    ensures Known(StateAfter(run).resources, t) == HeardNames(run, t)
  {
    if run != [] {
      var before, last := run[..|run| - 1], run[|run| - 1];
      ReferredNamesAreTheFold(before, t);
      assert LegalNext(StateAfter(before), last);
      KnownAfter(StateAfter(before), last.msg, t);
    }
  }

  lemma KnownAfter(s: ClientState, m: Message, t: TypeUrl)
    requires WellTyped(m) && Referred(t)
    ensures Known(Step(s, m).resources, t)
         == if m.typeUrl == t then Known(s.resources, t) + Heard(s.graph, m) - Handles(m.removed) else Known(s.resources, t)
  {
    if m.typeUrl == t {
      TakenOfReferred(s, m);
    }
  }

  lemma TakenOfReferred(s: ClientState, m: Message)
    requires WellTyped(m) && Referred(m.typeUrl)
    ensures TakeAll(s, m).graph == s.graph
    ensures TakeAll(s, m).names == Known(s.resources, m.typeUrl) + Heard(s.graph, m)
  {
    assert WellTyped(Message(m.typeUrl, m.resources, [], ""));
    ReferredIntake(Intake(s.graph, Known(s.resources, m.typeUrl), map[]), m.typeUrl, m.resources);
  }

  // ----- known names without a node -----

  ghost predicate KnownHaveNodes(s: ClientState, t: TypeUrl) {
    forall n :: n in Known(s.resources, t) ==> ResourceKey(n, t) in s.graph.nodes
  }

  /** The message removes the last thing that refers to a known name. */
  ghost predicate OrphansKnown(s: ClientState, m: Message, t: TypeUrl) {
    var g := TakeAll(s, m).graph;
    exists n :: n in Known(s.resources, t) && ResourceKey(n, t) in OrphansOf(g, Present(g, m.typeUrl, m.removed))
  }

  lemma StepHaveNodes(s: ClientState, m: Message, t: TypeUrl)
    requires Invariant(s) && WellTyped(m) && Referred(t) && KnownHaveNodes(s, t)
    ensures KnownHaveNodes(Step(s, m), t) <==> !OrphansKnown(s, m, t)
  {
    var g := TakeAll(s, m).graph;
    PruneInClosedForm(s, m);
    OrphansAreLeaves(g, m.typeUrl, Present(g, m.typeUrl, m.removed));
    if m.typeUrl == t {
      OwnMessageKeepsNodes(s, m);
    } else {
      OtherMessageKeepsNodes(s, m, t);
    }
  }

  lemma OwnMessageKeepsNodes(s: ClientState, m: Message)
    requires Invariant(s) && WellTyped(m) && Referred(m.typeUrl) && KnownHaveNodes(s, m.typeUrl)
    ensures KnownHaveNodes(Step(s, m), m.typeUrl)
  {
    var t, g := m.typeUrl, TakeAll(s, m).graph;
    var gone := Present(g, t, m.removed);
    PruneInClosedForm(s, m);
    OrphansAreLeaves(g, t, gone);
    TakenOfReferred(s, m);
    forall n | n in Known(Step(s, m).resources, t) ensures ResourceKey(n, t) in Step(s, m).graph.nodes {
      assert ResourceKey(n, t) in g.nodes;
      assert ResourceKey(n, t) !in gone && ResourceKey(n, t) !in OrphansOf(g, gone);
    }
  }

  lemma OtherMessageKeepsNodes(s: ClientState, m: Message, t: TypeUrl)
    requires Invariant(s) && WellTyped(m) && Referred(t) && m.typeUrl != t && KnownHaveNodes(s, t)
    ensures KnownHaveNodes(Step(s, m), t) <==> !OrphansKnown(s, m, t)
  {
    var g := TakeAll(s, m).graph;
    var gone := Present(g, m.typeUrl, m.removed);
    PruneInClosedForm(s, m);
    TakeResourcesGrow(Intake(s.graph, Known(s.resources, m.typeUrl), map[]), m.typeUrl, m.resources);
    assert Known(Step(s, m).resources, t) == Known(s.resources, t);
    forall n | n in Known(s.resources, t)
      ensures ResourceKey(n, t) in Step(s, m).graph.nodes <==> ResourceKey(n, t) !in OrphansOf(g, gone)
    {
      assert ResourceKey(n, t) in g.nodes && ResourceKey(n, t) !in gone;
    }
  }

  ghost predicate KnownAlwaysHaveNodes(run: seq<Event>, t: TypeUrl) {
    (run == [] || KnownAlwaysHaveNodes(run[..|run| - 1], t)) && KnownHaveNodes(StateAfter(run), t)
  }

  ghost predicate NeverOrphansKnown(run: seq<Event>, t: TypeUrl) {
    run == [] || (NeverOrphansKnown(run[..|run| - 1], t) && !OrphansKnown(StateAfter(run[..|run| - 1]), run[|run| - 1].msg, t))
  }

  /** Throughout a run all known names have nodes exactly when no message removes the last reference to a known name. */
  lemma {:induction false} KnownHaveNodesExactly(run: seq<Event>, t: TypeUrl)
    requires Legal(run) && Referred(t)
    ensures KnownAlwaysHaveNodes(run, t) <==> NeverOrphansKnown(run, t)
  {
    if run != [] {
      var before, last := run[..|run| - 1], run[|run| - 1];
      RunInvariant(before);
      KnownHaveNodesExactly(before, t);
      assert LegalNext(StateAfter(before), last);
      if KnownAlwaysHaveNodes(before, t) {
        HadNodes(before, t);
        StepHaveNodes(StateAfter(before), last.msg, t);
      }
    }
  }

  lemma HadNodes(run: seq<Event>, t: TypeUrl)
    requires KnownAlwaysHaveNodes(run, t)
    ensures KnownHaveNodes(StateAfter(run), t)
  {
  }

  /** When a cluster goes after its endpoint was received, the endpoint's node goes and its name stays known. */
  lemma StaleName(c: string) returns (run: seq<Event>)
    ensures Legal(run) && Interned(c) in Known(StateAfter(run).resources, EndpointType)
    ensures Key(EndpointType, c) !in StateAfter(run).graph.nodes
  {
    var m0 := Message(ClusterType, [EdsCluster(c)], [], "1");
    var m1 := Message(EndpointType, [Resource(c, OpaqueBody)], [], "2");
    var m2 := Message(ClusterType, [], [c], "3");
    run := RunExists([m0, m1, m2]);
    ThreeSteps(run);
    ClusterTaken(m0, c);
    RunInvariant(run[..1]);
    EndpointHeard(StateAfter(run[..1]), m1, c);
    RunInvariant(run[..2]);
    ClusterGone(StateAfter(run[..2]), m2, c);
  }

  lemma ThreeSteps(run: seq<Event>)
    requires |run| == 3 && Legal(run)
    ensures Legal(run[..1]) && Legal(run[..2])
    ensures StateAfter(run[..1]) == Step(Initial, run[0].msg)
    ensures StateAfter(run[..2]) == Step(StateAfter(run[..1]), run[1].msg) && StateAfter(run) == Step(StateAfter(run[..2]), run[2].msg)
  {
    assert run[..2][..1] == run[..1] && run[..1][..0] == [];
  }

  lemma EndpointHeard(s: ClientState, m: Message, c: string)
    requires Invariant(s) && m == Message(EndpointType, [Resource(c, OpaqueBody)], [], "2")
    requires Key(ClusterType, c) in s.graph.nodes && Key(EndpointType, c) in s.graph.nodes
    ensures Interned(c) in Known(Step(s, m).resources, EndpointType) && Key(ClusterType, c) in Step(s, m).graph.nodes
  {
    TakenOfReferred(s, m);
    assert m.resources[0] in m.resources;
    ClustersUntouched(s, m, Key(ClusterType, c));
  }

  lemma ClusterGone(s: ClientState, m: Message, c: string)
    requires Invariant(s) && m == Message(ClusterType, [], [c], "3") && Key(ClusterType, c) in s.graph.nodes
    requires Interned(c) in Known(s.resources, EndpointType)
    ensures Interned(c) in Known(Step(s, m).resources, EndpointType) && Key(EndpointType, c) !in Step(s, m).graph.nodes
  {
    var g, k := TakeAll(s, m).graph, Key(EndpointType, c);
    var gone := Present(g, ClusterType, m.removed);
    assert g == s.graph && Key(ClusterType, c) in gone;
    PruneInClosedForm(s, m);
    if k in g.nodes {
      assert HasParent(g, k);
      forall p | (p, k) in g.edges ensures p in gone {
        assert Shaped((p, k));
      }
      assert Orphaned(g.edges, gone, k);
    }
  }
}
