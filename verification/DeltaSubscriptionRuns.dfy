/** Over whole runs: when the names a server has subscribed are those the client's graph holds. */
module DeltaSubscriptionRuns {
  import opened Xds
  import opened DeltaGraph
  import opened DeltaSpec
  import opened DeltaRuns
  import opened DeltaSubscriptions

  /** The names of a type subscribed to after a run, for a server that starts with none. */
  function Subscribed(order: Order, run: seq<Event>, t: TypeUrl): set<string> {
    if run == [] then {} else Replay(order, Subscribed(order, run[..|run| - 1], t), t, run[|run| - 1].sent)
  }

  /** The run is one of these messages. */
  ghost predicate Carries(run: seq<Event>, msgs: seq<Message>) {
    |run| == |msgs| && forall i :: 0 <= i < |run| ==> run[i].msg == msgs[i]
  }

  /** Every stream of well-typed messages makes a legal run. */
  lemma {:induction false} RunExists(msgs: seq<Message>) returns (run: seq<Event>)
    requires forall m :: m in msgs ==> WellTyped(m)
    ensures Legal(run) && Carries(run, msgs)
  {
    run := [];
    if msgs != [] {
      var m := msgs[|msgs| - 1];
      var before := RunExists(msgs[..|msgs| - 1]);
      var sent := Answerable(StateAfter(before), m);
      LegalMore(before, Event(m, sent));
      MessagesMore(msgs, before, Event(m, sent));
      run := before + [Event(m, sent)];
    }
  }

  lemma MessagesMore(msgs: seq<Message>, before: seq<Event>, e: Event)
    requires msgs != [] && e.msg == msgs[|msgs| - 1] && Carries(before, msgs[..|msgs| - 1])
    ensures Carries(before + [e], msgs)
  {
  }

  // ----- endpoints -----

  /** After every run, whatever the server, every endpoint in the graph is subscribed to. */
  lemma {:induction false} EndpointsStaySubscribed(order: Order, run: seq<Event>)
    requires Legal(run)
    ensures Live(StateAfter(run).graph, EndpointType) <= Subscribed(order, run, EndpointType)
  {
    if run != [] {
      var before, last := run[..|run| - 1], run[|run| - 1];
      RunInvariant(before);
      EndpointsStaySubscribed(order, before);
      assert LegalNext(StateAfter(before), last);
      EndpointsAfterMessage(order, StateAfter(before), last.msg, last.sent, Subscribed(order, before, EndpointType));
    }
  }

  /** The subscribed endpoints equal the graph's after every message so far. */
  ghost predicate EndpointsAlwaysMatch(order: Order, run: seq<Event>) {
    && (run == [] || EndpointsAlwaysMatch(order, run[..|run| - 1]))
    && Live(StateAfter(run).graph, EndpointType) == Subscribed(order, run, EndpointType)
  }

  ghost predicate EndpointsAlwaysKept(order: Order, run: seq<Event>) {
    run == [] || (EndpointsAlwaysKept(order, run[..|run| - 1]) && KeepsEndpoints(order, StateAfter(run[..|run| - 1]), run[|run| - 1].msg))
  }

  /** They match throughout exactly when every message keeps them. */
  lemma {:induction false} EndpointsMatchExactly(order: Order, run: seq<Event>)
    requires Legal(run)
    ensures EndpointsAlwaysMatch(order, run) <==> EndpointsAlwaysKept(order, run)
  {
    if run == [] {
      assert Live(Initial.graph, EndpointType) == {};
    } else {
      var before, last := run[..|run| - 1], run[|run| - 1];
      RunInvariant(before);
      EndpointsMatchExactly(order, before);
      EndpointsStaySubscribed(order, before);
      assert LegalNext(StateAfter(before), last);
      EndpointsAfterMessage(order, StateAfter(before), last.msg, last.sent, Subscribed(order, before, EndpointType));
    }
  }

  function EdsCluster(name: string): Resource {
    Resource(name, ClusterBody(Cluster(name, Eds)))
  }

  /** An endpoint the server removes while its cluster stays leaves the graph and stays subscribed. */
  lemma DroppedEndpointStaysSubscribed(order: Order, c: string, run: seq<Event>)
    requires |run| == 2 && Legal(run)
    requires run[0].msg == Message(ClusterType, [EdsCluster(c)], [], "1") && run[1].msg == Message(EndpointType, [], [c], "2")
    ensures c in Subscribed(order, run, EndpointType) && c !in Live(StateAfter(run).graph, EndpointType)
    ensures Key(ClusterType, c) in StateAfter(run).graph.nodes
    ensures !EndpointsAlwaysMatch(order, run)
  {
    var first, s := run[..1], StateAfter(run[..1]);
    assert run[..1][..0] == [] && run[..2] == run && first[|first| - 1] == run[0];
    assert Legal(first) && LegalNext(s, run[1]);
    RunInvariant(first);
    RunInvariant(run);
    EndpointsStaySubscribed(order, first);
    var k := Key(EndpointType, c);
    ClusterTaken(run[0].msg, c);
    assert k.name.value == c && c in Live(s.graph, EndpointType);
    DroppedByName(s, run[1].msg);
    AnswersReplayed(order, Subscribed(order, first, EndpointType), EndpointType, s, run[1].msg, run[1].sent);
    ClustersUntouched(s, run[1].msg, Key(ClusterType, c));
  }

  lemma ClusterTaken(m: Message, c: string)
    requires m == Message(ClusterType, [EdsCluster(c)], [], "1")
    ensures Key(ClusterType, c) in Step(Initial, m).graph.nodes && Key(EndpointType, c) in Step(Initial, m).graph.nodes
  {
    assert m.resources[0] in m.resources;
    assert References(EdsCluster(c)) == [Key(EndpointType, c)];
    ReferencesGetEdges(Intake(Initial.graph, {}, map[]), ClusterType, m.resources, m.resources[0], Key(EndpointType, c));
    InitialInvariant();
    StepInvariant(Initial, m);
    assert (Key(ClusterType, c), Key(EndpointType, c)) in Step(Initial, m).graph.edges;
  }

  lemma ClustersUntouched(s: ClientState, m: Message, k: ResourceKey)
    requires Invariant(s) && WellTyped(m) && m.typeUrl == EndpointType && k.typeUrl == ClusterType && k in s.graph.nodes
    ensures k in Step(s, m).graph.nodes
  {
    var g := TakeAll(s, m).graph;
    PruneInClosedForm(s, m);
    OrphansAreLeaves(g, m.typeUrl, Present(g, m.typeUrl, m.removed));
    assert k in g.nodes;
  }

  // ----- routes -----

  ghost predicate RoutesAlwaysSubscribed(order: Order, run: seq<Event>) {
    && (run == [] || RoutesAlwaysSubscribed(order, run[..|run| - 1]))
    && Live(StateAfter(run).graph, RouteType) <= Subscribed(order, run, RouteType)
  }

  ghost predicate RoutesAlwaysSpared(order: Order, run: seq<Event>) {
    run == [] || (RoutesAlwaysSpared(order, run[..|run| - 1]) && SparesRoutes(order, StateAfter(run[..|run| - 1]), run[|run| - 1].msg))
  }

  lemma RoutesNext(order: Order, run: seq<Event>)
    requires run != [] && Legal(run)
    requires Live(StateAfter(run[..|run| - 1]).graph, RouteType) <= Subscribed(order, run[..|run| - 1], RouteType)
    ensures Live(StateAfter(run).graph, RouteType) <= Subscribed(order, run, RouteType)
       <==> SparesRoutes(order, StateAfter(run[..|run| - 1]), run[|run| - 1].msg)
  {
    var before, last := run[..|run| - 1], run[|run| - 1];
    RunInvariant(before);
    assert LegalNext(StateAfter(before), last);
    RoutesAfterMessage(order, StateAfter(before), last.msg, last.sent, Subscribed(order, before, RouteType));
  }

  /** Routes stay subscribed throughout exactly when no message removes only some of a route's listeners. */
  lemma {:induction false} RoutesSubscribedExactly(order: Order, run: seq<Event>)
    requires Legal(run)
    ensures RoutesAlwaysSubscribed(order, run) <==> RoutesAlwaysSpared(order, run)
  {
    if run == [] {
      assert Live(Initial.graph, RouteType) == {};
    } else {
      var before := run[..|run| - 1];
      RoutesSubscribedExactly(order, before);
      if RoutesAlwaysSubscribed(order, before) {
        RoutesNext(order, run);
      }
    }
  }

  /** The subscribed routes equal the graph's after every message so far. */
  ghost predicate RoutesAlwaysMatch(order: Order, run: seq<Event>) {
    && (run == [] || RoutesAlwaysMatch(order, run[..|run| - 1]))
    && Live(StateAfter(run).graph, RouteType) == Subscribed(order, run, RouteType)
  }

  ghost predicate RoutesAlwaysKept(order: Order, run: seq<Event>) {
    run == [] || (RoutesAlwaysKept(order, run[..|run| - 1]) && KeepsRoutes(order, StateAfter(run[..|run| - 1]), run[|run| - 1].msg))
  }

  /** They match throughout exactly when every message keeps them. */
  lemma {:induction false} RoutesMatchExactly(order: Order, run: seq<Event>)
    requires Legal(run)
    ensures RoutesAlwaysMatch(order, run) <==> RoutesAlwaysKept(order, run)
  {
    if run == [] {
      assert Live(Initial.graph, RouteType) == {};
    } else {
      var before, last := run[..|run| - 1], run[|run| - 1];
      RunInvariant(before);
      RoutesMatchExactly(order, before);
      assert LegalNext(StateAfter(before), last);
      RoutesMatchAfterMessage(order, StateAfter(before), last.msg, last.sent);
    }
  }

  ghost predicate NodeStays(run: seq<Event>, k: nat, t: TypeUrl, n: string)
    requires k <= |run|
  {
    forall i :: k <= i <= |run| ==> n in Live(StateAfter(run[..i]).graph, t)
  }

  /** A name that was lost is never subscribed to again while its node stays. */
  lemma {:induction false} NeverAgain(order: Order, run: seq<Event>, k: nat, t: TypeUrl, n: string)
    requires Legal(run) && Followed(t) && k <= |run| && NodeStays(run, k, t, n)
    requires n !in Subscribed(order, run[..k], t)
    ensures n !in Subscribed(order, run, t)
  {
    if k == |run| {
      assert run[..k] == run;
    } else {
      var before, last := run[..|run| - 1], run[|run| - 1];
      assert forall i :: 0 <= i <= |before| ==> before[..i] == run[..i];
      NeverAgain(order, before, k, t, n);
      assert LegalNext(StateAfter(before), last);
      assert before[..|before|] == before;
      LostStaysLost(order, StateAfter(before), last.msg, last.sent, Subscribed(order, before, t), t, n);
    }
  }

  // ----- the condition is needed -----

  function RoutedListener(name: string, route: string): Resource {
    Resource(name, ListenerBody(Listener(name, [FilterChain([ConnectionManager("", route, [])], None)], None)))
  }

  lemma RoutedListenerReferences(name: string, route: string)
    requires route != ""
    ensures References(RoutedListener(name, route)) == [Key(RouteType, route)]
  {
    var l := RoutedListener(name, route).body.listener;
    var chain := l.filterChains[0];
    assert FilterChains(l) == [chain];
    assert [chain][..0] == [] && chain.filters[..0] == [];
    assert FilterRoutes(chain.filters) == FilterRoutes([]) + FilterRoute(chain.filters[0]) == [route];
    assert ChainRoutes([chain]) == ChainRoutes([]) + FilterRoutes(chain.filters) == [route];
  }

  /** A route two listeners share is unsubscribed when one of them goes, although its node stays. */
  lemma SharedRouteIsUnsubscribed(order: Order, a: string, b: string, route: string, run: seq<Event>)
    requires a != b && route != "" && |run| == 2 && Legal(run)
    requires run[0].msg == Message(ListenerType, [RoutedListener(a, route), RoutedListener(b, route)], [], "1")
    requires run[1].msg == Message(ListenerType, [], [a], "2")
    ensures Key(RouteType, route) in StateAfter(run).graph.nodes
    ensures route !in Subscribed(order, run, RouteType)
  {
    var first, s := run[..1], StateAfter(run[..1]);
    assert run[..1][..0] == [] && run[..2] == run && first[|first| - 1] == run[0];
    assert LegalNext(Initial, run[0]) && LegalNext(s, run[1]);
    InitialInvariant();
    RunInvariant(first);
    SharedByBoth(run[0].msg, a, b, route);
    OneListenerGoes(order, s, run[1].msg, run[1].sent, Subscribed(order, first, RouteType), a, b, route);
  }

  lemma SharedByBoth(m: Message, a: string, b: string, route: string)
    requires route != "" && m == Message(ListenerType, [RoutedListener(a, route), RoutedListener(b, route)], [], "1")
    ensures var g, r := Step(Initial, m).graph, Key(RouteType, route);
      (Key(ListenerType, a), r) in g.edges && (Key(ListenerType, b), r) in g.edges
  {
    RoutedListenerReferences(a, route);
    RoutedListenerReferences(b, route);
    assert m.resources[0] in m.resources && m.resources[1] in m.resources;
    var w, r := Intake(Initial.graph, {}, map[]), Key(RouteType, route);
    ReferencesGetEdges(w, ListenerType, m.resources, m.resources[0], r);
    ReferencesGetEdges(w, ListenerType, m.resources, m.resources[1], r);
  }

  lemma OneListenerGoes(order: Order, s: ClientState, m: Message, sent: seq<Request>, subscribed: set<string>, a: string, b: string, route: string)
    requires Invariant(s) && a != b && m == Message(ListenerType, [], [a], "2") && Answers(s, m, sent)
    requires var r := Key(RouteType, route); (Key(ListenerType, a), r) in s.graph.edges && (Key(ListenerType, b), r) in s.graph.edges
    ensures Key(RouteType, route) in Step(s, m).graph.nodes
    ensures route !in Replay(order, subscribed, RouteType, sent)
  {
    var g, r := s.graph, Key(RouteType, route);
    assert TakeAll(s, m).graph == g;
    var gone := Present(g, ListenerType, m.removed);
    assert Key(ListenerType, a) in gone && Key(ListenerType, b) !in gone;
    PruneInClosedForm(s, m);
    OrphansAreLeaves(g, ListenerType, gone);
    assert r in Step(s, m).graph.nodes;
    assert (Key(ListenerType, a), r) in Prune(s, m).cut;
    assert route in CutOff(Prune(s, m).cut, RouteType);
    NewAndCut(s, m, RouteType);
    assert !TakenAndCut(s, m, RouteType);
    AnswersReplayed(order, subscribed, RouteType, s, m, sent);
  }

  /** Such a run exists for any two listeners and any route. */
  lemma SharedRouteHappens(order: Order, a: string, b: string, route: string) returns (run: seq<Event>)
    requires a != b && route != ""
    ensures Legal(run) && Key(RouteType, route) in StateAfter(run).graph.nodes && route !in Subscribed(order, run, RouteType)
  {
    run := RunExists([
      Message(ListenerType, [RoutedListener(a, route), RoutedListener(b, route)], [], "1"), Message(ListenerType, [], [a], "2")]);
    SharedRouteIsUnsubscribed(order, a, b, route, run);
  }

  /** And for any cluster one in which the subscribed endpoints stop being those of the graph. */
  lemma DroppedEndpointHappens(order: Order, c: string) returns (run: seq<Event>)
    ensures Legal(run) && Key(ClusterType, c) in StateAfter(run).graph.nodes && !EndpointsAlwaysMatch(order, run)
  {
    run := RunExists([Message(ClusterType, [EdsCluster(c)], [], "1"), Message(EndpointType, [], [c], "2")]);
    DroppedEndpointStaysSubscribed(order, c, run);
  }

  // ----- a server that unsubscribes first -----

  /** A message that carries and removes a new cluster leaves its endpoint subscribed without a node. */
  lemma CarriedAndRemovedCluster(c: string) returns (run: seq<Event>)
    ensures Legal(run) && |run| == 1 && run[0].msg == Message(ClusterType, [EdsCluster(c)], [c], "1")
    ensures !KeepsEndpoints(UnsubscribeFirst, Initial, run[0].msg) && !EndpointsAlwaysMatch(UnsubscribeFirst, run)
  {
    var m := Message(ClusterType, [EdsCluster(c)], [c], "1");
    run := RunExists([m]);
    var r, k := EdsCluster(c), Key(EndpointType, c);
    assert r in m.resources && References(r) == [k] && k in References(r) && r.name in m.removed && k !in Initial.graph.nodes;
    assert TakenAndCut(Initial, m, EndpointType);
    EndpointsMatchExactly(UnsubscribeFirst, run);
    assert run[..0] == [];
  }

  /** A message that carries and removes a new listener leaves its route subscribed without a node. */
  lemma CarriedAndRemovedListener(a: string, route: string) returns (run: seq<Event>)
    requires route != ""
    ensures Legal(run) && |run| == 1 && run[0].msg == Message(ListenerType, [RoutedListener(a, route)], [a], "1")
    ensures OrphansNewRoute(Initial, run[0].msg) && !RoutesAlwaysMatch(UnsubscribeFirst, run)
  {
    var m := Message(ListenerType, [RoutedListener(a, route)], [a], "1");
    run := RunExists([m]);
    NewRouteOrphaned(m, a, route);
    RoutesMatchExactly(UnsubscribeFirst, run);
    assert run[..0] == [];
  }

  lemma NewRouteOrphaned(m: Message, a: string, route: string)
    requires route != "" && m == Message(ListenerType, [RoutedListener(a, route)], [a], "1")
    ensures OrphansNewRoute(Initial, m)
  {
    var w, g, r, k := Intake(Initial.graph, {}, map[]), TakeAll(Initial, m).graph, RoutedListener(a, route), Key(RouteType, route);
    var gone := Present(g, ListenerType, m.removed);
    assert r in m.resources;
    InitialInvariant();
    RoutedListenerReferences(a, route);
    NewIsCut(Initial, m, r, k);
    PruneInClosedForm(Initial, m);
    assert (Key(ListenerType, a), k) in g.edges && Key(ListenerType, a) in gone;
    EdgesAreReferenced(w, ListenerType, m.resources);
    forall p | (p, k) in g.edges ensures p in gone {
      assert Shaped((p, k));
      assert Referenced(ListenerType, m.resources, (p, k));
    }
    assert Orphaned(g.edges, gone, k);
  }
}
