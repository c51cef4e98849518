/**
  Graphs of resource keys, and what a reference-counting delete removes from one.
  Nothing here assumes the graph is acyclic.
 */
module DeltaGraph {
  import opened Xds

  /** An interned string handle. The zero handle equals no interned string, not even the empty one. */
  datatype Name = Zero | Interned(value: string)

  datatype ResourceKey = ResourceKey(name: Name, typeUrl: TypeUrl)

  /** (parent, child) */
  type Edge = (ResourceKey, ResourceKey)

  datatype Graph = Graph(nodes: set<ResourceKey>, edges: set<Edge>)

  // ----- the cascade -----

  ghost predicate HasParentIn(edges: set<Edge>, gone: set<ResourceKey>, k: ResourceKey) {
    exists p :: p in gone && (p, k) in edges
  }

  ghost predicate Orphaned(edges: set<Edge>, gone: set<ResourceKey>, k: ResourceKey) {
    && HasParentIn(edges, gone, k)
    && forall p :: (p, k) in edges ==> p in gone
  }

  ghost predicate Closed(edges: set<Edge>, gone: set<ResourceKey>) {
    forall k :: Orphaned(edges, gone, k) ==> k in gone
  }

  /** The least set that holds the start and every node whose parents, at least one, all lie in the set. */
  ghost predicate IsLeastClosed(edges: set<Edge>, start: ResourceKey, gone: set<ResourceKey>) {
    && start in gone
    && Closed(edges, gone)
    && forall other: set<ResourceKey> :: start in other && Closed(edges, other) ==> gone <= other
  }

  ghost function NewlyOrphaned(edges: set<Edge>, gone: set<ResourceKey>): set<ResourceKey> {
    set e | e in edges && e.1 !in gone && Orphaned(edges, gone, e.1) :: e.1
  }

  ghost function Targets(edges: set<Edge>): set<ResourceKey> {
    set e | e in edges :: e.1
  }

  ghost function Grow(edges: set<Edge>, gone: set<ResourceKey>): set<ResourceKey>
    decreases Targets(edges) - gone
  {
    var more := NewlyOrphaned(edges, gone);
    if more == {} then gone
    else
      var k :| k in more;
      assert k in Targets(edges) - gone && k !in Targets(edges) - (gone + more);
      Grow(edges, gone + more)
  }

  /** Everything that goes when start is deleted. */
  ghost function Cascade(edges: set<Edge>, start: ResourceKey): set<ResourceKey> {
    Grow(edges, {start})
  }

  lemma OrphanedMonotone(edges: set<Edge>, gone: set<ResourceKey>, other: set<ResourceKey>, k: ResourceKey)
    requires Orphaned(edges, gone, k) && gone <= other
    ensures Orphaned(edges, other, k)
  {
    var p :| p in gone && (p, k) in edges;
    assert p in other;
  }

  lemma {:induction false} GrowIsClosed(edges: set<Edge>, gone: set<ResourceKey>)
    ensures gone <= Grow(edges, gone) && Closed(edges, Grow(edges, gone))
    decreases Targets(edges) - gone
  {
    var more := NewlyOrphaned(edges, gone);
    if more == {} {
      forall k | Orphaned(edges, gone, k) ensures k in gone {
        var p :| p in gone && (p, k) in edges;
        assert k in gone || (p, k).1 in more;
      }
    } else {
      var k :| k in more;
      assert k in Targets(edges) - gone && k !in Targets(edges) - (gone + more);
      GrowIsClosed(edges, gone + more);
    }
  }

  lemma {:induction false} GrowIsLeast(edges: set<Edge>, gone: set<ResourceKey>, other: set<ResourceKey>)
    requires gone <= other && Closed(edges, other)
    ensures Grow(edges, gone) <= other
    decreases Targets(edges) - gone
  {
    var more := NewlyOrphaned(edges, gone);
    if more != {} {
      forall k | k in more ensures k in other {
        OrphanedMonotone(edges, gone, other, k);
      }
      var k :| k in more;
      assert k in Targets(edges) - gone && k !in Targets(edges) - (gone + more);
      GrowIsLeast(edges, gone + more, other);
    }
  }

  /** The computed cascade is the least closed set, and there is only one. */
  lemma CascadeIsLeastClosed(edges: set<Edge>, start: ResourceKey)
    ensures IsLeastClosed(edges, start, Cascade(edges, start))
    ensures forall gone :: IsLeastClosed(edges, start, gone) ==> gone == Cascade(edges, start)
  {
    GrowIsClosed(edges, {start});
    forall other: set<ResourceKey> | start in other && Closed(edges, other)
      ensures Cascade(edges, start) <= other
    {
      GrowIsLeast(edges, {start}, other);
    }
  }

  /** Besides the start, only nodes that have a parent can go. */
  lemma CascadeTargets(edges: set<Edge>, start: ResourceKey)
    ensures Cascade(edges, start) <= {start} + Targets(edges)
  {
    var other := {start} + Targets(edges);
    forall k | Orphaned(edges, other, k) ensures k in other {
      var p :| p in other && (p, k) in edges;
      assert (p, k).1 in Targets(edges);
    }
    CascadeIsLeastClosed(edges, start);
  }

  // ----- what is cut -----

  /** The edges a delete walks: those leaving a deleted node, except edges back into the start. */
  ghost function Out(edges: set<Edge>, gone: set<ResourceKey>, start: ResourceKey): set<Edge> {
    set e | e in edges && e.0 in gone && e.1 != start
  }

  ghost function Into(edges: set<Edge>, k: ResourceKey): set<Edge> {
    set e | e in edges && e.1 == k
  }

  ghost function Avoiding(edges: set<Edge>, start: ResourceKey): set<Edge> {
    set e | e in edges && e.1 != start
  }

  ghost function Without(g: Graph, gone: set<ResourceKey>): Graph {
    Graph(g.nodes - gone, set e | e in g.edges && e.0 !in gone && e.1 !in gone)
  }

  /** On a graph whose nodes have ranks that grow along edges, no deleted node points back to the start. */
  ghost predicate Ranked(edges: set<Edge>, rank: ResourceKey -> nat) {
    forall e :: e in edges ==> rank(e.0) < rank(e.1)
  }

  lemma AcyclicCutIsAllOut(edges: set<Edge>, start: ResourceKey, rank: ResourceKey -> nat)
    requires Ranked(edges, rank)
    ensures Out(edges, Cascade(edges, start), start) == set e | e in edges && e.0 in Cascade(edges, start)
  {
    var gone := Cascade(edges, start);
    var above := set k | k in gone && (k == start || rank(start) < rank(k));
    CascadeIsLeastClosed(edges, start);
    forall k | Orphaned(edges, above, k) ensures k in above {
      OrphanedMonotone(edges, above, gone, k);
      var p :| p in above && (p, k) in edges;
      assert rank((p, k).0) < rank((p, k).1);
    }
    assert gone <= above;
    forall e | e in edges && e.0 in gone ensures e.1 != start {
      assert e.0 in above && rank(e.0) < rank(e.1);
    }
  }
}
