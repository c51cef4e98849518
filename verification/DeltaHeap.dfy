/** The resource nodes of the delta client, linked in the heap, and the recursive delete. */
module DeltaHeap {
  import opened Xds
  import opened DeltaGraph

  class ResourceNode {
    const Key: ResourceKey
    var Parents: set<ResourceNode>
    var Children: set<ResourceNode>

    constructor (key: ResourceKey)
      ensures Key == key && Parents == {} && Children == {}
    {
      Key := key;
      Parents, Children := {}, {};
    }
  }

  type Tree = map<ResourceKey, ResourceNode>

  ghost predicate Indexed(tree: Tree) {
    forall k :: k in tree ==> tree[k].Key == k
  }

  /** Parent sets hold exactly the edges in up, child sets exactly the edges in down. */
  ghost predicate Linked(tree: Tree, up: set<Edge>, down: set<Edge>)
    reads tree.Values
  {
    && (forall k :: k in tree ==> tree[k].Parents <= tree.Values && tree[k].Children <= tree.Values)
    && (forall j, k :: j in tree && k in tree ==> (tree[j] in tree[k].Parents <==> (j, k) in up))
    && (forall j, k :: j in tree && k in tree ==> (tree[k] in tree[j].Children <==> (j, k) in down))
  }

  ghost predicate Within(edges: set<Edge>, keys: set<ResourceKey>) {
    forall e :: e in edges ==> e.0 in keys && e.1 in keys
  }

  /** Names listed per type, in the order they were found. */
  type Names = map<TypeUrl, seq<Name>>

  function Listed(names: Names, t: TypeUrl): seq<Name> {
    if t in names then names[t] else []
  }

  function List(names: Names, k: ResourceKey): Names {
    names[k.typeUrl := Listed(names, k.typeUrl) + [k.name]]
  }

  ghost function Count(names: Names, k: ResourceKey): nat {
    multiset(Listed(names, k.typeUrl))[k.name]
  }

  /** One entry for each cut edge, and no type with an empty list. */
  ghost predicate Tallied(removals: Names, cut: set<Edge>) {
    && (forall k :: Count(removals, k) == |Into(cut, k)|)
    && (forall t :: t in removals ==> removals[t] != [])
  }

  lemma CountList(names: Names, k: ResourceKey, j: ResourceKey)
    ensures Count(List(names, k), j) == Count(names, j) + if j == k then 1 else 0
  {
    assert multiset(Listed(names, k.typeUrl) + [k.name]) == multiset(Listed(names, k.typeUrl)) + multiset{k.name};
  }

  lemma IntoOne(cut: set<Edge>, e: Edge, k: ResourceKey)
    requires e !in cut
    ensures |Into(cut + {e}, k)| == |Into(cut, k)| + if k == e.1 then 1 else 0
  {
    assert Into(cut + {e}, k) == Into(cut, k) + if k == e.1 then {e} else {};
  }

  lemma TallyOne(removals: Names, cut: set<Edge>, e: Edge)
    requires Tallied(removals, cut) && e !in cut
    ensures Tallied(List(removals, e.1), cut + {e})
  {
    forall k ensures Count(List(removals, e.1), k) == |Into(cut + {e}, k)| {
      CountList(removals, e.1, k);
      IntoOne(cut, e, k);
    }
  }

  /** How far a delete has come: which nodes left the index and which edges were cut at the child's end. */
  datatype Progress = Progress(all: Tree, edges: set<Edge>, start: ResourceKey, gone: set<ResourceKey>, cut: set<Edge>) {

    /** Every cut edge leaves a deleted node and enters a node other than the start. */
    ghost predicate CutsAreOut() {
      && Within(edges, all.Keys)
      && gone <= all.Keys
      && cut <= Out(edges, gone, start)
    }

    ghost predicate AllCut(k: ResourceKey) {
      forall p :: (p, k) in edges ==> (p, k) in cut
    }

    /** The deleted nodes lost all their parents; any other node with a cut edge kept one, except the pending one. */
    ghost predicate Sound(pending: set<ResourceKey>) {
      && CutsAreOut()
      && gone <= Cascade(edges, start)
      && (forall k :: k in gone && k != start ==> AllCut(k))
      && (forall e :: e in cut && e.1 !in gone && e.1 !in pending ==> !AllCut(e.1))
    }

    ghost function Down(): set<Edge> {
      if start in gone then Avoiding(edges, start) else edges
    }

    /** A node may be deleted when it is the untouched start, or when its last parent has just been cut. */
    ghost predicate MayDelete(k: ResourceKey) {
      && k in all && k !in gone
      && Sound({k})
      && if k == start then gone == {} && cut == {} else start in gone && AllCut(k) && k in Cascade(edges, start)
    }
  }

  /** Cutting one more edge out of a deleted node. */
  lemma CutOne(c: Progress, n: ResourceKey, k: ResourceKey)
    requires c.Sound({}) && c.start in c.gone && n in c.gone
    requires (n, k) in c.edges && (n, k) !in c.cut && k != c.start
    ensures k !in c.gone
    ensures c.(cut := c.cut + {(n, k)}).Sound({k})
    ensures !c.(cut := c.cut + {(n, k)}).AllCut(k) ==> c.(cut := c.cut + {(n, k)}).Sound({})
    ensures c.(cut := c.cut + {(n, k)}).AllCut(k) ==> c.(cut := c.cut + {(n, k)}).MayDelete(k)
  {
    var c' := c.(cut := c.cut + {(n, k)});
    forall e | e in c'.cut && e.1 !in c'.gone && e.1 != k ensures !c'.AllCut(e.1) {
      assert !c.AllCut(e.1);
      var p :| (p, e.1) in c.edges && (p, e.1) !in c.cut;
      assert (p, e.1) !in c'.cut;
    }
    if c'.AllCut(k) {
      var cascade := Cascade(c.edges, c.start);
      CascadeIsLeastClosed(c.edges, c.start);
      forall p | (p, k) in c.edges ensures p in cascade {
        assert (p, k) in c'.cut;
      }
      assert Orphaned(c.edges, cascade, k);
    }
  }

  ghost function Kids(c: Progress, n: ResourceKey): set<ResourceNode> {
    set k | k in c.all && (n, k) in Avoiding(c.edges, c.start) :: c.all[k]
  }

  lemma KidsLinked(c: Progress, n: ResourceKey)
    requires Indexed(c.all) && n in c.all && c.start in c.gone
    requires Linked(c.all, c.edges - c.cut, c.Down())
    ensures c.all[n].Children == Kids(c, n)
  {
    forall child | child in c.all[n].Children ensures child in Kids(c, n) {
      assert child.Key in c.all && c.all[child.Key] == child;
    }
  }

  /** The children of n still to visit are nodes of the graph, none of them the start. */
  ghost predicate ChildrenOf(c: Progress, n: ResourceKey, left: set<ResourceNode>) {
    forall child :: child in left ==> child.Key in c.all && c.all[child.Key] == child && (n, child.Key) in Avoiding(c.edges, c.start)
  }

  /** The edges out of n whose children have been visited. */
  ghost function Walked(c: Progress, n: ResourceKey, left: set<ResourceNode>): set<Edge>
    requires Within(c.edges, c.all.Keys)
  {
    set e | e in c.edges && e.0 == n && e.1 != c.start && c.all[e.1] !in left
  }

  lemma WalkStarts(c0: Progress, c: Progress, n: ResourceKey)
    requires Within(c.edges, c.all.Keys) && c == c0.(gone := c0.gone + {n}) && Indexed(c.all)
    ensures c.cut == c0.cut + Out(c.edges, c.gone - c0.gone - {n}, c.start) + Walked(c, n, Kids(c, n))
  {
    assert Walked(c, n, Kids(c, n)) == {};
    assert Out(c.edges, c.gone - c0.gone - {n}, c.start) == {};
  }

  lemma NotYetCut(c: Progress, n: ResourceKey, left: set<ResourceNode>, child: ResourceNode, gone: set<ResourceKey>, cut: set<Edge>)
    requires Within(c.edges, c.all.Keys) && ChildrenOf(c, n, left) && child in left
    requires cut <= Out(c.edges, gone, c.start) && n !in gone
    requires c.cut == cut + Out(c.edges, c.gone - gone - {n}, c.start) + Walked(c, n, left)
    ensures (n, child.Key) in c.edges - c.cut && child.Key != c.start
  {
  }

  /** One more child walked: what is cut beyond what was, when gone nodes were gone, grows by its edge and what it took along. */
  lemma WalkOne(c: Progress, c': Progress, n: ResourceKey, left: set<ResourceNode>, child: ResourceNode, gone: set<ResourceKey>, cut: set<Edge>)
    requires Indexed(c.all) && Within(c.edges, c.all.Keys) && ChildrenOf(c, n, left) && child in left
    requires c'.all == c.all && c'.edges == c.edges && c'.start == c.start
    requires n in c.gone && gone <= c.gone <= c'.gone
    requires c.cut == cut + Out(c.edges, c.gone - gone - {n}, c.start) + Walked(c, n, left)
    requires c'.cut == c.cut + {(n, child.Key)} + Out(c.edges, c'.gone - c.gone, c.start)
    ensures c'.cut == cut + Out(c.edges, c'.gone - gone - {n}, c.start) + Walked(c', n, left - {child})
    ensures ChildrenOf(c', n, left - {child})
  {
    assert Walked(c', n, left - {child}) == Walked(c, n, left) + {(n, child.Key)};
    assert Out(c.edges, c'.gone - gone - {n}, c.start)
        == Out(c.edges, c.gone - gone - {n}, c.start) + Out(c.edges, c'.gone - c.gone, c.start);
  }

  lemma WalkedAll(c0: Progress, c: Progress, n: ResourceKey)
    requires Within(c.edges, c.all.Keys) && n in c.gone && n !in c0.gone
    ensures Out(c.edges, c.gone - c0.gone - {n}, c.start) + Walked(c, n, {}) == Out(c.edges, c.gone - c0.gone, c.start)
  {
  }

  lemma CutProgress(c: Progress, e: Edge, cutBefore: set<Edge>)
    ensures c.edges - (c.cut + {e}) == c.edges - c.cut - {e}
    ensures cutBefore + (c.cut + {e}) == cutBefore + c.cut + {e}
    ensures Out(c.edges, c.gone - c.gone, c.start) == {}
  {
  }

  /** Taking the node out of the index and out of its parents' child sets. */
  lemma DetachStarts(c: Progress, n: ResourceKey)
    requires c.MayDelete(n)
    ensures c.(gone := c.gone + {n}).Sound({})
    ensures c.start in c.gone + {n}
    ensures c.(gone := c.gone + {n}).Down()
         == set e | e in c.Down() && !(e.1 == n && (e.0, n) in c.edges - c.cut)
  {
    CascadeIsLeastClosed(c.edges, c.start);
    var c' := c.(gone := c.gone + {n});
    if n == c.start {
      assert c'.Down() == set e | e in c.Down() && !(e.1 == n && (e.0, n) in c.edges - c.cut);
    } else {
      assert forall e :: e in c.edges && e.1 == n ==> (e.0, n) in c.cut;
      assert c'.Down() == set e | e in c.Down() && !(e.1 == n && (e.0, n) in c.edges - c.cut);
    }
  }

  /** A finished delete has removed exactly the cascade and cut exactly the edges out of it. */
  lemma Finished(c: Progress)
    requires c.Sound({}) && c.start in c.gone && c.cut == Out(c.edges, c.gone, c.start)
    ensures c.gone == Cascade(c.edges, c.start)
  {
    CascadeIsLeastClosed(c.edges, c.start);
    forall k | Orphaned(c.edges, c.gone, k) ensures k in c.gone {
      if k != c.start && k !in c.gone {
        var p :| p in c.gone && (p, k) in c.edges;
        assert (p, k) in c.cut;
        assert c.AllCut(k) by {
          forall q | (q, k) in c.edges ensures (q, k) in c.cut {
            assert q in c.gone;
          }
        }
      }
    }
  }

  /** The heap and the tally agree with the progress made. cutBefore holds the edges earlier deletes cut. */
  ghost predicate Tracks(c: Progress, tree: Tree, removals: Names, cutBefore: set<Edge>)
    reads c.all.Values
  {
    && Indexed(c.all)
    && tree == c.all - c.gone
    && Linked(c.all, c.edges - c.cut, c.Down())
    && cutBefore !! c.edges
    && Tallied(removals, cutBefore + c.cut)
  }

  /** A delete starts from a graph whose links agree in both directions. */
  lemma BeginDelete(c: Progress, tree: Tree, removals: Names, cutBefore: set<Edge>)
    requires Indexed(c.all) && Linked(c.all, c.edges, c.edges) && Within(c.edges, c.all.Keys)
    requires tree == c.all && c.start in c.all && c.gone == {} && c.cut == {}
    requires Tallied(removals, cutBefore) && cutBefore !! c.edges
    ensures Tracks(c, tree, removals, cutBefore) && c.MayDelete(c.start)
  {
    CascadeIsLeastClosed(c.edges, c.start);
    assert c.all - c.gone == c.all;
    assert c.edges - c.cut == c.edges && cutBefore + c.cut == cutBefore;
  }

  /** A delete that ran to its end removed exactly the cascade and cut exactly the edges out of it. */
  lemma EndDelete(c: Progress, after: Progress, tree: Tree, removals: Names, cutBefore: set<Edge>)
    requires c.gone == {} && c.cut == {} && after.start in after.gone
    requires after.cut == c.cut + Out(after.edges, after.gone - c.gone, after.start)
    requires Tracks(after, tree, removals, cutBefore) && after.Sound({})
    ensures after.gone == Cascade(after.edges, after.start)
    ensures after.cut == Out(after.edges, after.gone, after.start)
    ensures Indexed(tree) && tree.Values <= after.all.Values && tree.Keys == after.all.Keys - after.gone
    ensures var kept := Without(Graph(after.all.Keys, after.edges), after.gone).edges; Linked(tree, kept, kept)
  {
    assert after.gone - c.gone == after.gone;
    Finished(after);
    Settled(after, tree, removals, cutBefore);
  }

  /** Once a delete has finished, the surviving links are exactly the graph without the deleted nodes. */
  lemma Settled(c: Progress, tree: Tree, removals: Names, cutBefore: set<Edge>)
    requires Tracks(c, tree, removals, cutBefore) && c.Sound({})
    requires c.start in c.gone && c.cut == Out(c.edges, c.gone, c.start)
    ensures Indexed(tree) && tree.Values <= c.all.Values && tree.Keys == c.all.Keys - c.gone
    ensures var kept := Without(Graph(c.all.Keys, c.edges), c.gone).edges; Linked(tree, kept, kept)
  {
    var kept := Without(Graph(c.all.Keys, c.edges), c.gone).edges;
    forall k | k in tree ensures tree[k].Parents <= tree.Values && tree[k].Children <= tree.Values {
      forall p | p in tree[k].Parents ensures p in tree.Values {
        assert p == c.all[p.Key] && (p.Key, k) !in c.cut;
        assert p == tree[p.Key];
      }
      forall child | child in tree[k].Children ensures child in tree.Values {
        assert child == c.all[child.Key] && (k, child.Key) in Avoiding(c.edges, c.start);
        assert (k, child.Key) !in c.cut;
        assert child == tree[child.Key];
      }
    }
    forall j, k | j in tree && k in tree
      ensures tree[j] in tree[k].Parents <==> (j, k) in kept
      ensures tree[k] in tree[j].Children <==> (j, k) in kept
    {
      assert tree[j] == c.all[j] && tree[k] == c.all[k];
    }
  }
}
