/** Expanding a list of counts into places, one for every replica of every item, in order. */
module Expansion {
  import opened ClusterConfig

  /** Index of a configured item and number of its replica. */
  type Place = (nat, nat)

  function Row(index: nat, n: nat): seq<Place> {
    seq(n, r => (index, r))
  }

  /** The places of the first n items, every item replicated as often as its count says. */
  function Places(counts: seq<int>, n: nat): seq<Place>
    requires n <= |counts|
  {
    if n == 0 then [] else Places(counts, n - 1) + Row(n - 1, Times(counts[n - 1]))
  }

  /** Places are in order of index and replica, so none appears twice. */
  ghost predicate Ascending(places: seq<Place>) {
    forall i, j :: 0 <= i < j < |places| ==> Precedes(places[i], places[j])
  }

  predicate Precedes(p: Place, q: Place) {
    p.0 < q.0 || (p.0 == q.0 && p.1 < q.1)
  }

  lemma RowsAscend(places: seq<Place>, row: seq<Place>)
    requires Ascending(places) && Ascending(row)
    requires forall p, q :: p in places && q in row ==> Precedes(p, q)
    ensures Ascending(places + row)
  {
    forall i, j | 0 <= i < j < |places + row|
      ensures Precedes((places + row)[i], (places + row)[j])
    {
      if i < |places| <= j {
        assert places[i] in places && row[j - |places|] in row;
      }
    }
  }

  lemma {:induction false} PlacesAscend(counts: seq<int>, n: nat)
    requires n <= |counts|
    ensures Ascending(Places(counts, n)) && forall p :: p in Places(counts, n) ==> p.0 < n && p.1 < counts[p.0]
  {
    if n > 0 {
      PlacesAscend(counts, n - 1);
      RowsAscend(Places(counts, n - 1), Row(n - 1, Times(counts[n - 1])));
    }
  }

  /** And every replica of every item has a place. */
  lemma {:induction false} EveryPlace(counts: seq<int>, n: nat, index: nat, r: nat)
    requires index < n <= |counts| && r < counts[index]
    ensures (index, r) in Places(counts, n)
  {
    if index == n - 1 {
      assert Row(index, Times(counts[index]))[r] == (index, r);
    } else {
      EveryPlace(counts, n - 1, index, r);
    }
  }

  lemma PlacesStep(counts: seq<int>, i: nat)
    requires i < |counts|
    ensures Places(counts, i + 1) == Places(counts, i) + Row(i, Times(counts[i]))
  {
  }

  lemma RowMore(index: nat, n: nat)
    ensures Row(index, n + 1) == Row(index, n) + [(index, n)] && Row(index, 0) == []
  {
  }

  lemma OneMore(n: nat, each: nat)
    ensures (n + 1) * each == n * each + each
  {
  }

  lemma Positive(n: nat, m: nat)
    requires n > 0 && m > 0
    ensures n * m > 0
  {
  }
}
