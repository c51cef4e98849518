/** Sorted lists of strings, in the bytewise order of the source's sort. */
module SortedStrings {

  predicate Leq(a: string, b: string) {
    a == [] || (b != [] && (a[0] < b[0] || (a[0] == b[0] && Leq(a[1..], b[1..]))))
  }

  /** The strings agree up to this place and differ there. */
  predicate DifferAt(a: string, b: string, i: nat) {
    i < |a| && i < |b| && a[..i] == b[..i] && a[i] != b[i]
  }

  lemma DifferLater(a: string, b: string, i: nat)
    requires a != [] && b != [] && a[0] == b[0]
    ensures DifferAt(a[1..], b[1..], i) <==> DifferAt(a, b, i + 1)
  {
    if i < |a| - 1 && i < |b| - 1 {
      assert a[..i + 1] == [a[0]] + a[1..][..i] && b[..i + 1] == [b[0]] + b[1..][..i];
      assert a[..i + 1][1..] == a[1..][..i] && b[..i + 1][1..] == b[1..][..i];
    }
  }

  lemma AgreeBefore(a: string, b: string)
    requires a != [] && b != []
    ensures forall i: nat :: DifferAt(a, b, i) && i > 0 ==> a[0] == b[0]
  {
    forall i: nat | DifferAt(a, b, i) && i > 0 ensures a[0] == b[0] {
      assert a[..i][0] == b[..i][0];
    }
  }

  /** The order is lexicographic: a prefix comes first, otherwise the smaller character at the first difference. */
  lemma {:induction false} LeqLexicographic(a: string, b: string)
    ensures Leq(a, b) <==> a <= b || exists i: nat :: DifferAt(a, b, i) && a[i] < b[i]
  {
    if a != [] && b != [] && a[0] == b[0] {
      LeqLexicographic(a[1..], b[1..]);
      assert a == [a[0]] + a[1..] && b == [b[0]] + b[1..];
      assert a[1..] <= b[1..] <==> a <= b;
      forall i: nat ensures DifferAt(a[1..], b[1..], i) <==> DifferAt(a, b, i + 1) {
        DifferLater(a, b, i);
      }
      if i: nat :| DifferAt(a, b, i) && a[i] < b[i] {
        assert i > 0 && DifferAt(a[1..], b[1..], i - 1);
      }
      if i: nat :| DifferAt(a[1..], b[1..], i) && a[1..][i] < b[1..][i] {
        assert DifferAt(a, b, i + 1);
      }
    } else if a != [] && b != [] {
      assert DifferAt(a, b, 0);
      AgreeBefore(a, b);
    }
  }

  lemma LeqTotal(a: string, b: string)
    ensures Leq(a, b) || Leq(b, a)
    ensures Leq(a, b) && Leq(b, a) ==> a == b
  {
    if a != [] && b != [] && a[0] == b[0] {
      LeqTotal(a[1..], b[1..]);
      assert a == [a[0]] + a[1..] && b == [b[0]] + b[1..];
    }
  }

  lemma LeqTransitive(a: string, b: string, c: string)
    requires Leq(a, b) && Leq(b, c)
    ensures Leq(a, c)
  {
    if a != [] && a[0] == b[0] && b[0] == c[0] {
      LeqTransitive(a[1..], b[1..], c[1..]);
    }
  }

  predicate Sorted(s: seq<string>) {
    forall i, j :: 0 <= i < j < |s| ==> Leq(s[i], s[j])
  }

  function Insert(x: string, s: seq<string>): (r: seq<string>)
    ensures multiset(r) == multiset(s) + multiset{x}
  {
    if s == [] then [x]
    else if Leq(x, s[0]) then [x] + s
    else
      assert s == [s[0]] + s[1..];
      [s[0]] + Insert(x, s[1..])
  }

  lemma {:induction false} InsertSorted(x: string, s: seq<string>)
    requires Sorted(s)
    ensures Sorted(Insert(x, s))
  {
    if s != [] {
      if Leq(x, s[0]) {
        forall i | 0 <= i < |s| ensures Leq(x, s[i]) {
          if i > 0 {
            LeqTransitive(x, s[0], s[i]);
          }
        }
      } else {
        var rest := Insert(x, s[1..]);
        InsertSorted(x, s[1..]);
        LeqTotal(x, s[0]);
        forall i | 0 <= i < |rest| ensures Leq(s[0], rest[i]) {
          assert rest[i] in multiset(rest);
          if rest[i] != x {
            assert rest[i] in s[1..];
          }
        }
      }
    }
  }

  /** The sorted rearrangement of a list. */
  function Sort(s: seq<string>): (r: seq<string>)
    ensures multiset(r) == multiset(s)
    ensures Sorted(r)
  {
    if s == [] then []
    else
      assert s == s[..|s| - 1] + [s[|s| - 1]];
      InsertSorted(s[|s| - 1], Sort(s[..|s| - 1]));
      Insert(s[|s| - 1], Sort(s[..|s| - 1]))
  }

  lemma SameHead(a: seq<string>, b: seq<string>)
    requires Sorted(a) && Sorted(b) && a != [] && multiset(a) == multiset(b)
    ensures b != [] && a[0] == b[0]
  {
    assert a[0] in multiset(a);
    assert b != [];
    assert b[0] in multiset(b);
    LeqTotal(a[0], b[0]);
    var i :| 0 <= i < |b| && b[i] == a[0];
    var j :| 0 <= j < |a| && a[j] == b[0];
    LeqTotal(a[0], a[0]);
  }

  lemma TailElements(a: seq<string>)
    requires a != []
    ensures multiset(a[1..]) == multiset(a) - multiset{a[0]}
  {
    assert a == [a[0]] + a[1..];
  }

  /** Sorted lists are equal exactly when they hold the same elements the same number of times. */
  lemma {:induction false} SortedUnique(a: seq<string>, b: seq<string>)
    requires Sorted(a) && Sorted(b)
    ensures a == b <==> multiset(a) == multiset(b)
  {
    if multiset(a) == multiset(b) {
      if a == [] {
        assert |multiset(b)| == 0;
      } else {
        SameHead(a, b);
        TailElements(a);
        TailElements(b);
        SortedUnique(a[1..], b[1..]);
        assert a == [a[0]] + a[1..] && b == [b[0]] + b[1..];
      }
    }
  }

  /** The elements of a set as a sorted list. */
  method SortedList(s: set<string>) returns (r: seq<string>)
    ensures Sorted(r) && multiset(r) == multiset(s)
  {
    var all: seq<string> := [];
    var left := s;
    while left != {}
      invariant left <= s && multiset(all) + multiset(left) == multiset(s)
    {
      var x :| x in left;
      all := all + [x];
      left := left - {x};
    }
    r := Sort(all);
  }

  lemma {:induction false} HasListing(s: set<string>)
    ensures exists r :: IsListing(r, s)
  {
    if s == {} {
      assert IsListing([], s);
    } else {
      var x :| x in s;
      HasListing(s - {x});
      var r :| IsListing(r, s - {x});
      assert multiset(s) == multiset(s - {x}) + multiset{x};
      InsertSorted(x, r);
      assert IsListing(Insert(x, r), s);
    }
  }

  ghost predicate IsListing(r: seq<string>, s: set<string>) {
    Sorted(r) && multiset(r) == multiset(s)
  }

  /** The sorted list of a set; by SortedUnique there is only one. */
  ghost function Listing(s: set<string>): (r: seq<string>)
    ensures Sorted(r) && multiset(r) == multiset(s)
  {
    HasListing(s);
    var r :| IsListing(r, s);
    r
  }
}
