/** Scaling an application: the pods it lists against the pods that are live in the cluster. */
module Application {

  class Pod {
    constructor () {
    }
  }

  /** The cluster's live pods, of this application and others. A failed start or removal may have taken effect all the same. */
  class Cluster {
    var live: set<Pod>

    constructor ()
      ensures live == {}
    {
      live := {};
    }

    method RunPod(p: Pod) returns (ok: bool)
      modifies this
      ensures live == old(live) + {p} || (!ok && live == old(live))
    {
      ok := *;
      var effect: bool := *;
      if ok || effect {
        live := live + {p};
      }
    }

    method CleanupPod(p: Pod) returns (ok: bool)
      modifies this
      ensures live == old(live) - {p} || (!ok && live == old(live))
    {
      ok := *;
      var effect: bool := *;
      if ok || effect {
        live := live - {p};
      }
    }
  }

  ghost predicate Distinct(pods: seq<Pod>) {
    forall i, j :: 0 <= i < j < |pods| ==> pods[i] != pods[j]
  }

  ghost function Listing(pods: seq<Pod>): set<Pod> {
    set p | p in pods
  }

  /** What the source's swap-remove leaves: the last pod takes the place of the removed one. */
  function SwapRemoved(pods: seq<Pod>, i: nat): seq<Pod>
    requires i < |pods|
  {
    pods[i := pods[|pods| - 1]][..|pods| - 1]
  }

  lemma SwapRemovedListing(pods: seq<Pod>, i: nat)
    requires i < |pods| && Distinct(pods)
    ensures Distinct(SwapRemoved(pods, i))
    ensures Listing(SwapRemoved(pods, i)) == Listing(pods) - {pods[i]}
  {
    var r := SwapRemoved(pods, i);
    forall p ensures p in r <==> p in pods && p != pods[i] {
      if p in pods && p != pods[i] {
        var k :| 0 <= k < |pods| && pods[k] == p;
        assert r[if k == |pods| - 1 then i else k] == p;
      }
    }
  }

  /** The pods that are live but should not be, and those that should be live but are not. */
  ghost function Difference(live: set<Pod>, wanted: set<Pod>): set<Pod> {
    (live - wanted) + (wanted - live)
  }

  /** A pod takes the place of another: what is out of step if it could not be started, the other not removed, or neither. */
  lemma ReplacedDrift(live: set<Pod>, others: set<Pod>, listed: set<Pod>, removed: Pod, added: Pod)
    requires added !in live + others + listed && removed in listed && others !! listed
    ensures var wanted, drift := others + (listed - {removed} + {added}), Difference(live, others + listed);
      && Difference(live, wanted) <= drift + {added, removed}
      && Difference(live + {added}, wanted) <= drift + {added, removed}
      && Difference(live + {added} - {removed}, wanted) <= drift
  {
  }

  class Application {
    var pods: seq<Pod>

    constructor ()
      ensures pods == []
    {
      pods := [];
    }

    /** No pod is listed twice, and none belongs to others. */
    ghost predicate Valid(others: set<Pod>)
      reads this
    {
      Distinct(pods) && others !! Listing(pods)
    }

    /** How far the cluster is from holding this application's pods and the others; nothing when all calls succeed. */
    ghost function Drift(cluster: Cluster, others: set<Pod>): set<Pod>
      reads this, cluster
    {
      Difference(cluster.live, others + Listing(pods))
    }

    /** Any index but the last; the only one if there is but one. */
    method PickIndex() returns (i: nat)
      requires pods != []
      ensures i < |pods| && (|pods| > 1 ==> i < |pods| - 1)
    {
      i := 0;
      if |pods| > 1 {
        i :| 0 <= i < |pods| - 1;
      }
    }

    /** Replaces the pod at an index by a new one. The last of several pods is never the one replaced. */
    method Refresh(cluster: Cluster, ghost others: set<Pod>) returns (ok: bool, ghost at: nat, ghost out: set<Pod>)
      requires Valid(others)
      modifies this, cluster
      ensures Valid(others) && |pods| == |old(pods)|
      ensures Drift(cluster, others) <= old(Drift(cluster, others)) + out
      ensures if old(pods) == [] then ok && cluster.live == old(cluster.live) else
        at < |pods| && fresh(pods[at]) && pods == old(pods)[at := pods[at]] && (|pods| > 1 ==> at < |pods| - 1)
      ensures if ok then out == {} else
        old(pods) != [] && out == {pods[at], old(pods)[at]} && old(cluster.live) - {old(pods)[at]} <= cluster.live <= old(cluster.live) + {pods[at]}
    {
      at, out := 0, {};
      if |pods| == 0 {
        return true, 0, {};
      }
      var i := PickIndex();
      var newPod := new Pod();
      var removed := pods[i];
      at := i;
      ReplacedListing(pods, i, newPod);
      ReplacedDrift(cluster.live, others, Listing(pods), removed, newPod);
      pods := pods[i := newPod];
      ok := cluster.RunPod(newPod);
      if ok {
        ok := cluster.CleanupPod(removed);
      }
      out := if ok then {} else {newPod, removed};
    }

    method Scale(cluster: Cluster, delta: int, ghost others: set<Pod>) returns (ok: bool, ghost out: set<Pod>)
      requires Valid(others)
      modifies this, cluster
      ensures Valid(others)
      ensures Drift(cluster, others) <= old(Drift(cluster, others)) + out && |out| == if ok then 0 else 1
      ensures ok ==> |pods| == if |old(pods)| + delta < 0 then |old(pods)| else |old(pods)| + delta
      ensures |old(pods)| + delta < 0 || delta == 0 ==> ok && pods == old(pods) && cluster.live == old(cluster.live)
      ensures delta < 0 ==> (forall p :: p in pods ==> p in old(pods)) && forall p :: p in out ==> p in old(pods) && p !in pods && (p in Drift(cluster, others) <==> p in cluster.live)
      ensures delta > 0 ==> old(pods) <= pods && forall p :: p in out ==> fresh(p) && p in pods && (p in Drift(cluster, others) <==> p !in cluster.live)
    {
      ok, out := ScaleTo(cluster, |pods| + delta, others);
    }

    /** Removes or adds pods until there are n; does nothing for a negative n. */
    method ScaleTo(cluster: Cluster, n: int, ghost others: set<Pod>) returns (ok: bool, ghost out: set<Pod>)
      requires Valid(others)
      modifies this, cluster
      ensures Valid(others)
      ensures Drift(cluster, others) <= old(Drift(cluster, others)) + out && |out| == if ok then 0 else 1
      ensures ok ==> |pods| == if n < 0 then |old(pods)| else n
      ensures n < 0 || n == |old(pods)| ==> ok && pods == old(pods) && cluster.live == old(cluster.live)
      ensures 0 <= n < |old(pods)| ==> |pods| >= n && forall p :: p in pods ==> p in old(pods)
      ensures 0 <= n < |old(pods)| ==> forall p :: p in out ==> p in old(pods) && p !in pods && (p in Drift(cluster, others) <==> p in cluster.live)
      ensures n > |old(pods)| ==> |pods| <= n && old(pods) <= pods && forall p :: p in pods[|old(pods)|..] ==> fresh(p)
      ensures n > |old(pods)| ==> forall p :: p in out ==> fresh(p) && p in pods && (p in Drift(cluster, others) <==> p !in cluster.live)
    {
      ok, out := true, {};
      if 0 <= n < |pods| {
        ok, out := ScaleDown(cluster, n, others);
      } else if n > |pods| {
        ok, out := ScaleUp(cluster, n, others);
      }
    }

    /** The loop that scales down. */
    method ScaleDown(cluster: Cluster, n: nat, ghost others: set<Pod>) returns (ok: bool, ghost out: set<Pod>)
      requires Valid(others) && n < |pods|
      modifies this, cluster
      ensures Valid(others) && n <= |pods| && (ok ==> |pods| == n)
      ensures Drift(cluster, others) <= old(Drift(cluster, others)) + out && |out| == if ok then 0 else 1
      ensures forall p :: p in pods ==> p in old(pods)
      ensures forall p :: p in out ==> p in old(pods) && p !in pods && (p in Drift(cluster, others) <==> p in cluster.live)
    {
      ok, out := true, {};
      while n < |pods|
        invariant Valid(others) && Drift(cluster, others) <= old(Drift(cluster, others)) && ok && out == {}
        invariant n <= |pods|
        invariant Listing(pods) <= Listing(old(pods))
      {
        ghost var p;
        ok, p := RemoveOne(cluster, others);
        if !ok {
          ListedOnly(pods, old(pods));
          out := {p};
          return;
        }
      }
      ListedOnly(pods, old(pods));
    }

    /** The loop that scales up. */
    method ScaleUp(cluster: Cluster, n: nat, ghost others: set<Pod>) returns (ok: bool, ghost out: set<Pod>)
      requires Valid(others) && |pods| < n
      modifies this, cluster
      ensures Valid(others) && |pods| <= n && (ok ==> |pods| == n)
      ensures Drift(cluster, others) <= old(Drift(cluster, others)) + out && |out| == if ok then 0 else 1
      ensures old(pods) <= pods && forall p :: p in pods[|old(pods)|..] ==> fresh(p)
      ensures forall p :: p in out ==> fresh(p) && p in pods && (p in Drift(cluster, others) <==> p !in cluster.live)
    {
      ok, out := true, {};
      while n > |pods|
        invariant Valid(others) && Drift(cluster, others) <= old(Drift(cluster, others)) && ok && out == {}
        invariant |pods| <= n
        invariant old(pods) <= pods && forall p :: p in pods[|old(pods)|..] ==> fresh(p)
      {
        ghost var before := pods;
        ghost var p;
        ok, p := AddOne(cluster, others);
        assert pods[|old(pods)|..] == before[|old(pods)|..] + [p];
        if !ok {
          out := {p};
          return;
        }
      }
    }

    /** One turn of the loop that scales down. */
    method RemoveOne(cluster: Cluster, ghost others: set<Pod>) returns (ok: bool, ghost removed: Pod)
      requires Valid(others) && pods != []
      modifies this, cluster
      ensures Valid(others) && |pods| == |old(pods)| - 1
      ensures removed in old(pods) && Listing(pods) == Listing(old(pods)) - {removed}
      ensures ok ==> Drift(cluster, others) == old(Drift(cluster, others)) - {removed}
      ensures !ok ==> Drift(cluster, others) <= old(Drift(cluster, others)) + {removed}
      ensures removed in Drift(cluster, others) <==> removed in cluster.live
    {
      var i := PickIndex();
      var chosen := pods[i];
      removed := chosen;
      SwapRemovedListing(pods, i);
      pods := SwapRemoved(pods, i);
      ok := cluster.CleanupPod(chosen);
    }

    /** One turn of the loop that scales up. */
    method AddOne(cluster: Cluster, ghost others: set<Pod>) returns (ok: bool, ghost added: Pod)
      requires Valid(others)
      modifies this, cluster
      ensures Valid(others) && fresh(added) && pods == old(pods) + [added]
      ensures Drift(cluster, others) == old(Drift(cluster, others)) + if added in cluster.live then {} else {added}
      ensures ok ==> added in cluster.live
    {
      var pod := new Pod();
      added := pod;
      AppendedListing(pods, pod);
      pods := pods + [pod];
      ok := cluster.RunPod(pod);
    }
  }

  lemma ListedOnly(pods: seq<Pod>, before: seq<Pod>)
    requires Listing(pods) <= Listing(before)
    ensures forall p :: p in pods ==> p in before
  {
    assert forall p :: p in pods ==> p in Listing(pods);
  }

  lemma ReplacedListing(pods: seq<Pod>, i: nat, p: Pod)
    requires i < |pods| && Distinct(pods) && p !in pods
    ensures Distinct(pods[i := p]) && Listing(pods[i := p]) == Listing(pods) - {pods[i]} + {p}
  {
    var r := pods[i := p];
    forall q ensures q in r <==> q == p || (q in pods && q != pods[i]) {
      if q in pods && q != pods[i] {
        var k :| 0 <= k < |pods| && pods[k] == q;
        assert r[k] == q;
      }
      assert r[i] == p;
    }
  }

  lemma AppendedListing(pods: seq<Pod>, p: Pod)
    requires Distinct(pods) && p !in pods
    ensures Distinct(pods + [p]) && Listing(pods + [p]) == Listing(pods) + {p}
  {
  }

  // ----- many calls -----

  datatype Call = Refreshing | Scaling(delta: int) | ScalingTo(n: int)

  /** How many pods a call may put out of step. */
  function Cost(call: Call, ok: bool): nat {
    if ok then 0 else if call.Refreshing? then 2 else 1
  }

  function Allowance(calls: seq<(nat, Call)>, oks: seq<bool>): nat
    requires |oks| <= |calls|
  {
    if oks == [] then 0
    else
      var last := |oks| - 1;
      Allowance(calls, oks[..last]) + Cost(calls[last].1, oks[last])
  }

  lemma AllowanceMore(calls: seq<(nat, Call)>, oks: seq<bool>, ok: bool)
    requires |oks| < |calls|
    ensures Allowance(calls, oks + [ok]) == Allowance(calls, oks) + Cost(calls[|oks|].1, ok)
  {
    assert (oks + [ok])[..|oks|] == oks;
  }

  /** The calls that failed, of those that refresh or of the others. */
  function FailedCalls(calls: seq<(nat, Call)>, oks: seq<bool>, refreshing: bool): set<nat>
    requires |oks| <= |calls|
  {
    set i: nat | i < |oks| && !oks[i] && (calls[i].1 == Refreshing) == refreshing
  }

  lemma FailedMore(calls: seq<(nat, Call)>, oks: seq<bool>, refreshing: bool)
    requires oks != [] && |oks| <= |calls|
    ensures var last := |oks| - 1;
      |FailedCalls(calls, oks, refreshing)| == |FailedCalls(calls, oks[..last], refreshing)|
        + if !oks[last] && (calls[last].1 == Refreshing) == refreshing then 1 else 0
  {
    var last: nat := |oks| - 1;
    var had := FailedCalls(calls, oks[..last], refreshing);
    assert last !in had;
    assert FailedCalls(calls, oks, refreshing) == had + if !oks[last] && (calls[last].1 == Refreshing) == refreshing then {last} else {};
  }

  /** Two for each failed refresh and one for each other failed call. */
  lemma {:induction false} AllowanceCounts(calls: seq<(nat, Call)>, oks: seq<bool>)
    requires |oks| <= |calls|
    ensures Allowance(calls, oks) == 2 * |FailedCalls(calls, oks, true)| + |FailedCalls(calls, oks, false)|
  {
    if oks == [] {
      assert FailedCalls(calls, oks, true) == {} && FailedCalls(calls, oks, false) == {};
    } else {
      AllowanceCounts(calls, oks[..|oks| - 1]);
      FailedMore(calls, oks, true);
      FailedMore(calls, oks, false);
    }
  }

  lemma SmallerUnion(a: set<Pod>, b: set<Pod>, more: set<Pod>)
    requires a <= b + more
    ensures |a| <= |b| + |more|
  {
    assert a == (a * b) + (a - b);
    assert a * b <= b && a - b <= more;
    Smaller(a * b, b);
    Smaller(a - b, more);
  }

  lemma {:induction false} Smaller(a: set<Pod>, b: set<Pod>)
    requires a <= b
    ensures |a| <= |b|
  {
    if a != {} {
      var p :| p in a;
      Smaller(a - {p}, b - {p});
    }
  }

  /** The applications of a cluster, whose refreshes go on after a failed one. */
  class Workloads {
    const apps: seq<Application>

    constructor (apps: seq<Application>)
      ensures this.apps == apps
    {
      this.apps := apps;
    }

    /** The pods of all applications but one. */
    ghost function Others(a: Application, background: set<Pod>): set<Pod>
      reads apps
    {
      background + set b, p | b in apps && b != a && p in b.pods :: p
    }

    ghost function All(background: set<Pod>): set<Pod>
      reads apps
    {
      background + set b, p | b in apps && p in b.pods :: p
    }

    /** No pod is listed twice in all the applications. */
    ghost predicate Valid(background: set<Pod>)
      reads apps
    {
      && (forall a :: a in apps ==> Distinct(a.pods) && background !! Listing(a.pods))
      && (forall a, b :: a in apps && b in apps && a != b ==> Listing(a.pods) !! Listing(b.pods))
    }

    ghost function Drift(cluster: Cluster, background: set<Pod>): set<Pod>
      reads cluster, apps
    {
      Difference(cluster.live, All(background))
    }

    lemma OneApart(a: Application, background: set<Pod>)
      requires Valid(background) && a in apps
      ensures All(background) == Others(a, background) + Listing(a.pods) && a.Valid(Others(a, background))
    {
    }

    /** One call on one application. */
    method MakeOne(cluster: Cluster, a: Application, call: Call, ghost background: set<Pod>) returns (ok: bool)
      requires Valid(background) && a in apps
      modifies a, cluster
      ensures Valid(background)
      ensures ok ==> Drift(cluster, background) <= old(Drift(cluster, background))
      ensures |Drift(cluster, background)| <= |old(Drift(cluster, background))| + Cost(call, ok)
    {
      OneApart(a, background);
      ghost var others, drift := Others(a, background), a.Drift(cluster, Others(a, background));
      ghost var more;
      ok, more := MakeCall(cluster, a, call, others);
      assert forall b :: b in apps && b != a ==> b.pods == old(b.pods);
      assert others == Others(a, background);
      StillApart(a, background, others);
      SmallerUnion(a.Drift(cluster, others), drift, more);
    }

    method MakeCall(cluster: Cluster, a: Application, call: Call, ghost others: set<Pod>) returns (ok: bool, ghost more: set<Pod>)
      requires a.Valid(others)
      modifies a, cluster
      ensures a.Valid(others) && a.Drift(cluster, others) <= old(a.Drift(cluster, others)) + more && |more| <= Cost(call, ok)
    {
      match call {
        case Refreshing =>
          ghost var at;
          ok, at, more := a.Refresh(cluster, others);
        case Scaling(delta) =>
          ok, more := a.Scale(cluster, delta, others);
        case ScalingTo(n) =>
          ok, more := a.ScaleTo(cluster, n, others);
      }
    }

    lemma StillApart(a: Application, background: set<Pod>, others: set<Pod>)
      requires a in apps && others == Others(a, background) && a.Valid(others)
      requires forall b :: b in apps && b != a ==> Distinct(b.pods) && background !! Listing(b.pods)
      requires forall b, c :: b in apps && c in apps && b != a && c != a && b != c ==> Listing(b.pods) !! Listing(c.pods)
      ensures Valid(background) && All(background) == others + Listing(a.pods)
    {
      forall b | b in apps && b != a ensures Listing(a.pods) !! Listing(b.pods) {
        assert Listing(b.pods) <= others;
      }
    }

    /**
      Any number of calls, each on an application of choice, going on after failures. The pods out of step
      grow by at most two for every failed refresh and one for every failed scaling.
     */
    method Make(cluster: Cluster, calls: seq<(nat, Call)>, ghost background: set<Pod>) returns (oks: seq<bool>)
      requires Valid(background) && forall c :: c in calls ==> c.0 < |apps|
      modifies apps, cluster
      ensures Valid(background) && |oks| == |calls|
      ensures |Drift(cluster, background)|
           <= |old(Drift(cluster, background))| + 2 * |FailedCalls(calls, oks, true)| + |FailedCalls(calls, oks, false)|
      ensures (forall ok :: ok in oks ==> ok) ==> Drift(cluster, background) <= old(Drift(cluster, background))
    {
      oks := [];
      for i := 0 to |calls|
        invariant Valid(background) && |oks| == i
        invariant |Drift(cluster, background)| <= |old(Drift(cluster, background))| + Allowance(calls, oks)
        invariant (forall ok :: ok in oks ==> ok) ==> Drift(cluster, background) <= old(Drift(cluster, background))
      {
        assert calls[i] in calls;
        var ok := MakeOne(cluster, apps[calls[i].0], calls[i].1, background);
        AllowanceMore(calls, oks, ok);
        assert ok in oks + [ok] && forall o :: o in oks ==> o in oks + [ok];
        oks := oks + [ok];
      }
      AllowanceCounts(calls, oks);
    }
  }
}
