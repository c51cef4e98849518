/** The impersonation reconciler: connections held for the pods it knows, against the pods in the store. */
module Impersonate {

  datatype PodKey = PodKey(namespace: string, name: string)

  /** What the reconciler looks at: whether the pod has an address and whether the selector matches its labels. */
  datatype Pod = Pod(hasIP: bool, selected: bool)

  type Pods = map<PodKey, Pod>

  predicate Wanted(pods: Pods, k: PodKey) {
    k in pods && pods[k].hasIP && pods[k].selected
  }

  class Connection {
    var open: bool

    constructor ()
      ensures !open
    {
      open := false;
    }
  }

  /** The connections the simulation ever opened and closed. */
  class Ledger {
    var starts: nat
    var stops: nat

    constructor ()
      ensures starts == 0 && stops == 0
    {
      starts, stops := 0, 0;
    }

    method Start(c: Connection)
      requires !c.open
      modifies this`starts, c
      ensures c.open && starts == old(starts) + 1
    {
      c.open := true;
      starts := starts + 1;
    }

    method Stop(c: Connection)
      requires c.open
      modifies this`stops, c
      ensures !c.open && stops == old(stops) + 1
    {
      c.open := false;
      stops := stops + 1;
    }
  }

  function Max0(n: int): nat {
    if n < 0 then 0 else n
  }

  ghost predicate Distinct(xsims: seq<Connection>) {
    forall i, j :: 0 <= i < j < |xsims| ==> xsims[i] != xsims[j]
  }

  ghost function AllOf(known: map<PodKey, seq<Connection>>): set<Connection> {
    set k, c | k in known && c in known[k] :: c
  }

  /** So many connections for each key, none of them used twice. */
  ghost predicate Shaped(known: map<PodKey, seq<Connection>>, replicas: nat) {
    && (forall k :: k in known ==> |known[k]| == replicas && Distinct(known[k]))
    && (forall j, k, c :: j in known && k in known && j != k && c in known[j] ==> c !in known[k])
  }

  lemma ShapedMore(known: map<PodKey, seq<Connection>>, replicas: nat, key: PodKey, xsims: seq<Connection>)
    requires Shaped(known, replicas) && key !in known && |xsims| == replicas && Distinct(xsims)
    requires forall c :: c in xsims ==> c !in AllOf(known)
    ensures Shaped(known[key := xsims], replicas)
    ensures AllOf(known[key := xsims]) == AllOf(known) + set c | c in xsims
    ensures |known[key := xsims]| == |known| + 1 && known[key := xsims].Keys == known.Keys + {key}
  {
    var after := known[key := xsims];
    assert after.Keys == known.Keys + {key};
    forall c | c in AllOf(known) ensures c in AllOf(after) {
      var k :| k in known && c in known[k];
      assert after[k] == known[k];
    }
    assert after[key] == xsims;
  }

  lemma ShapedLess(known: map<PodKey, seq<Connection>>, replicas: nat, key: PodKey)
    requires Shaped(known, replicas) && key in known
    ensures Shaped(known - {key}, replicas)
    ensures AllOf(known - {key}) == AllOf(known) - set c | c in known[key]
    ensures |known| == |known - {key}| + 1
  {
    var after := known - {key};
    assert known.Keys == after.Keys + {key};
    forall c | c in AllOf(known) && c !in known[key] ensures c in AllOf(after) {
      var k :| k in known && c in known[k];
      assert after[k] == known[k];
    }
  }

  class Simulation {
    const replicas: int
    const ledger: Ledger
    var knownPods: map<PodKey, seq<Connection>>

    constructor (replicas: int)
      ensures Valid() && knownPods == map[] && fresh(ledger) && this.replicas == replicas
      ensures ledger.starts == ledger.stops == 0
    {
      this.replicas := replicas;
      ledger := new Ledger();
      knownPods := map[];
    }

    ghost function Connections(): set<Connection>
      reads this
    {
      AllOf(knownPods)
    }

    /** Each known pod has its replicas, all open, no connection serves twice, and the ledger accounts for them. */
    ghost predicate Valid()
      reads this, ledger, Connections()
    {
      && Shaped(knownPods, Max0(replicas))
      && (forall c :: c in Connections() ==> c.open)
      && ledger.starts - ledger.stops == Max0(replicas) * |knownPods|
    }

    /** Every known pod has as many connections as configured, none for a negative number, and nothing else is open. */
    lemma Accounted()
      requires Valid()
      ensures forall k :: k in knownPods ==> |knownPods[k]| == if replicas < 0 then 0 else replicas
      ensures ledger.starts - ledger.stops == (if replicas < 0 then 0 else replicas) * |knownPods.Keys|
    {
      SameCount(knownPods);
    }

    /** Connects every replica of a pod, unless it is known. */
    method AddPod(key: PodKey)
      requires Valid()
      modifies this`knownPods, ledger
      ensures Valid() && knownPods.Keys == old(knownPods).Keys + {key}
      ensures forall k :: k in old(knownPods) ==> knownPods[k] == old(knownPods)[k]
      ensures ledger.stops == old(ledger.stops) && fresh(Connections() - old(Connections()))
    {
      if key in knownPods {
        assert knownPods.Keys + {key} == knownPods.Keys;
        return;
      }
      var xsims := Connect();
      ShapedMore(knownPods, Max0(replicas), key, xsims);
      knownPods := knownPods[key := xsims];
      OneMore(Max0(replicas), |old(knownPods)|);
    }

    /** Starts the replicas of one pod. */
    method Connect() returns (xsims: seq<Connection>)
      modifies ledger
      ensures |xsims| == Max0(replicas) && Distinct(xsims)
      ensures forall c :: c in xsims ==> fresh(c) && c.open
      ensures ledger.starts == old(ledger.starts) + |xsims| && ledger.stops == old(ledger.stops)
    {
      xsims := [];
      var n := 1;
      while n <= replicas
        invariant n == |xsims| + 1 && (n <= replicas + 1 || n == 1)
        invariant Distinct(xsims) && forall c :: c in xsims ==> fresh(c) && c.open
        invariant ledger.starts == old(ledger.starts) + |xsims| && ledger.stops == old(ledger.stops)
      {
        var c := new Connection();
        ledger.Start(c);
        xsims := xsims + [c];
        n := n + 1;
      }
    }

    /** Stops the replicas of one pod. */
    method Disconnect(xsims: seq<Connection>)
      requires Distinct(xsims) && forall c :: c in xsims ==> c.open
      modifies ledger, xsims
      ensures ledger.stops == old(ledger.stops) + |xsims| && ledger.starts == old(ledger.starts)
      ensures forall c :: c in xsims ==> !c.open
    {
      for i := 0 to |xsims|
        invariant forall j :: 0 <= j < |xsims| ==> xsims[j].open == (i <= j)
        invariant ledger.stops == old(ledger.stops) + i && ledger.starts == old(ledger.starts)
      {
        ledger.Stop(xsims[i]);
      }
    }

    /** Disconnects every replica of a pod, if it is known. */
    method DelPod(key: PodKey)
      requires Valid()
      modifies this`knownPods, ledger, Connections()
      ensures Valid() && knownPods == old(knownPods) - {key}
      ensures ledger.starts == old(ledger.starts) && Connections() <= old(Connections())
    {
      if key !in knownPods {
        assert knownPods - {key} == knownPods;
        return;
      }
      assert forall c :: c in knownPods[key] ==> c in Connections();
      Disconnect(knownPods[key]);
      ShapedLess(knownPods, Max0(replicas), key);
      knownPods := knownPods - {key};
      OneMore(Max0(replicas), |knownPods|);
    }

    /** One reconcile: a pod that is gone, has no address or is not selected is dropped, any other is connected. */
    method Reconcile(pods: Pods, key: PodKey)
      requires Valid()
      modifies this`knownPods, ledger, Connections()
      ensures Valid()
      ensures knownPods.Keys ==
        if key in pods && pods[key].hasIP && pods[key].selected then old(knownPods).Keys + {key} else old(knownPods).Keys - {key}
      ensures forall k :: k in knownPods && k in old(knownPods) ==> knownPods[k] == old(knownPods)[k]
      ensures fresh(Connections() - old(Connections()))
    {
      if key !in pods {
        DelPod(key);
        return;
      }
      if !pods[key].hasIP {
        DelPod(key);
        return;
      }
      if pods[key].selected {
        AddPod(key);
      } else {
        DelPod(key);
      }
    }

    /** The end: every connection is closed, in any order of the pods; the pods stay listed. */
    method Cleanup()
      requires Valid()
      modifies ledger, Connections()
      ensures forall c :: c in Connections() ==> !c.open
      ensures ledger.starts == ledger.stops == old(ledger.starts)
    {
      var left := knownPods.Keys;
      SameCount(knownPods);
      assert forall k, c :: k in knownPods && c in knownPods[k] ==> c in Connections();
      while left != {}
        invariant left <= knownPods.Keys
        invariant forall k, c :: k in knownPods && c in knownPods[k] ==> c.open == (k in left)
        invariant ledger.starts == old(ledger.starts) && ledger.starts - ledger.stops == Max0(replicas) * |left|
      {
        var key :| key in left;
        assert forall c :: c in knownPods[key] ==> c in old(Connections());
        Disconnect(knownPods[key]);
        left := left - {key};
        OneMore(Max0(replicas), |left|);
      }
    }

    /** Reconciles as keys come up, from the start; the store changes in between. */
    method Reconciles(run: seq<Event>)
      requires Valid() && knownPods == map[]
      modifies this`knownPods, ledger
      ensures Valid() && knownPods.Keys == Known(run)
      ensures forall k :: k in knownPods ==> |knownPods[k]| == if replicas < 0 then 0 else replicas
      ensures ledger.starts - ledger.stops == (if replicas < 0 then 0 else replicas) * |Known(run)|
    {
      var pods: Pods := map[];
      for i := 0 to |run|
        invariant Valid() && fresh(Connections())
        invariant pods == Store(run[..i]) && knownPods.Keys == Known(run[..i])
      {
        RunMore(run, i);
        match run[i] {
          case Change(k, p) => pods := pods[k := p];
          case Remove(k) => pods := pods - {k};
          case Reconciled(k) => Reconcile(pods, k);
        }
      }
      assert run[..|run|] == run;
      Accounted();
    }
  }

  lemma SameCount(known: map<PodKey, seq<Connection>>)
    ensures |known.Keys| == |known|
  {
  }

  lemma OneMore(replicas: nat, n: nat)
    ensures replicas * (n + 1) == replicas * n + replicas
  {
  }

  // ----- runs -----

  /** The store changes, or a key is reconciled against the store as it is. */
  datatype Event = Change(key: PodKey, pod: Pod) | Remove(key: PodKey) | Reconciled(key: PodKey)

  function NextStore(pods: Pods, e: Event): Pods {
    match e
    case Change(k, p) => pods[k := p]
    case Remove(k) => pods - {k}
    case Reconciled(_) => pods
  }

  function Store(run: seq<Event>): Pods {
    if run == [] then map[] else NextStore(Store(run[..|run| - 1]), run[|run| - 1])
  }

  /** What a reconcile adds and drops. */
  function NextKnown(known: set<PodKey>, pods: Pods, e: Event): set<PodKey> {
    match e
    case Reconciled(k) => if Wanted(pods, k) then known + {k} else known - {k}
    case _ => known
  }

  /** The keys known after a run. */
  function Known(run: seq<Event>): set<PodKey> {
    if run == [] then {} else NextKnown(Known(run[..|run| - 1]), Store(run[..|run| - 1]), run[|run| - 1])
  }

  lemma RunMore(run: seq<Event>, i: nat)
    requires i < |run|
    ensures Store(run[..i + 1]) == NextStore(Store(run[..i]), run[i])
    ensures Known(run[..i + 1]) == NextKnown(Known(run[..i]), Store(run[..i]), run[i])
  {
    assert run[..i + 1][..i] == run[..i];
  }

  /** Whether the last reconcile of a key saw a selected pod with an address. */
  predicate LastSawWanted(run: seq<Event>, k: PodKey) {
    run != [] && if run[|run| - 1] == Reconciled(k) then Wanted(Store(run[..|run| - 1]), k) else LastSawWanted(run[..|run| - 1], k)
  }

  /** No change of the key since its last reconcile; a key never changed counts as settled. */
  predicate Settled(run: seq<Event>, k: PodKey) {
    run == [] ||
    match run[|run| - 1]
    case Reconciled(j) => j == k || Settled(run[..|run| - 1], k)
    case Change(j, _) => j != k && Settled(run[..|run| - 1], k)
    case Remove(j) => j != k && Settled(run[..|run| - 1], k)
  }

  /** A key is known exactly when its last reconcile saw it wanted; a settled key, exactly when it is wanted now. */
  lemma {:induction false} KnownTracksStore(run: seq<Event>, k: PodKey)
    ensures k in Known(run) <==> LastSawWanted(run, k)
    ensures Settled(run, k) ==> (k in Known(run) <==> k in Store(run) && Store(run)[k].hasIP && Store(run)[k].selected)
  {
    if run != [] {
      KnownTracksStore(run[..|run| - 1], k);
    }
  }

  /** The store holds a pod exactly when its key was changed and not removed since, and then the last one given. */
  lemma StoreIsLatest(run: seq<Event>, e: Event, k: PodKey)
    ensures k !in Store([])
    ensures k in Store(run + [e]) <==> (e.Change? && e.key == k) || (k in Store(run) && !(e.Remove? && e.key == k))
    ensures k in Store(run + [e]) ==> Store(run + [e])[k] == if e.Change? && e.key == k then e.pod else Store(run)[k]
  {
    assert (run + [e])[..|run|] == run;
  }

  /** When every key has been reconciled after its last change, the known pods are the selected pods of the store. */
  lemma AllSettled(run: seq<Event>)
    requires forall k :: Settled(run, k)
    ensures Known(run) == set k | k in Store(run) && Store(run)[k].hasIP && Store(run)[k].selected
  {
    forall k ensures k in Known(run) <==> Wanted(Store(run), k) {
      KnownTracksStore(run, k);
    }
  }
}
