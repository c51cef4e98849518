/** The reproduce simulation: objects of the cluster and simulations that create, delete and connect. */
module Reproduce {
  import opened ReproduceSpec

  /** The cluster's object store. */
  class Store {
    var objects: Objects
    var deleted: seq<ObjectKey>  // delete calls made

    constructor (initial: Objects)
      ensures objects == initial && deleted == []
    {
      objects, deleted := initial, [];
    }

    /** Reports whether the object was newly created; an object that is there or a full quota is no error. */
    method Create(k: ObjectKey, body: string, a: Answer) returns (created: bool, err: bool)
      modifies this`objects
      ensures objects == ObjectsAfterCreate(old(objects), k, body, a)
      ensures err <==> CreateOutcome(old(objects), k, a) == Failed
      ensures created <==> CreateOutcome(old(objects), k, a) == Created
    {
      match a {
        case Fail(tookEffect) =>
          if tookEffect && k !in objects {
            objects := objects[k := body];
          }
          return false, true;
        case OverQuota =>
          return false, false;
        case Admit =>
          if k in objects {
            return false, false;
          }
          objects := objects[k := body];
          return true, false;
      }
    }

    /** Deleting an object that is not there is no error. */
    method Delete(k: ObjectKey, denied: nat -> bool) returns (err: bool)
      modifies this
      ensures deleted == old(deleted) + [k]
      ensures err == (k in old(objects) && denied(|old(deleted)|))
      ensures objects == if err then old(objects) else old(objects) - {k}
    {
      err := k in objects && denied(|deleted|);
      deleted := deleted + [k];
      if !err {
        objects := objects - {k};
      }
    }
  }

  class CreateSim {
    const key: ObjectKey
    const body: string
    var skipCleanup: bool

    constructor (key: ObjectKey, body: string)
      ensures this.key == key && this.body == body && !skipCleanup
    {
      this.key, this.body, skipCleanup := key, body, false;
    }

    method Run(store: Store, a: Answer) returns (err: bool)
      requires !skipCleanup
      modifies this`skipCleanup, store`objects
      ensures store.objects == ObjectsAfterCreate(old(store.objects), key, body, a)
      ensures skipCleanup <==> CreateOutcome(old(store.objects), key, a) == Skipped
      ensures err <==> CreateOutcome(old(store.objects), key, a) == Failed
    {
      var created;
      created, err := store.Create(key, body, a);
      if err {
        return;
      }
      if !created {
        skipCleanup := true;
      }
    }

    method Cleanup(store: Store, denied: nat -> bool) returns (err: bool)
      modifies store
      ensures skipCleanup ==> !err && store.objects == old(store.objects) && store.deleted == old(store.deleted)
      ensures !skipCleanup ==>
        && store.deleted == old(store.deleted) + [key]
        && err == (key in old(store.objects) && denied(|old(store.deleted)|))
        && store.objects == if err then old(store.objects) else old(store.objects) - {key}
    {
      if skipCleanup {
        return false;
      }
      err := store.Delete(key, denied);
    }
  }

  class XdsSim {
    var running: bool

    constructor ()
      ensures !running
    {
      running := false;
    }
  }

  datatype Sim = CreateOf(c: CreateSim) | ConnectOf(x: XdsSim)

  ghost function Creates(sims: seq<Sim>): set<CreateSim> {
    set s | s in sims && s.CreateOf? :: s.c
  }

  ghost function Connections(sims: seq<Sim>): set<XdsSim> {
    set s | s in sims && s.ConnectOf? :: s.x
  }

  ghost predicate Matches(s: Sim, t: Trace)
    reads if s.CreateOf? then {s.c} else {}
  {
    match s
    case CreateOf(c) => t.Create? && c.key == t.key && c.skipCleanup == (t.result == Skipped)
    case ConnectOf(_) => t == Connect
  }

  ghost predicate MatchesAll(sims: seq<Sim>, made: seq<Trace>)
    reads Creates(sims)
  {
    |sims| == |made| && forall i :: 0 <= i < |sims| ==> Matches(sims[i], made[i])
  }

  /** Swaps the ends towards the middle. */
  method ReverseSimulations(sims: array<Sim>)
    modifies sims
    ensures forall i :: 0 <= i < sims.Length ==> sims[i] == old(sims[sims.Length - 1 - i])
  {
    for i := 0 to sims.Length / 2
      invariant forall k :: 0 <= k < i ==>
        sims[k] == old(sims[sims.Length - 1 - k]) && sims[sims.Length - 1 - k] == old(sims[k])
      invariant forall k :: i <= k < sims.Length - i ==> sims[k] == old(sims[k])
    {
      var j := sims.Length - i - 1;
      sims[i], sims[j] := sims[j], sims[i];
    }
  }

  /** Cleans every simulation, going on after errors, and returns the keys whose deletion failed. */
  method CleanupAll(sims: seq<Sim>, store: Store, denied: nat -> bool, ghost made: seq<Trace>) returns (errs: seq<ObjectKey>)
    requires MatchesAll(sims, made) && store.deleted == []
    modifies store, Connections(sims)
    ensures MatchesAll(sims, made)
    ensures Cleaning(store.objects, store.deleted, errs) == CleanAll(Cleaning(old(store.objects), [], []), made, denied)
    ensures forall x :: x in Connections(sims) ==> !x.running
  {
    errs := [];
    ghost var start := Cleaning(store.objects, [], []);
    for i := 0 to |sims|
      invariant MatchesAll(sims, made)
      invariant Cleaning(store.objects, store.deleted, errs) == CleanAll(start, made[..i], denied)
      invariant forall j :: 0 <= j < i && sims[j].ConnectOf? ==> !sims[j].x.running
    {
      assert made[..i + 1][..i] == made[..i];
      match sims[i] {
        case CreateOf(c) =>
          var err := c.Cleanup(store, denied);
          if err {
            errs := errs + [c.key];
          }
        case ConnectOf(x) =>
          x.running := false;
      }
    }
    assert made[..|made|] == made;
  }

  lemma SameElements(sims: seq<Sim>, reversed: seq<Sim>)
    requires |sims| == |reversed| && forall i :: 0 <= i < |sims| ==> reversed[i] == sims[|sims| - 1 - i]
    ensures Connections(sims) == Connections(reversed) && Creates(sims) == Creates(reversed)
  {
    forall s ensures s in sims <==> s in reversed {
      if s in sims {
        var i :| 0 <= i < |sims| && sims[i] == s;
        assert reversed[|sims| - 1 - i] == s;
      }
    }
  }

  lemma ReversedMatches(sims: seq<Sim>, reversed: seq<Sim>, made: seq<Trace>)
    requires MatchesAll(sims, made)
    requires |sims| == |reversed| && forall i :: 0 <= i < |sims| ==> reversed[i] == sims[|sims| - 1 - i]
    ensures Connections(sims) == Connections(reversed) && Creates(sims) == Creates(reversed)
    ensures MatchesAll(reversed, Reversed(made))
  {
    SameElements(sims, reversed);
  }

  class Simulation {
    const configOnly: bool
    var sims: seq<Sim>

    constructor (configOnly: bool)
      ensures this.configOnly == configOnly && sims == []
    {
      this.configOnly, sims := configOnly, [];
    }

    /** One input object. */
    method HandleObject(store: Store, i: Item, answers: nat -> Answer, ghost p: Progress)
      requires store.objects == p.objects && MatchesAll(sims, p.made)
      modifies this`sims, store`objects
      ensures store.objects == Handle(p, i, configOnly, answers).objects
      ensures MatchesAll(sims, Handle(p, i, configOnly, answers).made)
      ensures forall x :: x in Connections(sims) ==> x in Connections(old(sims)) || x.running
    {
      if ShouldSkip(i) {
        return;
      }
      if i.api.kind == PodKind && !configOnly {
        var x := new XdsSim();
        sims := sims + [ConnectOf(x)];
        x.running := true;
        return;
      }
      var c := new CreateSim(KeyOf(i), i.obj.body);
      sims := sims + [CreateOf(c)];
      var err := c.Run(store, answers(|sims| - 1));  // an error is logged and ignored
    }

    /** All objects of one kind, until told to stop. n counts the objects considered over all kinds. */
    method HandleKind(store: Store, api: Api, objects: seq<Object>, stop: nat -> bool, answers: nat -> Answer, n: nat, ghost p: Progress)
      returns (n': nat, stopped: bool)
      requires store.objects == p.objects && MatchesAll(sims, p.made)
      modifies this`sims, store`objects
      ensures n <= n' <= n + |objects| && (stopped ==> stop(n')) && (!stopped ==> n' == n + |objects|)
      ensures var p' := HandleAll(p, ItemsOf(api, objects)[..n' - n], configOnly, answers);
        store.objects == p'.objects && MatchesAll(sims, p'.made)
      ensures forall x :: x in Connections(sims) ==> x in Connections(old(sims)) || x.running
    {
      n', stopped := n, false;
      ghost var items, p' := ItemsOf(api, objects), p;
      for i := 0 to |objects|
        invariant n' == n + i && p' == HandleAll(p, items[..i], configOnly, answers)
        invariant store.objects == p'.objects && MatchesAll(sims, p'.made)
        invariant forall x :: x in Connections(sims) ==> x in Connections(old(sims)) || x.running
      {
        if stop(n') {
          return n', true;
        }
        assert items[..i + 1][..i] == items[..i];
        HandleObject(store, Item(api, objects[i]), answers, p');
        p' := Handle(p', items[i], configOnly, answers);
        n' := n' + 1;
      }
    }

    /** Creates every input in the order of kinds, or a prefix if told to stop. */
    method Run(store: Store, byKind: map<Kind, seq<Object>>, stop: nat -> bool, answers: nat -> Answer)
      returns (n: nat, ghost p: Progress)
      requires sims == []
      modifies this`sims, store`objects
      ensures n <= |Plan(byKind, ORDER)| && (n < |Plan(byKind, ORDER)| ==> stop(n))
      ensures p == HandleAll(Progress(old(store.objects), []), Plan(byKind, ORDER)[..n], configOnly, answers)
      ensures store.objects == p.objects && MatchesAll(sims, p.made)
      ensures forall x :: x in Connections(sims) ==> x.running
    {
      n, p := HandleKinds(store, byKind, ORDER, stop, answers);
    }

    /** The kind at g, after all kinds before it. */
    method HandleKindAt(store: Store, byKind: map<Kind, seq<Object>>, apis: seq<Api>, g: nat, stop: nat -> bool, answers: nat -> Answer,
      n: nat, ghost start: Progress, ghost p: Progress)
      returns (n': nat, stopped: bool, ghost p': Progress)
      requires g < |apis| && n == |Plan(byKind, apis[..g])|
      requires p == HandleAll(start, Plan(byKind, apis[..g]), configOnly, answers)
      requires store.objects == p.objects && MatchesAll(sims, p.made)
      modifies this`sims, store`objects
      ensures n' <= |Plan(byKind, apis)| && p' == HandleAll(start, Plan(byKind, apis)[..n'], configOnly, answers)
      ensures if stopped then stop(n') else n' == |Plan(byKind, apis[..g + 1])| && Plan(byKind, apis)[..n'] == Plan(byKind, apis[..g + 1])
      ensures store.objects == p'.objects && MatchesAll(sims, p'.made)
      ensures forall x :: x in Connections(sims) ==> x in Connections(old(sims)) || x.running
    {
      var objects := Inputs(byKind, apis[g].kind);
      n', stopped := HandleKind(store, apis[g], objects, stop, answers, n, p);
      HandleKindMore(start, byKind, apis, g, n' - n, configOnly, answers);
      p' := HandleAll(p, ItemsOf(apis[g], objects)[..n' - n], configOnly, answers);
    }

    method HandleKinds(store: Store, byKind: map<Kind, seq<Object>>, apis: seq<Api>, stop: nat -> bool, answers: nat -> Answer)
      returns (n: nat, ghost p: Progress)
      requires sims == []
      modifies this`sims, store`objects
      ensures n <= |Plan(byKind, apis)| && (n < |Plan(byKind, apis)| ==> stop(n))
      ensures p == HandleAll(Progress(old(store.objects), []), Plan(byKind, apis)[..n], configOnly, answers)
      ensures store.objects == p.objects && MatchesAll(sims, p.made)
      ensures forall x :: x in Connections(sims) ==> x.running
    {
      n := 0;
      ghost var start := Progress(store.objects, []);
      p := start;
      for g := 0 to |apis|
        invariant n == |Plan(byKind, apis[..g])|
        invariant p == HandleAll(start, Plan(byKind, apis[..g]), configOnly, answers)
        invariant store.objects == p.objects && MatchesAll(sims, p.made)
        invariant forall x :: x in Connections(sims) ==> x.running
      {
        var stopped;
        n, stopped, p := HandleKindAt(store, byKind, apis, g, stop, answers, n, start, p);
        if stopped {
          return;
        }
      }
      assert apis[..|apis|] == apis;
      assert Plan(byKind, apis)[..n] == Plan(byKind, apis);
    }

    method Reverse()
      modifies this`sims
      ensures |sims| == |old(sims)| && forall i :: 0 <= i < |sims| ==> sims[i] == old(sims)[|sims| - 1 - i]
    {
      var slice := new Sim[|sims|](i requires 0 <= i < |sims| reads this => sims[i]);
      ReverseSimulations(slice);
      sims := slice[..];
    }

    /** Cleans up from the last simulation to the first; the list itself stays reversed. */
    method Cleanup(store: Store, denied: nat -> bool, ghost made: seq<Trace>) returns (errs: seq<ObjectKey>)
      requires MatchesAll(sims, made) && store.deleted == []
      modifies this`sims, store, Connections(sims)
      ensures Cleaning(store.objects, store.deleted, errs) == ReproduceSpec.Cleanup(old(store.objects), made, denied)
      ensures MatchesAll(sims, Reversed(made))
      ensures forall x :: x in Connections(old(sims)) ==> !x.running
    {
      Reverse();
      ReversedMatches(old(sims), sims, made);
      errs := CleanupAll(sims, store, denied, Reversed(made));
    }
  }
}
