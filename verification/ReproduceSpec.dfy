/** Reproducing a cluster: which objects a run creates and what cleaning up leaves, on values. */
module ReproduceSpec {

  /** The kinds a run creates, in its order; objects of any other kind are ignored. */
  datatype Kind =
    | NamespaceKind | EnvoyFilterKind | TelemetryKind | ServiceEntryKind | PeerAuthenticationKind | SidecarKind
    | VirtualServiceKind | GatewayKind | DestinationRuleKind | AuthorizationPolicyKind | RequestAuthenticationKind
    | WorkloadEntryKind | WorkloadGroupKind | ConfigMapKind | ServiceKind | EndpointsKind | ServiceAccountKind | PodKind
    | OtherKind(name: string)

  datatype Api = Api(kind: Kind, isIstio: bool)

  const ORDER: seq<Api> := [
    Api(NamespaceKind, false), Api(EnvoyFilterKind, true), Api(TelemetryKind, true), Api(ServiceEntryKind, true),
    Api(PeerAuthenticationKind, true), Api(SidecarKind, true), Api(VirtualServiceKind, true), Api(GatewayKind, true),
    Api(DestinationRuleKind, true), Api(AuthorizationPolicyKind, true), Api(RequestAuthenticationKind, true),
    Api(WorkloadEntryKind, true), Api(WorkloadGroupKind, true), Api(ConfigMapKind, false), Api(ServiceKind, false),
    Api(EndpointsKind, false), Api(ServiceAccountKind, false), Api(PodKind, false)]

  datatype Object = Object(namespace: string, name: string, body: string)

  datatype ObjectKey = ObjectKey(kind: Kind, namespace: string, name: string)

  type Objects = map<ObjectKey, string>

  /** An input object with the entry of the order it was found under. */
  datatype Item = Item(api: Api, obj: Object)

  function KeyOf(i: Item): ObjectKey {
    ObjectKey(i.api.kind, i.obj.namespace, i.obj.name)
  }

  const DENYLIST: set<string> := {"kube-system", "kube-public", "istio-system", "resource-group-system"}

  predicate ShouldSkip(i: Item) {
    || (i.obj.namespace in DENYLIST && !i.api.isIstio)
    || (i.obj.namespace == "default" && i.obj.name == "kubernetes" && i.api.kind == ServiceKind)
    || (i.api.kind == NamespaceKind && i.obj.name in DENYLIST)
  }

  /** How the cluster answers a create of an object it does not hold; a failed create may still have taken effect. */
  datatype Answer = Admit | OverQuota | Fail(tookEffect: bool)

  datatype CreateResult = Created | Skipped | Failed

  /** A create that finds the object present, or is over quota, counts as skipped. */
  function CreateOutcome(objects: Objects, k: ObjectKey, a: Answer): CreateResult {
    match a
    case Fail(_) => Failed
    case OverQuota => Skipped
    case Admit => if k in objects then Skipped else Created
  }

  function ObjectsAfterCreate(objects: Objects, k: ObjectKey, body: string, a: Answer): Objects {
    if k !in objects && (a == Admit || a == Fail(true)) then objects[k := body] else objects
  }

  /** What a run keeps of each object it handled: the outcome of a create, or a connection made for a pod. */
  datatype Trace = Create(key: ObjectKey, result: CreateResult) | Connect

  datatype Progress = Progress(objects: Objects, made: seq<Trace>)

  /** One input object. The answers of the cluster are given by the number of objects handled before. */
  function Handle(p: Progress, i: Item, configOnly: bool, answers: nat -> Answer): Progress {
    if ShouldSkip(i) then p
    else if i.api.kind == PodKind && !configOnly then p.(made := p.made + [Connect])
    else
      var a := answers(|p.made|);
      Progress(
        ObjectsAfterCreate(p.objects, KeyOf(i), i.obj.body, a),
        p.made + [Create(KeyOf(i), CreateOutcome(p.objects, KeyOf(i), a))])
  }

  function HandleAll(p: Progress, items: seq<Item>, configOnly: bool, answers: nat -> Answer): Progress {
    if items == [] then p else Handle(HandleAll(p, items[..|items| - 1], configOnly, answers), items[|items| - 1], configOnly, answers)
  }

  function ItemsOf(api: Api, objects: seq<Object>): seq<Item> {
    seq(|objects|, i requires 0 <= i < |objects| => Item(api, objects[i]))
  }

  function Inputs(byKind: map<Kind, seq<Object>>, k: Kind): seq<Object> {
    if k in byKind then byKind[k] else []
  }

  /** The inputs in the order a run takes them: kind by kind. */
  function Plan(byKind: map<Kind, seq<Object>>, apis: seq<Api>): seq<Item> {
    if apis == [] then []
    else
      var api := apis[|apis| - 1];
      Plan(byKind, apis[..|apis| - 1]) + ItemsOf(api, Inputs(byKind, api.kind))
  }

  lemma PlanStep(byKind: map<Kind, seq<Object>>, apis: seq<Api>, g: nat)
    requires g < |apis|
    ensures Plan(byKind, apis[..g + 1]) == Plan(byKind, apis[..g]) + ItemsOf(apis[g], Inputs(byKind, apis[g].kind))
  {
    assert apis[..g + 1][..g] == apis[..g];
  }

  lemma {:induction false} PlanGrows(byKind: map<Kind, seq<Object>>, apis: seq<Api>, g: nat)
    requires g <= |apis|
    ensures Plan(byKind, apis[..g]) <= Plan(byKind, apis)
  {
    if g == |apis| {
      assert apis[..g] == apis;
    } else {
      PlanGrows(byKind, apis[..|apis| - 1], g);
      assert apis[..|apis| - 1][..g] == apis[..g];
    }
  }

  /** Stopping within a kind has handled a prefix of the whole plan. */
  lemma PlanPrefix(byKind: map<Kind, seq<Object>>, apis: seq<Api>, g: nat, m: nat)
    requires g < |apis| && m <= |Inputs(byKind, apis[g].kind)|
    ensures var done := Plan(byKind, apis[..g]) + ItemsOf(apis[g], Inputs(byKind, apis[g].kind))[..m];
      |done| <= |Plan(byKind, apis)| && Plan(byKind, apis)[..|done|] == done
  {
    PlanStep(byKind, apis, g);
    PlanGrows(byKind, apis, g + 1);
  }

  /** Handling a prefix of the next kind's items, after the kinds before it. */
  lemma HandleKindMore(p0: Progress, byKind: map<Kind, seq<Object>>, apis: seq<Api>, g: nat, m: nat, configOnly: bool, answers: nat -> Answer)
    requires g < |apis| && m <= |Inputs(byKind, apis[g].kind)|
    ensures var items := ItemsOf(apis[g], Inputs(byKind, apis[g].kind))[..m];
      var n := |Plan(byKind, apis[..g])| + m;
      && n <= |Plan(byKind, apis)|
      && HandleAll(p0, Plan(byKind, apis)[..n], configOnly, answers)
         == HandleAll(HandleAll(p0, Plan(byKind, apis[..g]), configOnly, answers), items, configOnly, answers)
      && (m == |Inputs(byKind, apis[g].kind)| ==> n == |Plan(byKind, apis[..g + 1])| && Plan(byKind, apis)[..n] == Plan(byKind, apis[..g + 1]))
  {
    var items := ItemsOf(apis[g], Inputs(byKind, apis[g].kind))[..m];
    PlanPrefix(byKind, apis, g, m);
    PlanStep(byKind, apis, g);
    HandleAllMore(p0, Plan(byKind, apis[..g]), items, configOnly, answers);
  }

  lemma {:induction false} HandleAllMore(p: Progress, first: seq<Item>, more: seq<Item>, configOnly: bool, answers: nat -> Answer)
    ensures HandleAll(p, first + more, configOnly, answers) == HandleAll(HandleAll(p, first, configOnly, answers), more, configOnly, answers)
  {
    if more == [] {
      assert first + more == first;
    } else {
      HandleAllMore(p, first, more[..|more| - 1], configOnly, answers);
      assert (first + more)[..|first + more| - 1] == first + more[..|more| - 1];
    }
  }

  // ----- cleaning up -----

  /** Whether cleaning up deletes the object: skipped creates leave it alone. */
  predicate Deletes(t: Trace) {
    t.Create? && t.result != Skipped
  }

  /** Deletes for the traces, first to last; denied says which of the delete calls the cluster refuses. */
  datatype Cleaning = Cleaning(objects: Objects, deleted: seq<ObjectKey>, refused: seq<ObjectKey>)

  function CleanOne(c: Cleaning, t: Trace, denied: nat -> bool): Cleaning {
    if !Deletes(t) then c
    else
      var refuse := t.key in c.objects && denied(|c.deleted|);
      Cleaning(
        if refuse then c.objects else c.objects - {t.key},
        c.deleted + [t.key],
        if refuse then c.refused + [t.key] else c.refused)
  }

  function CleanAll(c: Cleaning, made: seq<Trace>, denied: nat -> bool): Cleaning {
    if made == [] then c else CleanOne(CleanAll(c, made[..|made| - 1], denied), made[|made| - 1], denied)
  }

  function Reversed(made: seq<Trace>): seq<Trace> {
    seq(|made|, i requires 0 <= i < |made| => made[|made| - 1 - i])
  }

  function Cleanup(objects: Objects, made: seq<Trace>, denied: nat -> bool): Cleaning {
    CleanAll(Cleaning(objects, [], []), Reversed(made), denied)
  }

  // ----- what a run leaves -----

  function DeleteKeys(made: seq<Trace>): set<ObjectKey> {
    set t | t in made && Deletes(t) :: t.key
  }

  function KeysCreated(made: seq<Trace>): seq<ObjectKey> {
    if made == [] then []
    else KeysCreated(made[..|made| - 1]) + if Deletes(made[|made| - 1]) then [made[|made| - 1].key] else []
  }

  predicate IsCreated(t: Trace) {
    t.Create? && t.result == Created
  }

  /** Since the start, only objects to be deleted again were added, and those created were not there before. */
  ghost predicate Grown(before: Objects, p: Progress) {
    && (forall k :: k in before ==> k in p.objects && p.objects[k] == before[k])
    && (forall k :: k in p.objects && k !in before ==> k in DeleteKeys(p.made))
    && (forall i :: 0 <= i < |p.made| && IsCreated(p.made[i]) ==> p.made[i].key !in before && p.made[i].key in p.objects)
    && (forall i, j :: 0 <= i < j < |p.made| && IsCreated(p.made[i]) && IsCreated(p.made[j]) ==> p.made[i].key != p.made[j].key)
  }

  lemma KeysMore(made: seq<Trace>, t: Trace)
    ensures DeleteKeys(made + [t]) == DeleteKeys(made) + if Deletes(t) then {t.key} else {}
  {
    assert forall u :: u in made + [t] <==> u in made || u == t;
  }

  /** A create that leaves the objects as they are: it was skipped or failed, so it adds to the trace only. */
  lemma UnchangedGrows(before: Objects, p: Progress, k: ObjectKey, result: CreateResult)
    requires Grown(before, p) && result != Created
    ensures Grown(before, p.(made := p.made + [Create(k, result)]))
  {
    KeysMore(p.made, Create(k, result));
  }

  /** A create that adds its object, which is due for deletion whether the create was reported to succeed or not. */
  lemma AddedGrows(before: Objects, p: Progress, k: ObjectKey, body: string, result: CreateResult)
    requires Grown(before, p) && result != Skipped && k !in p.objects
    ensures Grown(before, Progress(p.objects[k := body], p.made + [Create(k, result)]))
  {
    KeysMore(p.made, Create(k, result));
  }

  lemma CreateGrows(before: Objects, p: Progress, k: ObjectKey, body: string, a: Answer)
    requires Grown(before, p)
    ensures Grown(before, Progress(ObjectsAfterCreate(p.objects, k, body, a), p.made + [Create(k, CreateOutcome(p.objects, k, a))]))
  {
    if k !in p.objects && (a == Admit || a == Fail(true)) {
      AddedGrows(before, p, k, body, CreateOutcome(p.objects, k, a));
    } else {
      UnchangedGrows(before, p, k, CreateOutcome(p.objects, k, a));
    }
  }

  lemma HandleGrows(before: Objects, p: Progress, i: Item, configOnly: bool, answers: nat -> Answer)
    requires Grown(before, p)
    ensures Grown(before, Handle(p, i, configOnly, answers))
  {
    if ShouldSkip(i) {
    } else if i.api.kind == PodKind && !configOnly {
      KeysMore(p.made, Connect);
    } else {
      CreateGrows(before, p, KeyOf(i), i.obj.body, answers(|p.made|));
    }
  }

  /** For any inputs, any starting objects and any answers: created keys are new and pairwise distinct, nothing else changes. */
  lemma {:induction false} RunGrows(before: Objects, items: seq<Item>, configOnly: bool, answers: nat -> Answer)
    ensures Grown(before, HandleAll(Progress(before, []), items, configOnly, answers))
  {
    if items != [] {
      RunGrows(before, items[..|items| - 1], configOnly, answers);
      HandleGrows(before, HandleAll(Progress(before, []), items[..|items| - 1], configOnly, answers), items[|items| - 1], configOnly, answers);
    }
  }

  lemma {:induction false} CleanAllDeletes(c: Cleaning, made: seq<Trace>, denied: nat -> bool)
    requires forall n :: !denied(n)
    ensures CleanAll(c, made, denied) == Cleaning(c.objects - DeleteKeys(made), c.deleted + KeysCreated(made), c.refused)
  {
    if made == [] {
      assert c.objects - DeleteKeys(made) == c.objects;
    } else {
      var front, t := made[..|made| - 1], made[|made| - 1];
      CleanAllDeletes(c, front, denied);
      assert made == front + [t];
      assert DeleteKeys(made) == DeleteKeys(front) + if Deletes(t) then {t.key} else {};
      assert c.objects - DeleteKeys(front) - (if Deletes(t) then {t.key} else {}) == c.objects - DeleteKeys(made);
    }
  }

  /** How many of the items are handled at all. */
  function HandledCount(items: seq<Item>): nat {
    if items == [] then 0 else HandledCount(items[..|items| - 1]) + if ShouldSkip(items[|items| - 1]) then 0 else 1
  }

  predicate Connects(i: Item, configOnly: bool) {
    i.api.kind == PodKind && !configOnly
  }

  /** The i-th item has key k and is created, and the cluster refuses that for another reason than its being there or the quota. */
  predicate FailsAt(items: seq<Item>, configOnly: bool, answers: nat -> Answer, i: nat, k: ObjectKey) {
    && i < |items| && KeyOf(items[i]) == k && !ShouldSkip(items[i]) && !Connects(items[i], configOnly)
    && answers(HandledCount(items[..i])).Fail?
  }

  ghost predicate FailsOn(items: seq<Item>, configOnly: bool, answers: nat -> Answer, k: ObjectKey) {
    exists i :: FailsAt(items, configOnly, answers, i, k)
  }

  lemma FailsAtFront(items: seq<Item>, configOnly: bool, answers: nat -> Answer, i: nat, k: ObjectKey)
    requires i + 1 < |items|
    ensures FailsAt(items[..|items| - 1], configOnly, answers, i, k) == FailsAt(items, configOnly, answers, i, k)
  {
    assert items[..|items| - 1][..i] == items[..i];
  }

  lemma FailsOnMore(items: seq<Item>, configOnly: bool, answers: nat -> Answer, k: ObjectKey)
    requires items != []
    ensures FailsOn(items, configOnly, answers, k) <==>
      FailsOn(items[..|items| - 1], configOnly, answers, k) || FailsAt(items, configOnly, answers, |items| - 1, k)
  {
    var front := items[..|items| - 1];
    if FailsOn(items, configOnly, answers, k) {
      var i: nat :| FailsAt(items, configOnly, answers, i, k);
      if i < |front| {
        FailsAtFront(items, configOnly, answers, i, k);
      }
    }
    if FailsOn(front, configOnly, answers, k) {
      var i: nat :| FailsAt(front, configOnly, answers, i, k);
      FailsAtFront(items, configOnly, answers, i, k);
    }
  }

  lemma HandleRecords(p: Progress, i: Item, configOnly: bool, answers: nat -> Answer, k: ObjectKey)
    ensures var p' := Handle(p, i, configOnly, answers);
      && |p'.made| == |p.made| + (if ShouldSkip(i) then 0 else 1)
      && (Create(k, Failed) in p'.made <==>
           Create(k, Failed) in p.made || (KeyOf(i) == k && !ShouldSkip(i) && !Connects(i, configOnly) && answers(|p.made|).Fail?))
  {
  }

  /** The run records a failed create of a key exactly when the inputs and answers make one fail. */
  lemma {:induction false} FailedExactly(before: Objects, items: seq<Item>, configOnly: bool, answers: nat -> Answer, k: ObjectKey)
    ensures var p := HandleAll(Progress(before, []), items, configOnly, answers);
      |p.made| == HandledCount(items) && (Create(k, Failed) in p.made <==> FailsOn(items, configOnly, answers, k))
  {
    if items == [] {
      assert !FailsOn(items, configOnly, answers, k);
    } else {
      var front := items[..|items| - 1];
      FailedExactly(before, front, configOnly, answers, k);
      FailsOnMore(items, configOnly, answers, k);
      HandleRecords(HandleAll(Progress(before, []), front, configOnly, answers), items[|items| - 1], configOnly, answers, k);
    }
  }

  lemma CleanupAfter(before: Objects, p: Progress, denied: nat -> bool)
    requires Grown(before, p) && forall n :: !denied(n)
    ensures Cleanup(p.objects, p.made, denied).refused == []
    ensures Cleanup(p.objects, p.made, denied).objects == map k | k in before && Create(k, Failed) !in p.made :: before[k]
  {
    CleanAllDeletes(Cleaning(p.objects, [], []), Reversed(p.made), denied);
    ReversedKeys(p.made);
    forall k | k in before ensures k in DeleteKeys(p.made) <==> Create(k, Failed) in p.made {
      if k in DeleteKeys(p.made) {
        var i :| 0 <= i < |p.made| && Deletes(p.made[i]) && p.made[i].key == k;
        assert !IsCreated(p.made[i]);
        assert p.made[i] == Create(k, Failed);
      }
    }
    assert Cleanup(p.objects, p.made, denied).objects == p.objects - DeleteKeys(p.made);
  }

  /**
    After a run, stopped anywhere, and a clean-up whose deletes succeed, the store is the original one
    less the objects whose creation failed for another reason: clean-up deletes those although the run did not create them.
   */
  lemma RunThenCleanup(before: Objects, items: seq<Item>, configOnly: bool, answers: nat -> Answer, denied: nat -> bool)
    requires forall n :: !denied(n)
    ensures var p := HandleAll(Progress(before, []), items, configOnly, answers);
      var after := Cleanup(p.objects, p.made, denied);
      && after.objects == (map k | k in before && !FailsOn(items, configOnly, answers, k) :: before[k])
      && after.refused == []
      && (after.objects == before <==> forall k :: k in before ==> !FailsOn(items, configOnly, answers, k))
  {
    var p := HandleAll(Progress(before, []), items, configOnly, answers);
    RunGrows(before, items, configOnly, answers);
    CleanupAfter(before, p, denied);
    forall k ensures Create(k, Failed) in p.made <==> FailsOn(items, configOnly, answers, k) {
      FailedExactly(before, items, configOnly, answers, k);
    }
    var after := Cleanup(p.objects, p.made, denied).objects;
    if after == before {
      forall k | k in before ensures !FailsOn(items, configOnly, answers, k) {
        assert k in after;
      }
    }
  }

  /** One config map that is already there and whose create is refused: clean-up deletes it. */
  lemma FailedCreateIsDeleted(before: Objects, obj: Object, denied: nat -> bool)
    requires (forall n :: !denied(n)) && obj.namespace !in DENYLIST
    requires ObjectKey(ConfigMapKind, obj.namespace, obj.name) in before
    ensures var items := [Item(Api(ConfigMapKind, false), obj)];
      var p := HandleAll(Progress(before, []), items, false, (n: nat) => Fail(false));
      && p.objects == before
      && Cleanup(p.objects, p.made, denied).objects == before - {KeyOf(items[0])} != before
  {
    var items, answers := [Item(Api(ConfigMapKind, false), obj)], (n: nat) => Fail(false);
    var key := KeyOf(items[0]);
    RunThenCleanup(before, items, false, answers, denied);
    forall k ensures FailsOn(items, false, answers, k) <==> k == key {
      FailsOnMore(items, false, answers, k);
      assert items[..0] == [] && !FailsOn([], false, answers, k);
    }
    OneRefused(before, items[0], answers);
    assert before - {key} == map k | k in before && !FailsOn(items, false, answers, k) :: before[k];
    assert key in before;
  }

  lemma OneRefused(before: Objects, i: Item, answers: nat -> Answer)
    requires answers(0) == Fail(false) && i.api.kind == ConfigMapKind
    ensures HandleAll(Progress(before, []), [i], false, answers).objects == before
  {
    assert [i][..0] == [];
  }

  lemma ReversedKeys(made: seq<Trace>)
    ensures DeleteKeys(Reversed(made)) == DeleteKeys(made)
  {
    var r := Reversed(made);
    forall t ensures t in r <==> t in made {
      if t in made {
        var i :| 0 <= i < |made| && made[i] == t;
        assert r[|made| - 1 - i] == t;
      }
    }
  }

  /** When creates fail only because the object is there or over quota, the original store is restored. */
  lemma Restored(before: Objects, items: seq<Item>, configOnly: bool, answers: nat -> Answer, denied: nat -> bool)
    requires (forall n :: !denied(n)) && (forall n :: !answers(n).Fail?)
    ensures var p := HandleAll(Progress(before, []), items, configOnly, answers);
      Cleanup(p.objects, p.made, denied).objects == before
  {
    RunThenCleanup(before, items, configOnly, answers, denied);
  }

  // ----- order -----

  function ReversedList(keys: seq<ObjectKey>): seq<ObjectKey> {
    seq(|keys|, i requires 0 <= i < |keys| => keys[|keys| - 1 - i])
  }

  lemma {:induction false} KeysOfReversed(made: seq<Trace>)
    ensures KeysCreated(Reversed(made)) == ReversedList(KeysCreated(made))
  {
    if made != [] {
      var front, t := made[..|made| - 1], made[|made| - 1];
      KeysOfReversed(front);
      assert Reversed(made) == [t] + Reversed(front);
      KeysOfCons(t, Reversed(front));
    }
  }

  lemma {:induction false} KeysOfCons(t: Trace, rest: seq<Trace>)
    ensures KeysCreated([t] + rest) == (if Deletes(t) then [t.key] else []) + KeysCreated(rest)
  {
    if rest == [] {
      assert [t] + rest == [t] && [t][..0] == [];
    } else {
      KeysOfCons(t, rest[..|rest| - 1]);
      assert ([t] + rest)[..|rest|] == [t] + rest[..|rest| - 1];
    }
  }

  lemma {:induction false} CleanAllAsks(c: Cleaning, made: seq<Trace>, denied: nat -> bool)
    ensures CleanAll(c, made, denied).deleted == c.deleted + KeysCreated(made)
  {
    if made != [] {
      CleanAllAsks(c, made[..|made| - 1], denied);
    }
  }

  /** Clean-up asks for deletion in the reverse of the order of creation, whatever is refused. */
  lemma DeletesInReverse(objects: Objects, made: seq<Trace>, denied: nat -> bool)
    ensures Cleanup(objects, made, denied).deleted == ReversedList(KeysCreated(made))
  {
    CleanAllAsks(Cleaning(objects, [], []), Reversed(made), denied);
    KeysOfReversed(made);
  }

  // ----- refused deletes -----

  /** An object is there as long as every delete of it was refused. */
  ghost predicate Survives(objects: Objects, c: Cleaning, k: ObjectKey)
    requires k in objects
  {
    && (k in c.objects ==> c.objects[k] == objects[k] && multiset(c.refused)[k] == multiset(c.deleted)[k])
    && (k !in c.objects ==> multiset(c.refused)[k] < multiset(c.deleted)[k])
  }

  lemma CleanOneSurvives(objects: Objects, c: Cleaning, t: Trace, denied: nat -> bool, k: ObjectKey)
    requires k in objects && Survives(objects, c, k)
    ensures Survives(objects, CleanOne(c, t, denied), k)
  {
    if Deletes(t) {
      assert multiset(c.deleted + [t.key]) == multiset(c.deleted) + multiset{t.key};
      assert multiset(c.refused + [t.key]) == multiset(c.refused) + multiset{t.key};
    }
  }

  lemma {:induction false} CleanAllSurvives(objects: Objects, made: seq<Trace>, denied: nat -> bool, k: ObjectKey)
    requires k in objects
    ensures Survives(objects, CleanAll(Cleaning(objects, [], []), made, denied), k)
  {
    if made != [] {
      CleanAllSurvives(objects, made[..|made| - 1], denied, k);
      CleanOneSurvives(objects, CleanAll(Cleaning(objects, [], []), made[..|made| - 1], denied), made[|made| - 1], denied, k);
    }
  }

  lemma {:induction false} CleanAllShrinks(c: Cleaning, made: seq<Trace>, denied: nat -> bool)
    ensures CleanAll(c, made, denied).objects.Keys <= c.objects.Keys
  {
    if made != [] {
      CleanAllShrinks(c, made[..|made| - 1], denied);
    }
  }

  /** After any clean-up exactly the objects are left, unchanged, whose every delete was refused. */
  lemma LeftAfterCleanup(objects: Objects, made: seq<Trace>, denied: nat -> bool)
    ensures var c := Cleanup(objects, made, denied);
      && (forall k :: k in c.objects <==> k in objects && multiset(c.refused)[k] == multiset(c.deleted)[k])
      && (forall k :: k in c.objects ==> c.objects[k] == objects[k])
  {
    CleanAllShrinks(Cleaning(objects, [], []), Reversed(made), denied);
    forall k | k in objects ensures Survives(objects, Cleanup(objects, made, denied), k) {
      CleanAllSurvives(objects, Reversed(made), denied, k);
    }
  }
}
