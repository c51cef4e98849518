/** In which order a run takes its inputs, which it takes, and what the store holds afterwards. */
module ReproducePlan {
  import opened ReproduceSpec

  /** The place of a kind among the kinds a run creates; others have none. */
  function Rank(k: Kind): nat {
    match k
    case NamespaceKind => 0
    case EnvoyFilterKind => 1
    case TelemetryKind => 2
    case ServiceEntryKind => 3
    case PeerAuthenticationKind => 4
    case SidecarKind => 5
    case VirtualServiceKind => 6
    case GatewayKind => 7
    case DestinationRuleKind => 8
    case AuthorizationPolicyKind => 9
    case RequestAuthenticationKind => 10
    case WorkloadEntryKind => 11
    case WorkloadGroupKind => 12
    case ConfigMapKind => 13
    case ServiceKind => 14
    case EndpointsKind => 15
    case ServiceAccountKind => 16
    case PodKind => 17
    case OtherKind(_) => 18
  }

  /** The kinds of the mesh's own API; the others are the platform's. */
  predicate IsMeshKind(k: Kind) {
    1 <= Rank(k) <= 12
  }

  /** The items of one kind, in order. */
  function OfKind(items: seq<Item>, k: Kind): seq<Item> {
    if items == [] then []
    else OfKind(items[..|items| - 1], k) + if items[|items| - 1].api.kind == k then [items[|items| - 1]] else []
  }

  lemma {:induction false} OfKindTogether(a: seq<Item>, b: seq<Item>, k: Kind)
    ensures OfKind(a + b, k) == OfKind(a, k) + OfKind(b, k)
  {
    if b == [] {
      assert a + b == a;
    } else {
      OfKindTogether(a, b[..|b| - 1], k);
      assert (a + b)[..|a + b| - 1] == a + b[..|b| - 1];
    }
  }

  lemma {:induction false} OfOneKind(items: seq<Item>, j: Kind, k: Kind)
    requires forall i :: i in items ==> i.api.kind == j
    ensures OfKind(items, k) == if j == k then items else []
  {
    if items != [] {
      var front, last := items[..|items| - 1], items[|items| - 1];
      assert items == front + [last] && last in items && forall i :: i in front ==> i in items;
      OfOneKind(front, j, k);
    }
  }

  /** Each kind has its turn, in its place and with its flag. */
  predicate InPlace(apis: seq<Api>) {
    forall g: nat :: g < |apis| ==> Rank(apis[g].kind) == g && apis[g].isIstio == IsMeshKind(apis[g].kind)
  }

  lemma OrderInPlace()
    ensures |ORDER| == 18 && InPlace(ORDER)
  {
  }

  ghost predicate Sorted(items: seq<Item>) {
    forall i, j :: 0 <= i < j < |items| ==> Rank(items[i].api.kind) <= Rank(items[j].api.kind)
  }

  lemma {:induction false} PlanSorted(byKind: map<Kind, seq<Object>>, apis: seq<Api>)
    requires InPlace(apis)
    ensures Sorted(Plan(byKind, apis)) && forall i :: i in Plan(byKind, apis) ==> Rank(i.api.kind) < |apis|
  {
    if apis != [] {
      var front, api := apis[..|apis| - 1], apis[|apis| - 1];
      PlanSorted(byKind, front);
      var before: seq<Item>, more: seq<Item> := Plan(byKind, front), ItemsOf(api, Inputs(byKind, api.kind));
      assert Plan(byKind, apis) == before + more;
      forall i, j | 0 <= i < j < |before + more|
        ensures Rank((before + more)[i].api.kind) <= Rank((before + more)[j].api.kind)
      {
        if i < |before| <= j {
          assert before[i] in before;
        }
      }
    }
  }

  lemma {:induction false} NotYetPlanned(byKind: map<Kind, seq<Object>>, apis: seq<Api>, k: Kind)
    requires InPlace(apis) && Rank(k) >= |apis|
    ensures OfKind(Plan(byKind, apis), k) == []
  {
    if apis != [] {
      NotYetPlanned(byKind, apis[..|apis| - 1], k);
      OneMoreKind(byKind, apis, k);
    }
  }

  lemma {:induction false} PlanOfKind(byKind: map<Kind, seq<Object>>, apis: seq<Api>, k: Kind)
    requires InPlace(apis) && Rank(k) < |apis| && apis[Rank(k)].kind == k
    ensures OfKind(Plan(byKind, apis), k) == ItemsOf(apis[Rank(k)], Inputs(byKind, k))
  {
    var front := apis[..|apis| - 1];
    OneMoreKind(byKind, apis, k);
    if Rank(k) == |front| {
      NotYetPlanned(byKind, front, k);
    } else {
      PlanOfKind(byKind, front, k);
    }
  }

  lemma OneMoreKind(byKind: map<Kind, seq<Object>>, apis: seq<Api>, k: Kind)
    requires apis != []
    ensures var front, api := apis[..|apis| - 1], apis[|apis| - 1];
      OfKind(Plan(byKind, apis), k)
        == OfKind(Plan(byKind, front), k) + if api.kind == k then ItemsOf(api, Inputs(byKind, k)) else []
  {
    var front, api := apis[..|apis| - 1], apis[|apis| - 1];
    var more := ItemsOf(api, Inputs(byKind, api.kind));
    OfKindTogether(Plan(byKind, front), more, k);
    OfOneKind(more, api.kind, k);
  }

  lemma SameRank(j: Kind, k: Kind)
    requires Rank(j) == Rank(k) < 18
    ensures j == k
  {
  }

  lemma RankIsInjective(k: Kind, apis: seq<Api>)
    requires InPlace(apis) && |apis| <= 18
    ensures Rank(k) < |apis| ==> apis[Rank(k)].kind == k
  {
    if Rank(k) < |apis| {
      SameRank(apis[Rank(k)].kind, k);
    }
  }

  /** The items are the inputs of one kind, in order, each once, with the flag of the kind. */
  predicate Lists(items: seq<Item>, k: Kind, objects: seq<Object>) {
    |items| == |objects| && forall i :: 0 <= i < |items| ==> items[i] == Item(Api(k, IsMeshKind(k)), objects[i])
  }

  lemma ListsItems(api: Api, k: Kind, objects: seq<Object>)
    requires api == Api(k, IsMeshKind(k))
    ensures Lists(ItemsOf(api, objects), k, objects)
  {
  }

  lemma OrderHas(k: Kind)
    requires Rank(k) < 18
    ensures |ORDER| == 18 && ORDER[Rank(k)] == Api(k, IsMeshKind(k))
  {
    OrderInPlace();
    RankIsInjective(k, ORDER);
    assert ORDER[Rank(k)].kind == k;
  }

  lemma OfKindInPlan(byKind: map<Kind, seq<Object>>, apis: seq<Api>, k: Kind)
    requires InPlace(apis) && |apis| == 18 && (Rank(k) < 18 ==> apis[Rank(k)] == Api(k, IsMeshKind(k)))
    ensures Lists(OfKind(Plan(byKind, apis), k), k, if Rank(k) < 18 then Inputs(byKind, k) else [])
  {
    if Rank(k) == 18 {
      NotYetPlanned(byKind, apis, k);
    } else {
      PlanOfKind(byKind, apis, k);
      ListsItems(apis[Rank(k)], k, Inputs(byKind, k));
    }
  }

  lemma {:induction false} FirstKind(byKind: map<Kind, seq<Object>>, apis: seq<Api>)
    requires apis != []
    ensures ItemsOf(apis[0], Inputs(byKind, apis[0].kind)) <= Plan(byKind, apis)
  {
    PlanStep(byKind, apis, 0);
    PlanGrows(byKind, apis, 1);
    assert apis[..0] == [];
  }

  /** A run takes its inputs in the order of their kinds. */
  lemma PlanInOrder(byKind: map<Kind, seq<Object>>)
    ensures Sorted(Plan(byKind, ORDER))
  {
    OrderInPlace();
    PlanSorted(byKind, ORDER);
  }

  /** Of each of the eighteen kinds it takes all inputs, in order and once; of other kinds none. */
  lemma PlanHasAll(byKind: map<Kind, seq<Object>>, k: Kind)
    ensures Lists(OfKind(Plan(byKind, ORDER), k), k, if k in byKind && Rank(k) < 18 then byKind[k] else [])
  {
    OrderInPlace();
    if Rank(k) < 18 {
      OrderHas(k);
    }
    OfKindInPlan(byKind, ORDER, k);
  }

  /** Namespaces are the very first. */
  lemma NamespacesFirst(byKind: map<Kind, seq<Object>>)
    ensures ItemsOf(Api(NamespaceKind, false), Inputs(byKind, NamespaceKind)) <= Plan(byKind, ORDER)
  {
    OrderHas(NamespaceKind);
    FirstKind(byKind, ORDER);
  }

  // ----- what is taken -----

  predicate IsSystem(name: string) {
    name == "kube-system" || name == "kube-public" || name == "istio-system" || name == "resource-group-system"
  }

  /** What a run leaves out: the platform's objects in system namespaces, those namespaces, and the platform's own service. */
  predicate LeftOut(i: Item) {
    || (IsSystem(i.obj.namespace) && !i.api.isIstio)
    || (IsSystem(i.obj.name) && i.api.kind == NamespaceKind)
    || (i.obj.namespace == "default" && i.obj.name == "kubernetes" && i.api.kind == ServiceKind)
  }

  lemma SkipsLeftOut(i: Item)
    ensures ShouldSkip(i) <==> LeftOut(i)
  {
  }

  /** An input that is created: pods only when nothing but configuration is reproduced. */
  predicate Creates(i: Item, configOnly: bool) {
    !LeftOut(i) && (i.api.kind == PodKind ==> configOnly)
  }

  function Named(i: Item): ObjectKey {
    ObjectKey(i.api.kind, i.obj.namespace, i.obj.name)
  }

  /** What is new in the store is one of the created inputs, as it was given. */
  ghost predicate FromInputs(before: Objects, after: Objects, items: seq<Item>, configOnly: bool) {
    forall k :: k in after && k !in before ==> exists i :: i in items && Creates(i, configOnly) && Named(i) == k && after[k] == i.obj.body
  }

  lemma HandleFromInputs(before: Objects, p: Progress, items: seq<Item>, i: Item, configOnly: bool, answers: nat -> Answer)
    requires FromInputs(before, p.objects, items, configOnly)
    ensures FromInputs(before, Handle(p, i, configOnly, answers).objects, items + [i], configOnly)
  {
    SkipsLeftOut(i);
    var after := Handle(p, i, configOnly, answers).objects;
    forall k | k in after && k !in before
      ensures exists j :: j in items + [i] && Creates(j, configOnly) && Named(j) == k && after[k] == j.obj.body
    {
      if k in p.objects {
        var j :| j in items && Creates(j, configOnly) && Named(j) == k && p.objects[k] == j.obj.body;
        assert j in items + [i] && after[k] == j.obj.body;
      } else {
        assert i in items + [i] && Creates(i, configOnly) && Named(i) == k && after[k] == i.obj.body;
      }
    }
  }

  /** Whatever the cluster answers, a run adds nothing but created inputs, each as it was given. */
  lemma {:induction false} RunAddsInputs(before: Objects, items: seq<Item>, configOnly: bool, answers: nat -> Answer)
    ensures FromInputs(before, HandleAll(Progress(before, []), items, configOnly, answers).objects, items, configOnly)
  {
    if items != [] {
      var front, last := items[..|items| - 1], items[|items| - 1];
      assert items == front + [last];
      RunAddsInputs(before, front, configOnly, answers);
      HandleFromInputs(before, HandleAll(Progress(before, []), front, configOnly, answers), front, last, configOnly, answers);
    }
  }

  /** A cluster that admits everything holds all created inputs afterwards, and is asked for each of them and each connected pod once. */
  lemma {:induction false} AdmittedRun(before: Objects, items: seq<Item>, configOnly: bool, answers: nat -> Answer)
    requires forall n :: answers(n) == Admit
    ensures var p := HandleAll(Progress(before, []), items, configOnly, answers);
      && p.objects.Keys == before.Keys + (set i | i in items && Creates(i, configOnly) :: Named(i))
      && |p.made| == |set i | 0 <= i < |items| && !LeftOut(items[i])|
  {
    if items == [] {
      assert (set i | i in items && Creates(i, configOnly) :: Named(i)) == {};
    } else {
      var front, last := items[..|items| - 1], items[|items| - 1];
      assert items == front + [last];
      AdmittedRun(before, front, configOnly, answers);
      HandleAdmitted(HandleAll(Progress(before, []), front, configOnly, answers), last, configOnly, answers);
      KeysOfMore(front, last, configOnly);
      TakenMore(front, last);
    }
  }

  lemma HandleAdmitted(p: Progress, i: Item, configOnly: bool, answers: nat -> Answer)
    requires answers(|p.made|) == Admit
    ensures var p' := Handle(p, i, configOnly, answers);
      && p'.objects.Keys == p.objects.Keys + (if Creates(i, configOnly) then {Named(i)} else {})
      && |p'.made| == |p.made| + if LeftOut(i) then 0 else 1
  {
    SkipsLeftOut(i);
  }

  lemma KeysOfMore(front: seq<Item>, last: Item, configOnly: bool)
    ensures (set i | i in front + [last] && Creates(i, configOnly) :: Named(i))
         == (set i | i in front && Creates(i, configOnly) :: Named(i)) + if Creates(last, configOnly) then {Named(last)} else {}
  {
    assert forall i :: i in front + [last] <==> i in front || i == last;
  }

  lemma TakenMore(front: seq<Item>, last: Item)
    ensures |set i | 0 <= i < |front + [last]| && !LeftOut((front + [last])[i])|
         == |set i | 0 <= i < |front| && !LeftOut(front[i])| + if LeftOut(last) then 0 else 1
  {
    var all, had := set i | 0 <= i < |front + [last]| && !LeftOut((front + [last])[i]), set i | 0 <= i < |front| && !LeftOut(front[i]);
    assert all == had + if LeftOut(last) then {} else {|front|};
  }

  /** Exactly the pods that are not left out are connected, unless only configuration is reproduced. */
  lemma {:induction false} ConnectedPods(before: Objects, items: seq<Item>, configOnly: bool, answers: nat -> Answer)
    ensures multiset(HandleAll(Progress(before, []), items, configOnly, answers).made)[Connect]
         == if configOnly then 0 else |set i | 0 <= i < |items| && items[i].api.kind == PodKind && !LeftOut(items[i])|
  {
    if items != [] {
      var front, last := items[..|items| - 1], items[|items| - 1];
      ConnectedPods(before, front, configOnly, answers);
      SkipsLeftOut(last);
      assert items == front + [last];
      PodsMore(front, last);
    }
  }

  lemma PodsMore(front: seq<Item>, last: Item)
    ensures |set i | 0 <= i < |front + [last]| && (front + [last])[i].api.kind == PodKind && !LeftOut((front + [last])[i])|
         == |set i | 0 <= i < |front| && front[i].api.kind == PodKind && !LeftOut(front[i])|
          + if last.api.kind == PodKind && !LeftOut(last) then 1 else 0
  {
    var all := set i | 0 <= i < |front + [last]| && (front + [last])[i].api.kind == PodKind && !LeftOut((front + [last])[i]);
    var had := set i | 0 <= i < |front| && front[i].api.kind == PodKind && !LeftOut(front[i]);
    assert all == had + if last.api.kind == PodKind && !LeftOut(last) then {|front|} else {};
  }
}
