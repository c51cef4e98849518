/** What holds of the watches and of everything sent, over every run of responses. */
module AdsRuns {
  import opened Xds
  import opened SortedStrings
  import opened AdsSpec

  ghost function StateAfter(run: seq<Response>): State {
    if run == [] then Start else Step(StateAfter(run[..|run| - 1]), run[|run| - 1]).state
  }

  /** What the client sends on reading the last response of a run. */
  ghost function SentLast(run: seq<Response>): seq<Request>
    requires run != []
  {
    Step(StateAfter(run[..|run| - 1]), run[|run| - 1]).sent
  }

  /** Everything sent on the responses that follow a run. */
  ghost function SentDuring(before: seq<Response>, inbox: seq<Response>): seq<Request> {
    if inbox == [] then [] else SentDuring(before, inbox[..|inbox| - 1]) + SentLast(before + inbox)
  }

  lemma StepMore(run: seq<Response>, r: Response)
    ensures StateAfter(run + [r]) == Step(StateAfter(run), r).state
    ensures SentLast(run + [r]) == Step(StateAfter(run), r).sent
  {
    assert (run + [r])[..|run|] == run;
  }

  lemma SentMore(before: seq<Response>, inbox: seq<Response>, r: Response)
    ensures SentDuring(before, inbox + [r]) == SentDuring(before, inbox) + SentLast(before + inbox + [r])
  {
    assert (inbox + [r])[..|inbox|] == inbox;
    assert before + (inbox + [r]) == before + inbox + [r];
  }

  lemma NextTurn(before: seq<Response>, inbox: seq<Response>, i: nat, had: seq<Request>)
    requires i < |inbox|
    ensures var next := Step(StateAfter(before + inbox[..i]), inbox[i]);
      && StateAfter(before + inbox[..i + 1]) == next.state
      && had + SentDuring(before, inbox[..i + 1]) == had + SentDuring(before, inbox[..i]) + next.sent
  {
    assert inbox[..i + 1] == inbox[..i] + [inbox[i]];
    assert before + inbox[..i + 1] == before + inbox[..i] + [inbox[i]];
    StepMore(before + inbox[..i], inbox[i]);
    SentMore(before, inbox[..i], inbox[i]);
  }

  predicate Seen(run: seq<Response>, t: TypeUrl) {
    run != [] && (run[|run| - 1].typeUrl == t || Seen(run[..|run| - 1], t))
  }

  /** Nonce and version of the latest response of a type, empty before the first. */
  function Latest(run: seq<Response>, t: TypeUrl): (string, string) {
    if run == [] then ("", "")
    else
      var r := run[|run| - 1];
      if r.typeUrl == t then (r.nonce, r.version) else Latest(run[..|run| - 1], t)
  }

  /** The EDS-backed names of the latest cluster response. */
  function LatestEndpoints(run: seq<Response>): multiset<string> {
    if run == [] then multiset{}
    else if run[|run| - 1].typeUrl == ClusterType then multiset(EdsNames(ClustersIn(run[|run| - 1].resources)))
    else LatestEndpoints(run[..|run| - 1])
  }

  /** The route names of the latest listener response. */
  function LatestRoutes(run: seq<Response>): multiset<string> {
    if run == [] then multiset{}
    else if run[|run| - 1].typeUrl == ListenerType then multiset(RoutesOf(ListenersIn(run[|run| - 1].resources)))
    else LatestRoutes(run[..|run| - 1])
  }

  /** The secrets of the latest listener response that named any. */
  function LatestSecrets(run: seq<Response>): set<string> {
    if run == [] then {}
    else
      var r := run[|run| - 1];
      if r.typeUrl == ListenerType && SecretsOf(ListenersIn(r.resources)) != {} then SecretsOf(ListenersIn(r.resources))
      else LatestSecrets(run[..|run| - 1])
  }

  /** The extensions of the latest listener response that named any. */
  function LatestExtensions(run: seq<Response>): set<string> {
    if run == [] then {}
    else
      var r := run[|run| - 1];
      if r.typeUrl == ListenerType && ExtensionsOf(ListenersIn(r.resources)) != {} then ExtensionsOf(ListenersIn(r.resources))
      else LatestExtensions(run[..|run| - 1])
  }

  /** What the latest responses name, type by type. */
  datatype Lists = Lists(endpoints: multiset<string>, routes: multiset<string>, secrets: set<string>, extensions: set<string>) {
    function Of(t: TypeUrl): multiset<string> {
      match t
      case EndpointType => endpoints
      case RouteType => routes
      case SecretType => multiset(secrets)
      case ExtensionType => multiset(extensions)
      case _ => multiset{}
    }
  }

  function LatestLists(run: seq<Response>): Lists {
    Lists(LatestEndpoints(run), LatestRoutes(run), LatestSecrets(run), LatestExtensions(run))
  }

  /** The names the client should be watching, read off the responses alone. */
  function Wanted(run: seq<Response>, t: TypeUrl): multiset<string> {
    LatestLists(run).Of(t)
  }

  function Names(s: State, t: TypeUrl): seq<string> {
    WatchOf(s.watches, t).resources
  }

  /** Every watch holds the wanted names, sorted, and the stamp of its type's latest response. */
  ghost predicate Watching(s: State, run: seq<Response>) {
    && (forall t :: Sorted(Names(s, t)) && multiset(Names(s, t)) == Wanted(run, t))
    && Stamped(s, run)
    && s.initialLoad == Seen(run, ClusterType)
  }

  ghost predicate Stamped(s: State, run: seq<Response>) {
    forall t :: (WatchOf(s.watches, t).lastNonce, WatchOf(s.watches, t).lastVersion) == Latest(run, t)
  }

  // ----- following names -----

  /** A request for a changed list: the list now stored, under the latest stamp of its type. */
  ghost predicate Rewatches(q: Request, s: State, run: seq<Response>) {
    && q.reason == Rewatch && (q.nonce, q.version) == Latest(run, q.typeUrl)
    && q.names == Names(s, q.typeUrl)
  }

  ghost predicate Asked(sent: seq<Request>, t: TypeUrl) {
    exists q :: q in sent && q.reason == Rewatch && q.typeUrl == t
  }

  /** The order in which a response's changed watches are asked for. */
  function Rank(t: TypeUrl): nat {
    match t
    case SecretType => 0
    case ExtensionType => 1
    case RouteType => 2
    case _ => 3
  }

  /** No type is asked for twice, and secrets come before extensions before routes. */
  ghost predicate OncePerType(sent: seq<Request>) {
    forall i, j :: 0 <= i < j < |sent| && sent[i].reason == Rewatch && sent[j].reason == Rewatch
      ==> Rank(sent[i].typeUrl) < Rank(sent[j].typeUrl)
  }

  ghost predicate RankedBefore(first: set<TypeUrl>, second: set<TypeUrl>) {
    forall t, u :: t in first && u in second ==> Rank(t) < Rank(u)
  }

  /** From a to b only watches of these types changed, and the new requests are one for each that did. */
  ghost predicate Advances(a: Turn, b: Turn, types: set<TypeUrl>, run: seq<Response>) {
    && Stamped(b.state, run) && b.state.initialLoad == a.state.initialLoad
    && a.sent <= b.sent
    && (forall q :: q in b.sent[|a.sent|..] ==> Rewatches(q, b.state, run) && q.typeUrl in types)
    && OncePerType(b.sent[|a.sent|..])
    && (forall t :: t !in types ==> Names(a.state, t) == Names(b.state, t))
    && (forall t :: Asked(b.sent[|a.sent|..], t) <==> Names(a.state, t) != Names(b.state, t))
  }

  lemma FollowAdvances(a: Turn, t: TypeUrl, resources: seq<string>, run: seq<Response>)
    requires Stamped(a.state, run)
    ensures Advances(a, Follow(a, t, resources), {t}, run)
    ensures Names(Follow(a, t, resources).state, t) == resources
  {
    var b := Follow(a, t, resources);
    var w := WatchOf(a.state.watches, t);
    if w.resources != resources {
      var q := Request(t, resources, w.lastNonce, w.lastVersion, Rewatch);
      assert b.sent[|a.sent|..] == [q];
      assert q in [q];
    } else {
      assert b.sent[|a.sent|..] == [];
    }
  }

  lemma OncePerTypeTogether(early: seq<Request>, late: seq<Request>, first: set<TypeUrl>, second: set<TypeUrl>)
    requires OncePerType(early) && OncePerType(late) && RankedBefore(first, second)
    requires (forall q :: q in early ==> q.typeUrl in first) && (forall q :: q in late ==> q.typeUrl in second)
    ensures OncePerType(early + late)
  {
    forall i, j | 0 <= i < j < |early + late| && (early + late)[i].reason == Rewatch && (early + late)[j].reason == Rewatch
      ensures Rank((early + late)[i].typeUrl) < Rank((early + late)[j].typeUrl)
    {
      if i < |early| <= j {
        assert early[i] in early && late[j - |early|] in late;
      }
    }
  }

  lemma AdvancesCompose(a: Turn, b: Turn, c: Turn, first: set<TypeUrl>, second: set<TypeUrl>, run: seq<Response>)
    requires Advances(a, b, first, run) && Advances(b, c, second, run) && RankedBefore(first, second) && first !! second
    ensures Advances(a, c, first + second, run)
  {
    var early, late := b.sent[|a.sent|..], c.sent[|b.sent|..];
    assert c.sent[|a.sent|..] == early + late;
    forall q | q in early ensures Rewatches(q, c.state, run) {
      assert Names(b.state, q.typeUrl) == Names(c.state, q.typeUrl);
    }
    OncePerTypeTogether(early, late, first, second);
    forall t ensures Asked(early + late, t) <==> Asked(early, t) || Asked(late, t) {
    }
  }

  lemma FollowNonemptyAdvances(a: Turn, t: TypeUrl, names: set<string>, run: seq<Response>)
    requires Stamped(a.state, run)
    ensures Advances(a, FollowNonempty(a, t, names), {t}, run)
    ensures names != {} ==> Names(FollowNonempty(a, t, names).state, t) == Listing(names)
    ensures names == {} ==> FollowNonempty(a, t, names) == a
  {
    if names != {} {
      FollowAdvances(a, t, Listing(names), run);
    } else {
      assert a.sent[|a.sent|..] == [];
    }
  }

  lemma ListenersAdvance(a: Turn, f: Found, run: seq<Response>)
    requires Stamped(a.state, run)
    ensures Advances(a, HandleListeners(a, f), {SecretType, ExtensionType, RouteType}, run)
    ensures var s := HandleListeners(a, f).state;
      && Names(s, RouteType) == f.routes
      && Names(s, SecretType) == (if f.secrets == {} then Names(a.state, SecretType) else Listing(f.secrets))
      && Names(s, ExtensionType) == (if f.extensions == {} then Names(a.state, ExtensionType) else Listing(f.extensions))
  {
    var b := FollowNonempty(a, SecretType, f.secrets);
    var c := FollowNonempty(b, ExtensionType, f.extensions);
    FollowNonemptyAdvances(a, SecretType, f.secrets, run);
    FollowNonemptyAdvances(b, ExtensionType, f.extensions, run);
    FollowAdvances(c, RouteType, f.routes, run);
    ThreeAdvances(a, b, c, HandleListeners(a, f), run);
  }

  lemma ThreeAdvances(a: Turn, b: Turn, c: Turn, d: Turn, run: seq<Response>)
    requires Advances(a, b, {SecretType}, run) && Advances(b, c, {ExtensionType}, run) && Advances(c, d, {RouteType}, run)
    ensures Advances(a, d, {SecretType, ExtensionType, RouteType}, run)
  {
    AdvancesCompose(a, b, c, {SecretType}, {ExtensionType}, run);
    AdvancesCompose(a, c, d, {SecretType} + {ExtensionType}, {RouteType}, run);
    assert {SecretType} + {ExtensionType} + {RouteType} == {SecretType, ExtensionType, RouteType};
  }

  // ----- one response -----

  /** The request for listeners that follows the first cluster response. */
  function FirstLoad(s: State, r: Response): seq<Request> {
    if r.typeUrl == ClusterType && !s.initialLoad then [Request(ListenerType, [], "", "", Init)] else []
  }

  /** The names a response of type u leaves in the watch of type t. */
  ghost function NextNames(s: State, u: TypeUrl, f: Found, t: TypeUrl): seq<string> {
    match t
    case EndpointType => if u == ClusterType then f.endpoints else Names(s, t)
    case RouteType => if u == ListenerType then f.routes else Names(s, t)
    case SecretType => if u == ListenerType && f.secrets != {} then Listing(f.secrets) else Names(s, t)
    case ExtensionType => if u == ListenerType && f.extensions != {} then Listing(f.extensions) else Names(s, t)
    case _ => Names(s, t)
  }

  /**
    What is sent for the last response: its ACK, then requests for the changed watches, then perhaps
    the first request for listeners. before is the state in which the response was read.
   */
  ghost predicate Answered(before: State, after: State, sent: seq<Request>, run: seq<Response>)
    requires run != []
  {
    var r := run[|run| - 1];
    exists middle ::
      && sent == [AckOf(before.watches, r)] + middle + FirstLoad(before, r)
      && (forall q :: q in middle ==> Rewatches(q, after, run)) && OncePerType(middle)
      && (forall t :: Asked(middle, t) <==> Names(before, t) != Names(after, t))
  }

  lemma AcknowledgeStamps(s: State, run: seq<Response>)
    requires run != [] && Stamped(s, run[..|run| - 1])
    ensures var s' := s.(watches := Acknowledge(s.watches, run[|run| - 1]));
      Stamped(s', run) && forall t :: Names(s', t) == Names(s, t)
  {
  }

  /** Everything before the first load is an advance from the acknowledged state. */
  lemma AdvanceAnswers(s: State, a: Turn, b: Turn, after: State, types: set<TypeUrl>, run: seq<Response>)
    requires run != [] && Advances(a, b, types, run) && after.watches == b.state.watches
    requires a.sent == [AckOf(s.watches, run[|run| - 1])] && forall t :: Names(a.state, t) == Names(s, t)
    ensures Answered(s, after, b.sent + FirstLoad(s, run[|run| - 1]), run)
  {
    var middle := b.sent[|a.sent|..];
    assert b.sent == a.sent + middle;
    assert forall t :: Names(after, t) == Names(b.state, t);
    assert forall q :: q in middle ==> Rewatches(q, after, run);
  }

  /** The whole effect of reading the last response of a run in state s. */
  ghost predicate StepsTo(s: State, turn: Turn, f: Found, run: seq<Response>)
    requires run != []
  {
    var r := run[|run| - 1];
    && Answered(s, turn.state, turn.sent, run)
    && Stamped(turn.state, run)
    && turn.state.initialLoad == (s.initialLoad || r.typeUrl == ClusterType)
    && (forall t :: Names(turn.state, t) == NextNames(s, r.typeUrl, f, t))
  }

  lemma ListenerStep(s: State, f: Found, run: seq<Response>)
    requires run != [] && run[|run| - 1].typeUrl == ListenerType && Stamped(s, run[..|run| - 1])
    ensures StepsTo(s, HandleListeners(Acked(s, run[|run| - 1]), f), f, run)
  {
    var a := Acked(s, run[|run| - 1]);
    AcknowledgeStamps(s, run);
    ListenersAdvance(a, f, run);
    ListenersSettle(s, a, HandleListeners(a, f), f, run);
  }

  lemma ListenersSettle(s: State, a: Turn, b: Turn, f: Found, run: seq<Response>)
    requires run != [] && run[|run| - 1].typeUrl == ListenerType
    requires Advances(a, b, {SecretType, ExtensionType, RouteType}, run)
    requires a.state.initialLoad == s.initialLoad
    requires a.sent == [AckOf(s.watches, run[|run| - 1])] && forall t :: Names(a.state, t) == Names(s, t)
    requires Names(b.state, RouteType) == f.routes
    requires Names(b.state, SecretType) == if f.secrets == {} then Names(a.state, SecretType) else Listing(f.secrets)
    requires Names(b.state, ExtensionType) == if f.extensions == {} then Names(a.state, ExtensionType) else Listing(f.extensions)
    ensures StepsTo(s, b, f, run)
  {
    ListenersAnswer(s, a, b, run);
    forall t ensures Names(b.state, t) == NextNames(s, ListenerType, f, t) {
      ListenerNames(s, b.state, f, t);
    }
  }

  lemma ListenersAnswer(s: State, a: Turn, b: Turn, run: seq<Response>)
    requires run != [] && run[|run| - 1].typeUrl == ListenerType
    requires Advances(a, b, {SecretType, ExtensionType, RouteType}, run)
    requires a.sent == [AckOf(s.watches, run[|run| - 1])] && forall t :: Names(a.state, t) == Names(s, t)
    ensures Answered(s, b.state, b.sent, run)
  {
    AdvanceAnswers(s, a, b, b.state, {SecretType, ExtensionType, RouteType}, run);
    assert b.sent + FirstLoad(s, run[|run| - 1]) == b.sent;
  }

  lemma ListenerNames(s: State, next: State, f: Found, t: TypeUrl)
    requires t != SecretType && t != ExtensionType && t != RouteType ==> Names(next, t) == Names(s, t)
    requires Names(next, RouteType) == f.routes
    requires Names(next, SecretType) == if f.secrets == {} then Names(s, SecretType) else Listing(f.secrets)
    requires Names(next, ExtensionType) == if f.extensions == {} then Names(s, ExtensionType) else Listing(f.extensions)
    ensures Names(next, t) == NextNames(s, ListenerType, f, t)
  {
    match t {
      case RouteType =>
      case SecretType =>
      case ExtensionType =>
      case _ =>
    }
  }

  lemma ClusterStep(s: State, f: Found, run: seq<Response>)
    requires run != [] && run[|run| - 1].typeUrl == ClusterType && Stamped(s, run[..|run| - 1])
    ensures StepsTo(s, HandleClusters(Acked(s, run[|run| - 1]), f), f, run)
  {
    var a := Acked(s, run[|run| - 1]);
    var b := Follow(a, EndpointType, f.endpoints);
    AcknowledgeStamps(s, run);
    FollowAdvances(a, EndpointType, f.endpoints, run);
    ClustersSettle(s, a, b, HandleClusters(a, f), f, run);
  }

  lemma ClustersSettle(s: State, a: Turn, b: Turn, turn: Turn, f: Found, run: seq<Response>)
    requires run != [] && run[|run| - 1].typeUrl == ClusterType && Advances(a, b, {EndpointType}, run)
    requires a.sent == [AckOf(s.watches, run[|run| - 1])] && forall t :: Names(a.state, t) == Names(s, t)
    requires Names(b.state, EndpointType) == f.endpoints
    requires turn.state == b.state.(initialLoad := true)
    requires turn.sent == if s.initialLoad then b.sent else b.sent + [Request(ListenerType, [], "", "", Init)]
    ensures StepsTo(s, turn, f, run)
  {
    ClustersAnswer(s, a, b, turn, run);
    assert Stamped(turn.state, run);
    assert forall t :: Names(turn.state, t) == Names(b.state, t);
  }

  lemma ClustersAnswer(s: State, a: Turn, b: Turn, turn: Turn, run: seq<Response>)
    requires run != [] && run[|run| - 1].typeUrl == ClusterType && Advances(a, b, {EndpointType}, run)
    requires a.sent == [AckOf(s.watches, run[|run| - 1])] && forall t :: Names(a.state, t) == Names(s, t)
    requires turn.state.watches == b.state.watches
    requires turn.sent == if s.initialLoad then b.sent else b.sent + [Request(ListenerType, [], "", "", Init)]
    ensures Answered(s, turn.state, turn.sent, run)
  {
    AdvanceAnswers(s, a, b, turn.state, {EndpointType}, run);
    assert s.initialLoad ==> b.sent + FirstLoad(s, run[|run| - 1]) == b.sent;
  }

  lemma OtherStep(s: State, f: Found, run: seq<Response>)
    requires run != [] && run[|run| - 1].typeUrl != ClusterType && run[|run| - 1].typeUrl != ListenerType
    requires Stamped(s, run[..|run| - 1])
    ensures StepsTo(s, Acked(s, run[|run| - 1]), f, run)
  {
    var a := Acked(s, run[|run| - 1]);
    AcknowledgeStamps(s, run);
    assert a.sent[|a.sent|..] == [];
    AdvanceAnswers(s, a, a, a.state, {}, run);
    assert a.sent + FirstLoad(s, run[|run| - 1]) == a.sent;
  }

  lemma StepAnswered(s: State, run: seq<Response>)
    requires run != [] && Stamped(s, run[..|run| - 1])
    ensures StepsTo(s, Step(s, run[|run| - 1]), FoundIn(run[|run| - 1]), run)
  {
    var r := run[|run| - 1];
    match r.typeUrl {
      case ListenerType => ListenerStep(s, FoundIn(r), run);
      case ClusterType => ClusterStep(s, FoundIn(r), run);
      case _ => OtherStep(s, FoundIn(r), run);
    }
  }

  // ----- runs -----

  lemma FoundElements(r: Response)
    ensures var f, ls := FoundIn(r), ListenersIn(r.resources);
      && Sorted(f.endpoints) && multiset(f.endpoints) == multiset(EdsNames(ClustersIn(r.resources)))
      && Sorted(f.routes) && multiset(f.routes) == multiset(RoutesOf(ls))
      && f.secrets == SecretsOf(ls) && f.extensions == ExtensionsOf(ls)
  {
  }

  /** The multiset a response of type u that found f leaves wanted of a type, which was w. */
  function NextOf(u: TypeUrl, f: Found, t: TypeUrl, w: multiset<string>): multiset<string> {
    match t
    case EndpointType => if u == ClusterType then multiset(f.endpoints) else w
    case RouteType => if u == ListenerType then multiset(f.routes) else w
    case SecretType => if u == ListenerType && f.secrets != {} then multiset(f.secrets) else w
    case ExtensionType => if u == ListenerType && f.extensions != {} then multiset(f.extensions) else w
    case _ => w
  }

  /** How a response changes what is wanted, in terms of what it found. */
  lemma WantedStep(run: seq<Response>, t: TypeUrl)
    requires run != []
    ensures Wanted(run, t) == NextOf(run[|run| - 1].typeUrl, FoundIn(run[|run| - 1]), t, Wanted(run[..|run| - 1], t))
  {
    match t {
      case EndpointType => LatestListsStep(run);
      case RouteType => LatestListsStep(run);
      case SecretType => LatestSecretsStep(run);
      case ExtensionType => LatestExtensionsStep(run);
      case _ =>
    }
  }

  lemma LatestListsStep(run: seq<Response>)
    requires run != []
    ensures var r := run[|run| - 1]; var f := FoundIn(r);
      && LatestEndpoints(run) == (if r.typeUrl == ClusterType then multiset(f.endpoints) else LatestEndpoints(run[..|run| - 1]))
      && LatestRoutes(run) == (if r.typeUrl == ListenerType then multiset(f.routes) else LatestRoutes(run[..|run| - 1]))
  {
    FoundElements(run[|run| - 1]);
  }

  lemma LatestSecretsStep(run: seq<Response>)
    requires run != []
    ensures var r := run[|run| - 1]; var f := FoundIn(r);
      LatestSecrets(run) == if r.typeUrl == ListenerType && f.secrets != {} then f.secrets else LatestSecrets(run[..|run| - 1])
  {
  }

  lemma LatestExtensionsStep(run: seq<Response>)
    requires run != []
    ensures var r := run[|run| - 1]; var f := FoundIn(r);
      LatestExtensions(run) == if r.typeUrl == ListenerType && f.extensions != {} then f.extensions else LatestExtensions(run[..|run| - 1])
  {
  }

  lemma NextWanted(s: State, u: TypeUrl, f: Found, t: TypeUrl)
    requires Sorted(f.endpoints) && Sorted(f.routes) && Sorted(Names(s, t))
    ensures Sorted(NextNames(s, u, f, t))
    ensures multiset(NextNames(s, u, f, t)) == NextOf(u, f, t, multiset(Names(s, t)))
  {
  }

  /** After every run each watch holds the wanted names and the latest stamp. */
  lemma {:induction false} RunWatching(run: seq<Response>)
    ensures Watching(StateAfter(run), run)
  {
    if run != [] {
      var s := StateAfter(run[..|run| - 1]);
      RunWatching(run[..|run| - 1]);
      StepAnswered(s, run);
      FoundElements(run[|run| - 1]);
      forall t ensures Sorted(Names(StateAfter(run), t)) && multiset(Names(StateAfter(run), t)) == Wanted(run, t) {
        NextWanted(s, run[|run| - 1].typeUrl, FoundIn(run[|run| - 1]), t);
        WantedStep(run, t);
      }
    }
  }

  /** The three parts of what is sent do not mix. */
  lemma Parts(sent: seq<Request>, ack: Request, middle: seq<Request>, tail: seq<Request>)
    requires sent == [ack] + middle + tail && ack.reason == Ack
    requires (forall q :: q in middle ==> q.reason == Rewatch) && (forall q :: q in tail ==> q.reason == Init)
    ensures sent[0] == ack && forall i :: 1 <= i < |sent| ==> sent[i].reason != Ack
    ensures forall q :: q in sent && q.reason == Rewatch <==> q in middle
    ensures forall t :: Asked(sent, t) <==> Asked(middle, t)
    ensures |middle| == 0 && |tail| == 0 ==> sent == [ack]
  {
    forall i | 1 <= i < |sent| ensures sent[i].reason != Ack {
      assert sent[i] in middle + tail;
    }
    forall q ensures q in sent && q.reason == Rewatch <==> q in middle {
      assert q in sent <==> q == ack || q in middle || q in tail;
    }
  }

  /** The ACK a response gets: its own stamp, and for EDS the whole current watch. */
  ghost predicate Acks(q: Request, r: Response, watched: multiset<string>) {
    && q.reason == Ack && (q.typeUrl, q.nonce, q.version) == (r.typeUrl, r.nonce, r.version)
    && (if r.typeUrl == EndpointType then Sorted(q.names) && multiset(q.names) == watched else q.names == NamesIn(r.resources))
  }

  lemma AckActs(s: State, r: Response, run: seq<Response>)
    requires Watching(s, run)
    ensures Acks(AckOf(s.watches, r), r, Wanted(run, EndpointType))
  {
  }

  lemma AcksFirst(run: seq<Response>)
    requires run != []
    ensures SentLast(run) != [] && SentLast(run)[0] == AckOf(StateAfter(run[..|run| - 1]).watches, run[|run| - 1])
    ensures forall i :: 1 <= i < |SentLast(run)| ==> SentLast(run)[i].reason != Ack
  {
    var s, r := StateAfter(run[..|run| - 1]), run[|run| - 1];
    var middle := Middle(run);
    Parts(SentLast(run), AckOf(s.watches, r), middle, FirstLoad(s, r));
  }

  /** Exactly the first request sent on a response is an ACK. */
  lemma OneAckEach(run: seq<Response>)
    requires run != []
    ensures SentLast(run) != [] && Acks(SentLast(run)[0], run[|run| - 1], Wanted(run, EndpointType))
    ensures forall i :: 1 <= i < |SentLast(run)| ==> SentLast(run)[i].reason != Ack
  {
    AcksFirst(run);
    var s, r := StateAfter(run[..|run| - 1]), run[|run| - 1];
    RunWatching(run[..|run| - 1]);
    AckActs(s, r, run[..|run| - 1]);
    if r.typeUrl == EndpointType {
      WantedStep(run, EndpointType);
    }
  }

  lemma Middle(run: seq<Response>) returns (middle: seq<Request>)
    requires run != []
    ensures var s, r := StateAfter(run[..|run| - 1]), run[|run| - 1];
      && SentLast(run) == [AckOf(s.watches, r)] + middle + FirstLoad(s, r)
      && (forall q :: q in middle ==> Rewatches(q, StateAfter(run), run)) && OncePerType(middle)
      && (forall t :: Asked(middle, t) <==> Names(s, t) != Names(StateAfter(run), t))
  {
    var s, r := StateAfter(run[..|run| - 1]), run[|run| - 1];
    RunWatching(run[..|run| - 1]);
    StepAnswered(s, run);
    assert Answered(s, StateAfter(run), SentLast(run), run);
    middle :| SentLast(run) == [AckOf(s.watches, r)] + middle + FirstLoad(s, r)
      && (forall q :: q in middle ==> Rewatches(q, StateAfter(run), run)) && OncePerType(middle)
      && (forall t :: Asked(middle, t) <==> Names(s, t) != Names(StateAfter(run), t));
  }

  lemma OncePerTypeAmong(sent: seq<Request>, ack: Request, middle: seq<Request>, tail: seq<Request>)
    requires sent == [ack] + middle + tail && ack.reason == Ack && OncePerType(middle)
    requires forall q :: q in tail ==> q.reason == Init
    ensures OncePerType(sent)
  {
    forall i | |middle| < i < |sent| ensures sent[i].reason == Init {
      assert sent[i] == tail[i - 1 - |middle|] && sent[i] in tail;
    }
    assert forall i :: 1 <= i <= |middle| ==> sent[i] == middle[i - 1];
  }

  lemma RewatchesMiddle(run: seq<Response>)
    requires run != []
    ensures var s := StateAfter(run[..|run| - 1]);
      && (forall t :: Asked(SentLast(run), t) <==> Names(s, t) != Names(StateAfter(run), t))
      && (forall q :: q in SentLast(run) && q.reason == Rewatch ==> Rewatches(q, StateAfter(run), run))
      && OncePerType(SentLast(run))
  {
    var middle := Middle(run);
    var s, r := StateAfter(run[..|run| - 1]), run[|run| - 1];
    Parts(SentLast(run), AckOf(s.watches, r), middle, FirstLoad(s, r));
    OncePerTypeAmong(SentLast(run), AckOf(s.watches, r), middle, FirstLoad(s, r));
  }

  lemma WatchedDiffer(s: State, before: seq<Response>, s': State, run: seq<Response>, t: TypeUrl)
    requires Watching(s, before) && Watching(s', run)
    ensures Names(s, t) != Names(s', t) <==> Wanted(run, t) != Wanted(before, t)
  {
    SortedUnique(Names(s, t), Names(s', t));
  }

  /**
    A watch is requested again, once, exactly when what is wanted of its type changed, counting repeats;
    the request names all that is wanted, under the stamp of the type's latest response.
   */
  lemma RewatchedWhenChanged(run: seq<Response>, t: TypeUrl)
    requires run != []
    ensures Asked(SentLast(run), t) <==> Wanted(run, t) != Wanted(run[..|run| - 1], t)
    ensures OncePerType(SentLast(run))
    ensures forall q :: q in SentLast(run) && q.reason == Rewatch ==>
      && Sorted(q.names) && multiset(q.names) == Wanted(run, q.typeUrl)
      && (q.nonce, q.version) == Latest(run, q.typeUrl)
  {
    RunWatching(run[..|run| - 1]);
    RunWatching(run);
    RewatchesMiddle(run);
    WatchedDiffer(StateAfter(run[..|run| - 1]), run[..|run| - 1], StateAfter(run), run, t);
  }

  /** The first cluster response, and no other, ends with the request for all listeners. */
  lemma ListenersAskedOnce(run: seq<Response>)
    requires run != []
    ensures (exists q :: q in SentLast(run) && q.reason == Init) <==>
      run[|run| - 1].typeUrl == ClusterType && !Seen(run[..|run| - 1], ClusterType)
    ensures forall i :: 0 <= i < |SentLast(run)| && SentLast(run)[i].reason == Init ==>
      i == |SentLast(run)| - 1 && SentLast(run)[i] == Request(ListenerType, [], "", "", Init)
  {
    var middle := Middle(run);
    var s, r := StateAfter(run[..|run| - 1]), run[|run| - 1];
    RunWatching(run[..|run| - 1]);
    InitLast(SentLast(run), AckOf(s.watches, r), middle, FirstLoad(s, r));
  }

  lemma InitLast(sent: seq<Request>, ack: Request, middle: seq<Request>, tail: seq<Request>)
    requires sent == [ack] + middle + tail && ack.reason == Ack && |tail| <= 1
    requires (forall q :: q in middle ==> q.reason == Rewatch) && (forall q :: q in tail ==> q.reason == Init)
    ensures (exists q :: q in sent && q.reason == Init) <==> tail != []
    ensures forall i :: 0 <= i < |sent| && sent[i].reason == Init ==> tail != [] && i == |sent| - 1 && sent[i] == tail[0]
  {
    forall i | 1 <= i <= |middle| ensures sent[i].reason == Rewatch {
      assert sent[i] == middle[i - 1] && sent[i] in middle;
    }
    if tail != [] {
      assert sent[|sent| - 1] == tail[0] && tail[0] in tail;
    }
  }

  /** When nothing wanted changes and clusters were seen before, only the ACK is sent. */
  lemma OnlyAck(run: seq<Response>)
    requires run != [] && forall t :: Wanted(run, t) == Wanted(run[..|run| - 1], t)
    requires run[|run| - 1].typeUrl == ClusterType ==> Seen(run[..|run| - 1], ClusterType)
    ensures |SentLast(run)| == 1
  {
    var middle := Middle(run);
    var s, r := StateAfter(run[..|run| - 1]), run[|run| - 1];
    RunWatching(run[..|run| - 1]);
    Parts(SentLast(run), AckOf(s.watches, r), middle, FirstLoad(s, r));
    if middle != [] {
      var q := middle[0];
      assert Asked(middle, q.typeUrl);
      RewatchedWhenChanged(run, q.typeUrl);
    }
  }

  /** The resources of the latest response of a type. */
  function LatestResources(run: seq<Response>, t: TypeUrl): seq<Packed> {
    if run == [] then []
    else if run[|run| - 1].typeUrl == t then run[|run| - 1].resources
    else LatestResources(run[..|run| - 1], t)
  }

  lemma {:induction false} WantedFromLatest(run: seq<Response>)
    ensures Seen(run, ClusterType) ==> LatestEndpoints(run) == multiset(EdsNames(ClustersIn(LatestResources(run, ClusterType))))
    ensures Seen(run, ListenerType) ==>
      var ls := ListenersIn(LatestResources(run, ListenerType));
      && LatestRoutes(run) == multiset(RoutesOf(ls))
      && (SecretsOf(ls) != {} ==> LatestSecrets(run) == SecretsOf(ls))
      && (ExtensionsOf(ls) != {} ==> LatestExtensions(run) == ExtensionsOf(ls))
  {
    if run != [] {
      WantedFromLatest(run[..|run| - 1]);
    }
  }

  ghost predicate Repushed(run: seq<Response>) {
    && run != [] && Seen(run[..|run| - 1], run[|run| - 1].typeUrl)
    && run[|run| - 1].resources == LatestResources(run[..|run| - 1], run[|run| - 1].typeUrl)
  }

  lemma RepushEndpoints(run: seq<Response>)
    requires Repushed(run)
    ensures LatestEndpoints(run) == LatestEndpoints(run[..|run| - 1])
  {
    WantedFromLatest(run[..|run| - 1]);
  }

  lemma RepushRoutes(run: seq<Response>)
    requires Repushed(run)
    ensures LatestRoutes(run) == LatestRoutes(run[..|run| - 1])
  {
    WantedFromLatest(run[..|run| - 1]);
  }

  lemma RepushSecrets(run: seq<Response>)
    requires Repushed(run)
    ensures LatestSecrets(run) == LatestSecrets(run[..|run| - 1])
  {
    WantedFromLatest(run[..|run| - 1]);
  }

  lemma RepushExtensions(run: seq<Response>)
    requires Repushed(run)
    ensures LatestExtensions(run) == LatestExtensions(run[..|run| - 1])
  {
    WantedFromLatest(run[..|run| - 1]);
  }

  lemma RepushWantsTheSame(run: seq<Response>, t: TypeUrl)
    requires Repushed(run)
    ensures Wanted(run, t) == Wanted(run[..|run| - 1], t)
  {
    match t {
      case EndpointType => RepushEndpoints(run);
      case RouteType => RepushRoutes(run);
      case SecretType => RepushSecrets(run);
      case ExtensionType => RepushExtensions(run);
      case _ =>
    }
  }

  /** A response that repeats the resources of the latest one of its type is only acknowledged, whatever came between. */
  lemma RepushOnlyAcks(run: seq<Response>)
    requires Repushed(run)
    ensures |SentLast(run)| == 1 && SentLast(run)[0].reason == Ack
  {
    forall t ensures Wanted(run, t) == Wanted(run[..|run| - 1], t) {
      RepushWantsTheSame(run, t);
    }
    OnlyAck(run);
    OneAckEach(run);
  }
}
