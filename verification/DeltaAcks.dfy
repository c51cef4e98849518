/** What the delta client answers each message with, and which types it treats how, without reference to the message's effects. */
module DeltaAcks {
  import opened Xds
  import opened DeltaGraph
  import opened DeltaHeap
  import opened DeltaSpec
  import opened DeltaRuns

  lemma {:induction false} LegalAt(run: seq<Event>, i: nat)
    requires Legal(run) && i < |run|
    ensures Legal(run[..i]) && LegalNext(StateAfter(run[..i]), run[i])
  {
    var before := run[..|run| - 1];
    if i < |before| {
      LegalAt(before, i);
      assert before[..i] == run[..i];
    }
  }

  /** A request that changes subscriptions: it names something and carries no nonce. */
  predicate ChangesSubscriptions(r: Request) {
    r.nonce == "" && (r.subscribe != [] || r.unsubscribe != [])
  }

  lemma CutIsNamed(s: ClientState, m: Message, r: Request)
    requires Invariant(s) && WellTyped(m) && Owed(TakeAll(s, m).requests, Prune(s, m).cut, r)
    requires r.typeUrl in CutTypes(Prune(s, m).cut)
    ensures r.unsubscribe != []
  {
    var cut := Prune(s, m).cut;
    PruneInClosedForm(s, m);
    var e :| e in cut && e.1.typeUrl == r.typeUrl;
    assert Shaped(e);
    var k := Key(r.typeUrl, e.1.name.value);
    assert e.1 == k && e in Into(cut, k);
    assert multiset(r.unsubscribe)[e.1.name.value] == |Into(cut, k)|;
  }

  lemma OwedNamesSomething(s: ClientState, m: Message, sent: seq<Request>, i: nat)
    requires Invariant(s) && WellTyped(m) && Answers(s, m, sent) && i < |sent| - 1
    ensures ChangesSubscriptions(sent[i])
  {
    var front, requests, cut := sent[..|sent| - 1], TakeAll(s, m).requests, Prune(s, m).cut;
    var t := sent[i].typeUrl;
    assert front[i] in front && TypesOf(front)[i] == t;
    assert t in multiset(TypesOf(front));
    RequestsInterned(s, m);
    assert front[i] == sent[i] && Owed(requests, cut, sent[i]);
    if t in requests {
      assert Listed(requests, t) == requests[t] != [];
    } else {
      assert t in CutTypes(cut);
      CutIsNamed(s, m, sent[i]);
    }
  }

  /** Every message is answered by requests that each change a subscription, and then one ACK with its type and nonce. */
  lemma OneAckForEach(run: seq<Event>, i: nat)
    requires Legal(run) && i < |run|
    ensures var sent, m := run[i].sent, run[i].msg;
      && sent != [] && sent[|sent| - 1] == Request(m.typeUrl, [], [], m.nonce)
      && forall j :: 0 <= j < |sent| - 1 ==> ChangesSubscriptions(sent[j])
  {
    LegalAt(run, i);
    RunInvariant(run[..i]);
    var s := StateAfter(run[..i]);
    forall j: nat | j < |run[i].sent| - 1 ensures ChangesSubscriptions(run[i].sent[j]) {
      OwedNamesSomething(s, run[i].msg, run[i].sent, j);
    }
  }

  /** Which types keep nodes of their own, and which are subscribed to as a whole. */
  lemma TypesTreated(t: TypeUrl)
    ensures HasChildTypes(t) <==> t in {ListenerType, ClusterType} || t.InternalType?
    ensures IsWildcard(t) <==> t !in {SecretType, EndpointType, RouteType, ExtensionType}
  {
  }
}
