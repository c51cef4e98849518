/**
  The batch reporter: any number of Report calls feed a bounded channel, one flusher turns it into
  batches, and Close makes the flusher drain the channel and stop. Each step is one channel
  operation, one tick or one call, so all interleavings are covered; a select with several ready
  cases may take any of them.
 */
module BatchReporter {

  const MAX_BATCH: nat := 500
  const CHANNEL_SIZE: nat := 500

  /** The index-th entry of a Report call. */
  datatype Entry = Entry(call: nat, index: nat)

  /** A Report call of so many entries, how many were accepted, and whether it has returned. */
  datatype Call = Call(total: nat, next: nat, over: bool)

  datatype Phase = Batching | Draining | Finished

  datatype State = State(
    calls: seq<Call>, channel: seq<Entry>, closed: bool,
    phase: Phase, batch: seq<Entry>, batches: seq<seq<Entry>>,  // batches passed to send
    accepted: seq<Entry>)                                       // everything the channel took, in order

  const Initial := State([], [], false, Batching, [], [], [])

  datatype Event =
    | Report(total: nat)
    | Accept(call: nat)    // the channel takes the call's next entry
    | GiveUp(call: nat)    // the call sees the close and returns early
    | Close
    | Receive              // the flusher takes an entry
    | Tick
    | SeeClose             // the flusher sees the close
    | Drain                // the flusher takes a remaining entry
    | Finish               // the channel is empty: send what is left and stop

  predicate Enabled(s: State, e: Event) {
    match e
    case Report(_) => true
    case Accept(c) => c < |s.calls| && !s.calls[c].over && |s.channel| < CHANNEL_SIZE
    case GiveUp(c) => c < |s.calls| && !s.calls[c].over && s.closed
    case Close => !s.closed
    case Receive => s.phase == Batching && s.channel != []
    case Tick => s.phase == Batching
    case SeeClose => s.phase == Batching && s.closed
    case Drain => s.phase == Draining && s.channel != []
    case Finish => s.phase == Draining && s.channel == []
  }

  function Send(s: State): State {
    s.(batches := s.batches + [s.batch], batch := [])
  }

  function SendIf(s: State, due: bool): State {
    if due then Send(s) else s
  }

  function TakeEntry(s: State): State
    requires s.channel != []
  {
    s.(channel := s.channel[1..], batch := s.batch + [s.channel[0]])
  }

  function Apply(s: State, e: Event): State
    requires Enabled(s, e)
  {
    match e
    case Report(n) => s.(calls := s.calls + [Call(n, 0, n == 0)])
    case Accept(c) =>
      var call := s.calls[c];
      s.(calls := s.calls[c := call.(next := call.next + 1, over := call.next + 1 == call.total)],
         channel := s.channel + [Entry(c, call.next)],
         accepted := s.accepted + [Entry(c, call.next)])
    case GiveUp(c) => s.(calls := s.calls[c := s.calls[c].(over := true)])
    case Close => s.(closed := true)
    case Receive => var s' := TakeEntry(s); SendIf(s', |s'.batch| >= MAX_BATCH)
    case Tick => SendIf(s, |s.batch| > 0)
    case SeeClose => s.(phase := Draining)
    case Drain => TakeEntry(s)
    case Finish => SendIf(s, |s.batch| > 0).(phase := Finished)
  }

  ghost predicate Legal(run: seq<Event>)
    decreases |run|, 0
  {
    run == [] || (Legal(run[..|run| - 1]) && Enabled(StateAfter(run[..|run| - 1]), run[|run| - 1]))
  }

  ghost function StateAfter(run: seq<Event>): State
    requires Legal(run)
    decreases |run|, 1
  {
    if run == [] then Initial else Apply(StateAfter(run[..|run| - 1]), run[|run| - 1])
  }

  // ----- conservation -----

  function Concat(batches: seq<seq<Entry>>): seq<Entry> {
    if batches == [] then [] else Concat(batches[..|batches| - 1]) + batches[|batches| - 1]
  }

  /** Sent batches, then the batch being filled, then the channel, make up what was accepted, in order. */
  ghost predicate Conserved(s: State) {
    Concat(s.batches) + s.batch + s.channel == s.accepted
  }

  lemma SendConserves(s: State)
    ensures Concat(Send(s).batches) + Send(s).batch == Concat(s.batches) + s.batch
  {
    assert (s.batches + [s.batch])[..|s.batches|] == s.batches;
  }

  lemma TakeConserves(sent: seq<Entry>, batch: seq<Entry>, channel: seq<Entry>)
    requires channel != []
    ensures sent + (batch + [channel[0]]) + channel[1..] == sent + batch + channel
  {
    assert channel == [channel[0]] + channel[1..];
  }

  lemma AcceptConserves(sent: seq<Entry>, batch: seq<Entry>, channel: seq<Entry>, e: Entry)
    ensures sent + batch + (channel + [e]) == sent + batch + channel + [e]
  {
  }

  lemma StepConserves(s: State, e: Event)
    requires Conserved(s) && Enabled(s, e)
    ensures Conserved(Apply(s, e))
  {
    match e {
      case Accept(c) => AcceptConserves(Concat(s.batches), s.batch, s.channel, Entry(c, s.calls[c].next));
      case Receive =>
        TakeConserves(Concat(s.batches), s.batch, s.channel);
        SendConserves(TakeEntry(s));
      case Drain => TakeConserves(Concat(s.batches), s.batch, s.channel);
      case Tick => SendConserves(s);
      case Finish => SendConserves(s);
      case _ =>
    }
  }

  // ----- sizes -----

  ghost predicate Sized(s: State) {
    && |s.channel| <= CHANNEL_SIZE
    && (s.phase == Batching ==> |s.batch| < MAX_BATCH && forall b :: b in s.batches ==> 1 <= |b| <= MAX_BATCH)
    && (s.phase == Draining ==> forall b :: b in s.batches ==> 1 <= |b| <= MAX_BATCH)
    && (s.phase == Finished ==> s.batch == [] && forall i :: 0 <= i < |s.batches| ==>
          1 <= |s.batches[i]| && (i < |s.batches| - 1 ==> |s.batches[i]| <= MAX_BATCH))
    && (s.phase != Batching ==> s.closed)
  }

  lemma StepSized(s: State, e: Event)
    requires Sized(s) && Enabled(s, e)
    ensures Sized(Apply(s, e))
  {
  }

  // ----- each entry once, each call in order -----

  /** The accepted entries of one call. */
  function Of(entries: seq<Entry>, c: nat): seq<Entry> {
    if entries == [] then []
    else Of(entries[..|entries| - 1], c) + if entries[|entries| - 1].call == c then [entries[|entries| - 1]] else []
  }

  function FirstEntries(c: nat, n: nat): seq<Entry> {
    seq(n, i requires 0 <= i < n => Entry(c, i))
  }

  /** Of each call the first so many entries were accepted, in order. */
  ghost predicate InOrder(s: State) {
    && (forall c :: 0 <= c < |s.calls| ==> Of(s.accepted, c) == FirstEntries(c, s.calls[c].next))
    && (forall c :: c >= |s.calls| ==> Of(s.accepted, c) == [])
    && (forall c :: 0 <= c < |s.calls| ==> s.calls[c].next <= s.calls[c].total && (!s.calls[c].over ==> s.calls[c].next < s.calls[c].total))
  }

  lemma StepInOrder(s: State, e: Event)
    requires InOrder(s) && Enabled(s, e)
    ensures InOrder(Apply(s, e))
  {
    if e.Accept? {
      var s' := Apply(s, e);
      assert s'.accepted[..|s.accepted|] == s.accepted;
      assert FirstEntries(e.call, s'.calls[e.call].next) == FirstEntries(e.call, s.calls[e.call].next) + [Entry(e.call, s.calls[e.call].next)];
    }
  }

  // ----- runs -----

  /** In every reachable state nothing accepted is lost, repeated or reordered, and batches keep their size. */
  lemma {:induction false} RunInvariant(run: seq<Event>)
    requires Legal(run)
    ensures Conserved(StateAfter(run)) && Sized(StateAfter(run)) && InOrder(StateAfter(run))
  {
    if run != [] {
      var s, e := StateAfter(run[..|run| - 1]), run[|run| - 1];
      RunInvariant(run[..|run| - 1]);
      StepConserves(s, e);
      StepSized(s, e);
      StepInOrder(s, e);
    }
  }

  lemma {:induction false} OfCounts(entries: seq<Entry>, e: Entry)
    ensures multiset(Of(entries, e.call))[e] == multiset(entries)[e]
  {
    if entries != [] {
      OfCounts(entries[..|entries| - 1], e);
      assert entries == entries[..|entries| - 1] + [entries[|entries| - 1]];
    }
  }

  lemma {:induction false} FirstEntriesCount(c: nat, n: nat, e: Entry)
    requires e.call == c
    ensures multiset(FirstEntries(c, n))[e] == if e.index < n then 1 else 0
  {
    if n > 0 {
      FirstEntriesCount(c, n - 1, e);
      assert FirstEntries(c, n) == FirstEntries(c, n - 1) + [Entry(c, n - 1)];
    }
  }

  /** An entry the channel took is sent, in the batch being filled or in the channel: once in all. */
  lemma EachEntryOnce(run: seq<Event>, e: Entry)
    requires Legal(run)
    ensures var s := StateAfter(run);
      multiset(Concat(s.batches) + s.batch + s.channel)[e] == if e.call < |s.calls| && e.index < s.calls[e.call].next then 1 else 0
  {
    var s := StateAfter(run);
    RunInvariant(run);
    OfCounts(s.accepted, e);
    if e.call < |s.calls| {
      FirstEntriesCount(e.call, s.calls[e.call].next, e);
    }
  }

  // ----- closing -----

  predicate AllOver(s: State) {
    forall c :: 0 <= c < |s.calls| ==> s.calls[c].over
  }

  /** No Report call overlaps Close: all have returned when it is called, and none starts later. */
  ghost predicate Apart(run: seq<Event>)
    requires Legal(run)
  {
    run == [] ||
    (var before, e := run[..|run| - 1], run[|run| - 1];
      && Apart(before)
      && (e == Close ==> AllOver(StateAfter(before)))
      && (e.Report? ==> !StateAfter(before).closed))
  }

  /** While calls and Close do not overlap, calls return only when all their entries were taken. */
  ghost predicate Orderly(s: State) {
    && (s.closed ==> AllOver(s) && |s.batch| + |s.channel| < MAX_BATCH + CHANNEL_SIZE)
    && (forall c :: 0 <= c < |s.calls| && s.calls[c].over ==> s.calls[c].next == s.calls[c].total)
    && (s.phase == Finished ==> s.channel == [] && forall b :: b in s.batches ==> |b| < MAX_BATCH + CHANNEL_SIZE)
  }

  lemma StepOrderly(s: State, e: Event)
    requires Sized(s) && InOrder(s) && Orderly(s) && Enabled(s, e)
    requires (e == Close ==> AllOver(s)) && (e.Report? ==> !s.closed)
    ensures Orderly(Apply(s, e))
  {
  }

  lemma {:induction false} RunOrderly(run: seq<Event>)
    requires Legal(run) && Apart(run)
    ensures Orderly(StateAfter(run))
  {
    if run != [] {
      RunOrderly(run[..|run| - 1]);
      RunInvariant(run[..|run| - 1]);
      StepOrderly(StateAfter(run[..|run| - 1]), run[|run| - 1]);
    }
  }

  /**
    When Close returns and no Report overlapped it, every entry of every call was sent exactly once, in the
    order the channel took them, in batches of 1 to 500 with at most 999 in the last.
   */
  lemma CloseDeliversEverything(run: seq<Event>)
    requires Legal(run) && Apart(run) && StateAfter(run).phase == Finished
    ensures var s := StateAfter(run);
      && Concat(s.batches) == s.accepted
      && (forall e: Entry :: multiset(Concat(s.batches))[e] == if e.call < |s.calls| && e.index < s.calls[e.call].total then 1 else 0)
      && (forall i :: 0 <= i < |s.batches| ==> 1 <= |s.batches[i]| <= if i < |s.batches| - 1 then 500 else 999)
  {
    var s := StateAfter(run);
    RunInvariant(run);
    RunOrderly(run);
    assert Concat(s.batches) + s.batch + s.channel == Concat(s.batches);
    forall e: Entry ensures multiset(Concat(s.batches))[e] == if e.call < |s.calls| && e.index < s.calls[e.call].total then 1 else 0 {
      EachEntryOnce(run, e);
    }
    assert forall i :: 0 <= i < |s.batches| ==> s.batches[i] in s.batches;
  }

  // ----- overlapping calls -----

  /** What was accepted before the flusher stopped. */
  ghost function AcceptedBeforeFinish(run: seq<Event>): seq<Entry>
    requires Legal(run)
  {
    if run == [] then []
    else if StateAfter(run[..|run| - 1]).phase == Finished then AcceptedBeforeFinish(run[..|run| - 1])
    else StateAfter(run).accepted
  }

  /** With overlapping calls too, exactly the entries taken before the flusher stopped are sent; later ones stay in the channel. */
  lemma {:induction false} LateEntriesAreLost(run: seq<Event>)
    requires Legal(run) && StateAfter(run).phase == Finished
    ensures Concat(StateAfter(run).batches) == AcceptedBeforeFinish(run)
    ensures AcceptedBeforeFinish(run) + StateAfter(run).channel == StateAfter(run).accepted
  {
    var s, before, e := StateAfter(run), run[..|run| - 1], run[|run| - 1];
    RunInvariant(run);
    RunInvariant(before);
    if StateAfter(before).phase == Finished {
      LateEntriesAreLost(before);
    } else {
      assert s.channel == [] && s.batch == [];
    }
    assert Concat(s.batches) + s.batch + s.channel == Concat(s.batches) + s.channel;
  }

  lemma Extend(run: seq<Event>, e: Event)
    requires Legal(run) && Enabled(StateAfter(run), e)
    ensures Legal(run + [e]) && StateAfter(run + [e]) == Apply(StateAfter(run), e)
  {
    assert (run + [e])[..|run|] == run;
  }

  /** A call that overlaps Close may have an entry accepted that is never sent. */
  lemma OverlapLosesAnEntry() returns (run: seq<Event>)
    ensures Legal(run) && StateAfter(run).phase == Finished && AllOver(StateAfter(run))
    ensures StateAfter(run).accepted == [Entry(0, 0)] && StateAfter(run).batches == []
  {
    run := [];
    Extend(run, Report(1));
    run := run + [Report(1)];
    Extend(run, Close);
    run := run + [Close];
    Extend(run, SeeClose);
    run := run + [SeeClose];
    Extend(run, Finish);
    run := run + [Finish];
    Extend(run, Accept(0));
    run := run + [Accept(0)];
  }
}
