/**
  The retry queue: workers that take keys from a shared work queue, run a function on each and retry
  the failures. Each step is one call into the work queue or one return of the work function, so the
  steps of different workers interleave freely.

  The work queue is client-go's: a first-in-first-out list without repeats, a set of items that
  wait for work (dirty), a set of items in work (processing), delayed adds, and a failure count per item.
 */
module RetryQueue {

  type Key = string

  /** The queue carries keys and one signal that marks the end of what was added before the start. */
  datatype Item = SyncSignal | Work(key: Key)

  /** Where a worker stands in processNextItem. */
  datatype Worker =
    | Idle                    // about to call Get
    | Signalling              // took the signal, about to store the synced flag
    | InWork(key: Key)        // running the work function
    | Retrying(key: Key)      // about to call AddRateLimited
    | Forgetting(key: Key)    // about to call Forget
    | Finishing(key: Key)     // about to call Done
    | Quit

  datatype Config = Config(workers: nat, maxAttempts: int)

  datatype State = State(
    queue: seq<Item>, dirty: set<Item>, processing: set<Item>,
    failures: map<Key, nat>, waiting: set<Key>, shutDown: bool,
    workers: seq<Worker>, started: bool, synced: bool,
    // what happened so far
    early: set<Key>,            // added before the start
    handed: set<Key>,           // handed to a worker
    returned: set<Key>,         // the work function returned at least once
    attempts: map<Key, nat>)    // runs of the work function since the last Forget

  const Initial := State([], {}, {}, map[], {}, false, [], false, false, {}, {}, {}, map[])

  datatype Event =
    | Add(key: Key)
    | Run                       // enqueues the signal and starts the workers
    | Get(w: nat)
    | Store(w: nat)
    | Return(w: nat, ok: bool)
    | Retry(w: nat)
    | Forget(w: nat)
    | Done(w: nat)
    | Fire(key: Key)            // a delayed add is due
    | Stop

  function Tally(counts: map<Key, nat>, k: Key): nat {
    if k in counts then counts[k] else 0
  }

  /** Whether a failed key is to be tried again. */
  predicate MayRetry(c: Config, s: State, k: Key) {
    Tally(s.failures, k) + 1 < c.maxAttempts
  }

  predicate Enabled(c: Config, s: State, e: Event) {
    match e
    case Add(_) => true
    case Run => !s.started
    case Get(w) => w < |s.workers| && s.workers[w] == Idle && (s.queue != [] || s.shutDown)
    case Store(w) => w < |s.workers| && s.workers[w] == Signalling
    case Return(w, _) => w < |s.workers| && s.workers[w].InWork?
    case Retry(w) => w < |s.workers| && s.workers[w].Retrying?
    case Forget(w) => w < |s.workers| && s.workers[w].Forgetting?
    case Done(w) => w < |s.workers| && s.workers[w].Finishing?
    case Fire(k) => k in s.waiting
    case Stop => s.started
  }

  /** The work queue's Add: no effect on an item already waiting for work; an item in work is queued when done. */
  function Enqueue(s: State, i: Item): State {
    if s.shutDown || i in s.dirty then s
    else s.(dirty := s.dirty + {i}, queue := if i in s.processing then s.queue else s.queue + [i])
  }

  function Move(s: State, w: nat, to: Worker): State
    requires w < |s.workers|
  {
    s.(workers := s.workers[w := to])
  }

  function Take(s: State, w: nat): State
    requires w < |s.workers| && s.queue != []
  {
    var i := s.queue[0];
    var s' := s.(queue := s.queue[1..], dirty := s.dirty - {i}, processing := s.processing + {i});
    match i
    case SyncSignal => Move(s', w, Signalling)
    case Work(k) => Move(s', w, InWork(k)).(handed := s.handed + {k}, attempts := s.attempts[k := Tally(s.attempts, k) + 1])
  }

  function Apply(c: Config, s: State, e: Event): State
    requires Enabled(c, s, e)
  {
    match e
    case Add(k) => Enqueue(s, Work(k)).(early := if s.started then s.early else s.early + {k})
    case Run => Enqueue(s, SyncSignal).(started := true, workers := seq(c.workers, _ => Idle))
    case Get(w) => if s.queue == [] then Move(s, w, Quit) else Take(s, w)
    case Store(w) => Move(s, w, Idle).(synced := true)
    case Return(w, ok) =>
      var k := s.workers[w].key;
      Move(s, w, if !ok && MayRetry(c, s, k) then Retrying(k) else Forgetting(k)).(returned := s.returned + {k})
    case Retry(w) =>
      var k := s.workers[w].key;
      Move(s, w, Finishing(k)).(
        failures := s.failures[k := Tally(s.failures, k) + 1],
        waiting := if s.shutDown then s.waiting else s.waiting + {k})
    case Forget(w) =>
      var k := s.workers[w].key;
      Move(s, w, Finishing(k)).(failures := s.failures - {k}, attempts := s.attempts - {k})
    case Done(w) =>
      var k := s.workers[w].key;
      Move(s, w, Idle).(
        processing := s.processing - {Work(k)},
        queue := if Work(k) in s.dirty then s.queue + [Work(k)] else s.queue)
    case Fire(k) => Enqueue(s.(waiting := s.waiting - {k}), Work(k))
    case Stop => s.(shutDown := true)
  }

  ghost predicate Legal(c: Config, run: seq<Event>)
    decreases |run|, 0
  {
    run == [] || (Legal(c, run[..|run| - 1]) && Enabled(c, StateAfter(c, run[..|run| - 1]), run[|run| - 1]))
  }

  ghost function StateAfter(c: Config, run: seq<Event>): State
    requires Legal(c, run)
    decreases |run|, 1
  {
    if run == [] then Initial else Apply(c, StateAfter(c, run[..|run| - 1]), run[|run| - 1])
  }

  // ----- invariants -----

  /** The key a worker has taken and not yet released. */
  predicate Holds(x: Worker, k: Key) {
    (x.InWork? || x.Retrying? || x.Forgetting? || x.Finishing?) && x.key == k
  }

  ghost predicate NoRepeats(q: seq<Item>) {
    forall i, j :: 0 <= i < j < |q| ==> q[i] != q[j]
  }

  /** The list holds the dirty items that are not in work, each once. */
  ghost predicate Listed(s: State) {
    && NoRepeats(s.queue)
    && (forall i :: i in s.queue <==> i in s.dirty && i !in s.processing)
  }

  ghost predicate HasHolder(ws: seq<Worker>, k: Key) {
    exists w :: 0 <= w < |ws| && Holds(ws[w], k)
  }

  /** A key is in work exactly when a worker holds it, and then only one does. */
  ghost predicate Held(s: State) {
    && (forall k :: Work(k) in s.processing <==> HasHolder(s.workers, k))
    && (forall v, w, k :: 0 <= v < w < |s.workers| && Holds(s.workers[v], k) ==> !Holds(s.workers[w], k))
  }

  /** Failure counts stay below the limit, and the runs since the last Forget exceed them only while one is unsettled. */
  ghost predicate Counted(c: Config, s: State) {
    && (forall k :: KeyCounted(c, s, k, HasUnsettled(s.workers, k)))
    && (forall w :: 0 <= w < |s.workers| && s.workers[w].Retrying? ==> MayRetry(c, s, s.workers[w].key))
  }

  /** A run of the key was started and its outcome is not yet recorded. */
  predicate Unsettled(x: Worker, k: Key) {
    Holds(x, k) && !x.Finishing?
  }

  ghost predicate QueuedBeforeSignal(s: State, k: Key) {
    exists i :: 0 <= i < |s.queue| && s.queue[i] == Work(k) && SyncSignal !in s.queue[..i]
  }

  /** Until the signal is taken, a key added early was handed out or stands before the signal. */
  ghost predicate SignalBehind(s: State) {
    && (s.synced ==> SyncSignal in s.processing)
    && (forall w :: 0 <= w < |s.workers| && s.workers[w] == Signalling ==> SyncSignal in s.processing)
    && (!s.started ==> s.workers == [] && s.processing == {} && s.waiting == {} && !s.shutDown && SyncSignal !in s.dirty)
    && (forall k :: k in s.early && k !in s.handed ==> SyncSignal !in s.processing && QueuedBeforeSignal(s, k))
  }

  /** A key that was handed out either came back at least once or is in work now. */
  ghost predicate HandedOut(s: State) {
    forall k :: k in s.handed && k !in s.returned ==> Running(s.workers, k)
  }

  ghost predicate Invariant(c: Config, s: State) {
    Listed(s) && Held(s) && Counted(c, s) && SignalBehind(s) && HandedOut(s)
  }

  // ----- the list -----

  lemma EnqueueListed(s: State, i: Item)
    requires Listed(s)
    ensures Listed(Enqueue(s, i))
  {
    var s' := Enqueue(s, i);
    assert forall j :: j in s'.queue <==> j in s.queue || (s' != s && i !in s.processing && j == i);
  }

  lemma TailListed(q: seq<Item>)
    requires NoRepeats(q) && q != []
    ensures NoRepeats(q[1..]) && forall j :: j in q[1..] <==> j in q && j != q[0]
  {
    assert q == [q[0]] + q[1..];
  }

  lemma GetListed(s: State, w: nat)
    requires Listed(s) && w < |s.workers| && s.queue != []
    ensures Listed(Take(s, w))
  {
    TailListed(s.queue);
  }

  lemma DoneListed(c: Config, s: State, w: nat)
    requires Listed(s) && Enabled(c, s, Done(w)) && Work(s.workers[w].key) in s.processing
    ensures Listed(Apply(c, s, Done(w)))
  {
    var s', i := Apply(c, s, Done(w)), Work(s.workers[w].key);
    assert forall j :: j in s'.queue <==> j in s.queue || (j == i && i in s.dirty);
  }

  lemma StepListed(c: Config, s: State, e: Event)
    requires Listed(s) && Held(s) && Enabled(c, s, e)
    ensures Listed(Apply(c, s, e))
  {
    match e {
      case Add(k) => EnqueueListed(s, Work(k));
      case Run => EnqueueListed(s, SyncSignal);
      case Get(w) => if s.queue != [] { GetListed(s, w); }
      case Done(w) =>
        assert Holds(s.workers[w], s.workers[w].key);
        DoneListed(c, s, w);
      case Fire(k) => EnqueueListed(s.(waiting := s.waiting - {k}), Work(k));
      case _ =>
    }
  }

  // ----- holders -----

  lemma MovedHolders(ws: seq<Worker>, w: nat, to: Worker, k: Key)
    requires w < |ws|
    ensures HasHolder(ws[w := to], k) <==> Holds(to, k) || exists v :: 0 <= v < |ws| && v != w && Holds(ws[v], k)
  {
    var ws' := ws[w := to];
    if Holds(to, k) {
      assert Holds(ws'[w], k);
    }
    if v :| 0 <= v < |ws| && v != w && Holds(ws[v], k) {
      assert Holds(ws'[v], k);
    }
  }

  /** One worker moves: the keys in work change by the key it takes up or lets go. */
  lemma MoveHeld(s: State, s': State, w: nat, to: Worker)
    requires Held(s) && w < |s.workers| && s'.workers == s.workers[w := to]
    requires forall k :: Work(k) in s'.processing <==> Holds(to, k) || (Work(k) in s.processing && !Holds(s.workers[w], k))
    requires forall k :: Holds(to, k) ==> Holds(s.workers[w], k) || Work(k) !in s.processing
    ensures Held(s')
  {
    forall k ensures Work(k) in s'.processing <==> HasHolder(s'.workers, k) {
      MovedHolders(s.workers, w, to, k);
    }
    forall v, u, k | 0 <= v < u < |s'.workers| && Holds(s'.workers[v], k) ensures !Holds(s'.workers[u], k) {
      assert Holds(to, k) && !Holds(s.workers[w], k) ==> !HasHolder(s.workers, k);
    }
  }

  lemma GetHeld(s: State, w: nat)
    requires Listed(s) && Held(s) && w < |s.workers| && s.workers[w] == Idle && s.queue != []
    ensures Held(Take(s, w))
  {
    assert s.queue[0] in s.queue;
    MoveHeld(s, Take(s, w), w, Take(s, w).workers[w]);
  }

  /** A worker that keeps its key, or keeps none, leaves the keys in work alone. */
  lemma KeepHeld(s: State, s': State, w: nat, to: Worker)
    requires Held(s) && w < |s.workers| && s'.workers == s.workers[w := to] && s'.processing == s.processing
    requires forall k :: Holds(to, k) <==> Holds(s.workers[w], k)
    ensures Held(s')
  {
    forall k | Holds(s.workers[w], k) ensures Work(k) in s.processing {
      assert HasHolder(s.workers, k);
    }
    MoveHeld(s, s', w, to);
  }

  lemma DoneHeld(c: Config, s: State, w: nat)
    requires Held(s) && Enabled(c, s, Done(w))
    ensures Held(Apply(c, s, Done(w)))
  {
    MoveHeld(s, Apply(c, s, Done(w)), w, Idle);
  }

  lemma StepHeld(c: Config, s: State, e: Event)
    requires Listed(s) && Held(s) && (s.started || s.workers == []) && Enabled(c, s, e)
    ensures Held(Apply(c, s, e))
  {
    var s' := Apply(c, s, e);
    match e {
      case Get(w) => if s.queue != [] { GetHeld(s, w); } else { KeepHeld(s, s', w, Quit); }
      case Done(w) => DoneHeld(c, s, w);
      case Store(w) => KeepHeld(s, s', w, Idle);
      case Return(w, _) => KeepHeld(s, s', w, s'.workers[w]);
      case Retry(w) => KeepHeld(s, s', w, s'.workers[w]);
      case Forget(w) => KeepHeld(s, s', w, s'.workers[w]);
      case Run =>
        assert forall k :: HasHolder(s.workers, k) <==> HasHolder(s'.workers, k);
      case _ =>
    }
  }

  // ----- counts -----

  ghost predicate HasUnsettled(ws: seq<Worker>, k: Key) {
    exists w :: 0 <= w < |ws| && Unsettled(ws[w], k)
  }

  ghost predicate OtherUnsettled(ws: seq<Worker>, w: nat, k: Key) {
    exists v :: 0 <= v < |ws| && v != w && Unsettled(ws[v], k)
  }

  lemma MovedUnsettled(ws: seq<Worker>, w: nat, to: Worker, k: Key)
    requires w < |ws|
    ensures HasUnsettled(ws, k) <==> Unsettled(ws[w], k) || OtherUnsettled(ws, w, k)
    ensures HasUnsettled(ws[w := to], k) <==> Unsettled(to, k) || OtherUnsettled(ws, w, k)
  {
    var ws' := ws[w := to];
    if Unsettled(to, k) {
      assert Unsettled(ws'[w], k);
    }
    if v :| 0 <= v < |ws| && v != w && Unsettled(ws[v], k) {
      assert Unsettled(ws'[v], k);
    }
  }

  /** Counts of one key, as the invariant relates them. */
  predicate KeyCounted(c: Config, s: State, k: Key, unsettled: bool) {
    && (Tally(s.failures, k) > 0 ==> Tally(s.failures, k) < c.maxAttempts)
    && Tally(s.attempts, k) == Tally(s.failures, k) + if unsettled then 1 else 0
  }

  /** A worker whose unsettled key does not change, while no count changes. */
  lemma KeepCounted(c: Config, s: State, s': State, w: nat, to: Worker)
    requires Counted(c, s) && w < |s.workers| && s'.workers == s.workers[w := to]
    requires s'.failures == s.failures && s'.attempts == s.attempts
    requires forall k :: Unsettled(to, k) <==> Unsettled(s.workers[w], k)
    requires to.Retrying? ==> MayRetry(c, s, to.key)
    ensures Counted(c, s')
  {
    forall k ensures KeyCounted(c, s', k, HasUnsettled(s'.workers, k)) {
      assert KeyCounted(c, s, k, HasUnsettled(s.workers, k));
      MovedUnsettled(s.workers, w, to, k);
    }
  }

  lemma StartCounted(c: Config, s: State, s': State, w: nat, mine: Key)
    requires Counted(c, s) && w < |s.workers| && s.workers[w] == Idle && s'.workers == s.workers[w := InWork(mine)]
    requires s'.failures == s.failures && s'.attempts == s.attempts[mine := Tally(s.attempts, mine) + 1]
    requires !HasUnsettled(s.workers, mine)
    ensures Counted(c, s')
  {
    forall k ensures KeyCounted(c, s', k, HasUnsettled(s'.workers, k)) {
      assert KeyCounted(c, s, k, HasUnsettled(s.workers, k));
      MovedUnsettled(s.workers, w, InWork(mine), k);
    }
  }

  lemma GetCounted(c: Config, s: State, w: nat)
    requires Listed(s) && Held(s) && Counted(c, s) && w < |s.workers| && s.workers[w] == Idle && s.queue != []
    ensures Counted(c, Take(s, w))
  {
    match s.queue[0] {
      case SyncSignal => KeepCounted(c, s, Take(s, w), w, Signalling);
      case Work(k) =>
        assert Work(k) in s.queue;
        assert !HasHolder(s.workers, k);
        StartCounted(c, s, Take(s, w), w, k);
    }
  }

  /** A worker settles its key: another failure is counted, or everything about the key is forgotten. */
  lemma SettleCounted(c: Config, s: State, e: Event)
    requires Held(s) && Counted(c, s) && (e.Retry? || e.Forget?) && Enabled(c, s, e)
    ensures Counted(c, Apply(c, s, e))
  {
    var s', w := Apply(c, s, e), e.w;
    var mine := s.workers[w].key;
    assert Holds(s.workers[w], mine) && Unsettled(s.workers[w], mine);
    assert !OtherUnsettled(s.workers, w, mine);
    forall k ensures KeyCounted(c, s', k, HasUnsettled(s'.workers, k)) {
      assert KeyCounted(c, s, k, HasUnsettled(s.workers, k));
      MovedUnsettled(s.workers, w, s'.workers[w], k);
    }
    forall v | 0 <= v < |s'.workers| && s'.workers[v].Retrying? ensures MayRetry(c, s', s'.workers[v].key) {
      assert v != w && Unsettled(s.workers[v], s.workers[v].key);
    }
  }

  /** Adds, due retries and the stop touch neither workers nor counts. */
  lemma SameCounted(c: Config, s: State, s': State)
    requires Counted(c, s)
    requires s'.workers == s.workers && s'.failures == s.failures && s'.attempts == s.attempts
    ensures Counted(c, s')
  {
    forall k ensures KeyCounted(c, s', k, HasUnsettled(s'.workers, k)) {
      assert KeyCounted(c, s, k, HasUnsettled(s.workers, k));
    }
  }

  lemma ReturnCounted(c: Config, s: State, w: nat, ok: bool)
    requires Counted(c, s) && Enabled(c, s, Return(w, ok))
    ensures Counted(c, Apply(c, s, Return(w, ok)))
  {
    var s' := Apply(c, s, Return(w, ok));
    KeepCounted(c, s, s', w, s'.workers[w]);
  }

  lemma RunCounted(c: Config, s: State)
    requires Counted(c, s) && s.workers == [] && Enabled(c, s, Run)
    ensures Counted(c, Apply(c, s, Run))
  {
    var s' := Apply(c, s, Run);
    forall k ensures KeyCounted(c, s', k, HasUnsettled(s'.workers, k)) {
      assert KeyCounted(c, s, k, HasUnsettled(s.workers, k));
    }
  }

  lemma StepCounted(c: Config, s: State, e: Event)
    requires Listed(s) && Held(s) && Counted(c, s) && (s.started || s.workers == []) && Enabled(c, s, e)
    ensures Counted(c, Apply(c, s, e))
  {
    var s' := Apply(c, s, e);
    match e {
      case Get(w) => if s.queue != [] { GetCounted(c, s, w); } else { KeepCounted(c, s, s', w, Quit); }
      case Store(w) => KeepCounted(c, s, s', w, Idle);
      case Return(w, ok) => ReturnCounted(c, s, w, ok);
      case Retry(w) => SettleCounted(c, s, e);
      case Forget(w) => SettleCounted(c, s, e);
      case Done(w) => KeepCounted(c, s, s', w, Idle);
      case Run => RunCounted(c, s);
      case _ => SameCounted(c, s, s');
    }
  }

  // ----- the signal and the early keys -----

  lemma StillBefore(s: State, more: seq<Item>, k: Key)
    requires QueuedBeforeSignal(s, k)
    ensures QueuedBeforeSignal(s.(queue := s.queue + more), k)
  {
    var i :| 0 <= i < |s.queue| && s.queue[i] == Work(k) && SyncSignal !in s.queue[..i];
    assert (s.queue + more)[..i] == s.queue[..i];
  }

  /** The list only grows at its end, and the taken set, the handed set and the signal stay. */
  lemma GrowSignal(s: State, s': State, more: seq<Item>)
    requires SignalBehind(s) && s'.queue == s.queue + more
    requires s'.early == s.early && s'.handed >= s.handed
    requires SyncSignal in s'.processing <==> SyncSignal in s.processing
    ensures forall k :: k in s'.early && k !in s'.handed ==> SyncSignal !in s'.processing && QueuedBeforeSignal(s', k)
  {
    forall k | k in s'.early && k !in s'.handed ensures QueuedBeforeSignal(s', k) {
      StillBefore(s, more, k);
      assert QueuedBeforeSignal(s, k);
    }
  }

  lemma EarlyAddSignal(s: State, k: Key)
    requires Listed(s) && SignalBehind(s) && !s.started
    ensures SignalBehind(Enqueue(s, Work(k)).(early := s.early + {k}))
  {
    var s' := Enqueue(s, Work(k)).(early := s.early + {k});
    assert SyncSignal !in s'.queue;
    forall j | j in s'.early ensures QueuedBeforeSignal(s', j) || j in s'.handed {
      if j == k {
        assert Work(k) in s'.queue;
        var i :| 0 <= i < |s'.queue| && s'.queue[i] == Work(k);
        assert QueuedBeforeSignal(s', k);
      } else if j !in s.handed {
        StillBefore(s, s'.queue[|s.queue|..], j);
        assert s'.queue == s.queue + s'.queue[|s.queue|..];
      }
    }
  }

  lemma TakeSignal(s: State, w: nat)
    requires Listed(s) && SignalBehind(s) && s.started && w < |s.workers| && s.workers[w] == Idle && s.queue != []
    ensures SignalBehind(Take(s, w))
  {
    var s' := Take(s, w);
    forall k | k in s'.early && k !in s'.handed
      ensures SyncSignal !in s'.processing && QueuedBeforeSignal(s', k)
    {
      var i :| 0 <= i < |s.queue| && s.queue[i] == Work(k) && SyncSignal !in s.queue[..i];
      assert i > 0;
      assert s.queue[0] in s.queue[..i];
      assert s'.queue[i - 1] == Work(k) && s'.queue[..i - 1] == s.queue[1..i];
    }
  }

  lemma StepSignal(c: Config, s: State, e: Event)
    requires Listed(s) && Held(s) && SignalBehind(s) && Enabled(c, s, e)
    ensures SignalBehind(Apply(c, s, e))
  {
    if e.Add? && !s.started {
      EarlyAddSignal(s, e.key);
    } else if e.Get? && s.queue != [] {
      TakeSignal(s, e.w);
    } else {
      GrowingSignal(c, s, e);
    }
  }

  lemma GrowingSignal(c: Config, s: State, e: Event)
    requires Listed(s) && Held(s) && SignalBehind(s) && Enabled(c, s, e)
    requires (e.Add? ==> s.started) && (e.Get? ==> s.queue == [])
    ensures SignalBehind(Apply(c, s, e))
  {
    var more := StepGrows(c, s, e);
    GrowSignal(s, Apply(c, s, e), more);
  }

  lemma StepGrows(c: Config, s: State, e: Event) returns (more: seq<Item>)
    requires Enabled(c, s, e) && (e.Get? ==> s.queue == [])
    ensures Apply(c, s, e).queue == s.queue + more
  {
    var q := Apply(c, s, e).queue;
    more := q[|s.queue|..];
    assert q == s.queue + more;
  }

  // ----- handed out and returned -----

  ghost predicate Running(ws: seq<Worker>, k: Key) {
    exists w :: 0 <= w < |ws| && ws[w] == InWork(k)
  }

  lemma MovedRunning(ws: seq<Worker>, w: nat, to: Worker, k: Key)
    requires w < |ws| && Running(ws, k) && (ws[w] == InWork(k) ==> to == InWork(k))
    ensures Running(ws[w := to], k)
  {
    var v :| 0 <= v < |ws| && ws[v] == InWork(k);
    assert ws[w := to][v] == InWork(k);
  }

  lemma StepHandedOut(c: Config, s: State, e: Event)
    requires HandedOut(s) && (s.started || s.workers == []) && Enabled(c, s, e)
    ensures HandedOut(Apply(c, s, e))
  {
    var s' := Apply(c, s, e);
    forall k | k in s'.handed && k !in s'.returned ensures Running(s'.workers, k) {
      if k !in s.handed {
        assert s'.workers[e.w] == InWork(k);
      } else if e.Get? || e.Store? || e.Return? || e.Retry? || e.Forget? || e.Done? {
        MovedRunning(s.workers, e.w, s'.workers[e.w], k);
      } else {
        assert s'.workers == s.workers || s.workers == [];
      }
    }
  }
}
