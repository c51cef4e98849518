/** With no new adds the retry queue drains: every run ends, and when it has ended every key is forgotten. */
module RetryQueueProgress {
  import opened RetryQueue
  import opened RetryQueueRuns

  /** Steps other than new adds, the start and the stop. */
  predicate Quiet(e: Event) {
    !e.Add? && !e.Run? && !e.Stop?
  }

  /** A key with counted failures is waiting, queued or in work. */
  ghost predicate KeyPending(s: State, k: Key) {
    Tally(s.failures, k) > 0 ==> k in s.waiting || Work(k) in s.dirty || HasUnsettled(s.workers, k)
  }

  ghost predicate FailuresPending(s: State) {
    forall k :: KeyPending(s, k)
  }

  /** A worker's own step: its key is settled into the waiting set, forgotten or still unsettled. */
  lemma WorkerPending(c: Config, s: State, e: Event, k: Key)
    requires KeyPending(s, k) && !s.shutDown && Enabled(c, s, e)
    requires e.Get? || e.Store? || e.Return? || e.Retry? || e.Forget? || e.Done?
    ensures KeyPending(Apply(c, s, e), k)
  {
    var s' := Apply(c, s, e);
    MovedUnsettled(s.workers, e.w, s'.workers[e.w], k);
  }

  /** Every other step leaves failures alone and takes nothing from the waiting and dirty sets but a due retry. */
  lemma OtherPending(c: Config, s: State, e: Event, k: Key)
    requires KeyPending(s, k) && !s.shutDown && Enabled(c, s, e) && (s.started || s.workers == [])
    requires e.Add? || e.Run? || e.Fire? || e.Stop?
    ensures KeyPending(Apply(c, s, e), k)
  {
    assert Apply(c, s, e).workers == s.workers || s.workers == [];
  }

  lemma StepFailuresPending(c: Config, s: State, e: Event)
    requires Invariant(c, s) && FailuresPending(s) && !s.shutDown && Enabled(c, s, e)
    ensures FailuresPending(Apply(c, s, e))
  {
    forall k ensures KeyPending(Apply(c, s, e), k) {
      assert KeyPending(s, k);
      if e.Add? || e.Run? || e.Fire? || e.Stop? {
        OtherPending(c, s, e, k);
      } else {
        WorkerPending(c, s, e, k);
      }
    }
  }

  // ----- the measure -----

  /** What is left to do for an item: rounds it may still run, and how far the current round is. */
  function Round(c: Config): nat {
    8 * Max(1, c.maxAttempts)
  }

  function WorkerLeft(c: Config, x: Worker, i: Item): nat {
    match x
    case Signalling => if i == SyncSignal then 1 else 0
    case InWork(k) => if i == Work(k) then Round(c) + 4 else 0
    case Retrying(k) => if i == Work(k) then Round(c) + 3 else 0
    case Forgetting(k) => if i == Work(k) then Round(c) + 3 else 0
    case Finishing(k) => if i == Work(k) then 1 else 0
    case _ => 0
  }

  function WorkersLeft(c: Config, ws: seq<Worker>, i: Item): nat {
    if ws == [] then 0 else WorkersLeft(c, ws[..|ws| - 1], i) + WorkerLeft(c, ws[|ws| - 1], i)
  }

  function Failed(s: State, i: Item): nat {
    if i.Work? then Tally(s.failures, i.key) else 0
  }

  function Left(c: Config, s: State, i: Item): int {
    WorkersLeft(c, s.workers, i)
    + (if i in s.dirty then Round(c) + 5 else 0)
    + (if i.Work? && i.key in s.waiting then Round(c) + 6 else 0)
    - 8 * Failed(s, i)
  }

  lemma {:induction false} WorkersLeftMoved(c: Config, ws: seq<Worker>, w: nat, to: Worker, i: Item)
    requires w < |ws|
    ensures WorkersLeft(c, ws[w := to], i) == WorkersLeft(c, ws, i) - WorkerLeft(c, ws[w], i) + WorkerLeft(c, to, i)
  {
    var front, ws' := ws[..|ws| - 1], ws[w := to];
    if w == |ws| - 1 {
      assert ws'[..|ws| - 1] == front;
    } else {
      assert ws'[..|ws| - 1] == front[w := to];
      WorkersLeftMoved(c, front, w, to, i);
    }
  }

  lemma {:induction false} WorkersLeftAtLeast(c: Config, ws: seq<Worker>, w: nat, i: Item)
    requires w < |ws|
    ensures WorkersLeft(c, ws, i) >= WorkerLeft(c, ws[w], i)
  {
    if w < |ws| - 1 {
      WorkersLeftAtLeast(c, ws[..|ws| - 1], w, i);
    }
  }

  /** The item a quiet step works on. */
  function ItemOf(c: Config, s: State, e: Event): Item
    requires Quiet(e) && Enabled(c, s, e) && !s.shutDown
  {
    match e
    case Get(_) => s.queue[0]
    case Fire(k) => Work(k)
    case Store(_) => SyncSignal
    case Return(w, _) => Work(s.workers[w].key)
    case Retry(w) => Work(s.workers[w].key)
    case Forget(w) => Work(s.workers[w].key)
    case Done(w) => Work(s.workers[w].key)
  }

  lemma LeftNonnegative(c: Config, s: State, i: Item)
    requires Invariant(c, s) && FailuresPending(s)
    ensures Left(c, s, i) >= 0
  {
    if i.Work? && Tally(s.failures, i.key) > 0 {
      assert KeyCounted(c, s, i.key, HasUnsettled(s.workers, i.key));
      assert KeyPending(s, i.key);
      if w :| 0 <= w < |s.workers| && Unsettled(s.workers[w], i.key) {
        WorkersLeftAtLeast(c, s.workers, w, i);
      }
    }
  }

  /** A step brings its own item closer to done and leaves every other item as it was. */
  ghost predicate Progresses(c: Config, s: State, s': State, own: Item) {
    && Left(c, s', own) < Left(c, s, own)
    && forall i :: i != own ==> Left(c, s', i) == Left(c, s, i)
  }

  lemma StartProgress(c: Config, s: State, s': State, w: nat, to: Worker, own: Item)
    requires w < |s.workers| && s.workers[w] == Idle && s'.workers == s.workers[w := to] && own in s.dirty
    requires s'.dirty == s.dirty - {own} && s'.waiting == s.waiting && s'.failures == s.failures
    requires WorkerLeft(c, to, own) < Round(c) + 5 && forall i :: i != own ==> WorkerLeft(c, to, i) == 0
    ensures Progresses(c, s, s', own)
  {
    forall i ensures WorkersLeft(c, s'.workers, i) == WorkersLeft(c, s.workers, i) + WorkerLeft(c, to, i) {
      WorkersLeftMoved(c, s.workers, w, to, i);
    }
  }

  lemma GetProgress(c: Config, s: State, w: nat)
    requires Listed(s) && w < |s.workers| && s.workers[w] == Idle && s.queue != []
    ensures Progresses(c, s, Take(s, w), s.queue[0])
  {
    assert s.queue[0] in s.queue;
    match s.queue[0] {
      case SyncSignal => StartProgress(c, s, Take(s, w), w, Signalling, SyncSignal);
      case Work(k) => StartProgress(c, s, Take(s, w), w, InWork(k), Work(k));
    }
  }

  /** A worker moves on while the queue, the delayed adds and the counts stay. */
  lemma MoveProgress(c: Config, s: State, s': State, w: nat, own: Item)
    requires w < |s.workers| == |s'.workers| && s'.workers == s.workers[w := s'.workers[w]]
    requires s'.dirty == s.dirty && s'.waiting == s.waiting && s'.failures == s.failures
    requires WorkerLeft(c, s'.workers[w], own) < WorkerLeft(c, s.workers[w], own)
    requires forall i :: i != own ==> WorkerLeft(c, s'.workers[w], i) == WorkerLeft(c, s.workers[w], i)
    ensures Progresses(c, s, s', own)
  {
    forall i ensures WorkersLeft(c, s'.workers, i) == WorkersLeft(c, s.workers, i) - WorkerLeft(c, s.workers[w], i) + WorkerLeft(c, s'.workers[w], i) {
      WorkersLeftMoved(c, s.workers, w, s'.workers[w], i);
    }
  }

  lemma RetryProgress(c: Config, s: State, w: nat)
    requires !s.shutDown && Enabled(c, s, Retry(w))
    ensures Progresses(c, s, Apply(c, s, Retry(w)), Work(s.workers[w].key))
  {
    var s' := Apply(c, s, Retry(w));
    forall i ensures WorkersLeft(c, s'.workers, i) == WorkersLeft(c, s.workers, i) - WorkerLeft(c, s.workers[w], i) + WorkerLeft(c, s'.workers[w], i) {
      WorkersLeftMoved(c, s.workers, w, s'.workers[w], i);
    }
  }

  lemma ForgetProgress(c: Config, s: State, w: nat)
    requires Counted(c, s) && Enabled(c, s, Forget(w))
    ensures Progresses(c, s, Apply(c, s, Forget(w)), Work(s.workers[w].key))
  {
    var s', k := Apply(c, s, Forget(w)), s.workers[w].key;
    assert KeyCounted(c, s, k, HasUnsettled(s.workers, k));
    forall i ensures WorkersLeft(c, s'.workers, i) == WorkersLeft(c, s.workers, i) - WorkerLeft(c, s.workers[w], i) + WorkerLeft(c, s'.workers[w], i) {
      WorkersLeftMoved(c, s.workers, w, s'.workers[w], i);
    }
  }

  lemma QuietStepProgress(c: Config, s: State, e: Event)
    requires Invariant(c, s) && !s.shutDown && Quiet(e) && Enabled(c, s, e)
    ensures Progresses(c, s, Apply(c, s, e), ItemOf(c, s, e))
  {
    match e {
      case Get(w) => GetProgress(c, s, w);
      case Fire(k) =>
      case Retry(w) => RetryProgress(c, s, w);
      case Forget(w) => ForgetProgress(c, s, w);
      case Store(w) => MoveProgress(c, s, Apply(c, s, e), w, SyncSignal);
      case Return(w, _) => MoveProgress(c, s, Apply(c, s, e), w, Work(s.workers[w].key));
      case Done(w) => MoveProgress(c, s, Apply(c, s, e), w, Work(s.workers[w].key));
    }
  }

  // ----- the sum over all items -----

  ghost function Total(c: Config, s: State, items: set<Item>): int {
    if items == {} then 0
    else
      var i :| i in items;
      Left(c, s, i) + Total(c, s, items - {i})
  }

  /** Everything that could have something left to do. */
  ghost function Items(s: State): set<Item> {
    s.dirty + s.processing + (set k | k in s.waiting :: Work(k))
  }

  lemma {:induction false} TotalDecreases(c: Config, s: State, s': State, items: set<Item>, own: Item)
    requires Progresses(c, s, s', own)
    ensures Total(c, s', items) <= Total(c, s, items) - if own in items then 1 else 0
  {
    if items != {} {
      var i :| i in items && Total(c, s, items) == Left(c, s, i) + Total(c, s, items - {i})
                          && Total(c, s', items) == Left(c, s', i) + Total(c, s', items - {i});
      TotalDecreases(c, s, s', items - {i}, own);
    }
  }

  lemma {:induction false} TotalNonnegative(c: Config, s: State, items: set<Item>)
    requires Invariant(c, s) && FailuresPending(s)
    ensures Total(c, s, items) >= 0
  {
    if items != {} {
      var i :| i in items && Total(c, s, items) == Left(c, s, i) + Total(c, s, items - {i});
      LeftNonnegative(c, s, i);
      TotalNonnegative(c, s, items - {i});
    }
  }

  lemma QuietStepItems(c: Config, s: State, e: Event)
    requires Invariant(c, s) && !s.shutDown && Quiet(e) && Enabled(c, s, e)
    ensures Items(Apply(c, s, e)) <= Items(s) && ItemOf(c, s, e) in Items(s) && !Apply(c, s, e).shutDown
  {
    if e.Get? {
      assert s.queue[0] in s.queue;
    }
    if e.Return? || e.Retry? || e.Forget? || e.Done? {
      assert Holds(s.workers[e.w], s.workers[e.w].key);
      assert HasHolder(s.workers, s.workers[e.w].key);
    }
    if e.Store? {
      assert s.workers[e.w] == Signalling;
    }
  }

  // ----- quiet runs -----

  ghost predicate Pending(c: Config, s: State) {
    Invariant(c, s) && FailuresPending(s) && !s.shutDown
  }

  /** Steps of a run that follow a state, all of them quiet. */
  ghost predicate QuietFrom(c: Config, s: State, steps: seq<Event>)
    decreases |steps|
  {
    steps == [] || (Quiet(steps[0]) && Enabled(c, s, steps[0]) && QuietFrom(c, Apply(c, s, steps[0]), steps[1..]))
  }

  ghost function EndOf(c: Config, s: State, steps: seq<Event>): State
    requires QuietFrom(c, s, steps)
    decreases |steps|
  {
    if steps == [] then s else EndOf(c, Apply(c, s, steps[0]), steps[1..])
  }

  lemma {:induction false} QuietRunIsBounded(c: Config, s: State, steps: seq<Event>, items: set<Item>)
    requires Pending(c, s) && QuietFrom(c, s, steps) && Items(s) <= items
    decreases |steps|
    ensures |steps| <= Total(c, s, items)
    ensures Pending(c, EndOf(c, s, steps))
  {
    TotalNonnegative(c, s, items);
    if steps != [] {
      var e := steps[0];
      var s' := Apply(c, s, e);
      StepInvariant(c, s, e);
      StepFailuresPending(c, s, e);
      QuietStepItems(c, s, e);
      QuietStepProgress(c, s, e);
      TotalDecreases(c, s, s', items, ItemOf(c, s, e));
      QuietRunIsBounded(c, s', steps[1..], items);
    }
  }

  // ----- the end of a quiet run -----

  /** While not shut down, the started workers are all there and none has quit. */
  ghost predicate Manned(c: Config, s: State) {
    && (s.started ==> |s.workers| == c.workers)
    && (!s.shutDown ==> forall w :: 0 <= w < |s.workers| ==> s.workers[w] != Quit)
  }

  lemma StepManned(c: Config, s: State, e: Event)
    requires Manned(c, s) && (s.started || s.workers == []) && Enabled(c, s, e)
    ensures Manned(c, Apply(c, s, e))
  {
  }

  lemma {:induction false} RunPending(c: Config, run: seq<Event>)
    requires Legal(c, run)
    ensures Manned(c, StateAfter(c, run))
    ensures !StateAfter(c, run).shutDown ==> Pending(c, StateAfter(c, run))
  {
    RunInvariant(c, run);
    if run != [] {
      var before, e := run[..|run| - 1], run[|run| - 1];
      RunPending(c, before);
      RunInvariant(c, before);
      StepManned(c, StateAfter(c, before), e);
      if !StateAfter(c, before).shutDown {
        StepFailuresPending(c, StateAfter(c, before), e);
      }
    }
  }

  lemma {:induction false} EndManned(c: Config, s: State, steps: seq<Event>)
    requires Pending(c, s) && Manned(c, s) && s.started && QuietFrom(c, s, steps)
    decreases |steps|
    ensures Manned(c, EndOf(c, s, steps)) && EndOf(c, s, steps).started
  {
    if steps != [] {
      StepInvariant(c, s, steps[0]);
      StepFailuresPending(c, s, steps[0]);
      QuietStepItems(c, s, steps[0]);
      StepManned(c, s, steps[0]);
      EndManned(c, Apply(c, s, steps[0]), steps[1..]);
    }
  }

  ghost predicate Stuck(c: Config, s: State) {
    forall e :: Quiet(e) ==> !Enabled(c, s, e)
  }

  /** Nothing is queued, delayed or in work, and every key is forgotten. */
  ghost predicate Drained(s: State) {
    forall k :: Work(k) !in s.queue && Work(k) !in s.dirty && Work(k) !in s.processing && k !in s.waiting
      && Tally(s.failures, k) == 0 && Tally(s.attempts, k) == 0
  }

  lemma StuckIsDrained(c: Config, s: State)
    requires Pending(c, s) && Manned(c, s) && s.started && c.workers > 0 && Stuck(c, s)
    ensures Drained(s)
  {
    forall w | 0 <= w < |s.workers| ensures s.workers[w] == Idle {
      assert !Enabled(c, s, Store(w)) && !Enabled(c, s, Return(w, true)) && !Enabled(c, s, Retry(w));
      assert !Enabled(c, s, Forget(w)) && !Enabled(c, s, Done(w));
    }
    assert !Enabled(c, s, Get(0));
    forall k ensures Work(k) !in s.processing && k !in s.waiting && !HasUnsettled(s.workers, k) {
      assert !HasHolder(s.workers, k);
      assert !Enabled(c, s, Fire(k));
    }
    forall k ensures Tally(s.failures, k) == 0 && Tally(s.attempts, k) == 0 {
      assert KeyCounted(c, s, k, HasUnsettled(s.workers, k)) && KeyPending(s, k);
      assert Work(k) in s.dirty ==> Work(k) in s.queue;
    }
  }

  /**
    From any reachable state that is started and not shut down, runs without new adds are bounded, and
    when no step is left every key has been forgotten, whatever the work function returned.
   */
  lemma QuietRunsDrain(c: Config, run: seq<Event>, steps: seq<Event>)
    requires Legal(c, run) && c.workers > 0
    requires StateAfter(c, run).started && !StateAfter(c, run).shutDown && QuietFrom(c, StateAfter(c, run), steps)
    ensures |steps| <= Total(c, StateAfter(c, run), Items(StateAfter(c, run)))
    ensures Stuck(c, EndOf(c, StateAfter(c, run), steps)) ==> Drained(EndOf(c, StateAfter(c, run), steps))
  {
    var s := StateAfter(c, run);
    RunPending(c, run);
    QuietRunIsBounded(c, s, steps, Items(s));
    EndManned(c, s, steps);
    if Stuck(c, EndOf(c, s, steps)) {
      StuckIsDrained(c, EndOf(c, s, steps));
    }
  }
}
