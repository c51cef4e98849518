/** Safety and progress of the retry queue over every interleaving. */
module RetryQueueRuns {
  import opened RetryQueue

  lemma StepInvariant(c: Config, s: State, e: Event)
    requires Invariant(c, s) && Enabled(c, s, e)
    ensures Invariant(c, Apply(c, s, e))
  {
    StepListed(c, s, e);
    StepHeld(c, s, e);
    StepCounted(c, s, e);
    StepSignal(c, s, e);
    StepHandedOut(c, s, e);
  }

  lemma {:induction false} RunInvariant(c: Config, run: seq<Event>)
    requires Legal(c, run)
    ensures Invariant(c, StateAfter(c, run))
  {
    if run != [] {
      var before := run[..|run| - 1];
      RunInvariant(c, before);
      StepInvariant(c, StateAfter(c, before), run[|run| - 1]);
    }
  }

  /** Once HasSynced is true, every key added before the start has been handed to a worker. */
  lemma SyncedMeansHanded(c: Config, run: seq<Event>)
    requires Legal(c, run)
    ensures var s := StateAfter(c, run); s.synced ==> s.early <= s.handed
  {
    RunInvariant(c, run);
  }

  /** No key is in work on two workers, nor queued while in work. */
  lemma NoSharedWork(c: Config, run: seq<Event>, v: nat, w: nat, k: Key)
    requires Legal(c, run)
    requires v < |StateAfter(c, run).workers| && w < |StateAfter(c, run).workers|
    requires Holds(StateAfter(c, run).workers[v], k) && Holds(StateAfter(c, run).workers[w], k)
    ensures v == w && Work(k) !in StateAfter(c, run).queue
  {
    RunInvariant(c, run);
    assert HasHolder(StateAfter(c, run).workers, k);
  }

  function Max(a: int, b: int): int {
    if a < b then b else a
  }

  /** Between two Forgets a key runs at most max(1, maxAttempts) times and is requeued at most max(0, maxAttempts - 1) times. */
  lemma AttemptsBounded(c: Config, run: seq<Event>, k: Key)
    requires Legal(c, run)
    ensures Tally(StateAfter(c, run).attempts, k) <= if c.maxAttempts < 1 then 1 else c.maxAttempts
    ensures Tally(StateAfter(c, run).failures, k) <= if c.maxAttempts < 1 then 0 else c.maxAttempts - 1
  {
    RunInvariant(c, run);
    var s := StateAfter(c, run);
    assert KeyCounted(c, s, k, HasUnsettled(s.workers, k));
  }

  // ----- how a returned key goes on -----

  /**
    A key whose work failed is retried exactly while it has run fewer times, since it was last forgotten, than
    the limit; it is forgotten otherwise, and whenever its work succeeded.
   */
  lemma FailedKeyUsesItsAttempts(c: Config, run: seq<Event>, w: nat, ok: bool)
    requires Legal(c, run) && Enabled(c, StateAfter(c, run), Return(w, ok))
    ensures var s := StateAfter(c, run);
      var k := s.workers[w].key;
      && Legal(c, run + [Return(w, ok)])
      && StateAfter(c, run + [Return(w, ok)]).workers
         == s.workers[w := if !ok && Tally(s.attempts, k) < c.maxAttempts then Retrying(k) else Forgetting(k)]
  {
    var s := StateAfter(c, run);
    var k := s.workers[w].key;
    RunInvariant(c, run);
    Extend(c, run, Return(w, ok));
    assert Unsettled(s.workers[w], k);
    assert KeyCounted(c, s, k, HasUnsettled(s.workers, k));
  }

  /** So a key that is given up after a failure has run exactly as often as allowed, at least once. */
  lemma GivenUpAfterAllAttempts(c: Config, run: seq<Event>, w: nat)
    requires Legal(c, run) && Enabled(c, StateAfter(c, run), Return(w, false))
    ensures var s, k := StateAfter(c, run), StateAfter(c, run).workers[w].key;
      StateAfter(c, run + [Return(w, false)]).workers[w] == Forgetting(k) <==>
        Tally(s.attempts, k) == if c.maxAttempts < 1 then 1 else c.maxAttempts
  {
    var s, k := StateAfter(c, run), StateAfter(c, run).workers[w].key;
    FailedKeyUsesItsAttempts(c, run, w, false);
    AttemptsBounded(c, run, k);
    RunInvariant(c, run);
    assert Unsettled(s.workers[w], k);
    assert KeyCounted(c, s, k, HasUnsettled(s.workers, k));
  }

  /** A run is counted when it starts, and the count starts over when the key is forgotten. */
  lemma RunsAreCounted(c: Config, run: seq<Event>, e: Event, k: Key)
    requires Legal(c, run + [e]) && Legal(c, run)
    ensures var s, s' := StateAfter(c, run), StateAfter(c, run + [e]);
      Tally(s'.attempts, k) ==
        if e.Get? && s.queue != [] && s.queue[0] == Work(k) then Tally(s.attempts, k) + 1
        else if e.Forget? && s.workers[e.w].key == k then 0
        else Tally(s.attempts, k)
  {
    assert (run + [e])[..|run|] == run;
  }

  // ----- stopping -----

  /** The queue is shut down exactly by a stop, and a worker quits only then. */
  lemma {:induction false} QuitsAfterStop(c: Config, run: seq<Event>)
    requires Legal(c, run)
    ensures StateAfter(c, run).shutDown <==> Stop in run
    ensures Quit in StateAfter(c, run).workers ==> Stop in run
  {
    if run != [] {
      var before, e := run[..|run| - 1], run[|run| - 1];
      assert run == before + [e];
      QuitsAfterStop(c, before);
      StopsOrNot(c, StateAfter(c, before), e);
    }
  }

  lemma StopsOrNot(c: Config, s: State, e: Event)
    requires Enabled(c, s, e)
    ensures Apply(c, s, e).shutDown == (s.shutDown || e == Stop)
    ensures Quit in Apply(c, s, e).workers ==> Quit in s.workers || s.shutDown
  {
  }

  /** From then on nothing is queued any more but keys that are handed back by their worker. */
  lemma NothingAddedAfterStop(c: Config, run: seq<Event>, e: Event)
    requires Legal(c, run) && Stop in run && Legal(c, run + [e]) && !e.Done? && !e.Get?
    ensures StateAfter(c, run + [e]).queue == StateAfter(c, run).queue && StateAfter(c, run + [e]).dirty == StateAfter(c, run).dirty
  {
    QuitsAfterStop(c, run);
    assert (run + [e])[..|run|] == run;
  }

  // ----- what the synced flag means for finished work -----

  /** The documented reading: once synced, everything added before the start has been processed. */
  ghost predicate SyncMeansProcessed(c: Config, run: seq<Event>)
    requires Legal(c, run)
  {
    StateAfter(c, run).synced ==> StateAfter(c, run).early <= StateAfter(c, run).returned
  }

  /** What has not been processed by then is in work at this moment. */
  lemma UnprocessedIsRunning(c: Config, run: seq<Event>, k: Key)
    requires Legal(c, run) && StateAfter(c, run).synced
    requires k in StateAfter(c, run).early && k !in StateAfter(c, run).returned
    ensures Running(StateAfter(c, run).workers, k)
  {
    RunInvariant(c, run);
  }

  ghost predicate ProcessedAtSignal(c: Config, s: State) {
    && |s.workers| <= c.workers
    && (SyncSignal in s.processing ==> s.early <= s.returned && s.started)
  }

  /** When the only worker takes the signal, no work function is running. */
  lemma TakeAlone(c: Config, s: State, w: nat)
    requires Invariant(c, s) && |s.workers| <= 1 && Enabled(c, s, Get(w)) && s.queue != [] && s.queue[0] == SyncSignal
    ensures s.early <= s.returned
  {
    forall k | k in s.early ensures k in s.returned {
      assert !Running(s.workers, k);
      assert !QueuedBeforeSignal(s, k) by {
        assert forall i :: 0 < i < |s.queue| ==> s.queue[0] in s.queue[..i];
      }
    }
  }

  lemma SingleStep(c: Config, s: State, e: Event)
    requires Invariant(c, s) && ProcessedAtSignal(c, s) && c.workers <= 1 && Enabled(c, s, e)
    ensures ProcessedAtSignal(c, Apply(c, s, e))
  {
    if e.Get? && s.queue != [] && s.queue[0] == SyncSignal {
      TakeAlone(c, s, e.w);
      assert s.started;
    }
  }

  lemma {:induction false} SingleWorker(c: Config, run: seq<Event>)
    requires Legal(c, run) && c.workers <= 1
    ensures ProcessedAtSignal(c, StateAfter(c, run))
  {
    if run != [] {
      var before := run[..|run| - 1];
      SingleWorker(c, before);
      RunInvariant(c, before);
      SingleStep(c, StateAfter(c, before), run[|run| - 1]);
    }
  }

  lemma Extend(c: Config, run: seq<Event>, e: Event)
    requires Legal(c, run) && Enabled(c, StateAfter(c, run), e)
    ensures Legal(c, run + [e]) && StateAfter(c, run + [e]) == Apply(c, StateAfter(c, run), e)
  {
    assert (run + [e])[..|run|] == run;
  }

  /** With two workers the second may see the signal while the first still works on an early key. */
  lemma EarlyKeyUnprocessed(c: Config) returns (run: seq<Event>)
    requires c.workers >= 2
    ensures Legal(c, run) && !SyncMeansProcessed(c, run)
  {
    run := [];
    Extend(c, run, Add("a"));
    run := run + [Add("a")];
    Extend(c, run, Run);
    run := run + [Run];
    Extend(c, run, Get(0));
    run := run + [Get(0)];
    Extend(c, run, Get(1));
    run := run + [Get(1)];
    Extend(c, run, Store(1));
    run := run + [Store(1)];
  }

  /** The documented reading holds over all runs exactly when there is at most one worker. */
  lemma ProcessedExactlyWithOneWorker(c: Config)
    ensures (forall run :: Legal(c, run) ==> SyncMeansProcessed(c, run)) <==> c.workers <= 1
  {
    if c.workers <= 1 {
      forall run | Legal(c, run) ensures SyncMeansProcessed(c, run) {
        SingleWorker(c, run);
        RunInvariant(c, run);
      }
    } else {
      var run := EarlyKeyUnprocessed(c);
    }
  }
}
