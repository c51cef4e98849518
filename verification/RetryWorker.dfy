/** The retry queue as the program holds it: its calls change it in place, one step of the state machine at a time. */
module RetryWorker {
  import opened RetryQueue
  import opened RetryQueueProgress

  /** What a worker does with a key it has taken, when its work function returns ok. */
  function StepsAfter(c: Config, s: State, w: nat, k: Key, ok: bool): seq<Event> {
    [Return(w, ok), if !ok && MayRetry(c, s, k) then Retry(w) else Forget(w), Done(w)]
  }

  /** The steps of one uninterrupted processNextItem. */
  function StepsOf(c: Config, s: State, w: nat, ok: bool): seq<Event> {
    if s.queue == [] then [Get(w)]
    else
      match s.queue[0]
      case SyncSignal => [Get(w), Event.Store(w)]
      case Work(k) => [Get(w)] + StepsAfter(c, s, w, k, ok)
  }

  class Queue {
    const workCount: nat
    const maxAttempts: int
    var items: seq<Item>
    var dirty: set<Item>
    var processing: set<Item>
    var failures: map<Key, nat>
    var waiting: set<Key>
    var shutDown: bool
    var initialSync: bool
    ghost var workers: seq<Worker>
    ghost var started: bool
    ghost var early: set<Key>
    ghost var handed: set<Key>
    ghost var returned: set<Key>
    ghost var attempts: map<Key, nat>

    ghost function Settings(): Config {
      Config(workCount, maxAttempts)
    }

    ghost function Current(): State
      reads this
    {
      State(items, dirty, processing, failures, waiting, shutDown, workers, started, initialSync, early, handed, returned, attempts)
    }

    constructor (workCount: nat, maxAttempts: int)
      ensures Settings() == Config(workCount, maxAttempts) && Current() == Initial
    {
      this.workCount, this.maxAttempts := workCount, maxAttempts;
      items, dirty, processing, failures, waiting, shutDown, initialSync := [], {}, {}, map[], {}, false, false;
      workers, started, early, handed, returned, attempts := [], false, {}, {}, {}, map[];
    }

    method Enqueue(i: Item)
      modifies this`items, this`dirty
      ensures Current() == RetryQueue.Enqueue(old(Current()), i)
    {
      if shutDown || i in dirty {
        return;
      }
      dirty := dirty + {i};
      if i !in processing {
        items := items + [i];
      }
    }

    method Add(key: Key)
      modifies this
      ensures Current() == Apply(Settings(), old(Current()), Event.Add(key))
    {
      Enqueue(Work(key));
      if !started {
        early := early + {key};
      }
    }

    method Start()
      requires !started
      modifies this
      ensures Current() == Apply(Settings(), old(Current()), Run)
    {
      Enqueue(SyncSignal);
      started, workers := true, seq(workCount, _ => Idle);
    }

    /** What Run does when it is told to stop. */
    method ShutDown()
      requires started
      modifies this`shutDown
      ensures Current() == Apply(Settings(), old(Current()), Stop)
    {
      shutDown := true;
    }

    method HasSynced() returns (r: bool)
      ensures r == Current().synced
    {
      r := initialSync;
    }

    /** The next item, or none when the queue has been shut down and is empty. */
    method TakeNext(ghost w: nat) returns (item: Item, quit: bool)
      requires Enabled(Settings(), Current(), Get(w))
      modifies this
      ensures Current() == Apply(Settings(), old(Current()), Get(w))
      ensures quit == (old(items) == []) && (!quit ==> item == old(items)[0])
    {
      if items == [] {
        workers := workers[w := Quit];
        return SyncSignal, true;
      }
      item, quit := items[0], false;
      items, dirty, processing := items[1..], dirty - {item}, processing + {item};
      NoteTaken(item, w);
    }

    ghost method NoteTaken(item: Item, w: nat)
      requires w < |workers|
      modifies this`workers, this`handed, this`attempts
      ensures workers == old(workers)[w := if item.Work? then InWork(item.key) else Signalling]
      ensures handed == old(handed) + if item.Work? then {item.key} else {}
      ensures attempts == if item.Work? then old(attempts)[item.key := Tally(old(attempts), item.key) + 1] else old(attempts)
    {
      match item {
        case SyncSignal =>
          workers := workers[w := Signalling];
        case Work(k) =>
          workers := workers[w := InWork(k)];
          handed, attempts := handed + {k}, attempts[k := Tally(attempts, k) + 1];
      }
    }

    method StoreSynced(ghost w: nat)
      requires Enabled(Settings(), Current(), Event.Store(w))
      modifies this
      ensures Current() == Apply(Settings(), old(Current()), Event.Store(w))
    {
      initialSync := true;
      workers := workers[w := Idle];
    }

    /** The outcome of the work function, and whether the key gets another try. */
    method Decide(key: Key, ok: bool, ghost w: nat) returns (retry: bool)
      requires Enabled(Settings(), Current(), Return(w, ok)) && workers[w].key == key
      modifies this
      ensures Current() == Apply(Settings(), old(Current()), Return(w, ok))
      ensures retry == (!ok && MayRetry(Settings(), old(Current()), key))
    {
      retry := false;
      if !ok {
        var retryCount := (if key in failures then failures[key] else 0) + 1;
        retry := retryCount < maxAttempts;
      }
      returned, workers := returned + {key}, workers[w := if retry then Retrying(key) else Forgetting(key)];
    }

    method AddRateLimited(key: Key, ghost w: nat)
      requires Enabled(Settings(), Current(), Retry(w)) && workers[w].key == key
      modifies this
      ensures Current() == Apply(Settings(), old(Current()), Retry(w))
    {
      failures := failures[key := (if key in failures then failures[key] else 0) + 1];
      if !shutDown {
        waiting := waiting + {key};
      }
      workers := workers[w := Finishing(key)];
    }

    method ForgetKey(key: Key, ghost w: nat)
      requires Enabled(Settings(), Current(), Forget(w)) && workers[w].key == key
      modifies this
      ensures Current() == Apply(Settings(), old(Current()), Forget(w))
    {
      failures := failures - {key};
      attempts, workers := attempts - {key}, workers[w := Finishing(key)];
    }

    method MarkDone(key: Key, ghost w: nat)
      requires Enabled(Settings(), Current(), Done(w)) && workers[w].key == key
      modifies this
      ensures Current() == Apply(Settings(), old(Current()), Done(w))
    {
      processing := processing - {Work(key)};
      if Work(key) in dirty {
        items := items + [Work(key)];
      }
      workers := workers[w := Idle];
    }

    /** Runs the work function on a key that was taken and settles it. ok is what the work function returns. */
    method Process(key: Key, ok: bool, ghost w: nat)
      requires Enabled(Settings(), Current(), Return(w, ok)) && workers[w].key == key
      modifies this
      ensures var steps := StepsAfter(Settings(), old(Current()), w, key, ok);
        QuietFrom(Settings(), old(Current()), steps) && Current() == EndOf(Settings(), old(Current()), steps)
      ensures w < |workers| && workers[w] == Idle
    {
      ghost var s := Current();
      var retry := Decide(key, ok, w);
      if retry {
        AddRateLimited(key, w);
      } else {
        ForgetKey(key, w);
      }
      MarkDone(key, w);
      ThreeSteps(Settings(), s, Return(w, ok), if retry then Retry(w) else Forget(w), Done(w));
    }

    /** One turn of a worker that nothing interrupts. */
    method ProcessNextItem(ok: bool, ghost w: nat) returns (more: bool)
      requires Enabled(Settings(), Current(), Get(w))
      modifies this
      ensures var steps := StepsOf(Settings(), old(Current()), w, ok);
        QuietFrom(Settings(), old(Current()), steps) && Current() == EndOf(Settings(), old(Current()), steps)
      ensures more == (old(items) != [])
      ensures w < |workers| && workers[w] == if more then Idle else Quit
    {
      ghost var s := Current();
      var key, quit := TakeNext(w);
      if quit {
        return false;
      }
      if key == SyncSignal {
        StoreSynced(w);
        TwoSteps(Settings(), s, Get(w), Event.Store(w));
        return true;
      }
      Process(key.key, ok, w);
      EndsWith(Settings(), s, w, key.key, ok);
      more := true;
    }
  }

  lemma StepFirst(c: Config, s: State, e: Event, steps: seq<Event>)
    requires Quiet(e) && Enabled(c, s, e) && QuietFrom(c, Apply(c, s, e), steps)
    ensures QuietFrom(c, s, [e] + steps) && EndOf(c, s, [e] + steps) == EndOf(c, Apply(c, s, e), steps)
  {
    assert ([e] + steps)[1..] == steps;
  }

  lemma TwoSteps(c: Config, s: State, a: Event, b: Event)
    requires Quiet(a) && Quiet(b) && Enabled(c, s, a) && Enabled(c, Apply(c, s, a), b)
    ensures QuietFrom(c, s, [a, b]) && EndOf(c, s, [a, b]) == Apply(c, Apply(c, s, a), b)
  {
    StepFirst(c, Apply(c, s, a), b, []);
    StepFirst(c, s, a, [b]);
    assert [a] + [b] == [a, b] && [b] + [] == [b];
  }

  lemma ThreeSteps(c: Config, s: State, a: Event, b: Event, d: Event)
    requires Quiet(a) && Quiet(b) && Quiet(d)
    requires Enabled(c, s, a) && Enabled(c, Apply(c, s, a), b) && Enabled(c, Apply(c, Apply(c, s, a), b), d)
    ensures QuietFrom(c, s, [a, b, d])
    ensures EndOf(c, s, [a, b, d]) == Apply(c, Apply(c, Apply(c, s, a), b), d)
  {
    TwoSteps(c, Apply(c, s, a), b, d);
    StepFirst(c, s, a, [b, d]);
    assert [a] + [b, d] == [a, b, d];
  }

  lemma EndsWith(c: Config, s: State, w: nat, k: Key, ok: bool)
    requires Enabled(c, s, Get(w)) && s.queue != [] && s.queue[0] == Work(k)
    requires QuietFrom(c, Apply(c, s, Get(w)), StepsAfter(c, Apply(c, s, Get(w)), w, k, ok))
    ensures StepsOf(c, s, w, ok) == [Get(w)] + StepsAfter(c, Apply(c, s, Get(w)), w, k, ok)
    ensures QuietFrom(c, s, StepsOf(c, s, w, ok))
    ensures EndOf(c, s, StepsOf(c, s, w, ok)) == EndOf(c, Apply(c, s, Get(w)), StepsAfter(c, Apply(c, s, Get(w)), w, k, ok))
  {
    StepFirst(c, s, Get(w), StepsAfter(c, Apply(c, s, Get(w)), w, k, ok));
  }
}
