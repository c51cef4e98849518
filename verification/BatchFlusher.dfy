/** The batch reporter as the program holds it: a channel and a batch that its calls change in place. */
module BatchFlusher {
  import opened BatchReporter

  /** Whose loop is being followed: the flusher's or a call's. The other steps are everyone else's. */
  datatype Side = FlusherSide | CallOf(call: nat)

  predicate Theirs(mine: Side, e: Event) {
    match mine
    case FlusherSide => e.Report? || e.Accept? || e.GiveUp? || e.Close?
    case CallOf(c) => e != Accept(c) && e != GiveUp(c)
  }

  /** How one select of a call went. */
  datatype Outcome = Waited | HandedOver | GaveUp

  /** The cases of the flusher's select. */
  datatype Case = EntryCase | TickerCase | CloseCase

  class Reporter {
    var entryChan: seq<Entry>
    var closed: bool
    var batch: seq<Entry>
    var calls: seq<Call>  // where each Report call stands in its loop
    var phase: Phase
    var batches: seq<seq<Entry>>  // what was passed to send
    ghost var accepted: seq<Entry>

    ghost function Current(): State
      reads this
    {
      State(calls, entryChan, closed, phase, batch, batches, accepted)
    }

    constructor ()
      ensures Current() == Initial
    {
      entryChan, closed, batch := [], false, [];
      calls, phase, batches, accepted := [], Batching, [], [];
    }

    /** Starts a call; the entries follow one by one as the channel takes them. */
    method Begin(total: nat)
      modifies this`calls
      ensures Current() == Apply(old(Current()), Event.Report(total))
    {
      calls := calls + [Call(total, 0, total == 0)];
    }

    /** One entry of a call. gaveUp tells which ready case the select took. */
    method ReportEntry(entry: Entry, closeSeen: bool) returns (gaveUp: bool)
      requires Enabled(Current(), if closeSeen then GiveUp(entry.call) else Accept(entry.call))
      requires entry == Entry(entry.call, calls[entry.call].next)
      modifies this
      ensures gaveUp == closeSeen
      ensures Current() == Apply(old(Current()), if closeSeen then GiveUp(entry.call) else Accept(entry.call))
    {
      if closeSeen {
        calls := calls[entry.call := calls[entry.call].(over := true)];
        return true;
      }
      entryChan := entryChan + [entry];
      var call := calls[entry.call];
      calls := calls[entry.call := call.(next := call.next + 1, over := call.next + 1 == call.total)];
      accepted := accepted + [entry];
      gaveUp := false;
    }

    /**
      A Report call: its loop hands over its entries one by one. Before each the flusher and other calls may do
      anything, and while the channel is full it waits; closed, it may see that instead and return. It is followed
      for so many turns, and done tells whether it has returned.
     */
    method Report(total: nat, turns: nat, ghost before: seq<Event>) returns (done: bool, ghost run: seq<Event>)
      requires Legal(before) && Current() == StateAfter(before)
      modifies this
      ensures Legal(run) && before <= run && Current() == StateAfter(run)
      ensures var c := |old(calls)|;
        && c < |calls| && calls[c].total == total && calls[c].over == done
        && (done ==> calls[c].next == total || closed)
        && Of(accepted, c) == FirstEntries(c, calls[c].next)
    {
      var c := |calls|;
      Extend(before, Event.Report(total));
      Begin(total);
      run := before + [Event.Report(total)];
      var i, left := 0, turns;
      while i < total && left > 0
        invariant Legal(run) && before <= run && Current() == StateAfter(run)
        invariant c < |calls| && i <= total && calls[c] == Call(total, i, i == total)
        decreases left
      {
        run := Meanwhile(CallOf(c), run);
        var outcome;
        outcome, run := TryEntry(Entry(c, i), total, run);
        if outcome == GaveUp {
          InItsOrder(run, c);
          return true, run;
        }
        i, left := if outcome == HandedOver then i + 1 else i, left - 1;
      }
      InItsOrder(run, c);
      done := i == total;
    }

    /** One select of a call: whichever case is ready, or neither. */
    method TryEntry(entry: Entry, ghost total: nat, ghost before: seq<Event>) returns (outcome: Outcome, ghost run: seq<Event>)
      requires Legal(before) && Current() == StateAfter(before)
      requires entry.call < |calls| && entry.index < total && calls[entry.call] == Call(total, entry.index, false)
      modifies this
      ensures Legal(run) && before <= run && Current() == StateAfter(run) && closed == old(closed)
      ensures entry.call < |calls| && calls[entry.call] == match outcome
        case Waited => old(calls)[entry.call]
        case HandedOver => Call(total, entry.index + 1, entry.index + 1 == total)
        case GaveUp => Call(total, entry.index, true)
      ensures outcome == GaveUp ==> closed
    {
      var c, seesClose: bool := entry.call, *;
      run := before;
      if closed && seesClose {
        Extend(run, GiveUp(c));
        var gaveUp := ReportEntry(entry, true);
        return GaveUp, run + [GiveUp(c)];
      }
      if |entryChan| < CHANNEL_SIZE {
        Extend(run, Accept(c));
        var gaveUp := ReportEntry(entry, false);
        return HandedOver, run + [Accept(c)];
      }
      outcome := Waited;
    }

    method RequestClose()
      requires !closed
      modifies this`closed
      ensures Current() == Apply(old(Current()), Event.Close)
    {
      closed := true;
    }

    method SendBatch()
      modifies this`batch, this`batches
      ensures Current() == Send(old(Current()))
    {
      batches := batches + [batch];
      batch := [];
    }

    /** The flusher's first case. */
    method ReceiveEntry()
      requires Enabled(Current(), Receive)
      modifies this
      ensures Current() == Apply(old(Current()), Receive)
    {
      batch, entryChan := batch + [entryChan[0]], entryChan[1..];
      if |batch| >= MAX_BATCH {
        SendBatch();
      }
    }

    /** Its second. */
    method TickNow()
      requires Enabled(Current(), Tick)
      modifies this
      ensures Current() == Apply(old(Current()), Tick)
    {
      if |batch| > 0 {
        SendBatch();
      }
    }

    /** One turn of the inner loop, and its end. */
    method DrainOne()
      requires Enabled(Current(), Drain)
      modifies this
      ensures Current() == Apply(old(Current()), Drain)
    {
      batch, entryChan := batch + [entryChan[0]], entryChan[1..];
    }

    method DrainEnd()
      requires Enabled(Current(), Finish)
      modifies this
      ensures Current() == Apply(old(Current()), Finish)
    {
      if |batch| > 0 {
        SendBatch();
      }
      phase := Finished;
    }

    /** Any step, by whoever takes it. */
    method Take(e: Event)
      requires Enabled(Current(), e)
      modifies this
      ensures Current() == Apply(old(Current()), e)
    {
      match e {
        case Report(n) => Begin(n);
        case Accept(c) => var gaveUp := ReportEntry(Entry(c, calls[c].next), false);
        case GiveUp(c) => var gaveUp := ReportEntry(Entry(c, calls[c].next), true);
        case Close => RequestClose();
        case Receive => ReceiveEntry();
        case Tick => TickNow();
        case SeeClose => phase := Draining;
        case Drain => DrainOne();
        case Finish => DrainEnd();
      }
    }

    /** What the others do while one of the loops is about to take its next turn: any number of any of their steps. */
    method Meanwhile(mine: Side, ghost before: seq<Event>) returns (ghost run: seq<Event>)
      requires Legal(before) && Current() == StateAfter(before)
      modifies this
      ensures Legal(run) && before <= run && Current() == StateAfter(run)
      ensures mine == FlusherSide ==> phase == old(phase) && (old(closed) ==> closed)
      ensures mine.CallOf? && mine.call < |old(calls)| ==> mine.call < |calls| && calls[mine.call] == old(calls)[mine.call]
    {
      run := before;
      var steps: nat := *;
      while steps > 0
        invariant Legal(run) && before <= run && Current() == StateAfter(run)
        invariant mine == FlusherSide ==> phase == old(phase) && (old(closed) ==> closed)
        invariant mine.CallOf? && mine.call < |old(calls)| ==> mine.call < |calls| && calls[mine.call] == old(calls)[mine.call]
      {
        var e: Event := *;
        var ready := Ready(e);
        if ready && Theirs(mine, e) {
          Extend(run, e);
          TheirsKeeps(Current(), mine, e);
          Take(e);
          run := run + [e];
        }
        steps := steps - 1;
      }
    }

    method Ready(e: Event) returns (r: bool)
      ensures r == Enabled(Current(), e)
    {
      match e {
        case Report(_) => r := true;
        case Accept(c) => r := c < |calls| && !calls[c].over && |entryChan| < CHANNEL_SIZE;
        case GiveUp(c) => r := c < |calls| && !calls[c].over && closed;
        case Close => r := !closed;
        case Receive => r := phase == Batching && entryChan != [];
        case Tick => r := phase == Batching;
        case SeeClose => r := phase == Batching && closed;
        case Drain => r := phase == Draining && entryChan != [];
        case Finish => r := phase == Draining && entryChan == [];
      }
    }

    /**
      The flusher: a select among an entry, the ticker and the close, again and again; the close leads into the
      drain. Before each select callers may do anything; a select whose case of choice is not ready waits. It
      is followed for so many selects, and finished tells whether it has returned.
     */
    method Flusher(turns: nat, ghost before: seq<Event>) returns (finished: bool, ghost run: seq<Event>)
      requires Legal(before) && Current() == StateAfter(before) && phase == Batching
      modifies this
      ensures Legal(run) && before <= run && Current() == StateAfter(run)
      ensures finished <==> phase == Finished
      ensures finished ==> batch == [] && entryChan == [] && Concat(batches) == accepted
    {
      run := before;
      var left := turns;
      while left > 0
        invariant Legal(run) && before <= run && Current() == StateAfter(run) && phase == Batching
      {
        run := Meanwhile(FlusherSide, run);
        var choice: Case := *;
        var closeSeen;
        closeSeen, run := SelectOne(choice, run);
        if closeSeen {
          finished, run := DrainLoop(left - 1, run);
          return;
        }
        left := left - 1;
      }
      finished := false;
    }

    /** One select of the flusher, and what it does for the case taken. */
    method SelectOne(choice: Case, ghost before: seq<Event>) returns (closeSeen: bool, ghost run: seq<Event>)
      requires Legal(before) && Current() == StateAfter(before) && phase == Batching
      modifies this
      ensures Legal(run) && before <= run && Current() == StateAfter(run)
      ensures phase == if closeSeen then Draining else Batching
      ensures closeSeen ==> closed
    {
      run, closeSeen := before, false;
      match choice {
        case EntryCase =>
          if entryChan != [] {
            Extend(run, Receive);
            ReceiveEntry();
            run := run + [Receive];
          }
        case TickerCase =>
          Extend(run, Tick);
          TickNow();
          run := run + [Tick];
        case CloseCase =>
          if closed {
            Extend(run, SeeClose);
            phase := Draining;
            run, closeSeen := run + [SeeClose], true;
          }
      }
    }

    /** The inner loop: entries as long as there are any, then the rest is sent and the flusher returns. */
    method DrainLoop(turns: nat, ghost before: seq<Event>) returns (finished: bool, ghost run: seq<Event>)
      requires Legal(before) && Current() == StateAfter(before) && phase == Draining
      modifies this
      ensures Legal(run) && before <= run && Current() == StateAfter(run)
      ensures phase == if finished then Finished else Draining
      ensures finished ==> batch == [] && entryChan == [] && Concat(batches) == accepted
    {
      run := before;
      var left := turns;
      while left > 0
        invariant Legal(run) && before <= run && Current() == StateAfter(run) && phase == Draining
      {
        run := Meanwhile(FlusherSide, run);
        if entryChan != [] {
          Extend(run, Drain);
          DrainOne();
          run := run + [Drain];
        } else {
          Extend(run, Finish);
          DrainEnd();
          run := run + [Finish];
          LateEntriesAreLost(run);
          return true, run;
        }
        left := left - 1;
      }
      finished := false;
    }

    /** Its third, when no call interferes: everything left goes out as one batch. */
    method DrainAll()
      requires Enabled(Current(), SeeClose)
      modifies this
      ensures ghost var rest := old(batch + entryChan);
        Current() == old(Current()).(phase := Finished, channel := [], batch := [],
          batches := if rest == [] then old(batches) else old(batches) + [rest])
      ensures Closing(old(Current()), Current(), |old(entryChan)|)
    {
      ghost var rest := batch + entryChan;
      ghost var s, n := Current(), 0;
      phase := Draining;
      while entryChan != []
        invariant batch + entryChan == rest && n + |entryChan| == |old(entryChan)|
        invariant phase == Draining && closed == old(closed)
        invariant calls == old(calls) && batches == old(batches) && accepted == old(accepted)
        invariant Current() == Drained(Apply(s, SeeClose), n)
      {
        DrainedMore(Apply(s, SeeClose), n);
        batch, entryChan := batch + [entryChan[0]], entryChan[1..];
        n := n + 1;
      }
      assert batch + entryChan == batch;
      if |batch| > 0 {
        SendBatch();
      }
      phase := Finished;
    }
  }

  lemma TheirsKeeps(s: State, mine: Side, e: Event)
    requires Enabled(s, e) && Theirs(mine, e)
    ensures mine == FlusherSide ==> Apply(s, e).phase == s.phase && (s.closed ==> Apply(s, e).closed)
    ensures mine.CallOf? && mine.call < |s.calls| ==>
      mine.call < |Apply(s, e).calls| && Apply(s, e).calls[mine.call] == s.calls[mine.call]
  {
  }

  /** A call's entries are accepted in its order, whatever else happens. */
  lemma InItsOrder(run: seq<Event>, c: nat)
    requires Legal(run) && c < |StateAfter(run).calls|
    ensures Of(StateAfter(run).accepted, c) == FirstEntries(c, StateAfter(run).calls[c].next)
  {
    RunInvariant(run);
  }

  /** The state after the flusher took n of the remaining entries. */
  ghost function Drained(s: State, n: nat): State
    requires s.phase == Draining && n <= |s.channel|
    ensures Drained(s, n).phase == Draining && Drained(s, n).channel == s.channel[n..]
  {
    if n == 0 then s else Apply(Drained(s, n - 1), Drain)
  }

  lemma DrainedMore(s: State, n: nat)
    requires s.phase == Draining && n < |s.channel|
    ensures Drained(s, n + 1) == TakeEntry(Drained(s, n))
  {
  }

  /** after is reached by seeing the close, draining all n entries and finishing. */
  ghost predicate Closing(before: State, after: State, n: nat) {
    && Enabled(before, SeeClose) && n == |before.channel|
    && after == Apply(Drained(Apply(before, SeeClose), n), Finish)
  }
}
