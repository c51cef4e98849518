/** When the batch reporter sends, and how much: over every run, in terms of the events alone. */
module BatchSending {
  import opened BatchReporter

  /**
    What one more event sends. Receiving, the flusher sends at the five hundredth entry and not before; a tick sends
    what there is; finishing too; nothing else sends anything.
   */
  lemma SendsWhen(run: seq<Event>, e: Event)
    requires Legal(run) && Legal(run + [e])
    ensures var s, s' := StateAfter(run), StateAfter(run + [e]);
      && (e == Receive ==>
           if |s.batch| + 1 < 500 then s'.batches == s.batches && s'.batch == s.batch + [s.channel[0]]
           else |s.batch| + 1 == 500 && s'.batches == s.batches + [s.batch + [s.channel[0]]] && s'.batch == [])
      && (e == Tick || e == Finish ==>
           s'.batch == [] && s'.batches == if s.batch == [] then s.batches else s.batches + [s.batch])
      && (e != Receive && e != Tick && e != Finish ==> s'.batches == s.batches)
  {
    assert (run + [e])[..|run|] == run;
    RunInvariant(run);
  }

  /** Entries move only forward: received or drained, the oldest goes from the channel to the end of the batch. */
  lemma MovesOldest(run: seq<Event>, e: Event)
    requires Legal(run) && Legal(run + [e])
    ensures var s, s' := StateAfter(run), StateAfter(run + [e]);
      && (e == Receive || e == Drain ==> s.channel != [] && s'.channel == s.channel[1..])
      && (e == Drain ==> s'.batch == s.batch + [s.channel[0]])
      && (e.Accept? ==> |s.channel| < 500 && |s'.channel| == |s.channel| + 1 && s'.channel[..|s.channel|] == s.channel)
      && (e != Receive && e != Drain && !e.Accept? ==> s'.channel == s.channel)
  {
    assert (run + [e])[..|run|] == run;
  }

  /** Without ticks, every batch sent before the flusher finishes holds exactly five hundred entries. */
  lemma {:induction false} FullWithoutTicks(run: seq<Event>)
    requires Legal(run) && Tick !in run && StateAfter(run).phase != Finished
    ensures forall b :: b in StateAfter(run).batches ==> |b| == 500
  {
    if run != [] {
      var before, e := run[..|run| - 1], run[|run| - 1];
      assert run == before + [e] && forall d :: d in before ==> d in run;
      FinishedStays(before, e);
      FullWithoutTicks(before);
      SendsWhen(before, e);
    }
  }

  lemma FinishedStays(run: seq<Event>, e: Event)
    requires Legal(run) && Legal(run + [e])
    ensures StateAfter(run).phase == Finished || e == Finish ==> StateAfter(run + [e]).phase == Finished
  {
    assert (run + [e])[..|run|] == run;
  }

  lemma SameLast(before: seq<seq<Entry>>, b: seq<Entry>)
    ensures before + [b] != before
    ensures forall d :: before + [b] == before + [d] ==> b == d
  {
    forall d | before + [b] == before + [d] ensures b == d {
      assert (before + [b])[|before|] == (before + [d])[|before|];
    }
  }

  /** So a short batch is sent by a tick, or it is the last one. */
  lemma ShortBatch(run: seq<Event>, e: Event, b: seq<Entry>)
    requires Legal(run) && Legal(run + [e]) && StateAfter(run + [e]).batches == StateAfter(run).batches + [b] && |b| < 500
    ensures e == Tick || (e == Finish && StateAfter(run + [e]).phase == Finished)
    ensures b != [] && b == StateAfter(run).batch
  {
    SameLast(StateAfter(run).batches, b);
    SendsWhen(run, e);
    FinishedStays(run, e);
  }

  /** A call hands over its next entry exactly while it has not returned and fewer than five hundred wait in the channel. */
  lemma MayHandOver(run: seq<Event>, c: nat)
    requires Legal(run)
    ensures Legal(run + [Accept(c)]) <==>
      c < |StateAfter(run).calls| && !StateAfter(run).calls[c].over && |StateAfter(run).channel| < 500
  {
    assert (run + [Accept(c)])[..|run|] == run;
  }

  /** It returns early exactly when the reporter is closed. */
  lemma MayGiveUp(run: seq<Event>, c: nat)
    requires Legal(run)
    ensures Legal(run + [GiveUp(c)]) <==> c < |StateAfter(run).calls| && !StateAfter(run).calls[c].over && Close in run
  {
    assert (run + [GiveUp(c)])[..|run|] == run;
    ClosedByClose(run);
  }

  lemma {:induction false} ClosedByClose(run: seq<Event>)
    requires Legal(run)
    ensures StateAfter(run).closed <==> Close in run
  {
    if run != [] {
      assert run == run[..|run| - 1] + [run[|run| - 1]];
      ClosedByClose(run[..|run| - 1]);
    }
  }
}
