/** When closing the batch reporter sends everything it accepted: exactly when every Report call has returned by then. */
module BatchClosing {
  import opened BatchReporter

  /** What may happen after Close is called, when no call is started any more. */
  predicate Continues(rest: seq<Event>) {
    forall e :: e in rest ==> !e.Report? && !e.Close?
  }

  /** The reporter is closed after a run, goes on for some time without new calls, and has finished. */
  ghost predicate ClosesBy(run: seq<Event>, rest: seq<Event>) {
    Continues(rest) && Legal(run + [Close] + rest) && StateAfter(run + [Close] + rest).phase == Finished
  }

  ghost predicate AllSent(s: State) {
    Concat(s.batches) == s.accepted
  }

  // ----- when every call has returned -----

  /** Once closed with every call returned, nothing more is accepted, so a finished reporter has sent all. */
  ghost predicate Settled(s: State) {
    s.closed && AllOver(s) && (s.phase == Finished ==> s.channel == [])
  }

  lemma StepSettled(s: State, e: Event)
    requires Settled(s) && Enabled(s, e) && !e.Report? && !e.Close?
    ensures Settled(Apply(s, e))
  {
  }

  lemma OpenIsBatching(run: seq<Event>)
    requires Legal(run)
    ensures StateAfter(run).phase != Batching ==> StateAfter(run).closed
  {
    RunInvariant(run);
  }

  lemma {:induction false} RestSettled(run: seq<Event>, rest: seq<Event>)
    requires Legal(run) && Settled(StateAfter(run)) && Continues(rest) && Legal(run + rest)
    ensures Settled(StateAfter(run + rest))
  {
    if rest == [] {
      assert run + rest == run;
    } else {
      var front, e := rest[..|rest| - 1], rest[|rest| - 1];
      assert (run + rest)[..|run + rest| - 1] == run + front;
      assert e in rest && forall d :: d in front ==> d in rest;
      RestSettled(run, front);
      StepSettled(StateAfter(run + front), e);
    }
  }

  lemma AllOverSendsAll(run: seq<Event>, rest: seq<Event>)
    requires Legal(run) && !StateAfter(run).closed && AllOver(StateAfter(run)) && ClosesBy(run, rest)
    ensures AllSent(StateAfter(run + [Close] + rest))
  {
    OpenIsBatching(run);
    Extend(run, Close);
    RestSettled(run + [Close], rest);
    LateEntriesAreLost(run + [Close] + rest);
  }

  // ----- when one has not -----

  lemma DrainOnce(run: seq<Event>)
    requires Legal(run) && StateAfter(run).phase == Draining && StateAfter(run).channel != []
    ensures Legal(run + [Drain])
    ensures var s, s' := StateAfter(run), StateAfter(run + [Drain]);
      s'.phase == Draining && |s'.channel| == |s.channel| - 1 && s'.calls == s.calls
  {
    Extend(run, Drain);
  }

  /** after goes on from a run by steps that are neither new calls nor Close. */
  predicate GoesOn(run: seq<Event>, after: seq<Event>) {
    run <= after && Continues(after[|run|..])
  }

  lemma GoOn(run: seq<Event>, mid: seq<Event>, after: seq<Event>)
    requires GoesOn(run, mid) && GoesOn(mid, after)
    ensures GoesOn(run, after)
  {
    assert after[|run|..] == mid[|run|..] + after[|mid|..];
  }

  lemma GoOnBy(run: seq<Event>, e: Event)
    requires !e.Report? && !e.Close?
    ensures GoesOn(run, run + [e])
  {
    assert (run + [e])[|run|..] == [e];
  }

  /** The channel can be drained while the callers do nothing. */
  lemma {:induction false} DrainAway(run: seq<Event>) returns (after: seq<Event>)
    requires Legal(run) && StateAfter(run).phase == Draining
    ensures GoesOn(run, after) && Legal(after)
    ensures StateAfter(after).phase == Draining && StateAfter(after).channel == []
    ensures StateAfter(after).calls == StateAfter(run).calls
    decreases |StateAfter(run).channel|
  {
    if StateAfter(run).channel == [] {
      after := run;
    } else {
      DrainOnce(run);
      after := DrainAway(run + [Drain]);
      GoOnBy(run, Drain);
      GoOn(run, run + [Drain], after);
    }
  }

  /** The reporter is closed and sees that, with every call where it was. */
  lemma CloseSeen(run: seq<Event>)
    requires Legal(run) && !StateAfter(run).closed
    ensures var seen := run + [Close] + [SeeClose];
      Legal(seen) && StateAfter(seen).phase == Draining && StateAfter(seen).calls == StateAfter(run).calls
  {
    OpenIsBatching(run);
    Extend(run, Close);
    Extend(run + [Close], SeeClose);
  }

  /** A drained reporter finishes, and a call that has not returned then hands over one more entry. */
  lemma OneMore(run: seq<Event>, c: nat)
    requires Legal(run) && StateAfter(run).phase == Draining && StateAfter(run).channel == []
    requires c < |StateAfter(run).calls| && !StateAfter(run).calls[c].over
    ensures var all := run + [Finish] + [Accept(c)];
      Legal(all) && StateAfter(all).phase == Finished && !AllSent(StateAfter(all))
  {
    Extend(run, Finish);
    Extend(run + [Finish], Accept(c));
    LateEntriesAreLost(run + [Finish] + [Accept(c)]);
    assert StateAfter(run + [Finish] + [Accept(c)]).channel != [];
  }

  lemma LosingRest(run: seq<Event>, c: nat) returns (rest: seq<Event>)
    requires Legal(run) && !StateAfter(run).closed
    requires c < |StateAfter(run).calls| && !StateAfter(run).calls[c].over
    ensures ClosesBy(run, rest) && !AllSent(StateAfter(run + [Close] + rest))
  {
    CloseSeen(run);
    var closed := run + [Close];
    var drained := DrainAway(closed + [SeeClose]);
    OneMore(drained, c);
    var all := drained + [Finish] + [Accept(c)];
    GoOnBy(closed, SeeClose);
    GoOn(closed, closed + [SeeClose], drained);
    GoOnBy(drained, Finish);
    GoOn(closed, drained, drained + [Finish]);
    GoOnBy(drained + [Finish], Accept(c));
    GoOn(closed, drained + [Finish], all);
    rest := all[|closed|..];
    assert closed + rest == all;
  }

  /**
    However the run went so far, closing now sends everything that is accepted, in every way it may go on
    without new calls, exactly when every Report call has returned.
   */
  lemma CloseSendsAllExactly(run: seq<Event>)
    requires Legal(run) && !StateAfter(run).closed
    ensures (forall rest :: ClosesBy(run, rest) ==> AllSent(StateAfter(run + [Close] + rest))) <==> AllOver(StateAfter(run))
  {
    if AllOver(StateAfter(run)) {
      forall rest | ClosesBy(run, rest) ensures AllSent(StateAfter(run + [Close] + rest)) {
        AllOverSendsAll(run, rest);
      }
    } else {
      var c: nat :| c < |StateAfter(run).calls| && !StateAfter(run).calls[c].over;
      var rest := LosingRest(run, c);
    }
  }
}
