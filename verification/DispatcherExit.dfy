/** What becomes of a dispatcher whose queue has been closed: the branch that notices it goes round the loop
    without the check that ends an iteration. */
module DispatcherExit {
  import opened DispatcherModel
  import opened DispatcherLaws
  import opened DispatcherRuns

  /** Nothing is in flight, delayed or queued. */
  predicate Quiet(s: State) {
    s.sends == [] && s.delayed == [] && s.lanes == map[]
  }

  /** The branches of the shutdown channel. */
  predicate FromShutdownChannel(b: Branch) {
    b.Shutdown? || b.Watched?
  }

  /** The dispatcher can return without any change of the shutdown channel. */
  ghost predicate CanLeave(s: State, limit: nat) {
    exists choices: seq<Choice> :: Leaves(s, limit, choices)
  }

  predicate Leaves(s: State, limit: nat, choices: seq<Choice>) {
    && choices != [] && Legal(s, limit, choices)
    && (forall i :: 0 <= i < |choices| ==> !FromShutdownChannel(choices[i].branch))
    && Exits(Run(s, limit, choices), choices[|choices| - 1].branch)
  }

  // ---------------------------------------------------------------- nothing outstanding

  /** With nothing outstanding the scheduling phases do nothing. */
  lemma QuietStays(s: State, now: nat, limit: nat)
    requires Inv(s, limit) && Quiet(s)
    ensures Scheduled(s, now, limit) == s
  {
    hide Inv;
    InvSchedules(s, limit);
    assert s.ready == [] || s.ready[0] in s.ready;
  }

  lemma QuietWaits(s: State, limit: nat, c: Choice)
    requires Inv(s, limit) && Quiet(s) && !s.incomingOpen
    ensures Enabled(Scheduled(s, c.now, limit), c.branch) <==> FromShutdownChannel(c.branch)
    ensures FromShutdownChannel(c.branch) ==> Exits(Iterate(s, c.now, limit, c.branch), c.branch)
  {
    hide Inv, Scheduled;
    QuietStays(s, c.now, limit);
  }

  // ---------------------------------------------------------------- something outstanding

  function Latest(delayed: seq<Delayed>): nat {
    if delayed == [] then 0
    else
      var rest := Latest(delayed[1..]);
      if delayed[0].due > rest then delayed[0].due else rest
  }

  lemma {:induction false} LatestMeans(delayed: seq<Delayed>)
    ensures forall i :: 0 <= i < |delayed| ==> delayed[i].due <= Latest(delayed)
  {
    if delayed != [] { LatestMeans(delayed[1..]); }
  }

  lemma {:induction false} WakesAll(s: State, now: nat)
    requires forall i :: 0 <= i < |s.delayed| ==> s.delayed[i].due <= now
    ensures WakeDue(s, 0, now).delayed == []
    decreases |s.delayed|
  {
    if s.delayed != [] {
      WakesAll(Wake(s, 0), now);
    }
  }

  /** Once every delay is over and a worker exists, outstanding work means a platform call in flight. */
  lemma WorkIsInFlight(s: State, limit: nat)
    requires Inv(s, limit) && limit >= 1 && !Quiet(s)
    ensures Scheduled(s, Latest(s.delayed), limit).sends != []
  {
    hide Inv, Work, LaneTotal;
    var now := Latest(s.delayed);
    LatestMeans(s.delayed);
    WakesAll(s, now);
    WakeDueInv(s, 0, now, limit);
    var woken := WakeDue(s, 0, now);
    LaunchAllInv(woken, limit);
    LaunchAllDelays(woken, limit);
    var t := Scheduled(s, now, limit);
    InvSchedules(t, limit);
    WakeDueWork(s, 0, now);
    LaunchAllWork(woken, limit);
    InvSchedules(s, limit);
    NotQuietWork(s, limit);
    if t.sends == [] { IdleMeansNoWork(t, limit); }
  }

  lemma IdleMeansNoWork(s: State, limit: nat)
    requires WellScheduled(s, limit) && s.sends == [] && s.delayed == [] && s.ready == []
    ensures Work(s) == 0
  {
    hide LaneTotal;
    assert Busy(s) == [];
    forall d ensures d !in s.lanes {
      assert d !in s.active && d !in s.ready;
    }
    assert s.lanes == map[];
    NoLanes();
  }

  /** Outstanding means work, and no work means nothing outstanding. */
  lemma NotQuietWork(s: State, limit: nat)
    requires WellScheduled(s, limit)
    ensures Quiet(s) <==> Work(s) == 0
  {
    hide LaneTotal, WellScheduled;
    NoLanes();
    if Work(s) == 0 {
      forall d ensures d !in s.lanes {
        if d in s.lanes { LaneTotalSplit(s.lanes, d); EmptyLaneIsBusy(s, limit, d); }
      }
      assert s.lanes == map[];
    }
  }

  lemma EmptyLaneIsBusy(s: State, limit: nat, d: Destination)
    requires WellScheduled(s, limit) && s.sends == [] && s.delayed == []
    ensures d in s.lanes ==> s.lanes[d] != []
  {
    assert Busy(s) == [];
  }

  lemma NoLanes()
    ensures LaneTotal(map[]) == 0
  {
  }

  const DELIVERED := Outcome.Delivered("")

  /** A platform that answers, one call after the other, brings a closed dispatcher to its end. */
  lemma {:induction false} Drains(s: State, limit: nat)
    requires Inv(s, limit) && limit >= 1 && !s.incomingOpen && !Quiet(s)
    ensures CanLeave(s, limit)
    decreases Work(s)
  {
    hide Inv, Work, Scheduled, Iterate, Run, Legal, WellScheduled;
    var now := Latest(s.delayed);
    WorkIsInFlight(s, limit);
    var c := Choice(now, Completed(0, DELIVERED, now));
    IterateInv(s, now, limit, c.branch);
    IterateWork(s, now, limit, c.branch);
    IterateSettles(s, now, limit, c.branch);
    var t := Iterate(s, now, limit, c.branch);
    InvSchedules(t, limit);
    NotQuietWork(t, limit);
    if Quiet(t) {
      LastStep(s, limit, c);
    } else {
      Drains(t, limit);
      FirstStep(s, limit, c);
    }
  }

  lemma IterateSettles(s: State, now: nat, limit: nat, b: Branch)
    requires Enabled(Scheduled(s, now, limit), b) && b.Completed? && !b.outcome.RetryAfter?
    ensures Work(Iterate(s, now, limit, b)) < Work(s)
  {
    hide Work, Iterate, Scheduled;
    IterateWork(s, now, limit, b);
  }

  lemma LastStep(s: State, limit: nat, c: Choice)
    requires Enabled(Scheduled(s, c.now, limit), c.branch) && c.branch.Completed?
    requires Quiet(Iterate(s, c.now, limit, c.branch)) && !Iterate(s, c.now, limit, c.branch).incomingOpen
    ensures CanLeave(s, limit)
  {
    hide Scheduled, Iterate;
    assert [c][1..] == [];
    assert Legal(s, limit, [c]) && Run(s, limit, [c]) == Iterate(s, c.now, limit, c.branch);
    assert Leaves(s, limit, [c]);
  }

  lemma FirstStep(s: State, limit: nat, c: Choice)
    requires Enabled(Scheduled(s, c.now, limit), c.branch) && c.branch.Completed?
    requires CanLeave(Iterate(s, c.now, limit, c.branch), limit)
    ensures CanLeave(s, limit)
  {
    hide Scheduled, Iterate;
    var rest: seq<Choice> :| Leaves(Iterate(s, c.now, limit, c.branch), limit, rest);
    var all := [c] + rest;
    assert all[1..] == rest;
    assert Legal(s, limit, all) && Run(s, limit, all) == Run(Iterate(s, c.now, limit, c.branch), limit, rest);
    assert Leaves(s, limit, all);
  }

  // ---------------------------------------------------------------- every run

  /** After the queue is found closed the dispatcher can leave on its own exactly if something was
      outstanding then. If nothing was, it goes on, and its next iteration takes a branch of the shutdown
      channel and no other. */
  lemma ClosedLeavesExactly(limit: nat, choices: seq<Choice>)
    requires choices != [] && Legal(INITIAL, limit, choices) && choices[|choices| - 1].branch.Closed? && limit >= 1
    ensures var s := Run(INITIAL, limit, choices);
            && !Exits(s, choices[|choices| - 1].branch)
            && (CanLeave(s, limit) <==> !Quiet(s))
            && (Quiet(s) ==> forall c: Choice :: Enabled(Scheduled(s, c.now, limit), c.branch) <==> FromShutdownChannel(c.branch))
  {
    hide Inv, Scheduled, Iterate, Run, Legal;
    InitialInv(limit);
    RunInv(INITIAL, limit, choices);
    var s := Run(INITIAL, limit, choices);
    ClosedAtEnd(limit, choices);
    if Quiet(s) {
      forall c: Choice ensures Enabled(Scheduled(s, c.now, limit), c.branch) <==> FromShutdownChannel(c.branch) {
        QuietWaits(s, limit, c);
      }
      if CanLeave(s, limit) { QuietCannotLeave(s, limit); }
    } else {
      Drains(s, limit);
    }
  }

  lemma QuietCannotLeave(s: State, limit: nat)
    requires Inv(s, limit) && Quiet(s) && !s.incomingOpen
    ensures !CanLeave(s, limit)
  {
    hide Inv, Scheduled, Iterate;
    forall choices: seq<Choice> | choices != [] && Legal(s, limit, choices) ensures !Leaves(s, limit, choices) {
      QuietWaits(s, limit, choices[0]);
    }
  }

  lemma ClosedAtEnd(limit: nat, choices: seq<Choice>)
    requires choices != [] && Legal(INITIAL, limit, choices) && choices[|choices| - 1].branch.Closed?
    ensures !Run(INITIAL, limit, choices).incomingOpen
  {
    hide Scheduled, Iterate;
    ClosedAtEndOf(INITIAL, limit, choices);
  }

  lemma {:induction false} ClosedAtEndOf(s: State, limit: nat, choices: seq<Choice>)
    requires choices != [] && Legal(s, limit, choices) && choices[|choices| - 1].branch.Closed?
    ensures !Run(s, limit, choices).incomingOpen
    decreases |choices|
  {
    hide Scheduled, Iterate;
    var c := choices[0];
    IterateWork(s, c.now, limit, c.branch);
    if |choices| == 1 {
      assert choices[1..] == [];
    } else {
      ClosedAtEndOf(Iterate(s, c.now, limit, c.branch), limit, choices[1..]);
    }
  }

  /** Once the queue has been found closed, an iteration is the last one exactly if it was told to shut down
      or leaves nothing outstanding: the first that does either. */
  lemma LeavesAtFirstQuiet(s: State, limit: nat, c: Choice)
    requires !s.incomingOpen && Enabled(Scheduled(s, c.now, limit), c.branch)
    ensures var t := Iterate(s, c.now, limit, c.branch);
            && !t.incomingOpen
            && (Exits(t, c.branch) <==> c.branch.Shutdown? || Quiet(t))
  {
    hide Scheduled, Iterate, Work;
    IterateWork(s, c.now, limit, c.branch);
    ScheduledClosed(s, c.now, limit);
  }

  lemma ScheduledClosed(s: State, now: nat, limit: nat)
    ensures Scheduled(s, now, limit).incomingOpen == s.incomingOpen
  {
    WakeDueWork(s, 0, now);
    LaunchAllWork(WakeDue(s, 0, now), limit);
  }
}
