/** What one request to the pool is promised, whatever its separate reads of the workers returned. */
module PoolDecisions {
  import opened Wrappers
  import opened PoolTable

  predicate BoundTo(groups: map<Fingerprint, Group>, fp: Fingerprint, key: SessionKey, g: Generation) {
    fp in groups && key in groups[fp].bindings && groups[fp].bindings[key] == g
  }

  lemma PruneMembers(groups: map<Fingerprint, Group>, accepting: map<Generation, bool>, fp: Fingerprint, g: Generation)
    ensures Member(Prune(groups, accepting), fp, g) <==> Member(groups, fp, g) && Accepts(accepting, g)
  {
    if fp in groups { LiveMeans(groups[fp].workers, accepting); }
  }

  lemma PruneBindings(groups: map<Fingerprint, Group>, accepting: map<Generation, bool>, fp: Fingerprint, key: SessionKey, g: Generation)
    requires Member(groups, fp, g)
    ensures BoundTo(Prune(groups, accepting), fp, key, g) <==> BoundTo(groups, fp, key, g) && Accepts(accepting, g)
  {
    hide Live;
    LiveMeans(groups[fp].workers, accepting);
  }

  lemma WithoutMembers(groups: map<Fingerprint, Group>, f: Fingerprint, victim: Generation, fp: Fingerprint, g: Generation)
    ensures Member(Without(groups, f, victim), fp, g) <==> Member(groups, fp, g) && !(fp == f && g == victim)
  {
    hide Others;
    if f in groups { OthersMeans(groups[f].workers, victim); }
  }

  /** The groups a decision is taken about. */
  function Considered(t: Table, fp: Fingerprint, key: SessionKey, seen: Seen): map<Fingerprint, Group> {
    Unbind(Prune(t.groups, seen.accepting), fp, key)
  }

  lemma ConsideredMembers(t: Table, fp: Fingerprint, key: SessionKey, seen: Seen, f: Fingerprint, g: Generation)
    ensures Member(Considered(t, fp, key, seen), f, g) <==> Member(t.groups, f, g) && Accepts(seen.accepting, g)
  {
    hide Prune;
    PruneMembers(t.groups, seen.accepting, f, g);
  }

  lemma ConsideredNonEmpty(t: Table, fp: Fingerprint, key: SessionKey, seen: Seen, f: Fingerprint)
    ensures f in Considered(t, fp, key, seen) ==> Considered(t, fp, key, seen)[f].workers != []
  {
  }

  /** A Session whose worker still accepts gets that worker. */
  lemma LiveBindingHonoured(t: Table, limits: Limits, fp: Fingerprint, key: SessionKey, seen: Seen, starts: bool)
    requires Bounded(t, limits)
    requires fp in t.groups && key in t.groups[fp].bindings && Accepts(seen.accepting, t.groups[fp].bindings[key])
    ensures TryWorker(t, limits, fp, key, seen, starts).0 == Found(t.groups[fp].bindings[key])
  {
    hide Total, Prune, Live, Disjoint;
    var g := t.groups[fp].bindings[key];
    assert GoodGroup(t.groups[fp], limits.perFingerprint, t.nextGeneration);
    PruneMembers(t.groups, seen.accepting, fp, g);
    PruneBindings(t.groups, seen.accepting, fp, key, g);
  }

  /** The worker handed out belongs to the requested fingerprint and the Session is now bound to it; it
      was accepting when looked at, or has just been started under a generation used for the first time. */
  lemma ReturnedBelongs(t: Table, limits: Limits, fp: Fingerprint, key: SessionKey, seen: Seen, starts: bool, g: Generation)
    requires TryWorker(t, limits, fp, key, seen, starts).0 in {Found(g), Started(g)}
    ensures var (decision, after) := TryWorker(t, limits, fp, key, seen, starts);
            && Member(after.groups, fp, g) && BoundTo(after.groups, fp, key, g)
            && (decision == Found(g) ==> Member(t.groups, fp, g) && Accepts(seen.accepting, g))
            && (decision == Started(g) ==> g == t.nextGeneration)
  {
    hide Total, Prune, LeastLoaded, FindIdle, Without;
    var live := Prune(t.groups, seen.accepting);
    PruneMembers(t.groups, seen.accepting, fp, g);
    var unbound := Unbind(live, fp, key);
    if !Bound(live, fp, key) && fp in unbound && unbound[fp].workers != [] {
      LeastLoadedMeans(unbound[fp].workers, seen.load);
      LeastLoadedMeans(unbound[fp].workers, seen.again);
    }
  }

  /** A call removes the workers that had stopped accepting and the evicted one, adds the started one,
      and touches no other worker. */
  lemma MembersAfter(t: Table, limits: Limits, fp: Fingerprint, key: SessionKey, seen: Seen, starts: bool, f: Fingerprint, g: Generation)
    ensures var (decision, after) := TryWorker(t, limits, fp, key, seen, starts);
            Member(after.groups, f, g) <==>
              || (Member(t.groups, f, g) && Accepts(seen.accepting, g) && decision != Evicted(f, g))
              || (decision == Started(g) && f == fp)
  {
    hide Total, Prune, LeastLoaded, FindIdle, Without, Bound;
    var live := Prune(t.groups, seen.accepting);
    PruneMembers(t.groups, seen.accepting, f, g);
    var unbound := Unbind(live, fp, key);
    assert Member(unbound, f, g) <==> Member(live, f, g);
    var idle := FindIdle(unbound, seen.order, seen.idle);
    if Bound(live, fp, key) {
    } else if Shares(unbound, limits, fp, seen) {
    } else if Total(unbound) >= limits.total {
      if idle.Some? {
        WithoutMembers(unbound, idle.value.0, idle.value.1, f, g);
        FindIdleMeans(unbound, seen.order, seen.idle);
      }
    } else {
      var (_, after) := Spawn(t, unbound, fp, key, starts);
      assert starts && f == fp && f in unbound ==> after.groups[fp].workers == unbound[fp].workers + [t.nextGeneration];
    }
  }

  /** No call disturbs another Session's binding to a worker that stays. */
  lemma OtherBindingsKept(t: Table, limits: Limits, fp: Fingerprint, key: SessionKey, seen: Seen, starts: bool,
                          f: Fingerprint, other: SessionKey, g: Generation)
    requires Member(t.groups, f, g) && Accepts(seen.accepting, g) && (f, other) != (fp, key)
    ensures var (decision, after) := TryWorker(t, limits, fp, key, seen, starts);
            decision != Evicted(f, g) ==> (BoundTo(after.groups, f, other, g) <==> BoundTo(t.groups, f, other, g))
  {
    hide Total, Prune, LeastLoaded, FindIdle, Bound, Shares, Others;
    var live := Prune(t.groups, seen.accepting);
    PruneMembers(t.groups, seen.accepting, f, g);
    PruneBindings(t.groups, seen.accepting, f, other, g);
    var unbound := Unbind(live, fp, key);
    var idle := FindIdle(unbound, seen.order, seen.idle);
    if idle.Some? && idle.value.0 in unbound {
      OthersMeans(unbound[idle.value.0].workers, idle.value.1);
    }
  }

  /** What a call that hands out nothing has seen: the table is full, and either the victim looked idle
      and accepting, or every accepting worker looked busy and none has the requested fingerprint. */
  lemma WaitingMeans(t: Table, limits: Limits, fp: Fingerprint, key: SessionKey, seen: Seen, starts: bool)
    requires limits.total >= 1
    requires forall f :: f in t.groups ==> f in seen.order
    ensures var decision := TryWorker(t, limits, fp, key, seen, starts).0;
            && (decision.Evicted? ==>
                  && Member(t.groups, decision.fingerprint, decision.worker)
                  && Accepts(seen.accepting, decision.worker) && Load(seen.idle, decision.worker) == 0)
            && (decision.Full? ==>
                  && (forall f, g :: Member(t.groups, f, g) && Accepts(seen.accepting, g) ==> Load(seen.idle, g) > 0 && f != fp)
                  && (exists f, g :: Member(t.groups, f, g) && Accepts(seen.accepting, g)))
  {
    hide Prune, LeastLoaded, FindIdle, Without, Bound, Total, Unbind;
    var unbound := Considered(t, fp, key, seen);
    var (decision, _) := TryWorker(t, limits, fp, key, seen, starts);
    if decision.Evicted? {
      FindIdleMeans(unbound, seen.order, seen.idle);
      ConsideredMembers(t, fp, key, seen, decision.fingerprint, decision.worker);
    } else if decision.Full? {
      FindIdleMeans(unbound, seen.order, seen.idle);
      forall f, g | Member(t.groups, f, g) && Accepts(seen.accepting, g) ensures Load(seen.idle, g) > 0 && f != fp {
        ConsideredMembers(t, fp, key, seen, f, g);
      }
      SomeMember(unbound);
      var f :| f in unbound && unbound[f].workers != [];
      ConsideredMembers(t, fp, key, seen, f, unbound[f].workers[0]);
    }
  }

  lemma SomeMember(groups: map<Fingerprint, Group>)
    requires Total(groups) > 0
    ensures exists f :: f in groups && groups[f].workers != []
  {
  }

  // ---------------------------------------------------------------- a call whose reads agree

  /** Every read of a worker returned the same load, as when nothing else runs during the call. */
  predicate Agree(seen: Seen) {
    seen.confirm == seen.load && seen.idle == seen.load && seen.again == seen.load
  }

  predicate IdleIn(groups: map<Fingerprint, Group>, seen: Seen, fp: Fingerprint, g: Generation) {
    Member(groups, fp, g) && Accepts(seen.accepting, g) && Load(seen.load, g) == 0
  }

  /** Taken as one step, a call that hands out nothing had no choice: the Session was not bound to an
      accepting worker, its fingerprint had no idle one, and the table was full; it then evicts, if at
      all, an idle worker of another fingerprint. */
  lemma EvictsOnlyIdleOthers(t: Table, limits: Limits, fp: Fingerprint, key: SessionKey, seen: Seen, starts: bool)
    requires Agree(seen)
    ensures var decision := TryWorker(t, limits, fp, key, seen, starts).0;
            decision.Evicted? ==>
              && decision.fingerprint != fp && IdleIn(t.groups, seen, decision.fingerprint, decision.worker)
              && forall g :: !IdleIn(t.groups, seen, fp, g)
  {
    hide Prune, LeastLoaded, FindIdle, Without, Bound, Total, Unbind;
    var unbound := Considered(t, fp, key, seen);
    var (decision, _) := TryWorker(t, limits, fp, key, seen, starts);
    if decision.Evicted? {
      FindIdleMeans(unbound, seen.order, seen.idle);
      ConsideredMembers(t, fp, key, seen, decision.fingerprint, decision.worker);
      if fp in unbound {
        ConsideredNonEmpty(t, fp, key, seen, fp);
        LeastLoadedMeans(unbound[fp].workers, seen.load);
      }
      forall g ensures !IdleIn(t.groups, seen, fp, g) {
        ConsideredMembers(t, fp, key, seen, fp, g);
      }
    }
  }

  /** A new process is started only below the global limit and when the fingerprint has fewer than its
      own limit of accepting workers, all of them busy. */
  lemma StartsOnlyWhenBusy(t: Table, limits: Limits, fp: Fingerprint, key: SessionKey, seen: Seen, starts: bool)
    requires Agree(seen)
    ensures var decision := TryWorker(t, limits, fp, key, seen, starts).0;
            decision.Started? || decision.StartFailed? ==>
              && Total(Considered(t, fp, key, seen)) < limits.total
              && forall g :: !IdleIn(t.groups, seen, fp, g)
  {
    hide Prune, LeastLoaded, FindIdle, Without, Bound, Total, Unbind;
    var unbound := Considered(t, fp, key, seen);
    if fp in unbound {
      ConsideredNonEmpty(t, fp, key, seen, fp);
      LeastLoadedMeans(unbound[fp].workers, seen.load);
    }
    forall g ensures Member(unbound, fp, g) <==> Member(t.groups, fp, g) && Accepts(seen.accepting, g) {
      ConsideredMembers(t, fp, key, seen, fp, g);
    }
  }

  // ---------------------------------------------------------------- a call whose reads disagree

  predicate EvictsOwn(decision: Decision, fp: Fingerprint) {
    decision.Evicted? && decision.fingerprint == fp
  }

  lemma BoundMeans(t: Table, limits: Limits, fp: Fingerprint, key: SessionKey, accepting: map<Generation, bool>)
    requires Bounded(t, limits)
    ensures Bound(Prune(t.groups, accepting), fp, key) <==>
              fp in t.groups && key in t.groups[fp].bindings && Accepts(accepting, t.groups[fp].bindings[key])
  {
    hide Total, Live, Disjoint, Prune, Distinct;
    if fp in t.groups {
      assert GoodGroup(t.groups[fp], limits.perFingerprint, t.nextGeneration);
      forall g | g in t.groups[fp].workers
        ensures BoundTo(Prune(t.groups, accepting), fp, key, g) <==> BoundTo(t.groups, fp, key, g) && Accepts(accepting, g)
        ensures Member(Prune(t.groups, accepting), fp, g) <==> Accepts(accepting, g)
      {
        PruneMembers(t.groups, accepting, fp, g);
        PruneBindings(t.groups, accepting, fp, key, g);
      }
    }
    if Bound(Prune(t.groups, accepting), fp, key) {
      PruneMembers(t.groups, accepting, fp, Prune(t.groups, accepting)[fp].bindings[key]);
    }
  }

  /** Exactly when a call evicts a worker of its own fingerprint: the Session has no accepting worker, the
      fingerprint has accepting workers but fewer than it may, the least loaded of them looked busy at the
      second look, the table is full, and the scan for an idle worker meets one of this fingerprint first. */
  lemma EvictsOwnExactly(t: Table, limits: Limits, fp: Fingerprint, key: SessionKey, seen: Seen, starts: bool)
    requires Bounded(t, limits)
    ensures var groups := Considered(t, fp, key, seen);
            var idle := FindIdle(groups, seen.order, seen.idle);
            EvictsOwn(TryWorker(t, limits, fp, key, seen, starts).0, fp) <==>
              && !(fp in t.groups && key in t.groups[fp].bindings && Accepts(seen.accepting, t.groups[fp].bindings[key]))
              && fp in groups && groups[fp].workers != [] && |groups[fp].workers| < limits.perFingerprint
              && Load(seen.confirm, LeastLoaded(groups[fp].workers, seen.load)) > 0
              && Total(groups) >= limits.total
              && idle.Some? && idle.value.0 == fp
  {
    hide Prune, LeastLoaded, FindIdle, Without, Bound, Total, Unbind, Bounded;
    BoundMeans(t, limits, fp, key, seen.accepting);
    FindIdleMeans(Considered(t, fp, key, seen), seen.order, seen.idle);
  }

  /** With one process for a fingerprint no table and no reads ever lead to it. */
  lemma NoRoomNoOwnEviction(t: Table, limits: Limits, fp: Fingerprint, key: SessionKey, seen: Seen, starts: bool)
    requires limits.perFingerprint <= 1
    ensures !EvictsOwn(TryWorker(t, limits, fp, key, seen, starts).0, fp)
  {
    hide Prune, LeastLoaded, FindIdle, Without, Bound, Total, Unbind;
    var groups := Considered(t, fp, key, seen);
    FindIdleMeans(groups, seen.order, seen.idle);
    assert fp in groups && groups[fp].workers != [] ==> Shares(groups, limits, fp, seen);
  }
}
