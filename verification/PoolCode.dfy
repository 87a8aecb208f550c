/** The pool's own code over its mutable table, proved to decide as `PoolTable` says. */
module PoolCode {
  import opened Wrappers
  import opened PoolTable
  import opened PoolDecisions

  method RetainAccepting(workers: seq<Generation>, accepting: map<Generation, bool>) returns (live: seq<Generation>)
    ensures live == Live(workers, accepting)
  {
    live := [];
    for i := 0 to |workers|
      invariant live == Live(workers[..i], accepting)
    {
      assert workers[..i + 1][..i] == workers[..i];
      if workers[i] in accepting && accepting[workers[i]] { live := live + [workers[i]]; }
    }
    assert workers[..|workers|] == workers;
  }

  method RetainOthers(workers: seq<Generation>, g: Generation) returns (rest: seq<Generation>)
    ensures rest == Others(workers, g)
  {
    rest := [];
    for i := 0 to |workers|
      invariant rest == Others(workers[..i], g)
    {
      assert workers[..i + 1][..i] == workers[..i];
      if workers[i] != g { rest := rest + [workers[i]]; }
    }
    assert workers[..|workers|] == workers;
  }

  method MinByPending(workers: seq<Generation>, loads: map<Generation, nat>) returns (best: Generation)
    requires workers != []
    ensures best == LeastLoaded(workers, loads)
  {
    best := workers[0];
    assert workers[..1] == [workers[0]];
    for i := 1 to |workers|
      invariant best == LeastLoaded(workers[..i], loads)
    {
      assert workers[..i + 1][..i] == workers[..i];
      if Load(loads, workers[i]) < Load(loads, best) { best := workers[i]; }
    }
    assert workers[..|workers|] == workers;
  }

  method FindIdleWorker(groups: map<Fingerprint, Group>, order: seq<Fingerprint>, loads: map<Generation, nat>)
    returns (idle: Option<(Fingerprint, Generation)>)
    ensures idle == FindIdle(groups, order, loads)
  {
    for i := 0 to |order|
      invariant FindIdle(groups, order, loads) == FindIdle(groups, order[i..], loads)
    {
      assert order[i..][0] == order[i] && order[i..][1..] == order[i + 1..];
      if order[i] in groups {
        var workers := groups[order[i]].workers;
        for j := 0 to |workers|
          invariant FirstIdle(workers, loads) == FirstIdle(workers[j..], loads)
        {
          assert workers[j..][0] == workers[j] && workers[j..][1..] == workers[j + 1..];
          if Load(loads, workers[j]) == 0 { return Some((order[i], workers[j])); }
        }
      }
    }
    idle := None;
  }

  method CountProcesses(groups: map<Fingerprint, Group>) returns (count: nat)
    ensures count == Total(groups)
  {
    count := 0;
    var rest := groups;
    while rest != map[]
      invariant count + Total(rest) == Total(groups)
      decreases |rest|
    {
      var fp :| fp in rest;
      TotalSplit(rest, fp);
      count := count + |rest[fp].workers|;
      rest := rest - {fp};
    }
  }

  class AcpRuntimePool {
    var groups: map<Fingerprint, Group>
    var nextGeneration: nat
    const limits: Limits

    ghost function View(): Table
      reads this
    {
      Table(groups, nextGeneration)
    }

    constructor (perFingerprint: nat, total: nat)
      ensures View() == INITIAL && limits == WithLimits(perFingerprint, total)
      ensures Bounded(View(), limits)
    {
      groups := map[];
      nextGeneration := 1;
      limits := WithLimits(perFingerprint, total);
    }

    constructor Default()
      ensures View() == INITIAL && limits == Limits(4, 8)
      ensures Bounded(View(), limits)
    {
      groups := map[];
      nextGeneration := 1;
      limits := WithLimits(MAX_PER_FINGERPRINT, MAX_TOTAL);
    }

    /** Drops the workers that no longer accept, the bindings to them and the groups left empty. */
    method RetainLive(accepting: map<Generation, bool>)
      modifies `groups
      ensures groups == Prune(old(groups), accepting)
    {
      hide Live;
      var left := groups.Keys;
      var kept: map<Fingerprint, Group> := map[];
      while left != {}
        invariant left <= groups.Keys && groups == old(groups)
        invariant kept == map fp | fp in Prune(groups, accepting) && fp !in left :: Prune(groups, accepting)[fp]
      {
        var fp :| fp in left;
        var live := RetainAccepting(groups[fp].workers, accepting);
        var bindings := map key | key in groups[fp].bindings && groups[fp].bindings[key] in live :: groups[fp].bindings[key];
        if live != [] { kept := kept[fp := Group(live, bindings)]; }
        left := left - {fp};
      }
      groups := kept;
    }

    method BindSession(fp: Fingerprint, key: SessionKey, g: Generation)
      requires fp in groups
      modifies `groups
      ensures groups == Bind(old(groups), fp, key, g)
    {
      groups := groups[fp := groups[fp].(bindings := groups[fp].bindings[key := g])];
    }

    /** A worker leaves the table, evicted or at the end of its thread. */
    method RemoveWorker(fp: Fingerprint, g: Generation)
      modifies `groups
      ensures View() == Exit(old(View()), fp, g)
    {
      if fp in groups {
        var workers := RetainOthers(groups[fp].workers, g);
        var bindings := map key | key in groups[fp].bindings && groups[fp].bindings[key] != g :: groups[fp].bindings[key];
        if workers == [] {
          groups := groups - {fp};
        } else {
          groups := groups[fp := Group(workers, bindings)];
        }
      }
    }

    method StartWorker(fp: Fingerprint, key: SessionKey, starts: bool) returns (decision: Decision)
      modifies this
      ensures (decision, View()) == Spawn(old(View()), old(groups), fp, key, starts)
    {
      var g := nextGeneration;
      nextGeneration := (nextGeneration + 1) % U64;
      if !starts { return StartFailed; }
      var group := if fp in groups then groups[fp] else Group([], map[]);
      group := group.(workers := group.workers + [g]);
      group := group.(bindings := group.bindings[key := g]);
      groups := groups[fp := group];
      decision := Started(g);
    }

    method AtLimit(fp: Fingerprint, key: SessionKey, seen: Seen) returns (decision: Decision)
      modifies `groups
      ensures (decision, View()) == AtCapacity(old(View()), old(groups), fp, key, seen)
    {
      var idle := FindIdleWorker(groups, seen.order, seen.idle);
      if idle.Some? {
        RemoveWorker(idle.value.0, idle.value.1);
        decision := Evicted(idle.value.0, idle.value.1);
      } else if fp in groups && groups[fp].workers != [] {
        var g := MinByPending(groups[fp].workers, seen.again);
        BindSession(fp, key, g);
        decision := Found(g);
      } else {
        decision := Full;
      }
    }

    method TryWorker(fp: Fingerprint, key: SessionKey, seen: Seen, starts: bool) returns (decision: Decision)
      modifies this
      ensures (decision, View()) == PoolTable.TryWorker(old(View()), limits, fp, key, seen, starts)
      ensures old(Bounded(View(), limits)) && old(nextGeneration) + 1 < U64 ==> Bounded(View(), limits)
    {
      hide Prune, LeastLoaded, Total, FindIdle, Without, Bounded;
      ghost var was := View();
      RetainLive(seen.accepting);
      ghost var live := groups;
      if old(Bounded(View(), limits)) && old(nextGeneration) + 1 < U64 {
        TryWorkerKeeps(was, limits, fp, key, seen, starts);
      }
      if fp in groups {
        if key in groups[fp].bindings && groups[fp].bindings[key] in groups[fp].workers {
          return Found(groups[fp].bindings[key]);
        }
        groups := groups[fp := groups[fp].(bindings := groups[fp].bindings - {key})];
        if groups[fp].workers != [] {
          var g := MinByPending(groups[fp].workers, seen.load);
          if Load(seen.confirm, g) == 0 || |groups[fp].workers| >= limits.perFingerprint {
            BindSession(fp, key, g);
            return Found(g);
          }
        }
      }
      assert groups == Unbind(live, fp, key) && !Bound(live, fp, key) && !Shares(groups, limits, fp, seen);
      var count := CountProcesses(groups);
      if count >= limits.total {
        decision := AtLimit(fp, key, seen);
      } else {
        decision := StartWorker(fp, key, starts);
      }
    }
  }
}
