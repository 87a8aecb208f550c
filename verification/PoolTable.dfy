/** The table of warm ACP processes: worker groups by launch fingerprint and the Sessions bound to them.

    A worker's acceptance flag and its load belong to other threads and may change between two reads,
    so `Seen` holds what each separate read of one call returned; nothing relates the reads. */
module PoolTable {
  import opened Wrappers

  datatype Fingerprint = Fingerprint(command: seq<string>, environment: seq<(string, string)>, cwd: string, timeout: nat)

  type Generation = nat
  type SessionKey = string

  datatype Group = Group(workers: seq<Generation>, bindings: map<SessionKey, Generation>)

  datatype Table = Table(groups: map<Fingerprint, Group>, nextGeneration: nat)

  datatype Limits = Limits(perFingerprint: nat, total: nat)

  /** One entry for each place that reads a worker: the pruning pass, the least-loaded scan and its
      second look at the winner, the scan for an idle worker and the last least-loaded scan. `order` is
      the order in which the hash map yields its groups. */
  datatype Seen = Seen(
    accepting: map<Generation, bool>,
    load: map<Generation, nat>,
    confirm: map<Generation, nat>,
    idle: map<Generation, nat>,
    again: map<Generation, nat>,
    order: seq<Fingerprint>)

  datatype Decision =
    | Found(worker: Generation)
    | Started(worker: Generation)
    | StartFailed
    | Evicted(fingerprint: Fingerprint, worker: Generation)
    | Full

  const MAX_PER_FINGERPRINT: nat := 4
  const MAX_TOTAL: nat := 8
  const U64: nat := 0x1_0000_0000_0000_0000

  const INITIAL := Table(map[], 1)

  /** The constructor raises both limits to at least one. */
  function WithLimits(perFingerprint: nat, total: nat): Limits {
    Limits(if perFingerprint == 0 then 1 else perFingerprint, if total == 0 then 1 else total)
  }

  function Load(loads: map<Generation, nat>, g: Generation): nat {
    if g in loads then loads[g] else 0
  }

  predicate Accepts(accepting: map<Generation, bool>, g: Generation) {
    g in accepting && accepting[g]
  }

  function Live(workers: seq<Generation>, accepting: map<Generation, bool>): seq<Generation> {
    if workers == [] then []
    else
      var rest := Live(workers[..|workers| - 1], accepting);
      var last := workers[|workers| - 1];
      if Accepts(accepting, last) then rest + [last] else rest
  }

  function LiveGroup(group: Group, accepting: map<Generation, bool>): Group {
    var live := Live(group.workers, accepting);
    Group(live, map key | key in group.bindings && group.bindings[key] in live :: group.bindings[key])
  }

  function Prune(groups: map<Fingerprint, Group>, accepting: map<Generation, bool>): map<Fingerprint, Group> {
    map fp | fp in groups && LiveGroup(groups[fp], accepting).workers != [] :: LiveGroup(groups[fp], accepting)
  }

  /** The first worker with the smallest load. */
  function LeastLoaded(workers: seq<Generation>, loads: map<Generation, nat>): Generation
    requires workers != []
  {
    var last := workers[|workers| - 1];
    if |workers| == 1 then last
    else
      var best := LeastLoaded(workers[..|workers| - 1], loads);
      if Load(loads, last) < Load(loads, best) then last else best
  }

  function FirstIdle(workers: seq<Generation>, loads: map<Generation, nat>): Option<Generation> {
    if workers == [] then None
    else if Load(loads, workers[0]) == 0 then Some(workers[0])
    else FirstIdle(workers[1..], loads)
  }

  function FindIdle(groups: map<Fingerprint, Group>, order: seq<Fingerprint>, loads: map<Generation, nat>)
    : Option<(Fingerprint, Generation)>
  {
    if order == [] then None
    else if order[0] in groups && FirstIdle(groups[order[0]].workers, loads).Some? then
      Some((order[0], FirstIdle(groups[order[0]].workers, loads).value))
    else FindIdle(groups, order[1..], loads)
  }

  ghost function Total(groups: map<Fingerprint, Group>): nat
    decreases |groups|
  {
    if groups == map[] then 0
    else
      var fp :| fp in groups;
      |groups[fp].workers| + Total(groups - {fp})
  }

  predicate Member(groups: map<Fingerprint, Group>, fp: Fingerprint, g: Generation) {
    fp in groups && g in groups[fp].workers
  }

  function Bind(groups: map<Fingerprint, Group>, fp: Fingerprint, key: SessionKey, g: Generation): map<Fingerprint, Group>
    requires fp in groups
  {
    groups[fp := groups[fp].(bindings := groups[fp].bindings[key := g])]
  }

  function Others(workers: seq<Generation>, g: Generation): seq<Generation> {
    if workers == [] then []
    else
      var rest := Others(workers[..|workers| - 1], g);
      var last := workers[|workers| - 1];
      if last != g then rest + [last] else rest
  }

  /** A worker leaves: its bindings go with it, and its group when it was the last one. */
  function Without(groups: map<Fingerprint, Group>, fp: Fingerprint, g: Generation): map<Fingerprint, Group> {
    if fp !in groups then groups
    else
      var workers := Others(groups[fp].workers, g);
      var bindings := map key | key in groups[fp].bindings && groups[fp].bindings[key] != g :: groups[fp].bindings[key];
      if workers == [] then groups - {fp} else groups[fp := Group(workers, bindings)]
  }

  function Exit(t: Table, fp: Fingerprint, g: Generation): Table {
    t.(groups := Without(t.groups, fp, g))
  }

  function Unbind(groups: map<Fingerprint, Group>, fp: Fingerprint, key: SessionKey): map<Fingerprint, Group> {
    if fp in groups then groups[fp := groups[fp].(bindings := groups[fp].bindings - {key})] else groups
  }

  predicate Bound(groups: map<Fingerprint, Group>, fp: Fingerprint, key: SessionKey) {
    fp in groups && key in groups[fp].bindings && groups[fp].bindings[key] in groups[fp].workers
  }

  /** A worker of the group that takes this Session at once: it looked idle, or the group may not grow. */
  predicate Shares(groups: map<Fingerprint, Group>, limits: Limits, fp: Fingerprint, seen: Seen) {
    && fp in groups && groups[fp].workers != []
    && (Load(seen.confirm, LeastLoaded(groups[fp].workers, seen.load)) == 0
        || |groups[fp].workers| >= limits.perFingerprint)
  }

  /** The branch at the global limit: an idle worker makes room, otherwise a compatible busy one queues. */
  function AtCapacity(t: Table, live: map<Fingerprint, Group>, fp: Fingerprint, key: SessionKey, seen: Seen)
    : (Decision, Table)
  {
    var idle := FindIdle(live, seen.order, seen.idle);
    if idle.Some? then
      (Evicted(idle.value.0, idle.value.1), t.(groups := Without(live, idle.value.0, idle.value.1)))
    else if fp in live && live[fp].workers != [] then
      var g := LeastLoaded(live[fp].workers, seen.again);
      (Found(g), t.(groups := Bind(live, fp, key, g)))
    else (Full, t.(groups := live))
  }

  /** A new worker is published with its Session bound; a failed start only uses up its generation. */
  function Spawn(t: Table, live: map<Fingerprint, Group>, fp: Fingerprint, key: SessionKey, starts: bool)
    : (Decision, Table)
  {
    var next := (t.nextGeneration + 1) % U64;
    if !starts then (StartFailed, Table(live, next))
    else
      var group := if fp in live then live[fp] else Group([], map[]);
      var grown := Group(group.workers + [t.nextGeneration], group.bindings[key := t.nextGeneration]);
      (Started(t.nextGeneration), Table(live[fp := grown], next))
  }

  ghost function TryWorker(t: Table, limits: Limits, fp: Fingerprint, key: SessionKey, seen: Seen, starts: bool)
    : (Decision, Table)
  {
    var live := Prune(t.groups, seen.accepting);
    if Bound(live, fp, key) then (Found(live[fp].bindings[key]), t.(groups := live))
    else
      var unbound := Unbind(live, fp, key);
      if Shares(unbound, limits, fp, seen) then
        var g := LeastLoaded(unbound[fp].workers, seen.load);
        (Found(g), t.(groups := Bind(unbound, fp, key, g)))
      else if Total(unbound) >= limits.total then AtCapacity(t, unbound, fp, key, seen)
      else Spawn(t, unbound, fp, key, starts)
  }

  // ---------------------------------------------------------------- what the table keeps

  predicate Distinct(q: seq<Generation>) {
    forall i, j :: 0 <= i < j < |q| ==> q[i] != q[j]
  }

  predicate GoodGroup(group: Group, perFingerprint: nat, next: nat) {
    && 1 <= |group.workers| <= perFingerprint
    && Distinct(group.workers)
    && (forall g :: g in group.workers ==> 1 <= g < next)
    && (forall key :: key in group.bindings ==> group.bindings[key] in group.workers)
  }

  predicate Groups(groups: map<Fingerprint, Group>, perFingerprint: nat, next: nat) {
    forall fp :: fp in groups ==> GoodGroup(groups[fp], perFingerprint, next)
  }

  predicate Disjoint(groups: map<Fingerprint, Group>) {
    forall f, h, g: Generation ::
      f in groups && h in groups && g in groups[f].workers && g in groups[h].workers ==> f == h
  }

  /** Both bounds, unique generations, and bindings that name a worker of their own group. */
  ghost predicate Bounded(t: Table, limits: Limits) {
    && limits.perFingerprint >= 1 && limits.total >= 1
    && t.nextGeneration >= 1
    && Groups(t.groups, limits.perFingerprint, t.nextGeneration)
    && Disjoint(t.groups)
    && Total(t.groups) <= limits.total
  }

  /** `to` keeps nothing but workers that `from` has, in the same group. */
  predicate Shrinks(from: map<Fingerprint, Group>, to: map<Fingerprint, Group>) {
    forall fp :: fp in to ==>
      && fp in from
      && |to[fp].workers| <= |from[fp].workers|
      && forall g :: g in to[fp].workers ==> g in from[fp].workers
  }

  lemma {:induction false} TotalSplit(groups: map<Fingerprint, Group>, fp: Fingerprint)
    requires fp in groups
    ensures Total(groups) == |groups[fp].workers| + Total(groups - {fp})
    decreases |groups|
  {
    var first :| first in groups && Total(groups) == |groups[first].workers| + Total(groups - {first});
    if first != fp {
      TotalSplit(groups - {first}, fp);
      TotalSplit(groups - {fp}, first);
      assert groups - {first} - {fp} == groups - {fp} - {first};
    }
  }

  lemma {:induction false} TotalShrinks(from: map<Fingerprint, Group>, to: map<Fingerprint, Group>)
    requires Shrinks(from, to)
    ensures Total(to) <= Total(from)
    decreases |from|
  {
    if from != map[] {
      var fp :| fp in from;
      TotalSplit(from, fp);
      TotalShrinks(from - {fp}, to - {fp});
      if fp in to {
        TotalSplit(to, fp);
      } else {
        assert to - {fp} == to;
      }
    } else {
      assert to == map[];
    }
  }

  lemma {:induction false} LiveMeans(workers: seq<Generation>, accepting: map<Generation, bool>)
    ensures |Live(workers, accepting)| <= |workers|
    ensures forall g :: g in Live(workers, accepting) <==> g in workers && Accepts(accepting, g)
    ensures Distinct(workers) ==> Distinct(Live(workers, accepting))
  {
    if workers != [] {
      LiveMeans(workers[..|workers| - 1], accepting);
      assert workers == workers[..|workers| - 1] + [workers[|workers| - 1]];
    }
  }

  lemma {:induction false} OthersMeans(workers: seq<Generation>, g: Generation)
    ensures |Others(workers, g)| <= |workers|
    ensures forall h :: h in Others(workers, g) <==> h in workers && h != g
    ensures Distinct(workers) ==> Distinct(Others(workers, g))
  {
    if workers != [] {
      var rest := workers[..|workers| - 1];
      OthersMeans(rest, g);
      assert workers == rest + [workers[|workers| - 1]];
      assert Distinct(workers) ==> Distinct(rest) && workers[|workers| - 1] !in rest;
    }
  }

  lemma {:induction false} LeastLoadedMeans(workers: seq<Generation>, loads: map<Generation, nat>)
    requires workers != []
    ensures LeastLoaded(workers, loads) in workers
    ensures forall g :: g in workers ==> Load(loads, LeastLoaded(workers, loads)) <= Load(loads, g)
  {
    if |workers| > 1 {
      LeastLoadedMeans(workers[..|workers| - 1], loads);
      assert workers == workers[..|workers| - 1] + [workers[|workers| - 1]];
    }
  }

  lemma {:induction false} FirstIdleMeans(workers: seq<Generation>, loads: map<Generation, nat>)
    ensures FirstIdle(workers, loads).Some? ==>
      FirstIdle(workers, loads).value in workers && Load(loads, FirstIdle(workers, loads).value) == 0
    ensures FirstIdle(workers, loads).None? ==> forall g :: g in workers ==> Load(loads, g) > 0
  {
    if workers != [] && Load(loads, workers[0]) != 0 {
      FirstIdleMeans(workers[1..], loads);
    }
  }

  lemma {:induction false} FindIdleMeans(groups: map<Fingerprint, Group>, order: seq<Fingerprint>, loads: map<Generation, nat>)
    ensures var r := FindIdle(groups, order, loads);
            && (r.Some? ==> r.value.0 in groups && r.value.1 in groups[r.value.0].workers && Load(loads, r.value.1) == 0)
            && (r.None? ==> forall fp, g :: fp in order && fp in groups && g in groups[fp].workers ==> Load(loads, g) > 0)
  {
    if order != [] {
      if order[0] in groups { FirstIdleMeans(groups[order[0]].workers, loads); }
      FindIdleMeans(groups, order[1..], loads);
      assert order == [order[0]] + order[1..];
    }
  }

  lemma PruneKeeps(groups: map<Fingerprint, Group>, accepting: map<Generation, bool>, perFingerprint: nat, next: nat)
    requires Groups(groups, perFingerprint, next) && Disjoint(groups)
    ensures Groups(Prune(groups, accepting), perFingerprint, next) && Disjoint(Prune(groups, accepting))
    ensures Shrinks(groups, Prune(groups, accepting)) && Total(Prune(groups, accepting)) <= Total(groups)
  {
    hide Live;
    var live := Prune(groups, accepting);
    forall fp | fp in groups ensures fp in live ==> live[fp] == LiveGroup(groups[fp], accepting) {
      LiveMeans(groups[fp].workers, accepting);
    }
    forall fp | fp in live ensures GoodGroup(live[fp], perFingerprint, next) {
      LiveMeans(groups[fp].workers, accepting);
      assert GoodGroup(groups[fp], perFingerprint, next);
    }
    forall fp | fp in live
      ensures |live[fp].workers| <= |groups[fp].workers| && forall g :: g in live[fp].workers ==> g in groups[fp].workers
    {
      LiveMeans(groups[fp].workers, accepting);
    }
    TotalShrinks(groups, live);
  }

  lemma WithoutKeeps(groups: map<Fingerprint, Group>, fp: Fingerprint, g: Generation, perFingerprint: nat, next: nat)
    requires Groups(groups, perFingerprint, next) && Disjoint(groups)
    ensures Groups(Without(groups, fp, g), perFingerprint, next) && Disjoint(Without(groups, fp, g))
    ensures Total(Without(groups, fp, g)) <= Total(groups)
  {
    hide Others;
    if fp in groups { OthersMeans(groups[fp].workers, g); }
    assert Shrinks(groups, Without(groups, fp, g));
    TotalShrinks(groups, Without(groups, fp, g));
  }

  /** Rebinding a Session inside its group moves no worker. */
  lemma RebindKeeps(groups: map<Fingerprint, Group>, fp: Fingerprint, bindings: map<SessionKey, Generation>, perFingerprint: nat, next: nat)
    requires Groups(groups, perFingerprint, next) && Disjoint(groups) && fp in groups
    requires forall key :: key in bindings ==> bindings[key] in groups[fp].workers
    ensures var to := groups[fp := groups[fp].(bindings := bindings)];
            Groups(to, perFingerprint, next) && Disjoint(to) && Total(to) == Total(groups)
  {
    var to := groups[fp := groups[fp].(bindings := bindings)];
    assert Shrinks(groups, to) && Shrinks(to, groups);
    TotalShrinks(groups, to);
    TotalShrinks(to, groups);
  }

  lemma GrownIsGood(group: Group, perFingerprint: nat, next: nat, key: SessionKey)
    requires next >= 1 && perFingerprint >= 1
    requires group == Group([], map[]) || (GoodGroup(group, perFingerprint, next) && |group.workers| < perFingerprint)
    ensures GoodGroup(Group(group.workers + [next], group.bindings[key := next]), perFingerprint, next + 1)
  {
    assert next !in group.workers;
  }

  lemma GroupsWiden(groups: map<Fingerprint, Group>, perFingerprint: nat, next: nat)
    requires Groups(groups, perFingerprint, next)
    ensures Groups(groups, perFingerprint, next + 1)
  {
  }

  lemma GrowKeeps(live: map<Fingerprint, Group>, perFingerprint: nat, next: nat, fp: Fingerprint, grown: Group)
    requires Groups(live, perFingerprint, next) && Disjoint(live) && GoodGroup(grown, perFingerprint, next + 1)
    requires grown.workers == (if fp in live then live[fp].workers else []) + [next]
    ensures var to := live[fp := grown];
            && Groups(to, perFingerprint, next + 1) && Disjoint(to)
            && Total(to) == Total(live) + 1
  {
    hide Total, Distinct;
    var to := live[fp := grown];
    GroupsWiden(live, perFingerprint, next);
    assert forall f :: f in live ==> next !in live[f].workers by {
      forall f | f in live ensures next !in live[f].workers { assert GoodGroup(live[f], perFingerprint, next); }
    }
    TotalSplit(to, fp);
    assert to - {fp} == live - {fp};
    if fp in live { TotalSplit(live, fp); } else { assert live - {fp} == live; }
  }

  lemma SpawnKeeps(t: Table, live: map<Fingerprint, Group>, limits: Limits, fp: Fingerprint, key: SessionKey, starts: bool)
    requires Bounded(t.(groups := live), limits) && Total(live) < limits.total && t.nextGeneration + 1 < U64
    requires fp in live ==> |live[fp].workers| < limits.perFingerprint
    ensures Bounded(Spawn(t, live, fp, key, starts).1, limits)
  {
    hide Total, Disjoint, GoodGroup;
    var next := t.nextGeneration;
    if starts {
      var group := if fp in live then live[fp] else Group([], map[]);
      GrownIsGood(group, limits.perFingerprint, next, key);
      GrowKeeps(live, limits.perFingerprint, next, fp, Group(group.workers + [next], group.bindings[key := next]));
    } else {
      GroupsWiden(live, limits.perFingerprint, next);
    }
  }

  /** What pruning and unbinding leave to decide about. */
  lemma UnboundKeeps(t: Table, limits: Limits, fp: Fingerprint, key: SessionKey, accepting: map<Generation, bool>)
    requires Bounded(t, limits)
    ensures Bounded(t.(groups := Prune(t.groups, accepting)), limits)
    ensures Bounded(t.(groups := Unbind(Prune(t.groups, accepting), fp, key)), limits)
  {
    hide Total, Live;
    var live := Prune(t.groups, accepting);
    PruneKeeps(t.groups, accepting, limits.perFingerprint, t.nextGeneration);
    if fp in live {
      assert GoodGroup(live[fp], limits.perFingerprint, t.nextGeneration);
      RebindKeeps(live, fp, live[fp].bindings - {key}, limits.perFingerprint, t.nextGeneration);
    }
  }

  lemma BindKeeps(t: Table, limits: Limits, fp: Fingerprint, key: SessionKey, g: Generation)
    requires Bounded(t, limits) && fp in t.groups && g in t.groups[fp].workers
    ensures Bounded(t.(groups := Bind(t.groups, fp, key, g)), limits)
  {
    hide Total;
    assert GoodGroup(t.groups[fp], limits.perFingerprint, t.nextGeneration);
    RebindKeeps(t.groups, fp, t.groups[fp].bindings[key := g], limits.perFingerprint, t.nextGeneration);
  }

  /** Every call keeps both bounds, unique generations and sound bindings, whatever its reads returned. */
  lemma TryWorkerKeeps(t: Table, limits: Limits, fp: Fingerprint, key: SessionKey, seen: Seen, starts: bool)
    requires Bounded(t, limits) && t.nextGeneration + 1 < U64
    ensures Bounded(TryWorker(t, limits, fp, key, seen, starts).1, limits)
  {
    hide Total, Live, Prune, LeastLoaded, FindIdle, Groups, Disjoint, Bound, Unbind, Bind, Without, Spawn;
    var live := Prune(t.groups, seen.accepting);
    UnboundKeeps(t, limits, fp, key, seen.accepting);
    var unbound := Unbind(live, fp, key);
    var u := t.(groups := unbound);
    if Bound(live, fp, key) {
    } else if Shares(unbound, limits, fp, seen) {
      LeastLoadedMeans(unbound[fp].workers, seen.load);
      BindKeeps(u, limits, fp, key, LeastLoaded(unbound[fp].workers, seen.load));
    } else if Total(unbound) >= limits.total {
      var idle := FindIdle(unbound, seen.order, seen.idle);
      if idle.Some? {
        WithoutKeeps(unbound, idle.value.0, idle.value.1, limits.perFingerprint, t.nextGeneration);
      } else if fp in unbound && unbound[fp].workers != [] {
        LeastLoadedMeans(unbound[fp].workers, seen.again);
        BindKeeps(u, limits, fp, key, LeastLoaded(unbound[fp].workers, seen.again));
      }
    } else {
      assert fp in unbound ==> GoodGroup(unbound[fp], limits.perFingerprint, t.nextGeneration) by { GroupIsGood(u, limits, fp); }
      SpawnKeeps(t, unbound, limits, fp, key, starts);
    }
  }

  lemma GroupIsGood(t: Table, limits: Limits, fp: Fingerprint)
    requires Bounded(t, limits)
    ensures fp in t.groups ==> GoodGroup(t.groups[fp], limits.perFingerprint, t.nextGeneration)
  {
  }

  lemma ExitKeeps(t: Table, limits: Limits, fp: Fingerprint, g: Generation)
    requires Bounded(t, limits)
    ensures Bounded(Exit(t, fp, g), limits)
  {
    hide Total, Without;
    WithoutKeeps(t.groups, fp, g, limits.perFingerprint, t.nextGeneration);
  }
}
