/**
  Planning which old task's snapshot supplies which key groups of each new task
  (internal/coordinator/rescale_plan.go).  Key-group intervals here are inclusive.
 */
module RescalePlan {
  import opened Basics
  import opened KeyGroups

  /** `chain` stands for the operator chain without its parallelism. */
  datatype Task = Task(id: string, operator: string, chain: string, groups: int, lo: int, hi: int)

  datatype Snapshot = Snapshot(
    completed: bool, groups: int,
    tasks: map<string, string>, replicas: map<string, string>, paths: map<string, string>)

  datatype Part = Part(source: string, replica: string, lo: int, hi: int)

  function Find(m: map<string, string>, key: string): string {
    if key in m then m[key] else ""
  }

  // ---------------------------------------------------------------- what is demanded

  predicate GroupsOk(n: int) {
    0 < n && Valid(n, 1)
  }

  predicate IntervalOk(t: Task, n: int) {
    t.groups == n && 0 <= t.lo <= t.hi < n
  }

  predicate Durable(cp: Snapshot, id: string) {
    Find(cp.tasks, id) != "" && Find(cp.replicas, id) != "" && Find(cp.paths, id) == Find(cp.replicas, id)
  }

  predicate SourceOk(cp: Snapshot, t: Task) {
    t.id != "" && IntervalOk(t, cp.groups) && Durable(cp, t.id)
  }

  predicate DistinctIds(ts: seq<Task>) {
    forall i, j :: 0 <= i < j < |ts| ==> ts[i].id != ts[j].id
  }

  function Owned(ts: seq<Task>, op: string): seq<Task> {
    if ts == [] then []
    else
      var rest := Owned(ts[..|ts| - 1], op);
      if ts[|ts| - 1].operator == op then rest + [ts[|ts| - 1]] else rest
  }

  function Insert(t: Task, ts: seq<Task>): seq<Task> {
    if ts == [] || t.lo <= ts[0].lo then [t] + ts else [ts[0]] + Insert(t, ts[1..])
  }

  /** The tasks ordered by the start of their interval. */
  function Sorted(ts: seq<Task>): seq<Task> {
    if ts == [] then [] else Insert(ts[0], Sorted(ts[1..]))
  }

  /** Where the next interval must start after the first `k`. */
  function NextStart(ts: seq<Task>, k: nat): int
    requires k <= |ts|
  {
    if k == 0 then 0 else ts[k - 1].hi + 1
  }

  /** Adjacent intervals from 0 to `n`, all running the same chain. */
  predicate Tiled(ts: seq<Task>, n: int, chain: string) {
    && (forall k {:trigger Fits(ts, k, chain)} :: 0 <= k < |ts| ==> Fits(ts, k, chain))
    && NextStart(ts, |ts|) == n
  }

  predicate Fits(ts: seq<Task>, k: nat, chain: string)
    requires k < |ts|
  {
    ts[k].lo == NextStart(ts, k) && ts[k].chain == chain
  }

  function Operators(ts: seq<Task>): set<string> {
    set t | t in ts :: t.operator
  }

  /** The new interval's progress through the first `k` sources; None when one leaves a gap. */
  function Progress(target: Task, sources: seq<Task>, k: nat): Option<int>
    requires k <= |sources|
  {
    if k == 0 then Some(target.lo)
    else
      match Progress(target, sources, k - 1)
      case None => None
      case Some(next) =>
        var lo, hi := MaxInt(sources[k - 1].lo, target.lo), MinInt(sources[k - 1].hi, target.hi);
        if lo > hi then Some(next) else if lo != next then None else Some(hi + 1)
  }

  function Parts(cp: Snapshot, target: Task, sources: seq<Task>, k: nat): seq<Part>
    requires k <= |sources|
  {
    if k == 0 then []
    else
      var s := sources[k - 1];
      var lo, hi := MaxInt(s.lo, target.lo), MinInt(s.hi, target.hi);
      Parts(cp, target, sources, k - 1) + (if lo > hi then [] else [Part(s.id, Find(cp.replicas, s.id), lo, hi)])
  }

  function MaxInt(a: int, b: int): int {
    if a > b then a else b
  }

  function MinInt(a: int, b: int): int {
    if a < b then a else b
  }

  function Sources(prior: seq<Task>, op: string): seq<Task> {
    Sorted(Owned(prior, op))
  }

  predicate Covered(target: Task, sources: seq<Task>) {
    Progress(target, sources, |sources|) == Some(target.hi + 1)
  }

  predicate SourcesTiled(prior: seq<Task>, op: string, n: int) {
    Sources(prior, op) != [] && Tiled(Sources(prior, op), n, Sources(prior, op)[0].chain)
  }

  predicate TargetsTiled(prior: seq<Task>, targets: seq<Task>, op: string, n: int) {
    Sources(prior, op) != [] && Tiled(Sorted(Owned(targets, op)), n, Sources(prior, op)[0].chain)
  }

  predicate AllTargetsTiled(prior: seq<Task>, targets: seq<Task>, n: int) {
    && Operators(targets) == Operators(prior)
    && forall op :: op in Operators(targets) ==> TargetsTiled(prior, targets, op, n)
  }

  predicate SnapshotOk(cp: Snapshot, prior: seq<Task>) {
    && cp.completed && GroupsOk(cp.groups) && |prior| > 0 && |prior| == |cp.tasks|
    && (forall t :: t in prior ==> SourceOk(cp, t)) && DistinctIds(prior)
  }

  predicate AllSourcesTiled(prior: seq<Task>, n: int) {
    forall op :: op in Operators(prior) ==> SourcesTiled(prior, op, n)
  }

  predicate TargetOk(prior: seq<Task>, n: int, t: Task) {
    IntervalOk(t, n) && Covered(t, Sources(prior, t.operator))
  }

  predicate AllTargetsOk(prior: seq<Task>, targets: seq<Task>, n: int) {
    (forall t :: t in targets ==> TargetOk(prior, n, t)) && DistinctIds(targets)
  }

  predicate Accepts(cp: Snapshot, prior: seq<Task>, targets: seq<Task>) {
    && SnapshotOk(cp, prior) && AllSourcesTiled(prior, cp.groups)
    && AllTargetsTiled(prior, targets, cp.groups) && AllTargetsOk(prior, targets, cp.groups)
  }

  // ---------------------------------------------------------------- sequence facts

  lemma {:induction false} OwnedMembers(ts: seq<Task>, op: string, t: Task)
    ensures t in Owned(ts, op) <==> t in ts && t.operator == op
  {
    if ts != [] {
      var n := |ts| - 1;
      OwnedMembers(ts[..n], op, t);
      assert t in ts <==> t in ts[..n] || t == ts[n];
    }
  }

  lemma {:induction false} InsertMembers(t: Task, ts: seq<Task>, x: Task)
    ensures x in Insert(t, ts) <==> x == t || x in ts
  {
    if ts != [] && t.lo > ts[0].lo {
      InsertMembers(t, ts[1..], x);
      assert x in ts <==> x == ts[0] || x in ts[1..];
    }
  }

  lemma {:induction false} SortedMembers(ts: seq<Task>, x: Task)
    ensures x in Sorted(ts) <==> x in ts
  {
    if ts != [] {
      SortedMembers(ts[1..], x);
      InsertMembers(ts[0], Sorted(ts[1..]), x);
      assert x in ts <==> x == ts[0] || x in ts[1..];
    }
  }

  /** The sources of an operator are its old tasks, whatever their order. */
  lemma SourceMembers(prior: seq<Task>, op: string, t: Task)
    ensures t in Sources(prior, op) <==> t in prior && t.operator == op
  {
    SortedMembers(Owned(prior, op), t);
    OwnedMembers(prior, op, t);
  }

  lemma OwnedNext(ts: seq<Task>, k: nat, op: string)
    requires k < |ts|
    ensures Owned(ts[..k + 1], op) == if ts[k].operator == op then Owned(ts[..k], op) + [ts[k]] else Owned(ts[..k], op)
  {
    assert ts[..k + 1][..k] == ts[..k];
  }

  // ---------------------------------------------------------------- the planner

  method CheckSources(cp: Snapshot, prior: seq<Task>) returns (ok: bool)
    ensures ok <==> SnapshotOk(cp, prior)
  {
    if !cp.completed || cp.groups < 1 || !Valid(cp.groups, 1) || |prior| == 0 || |prior| != |cp.tasks| {
      return false;
    }
    var seen: set<string> := {};
    for i := 0 to |prior|
      invariant seen == set k | 0 <= k < i :: prior[k].id
      invariant forall k :: 0 <= k < i ==> SourceOk(cp, prior[k])
      invariant DistinctIds(prior[..i])
    {
      var t := prior[i];
      if t.id == "" || t.id in seen || !IntervalOk(t, cp.groups) || !Durable(cp, t.id) {
        assert !SourceOk(cp, prior[i]) || exists k :: 0 <= k < i && prior[k].id == t.id;
        return false;
      }
      seen := seen + {t.id};
    }
    assert prior[..|prior|] == prior;
    return true;
  }

  method GroupByOperator(ts: seq<Task>) returns (groups: map<string, seq<Task>>)
    ensures groups.Keys == Operators(ts)
    ensures forall op :: op in groups ==> groups[op] == Owned(ts, op)
  {
    groups := map[];
    for i := 0 to |ts|
      invariant groups.Keys == Operators(ts[..i])
      invariant forall op :: op in groups ==> groups[op] == Owned(ts[..i], op)
      invariant forall op :: op !in groups ==> Owned(ts[..i], op) == []
    {
      var op := ts[i].operator;
      forall o { OwnedNext(ts, i, o); }
      assert ts[..i + 1] == ts[..i] + [ts[i]];
      groups := groups[op := (if op in groups then groups[op] else []) + [ts[i]]];
    }
    assert ts[..|ts|] == ts;
  }

  /** The running check for gaps, overlaps and a changed chain. */
  method CheckTiling(ts: seq<Task>, n: int, chain: string) returns (ok: bool)
    ensures ok <==> Tiled(ts, n, chain)
  {
    var next := 0;
    for i := 0 to |ts|
      invariant next == NextStart(ts, i)
      invariant forall k {:trigger Fits(ts, k, chain)} :: 0 <= k < i ==> Fits(ts, k, chain)
    {
      if ts[i].chain != chain || ts[i].lo != next {
        assert !Fits(ts, i, chain);
        return false;
      }
      next := ts[i].hi + 1;
    }
    return next == n;
  }

  method CutTarget(cp: Snapshot, target: Task, sources: seq<Task>) returns (parts: seq<Part>, ok: bool)
    ensures ok <==> Covered(target, sources)
    ensures ok ==> parts == Parts(cp, target, sources, |sources|)
  {
    parts := [];
    var next := target.lo;
    for i := 0 to |sources|
      invariant Progress(target, sources, i) == Some(next)
      invariant parts == Parts(cp, target, sources, i)
    {
      var s := sources[i];
      var lo, hi := MaxInt(s.lo, target.lo), MinInt(s.hi, target.hi);
      if lo > hi {
        continue;
      }
      if lo != next {
        StuckStays(target, sources, i + 1, |sources|);
        return parts, false;
      }
      parts := parts + [Part(s.id, Find(cp.replicas, s.id), lo, hi)];
      next := hi + 1;
    }
    ok := next == target.hi + 1;
  }

  lemma {:induction false} StuckStays(target: Task, sources: seq<Task>, i: nat, k: nat)
    requires i <= k <= |sources| && Progress(target, sources, i) == None
    ensures Progress(target, sources, k) == None
    decreases k
  {
    if i < k {
      StuckStays(target, sources, i, k - 1);
    }
  }

  lemma OperatorHasSources(prior: seq<Task>, op: string)
    ensures op in Operators(prior) <==> Sources(prior, op) != []
  {
    if op in Operators(prior) {
      var t :| t in prior && t.operator == op;
      SourceMembers(prior, op, t);
    }
    if Sources(prior, op) != [] {
      SourceMembers(prior, op, Sources(prior, op)[0]);
    }
  }

  lemma SameSizeSubset(small: set<string>, large: set<string>)
    requires small <= large && |small| == |large|
    ensures small == large
  {
    assert |large - small| == |large| - |small|;
  }

  /** Sorts each operator's old tasks in place and checks that they tile all groups. */
  method TileSources(prior: seq<Task>, n: int, grouped: map<string, seq<Task>>)
    returns (sorted: map<string, seq<Task>>, ok: bool)
    requires grouped.Keys == Operators(prior) && forall op :: op in grouped ==> grouped[op] == Owned(prior, op)
    ensures ok <==> AllSourcesTiled(prior, n)
    ensures ok ==> sorted.Keys == grouped.Keys && forall op :: op in sorted ==> sorted[op] == Sources(prior, op)
  {
    sorted := grouped;
    var rest := grouped.Keys;
    while rest != {}
      invariant rest <= grouped.Keys && sorted.Keys == grouped.Keys
      invariant forall op :: op in rest ==> sorted[op] == Owned(prior, op)
      invariant forall op :: op in sorted && op !in rest ==>
        sorted[op] == Sources(prior, op) && SourcesTiled(prior, op, n)
      decreases |rest|
    {
      var op :| op in rest;
      OperatorHasSources(prior, op);
      sorted := sorted[op := Sorted(sorted[op])];
      var tiled := CheckTiling(sorted[op], n, sorted[op][0].chain);
      if !tiled {
        return sorted, false;
      }
      rest := rest - {op};
    }
    ok := true;
  }

  method TileTargets(prior: seq<Task>, targets: seq<Task>, n: int, sources: map<string, seq<Task>>) returns (ok: bool)
    requires sources.Keys == Operators(prior) && forall op :: op in sources ==> sources[op] == Sources(prior, op)
    ensures ok <==> AllTargetsTiled(prior, targets, n)
  {
    var grouped := GroupByOperator(targets);
    if |grouped| != |sources| {
      assert |grouped.Keys| != |sources.Keys|;
      return false;
    }
    var rest := grouped.Keys;
    while rest != {}
      invariant rest <= grouped.Keys
      invariant forall op :: op in grouped && op !in rest ==> op in sources && TargetsTiled(prior, targets, op, n)
      decreases |rest|
    {
      var op :| op in rest;
      OperatorHasSources(prior, op);
      if op !in sources {
        return false;
      }
      var tiled := CheckTiling(Sorted(grouped[op]), n, sources[op][0].chain);
      if !tiled {
        return false;
      }
      rest := rest - {op};
    }
    assert |grouped.Keys| == |sources.Keys|;
    SameSizeSubset(grouped.Keys, sources.Keys);
    return true;
  }

  function PlanOf(cp: Snapshot, prior: seq<Task>, t: Task): seq<Part> {
    Parts(cp, t, Sources(prior, t.operator), |Sources(prior, t.operator)|)
  }

  function IdsOf(ts: seq<Task>): set<string> {
    set t | t in ts :: t.id
  }

  method CutOne(cp: Snapshot, prior: seq<Task>, t: Task, sources: seq<Task>) returns (parts: seq<Part>, ok: bool)
    requires sources == Sources(prior, t.operator)
    ensures ok <==> TargetOk(prior, cp.groups, t)
    ensures ok ==> parts == PlanOf(cp, prior, t)
  {
    if !IntervalOk(t, cp.groups) {
      return [], false;
    }
    parts, ok := CutTarget(cp, t, sources);
  }

  lemma TwinIds(targets: seq<Task>, i: nat)
    requires i < |targets| && targets[i].id in IdsOf(targets[..i])
    ensures !DistinctIds(targets)
  {
    var twin :| twin in targets[..i] && twin.id == targets[i].id;
    var k :| 0 <= k < i && targets[k] == twin;
    assert targets[k].id == targets[i].id;
  }

  lemma PlannedIsOk(plan: map<string, seq<Part>>, cp: Snapshot, prior: seq<Task>, targets: seq<Task>)
    requires Planned(plan, cp, prior, targets)
    ensures AllTargetsOk(prior, targets, cp.groups)
  {
    forall t | t in targets ensures TargetOk(prior, cp.groups, t) {
      var k :| 0 <= k < |targets| && targets[k] == t;
      assert PlannedOne(plan, cp, prior, targets[k]);
    }
  }

  /** The plan for the first `i` targets. */
  ghost predicate Planned(plan: map<string, seq<Part>>, cp: Snapshot, prior: seq<Task>, targets: seq<Task>) {
    && plan.Keys == IdsOf(targets) && DistinctIds(targets)
    && forall k :: 0 <= k < |targets| ==> PlannedOne(plan, cp, prior, targets[k])
  }

  ghost predicate PlannedOne(plan: map<string, seq<Part>>, cp: Snapshot, prior: seq<Task>, t: Task) {
    TargetOk(prior, cp.groups, t) && t.id in plan && plan[t.id] == PlanOf(cp, prior, t)
  }

  lemma PlanOneMore(plan: map<string, seq<Part>>, cp: Snapshot, prior: seq<Task>, targets: seq<Task>, t: Task,
                    parts: seq<Part>)
    requires Planned(plan, cp, prior, targets) && t.id !in plan
    requires TargetOk(prior, cp.groups, t) && parts == PlanOf(cp, prior, t)
    ensures Planned(plan[t.id := parts], cp, prior, targets + [t])
  {
    var more := plan[t.id := parts];
    forall k | 0 <= k < |targets + [t]| ensures PlannedOne(more, cp, prior, (targets + [t])[k]) {
      if k < |targets| {
        assert PlannedOne(plan, cp, prior, targets[k]);
        assert targets[k].id in plan;
      }
    }
  }

  method CutTargets(cp: Snapshot, prior: seq<Task>, targets: seq<Task>, sources: map<string, seq<Task>>)
    returns (plan: map<string, seq<Part>>, ok: bool)
    requires Operators(targets) == sources.Keys
    requires forall op :: op in sources ==> sources[op] == Sources(prior, op)
    ensures ok <==> AllTargetsOk(prior, targets, cp.groups)
    ensures ok ==> Planned(plan, cp, prior, targets)
  {
    plan := map[];
    for i := 0 to |targets|
      invariant Planned(plan, cp, prior, targets[..i])
    {
      var t := targets[i];
      assert t.operator in Operators(targets);
      assert targets[..i + 1] == targets[..i] + [t];
      if t.id in plan {
        TwinIds(targets, i);
        return plan, false;
      }
      var parts, good := CutOne(cp, prior, t, sources[t.operator]);
      if !good {
        return plan, false;
      }
      PlanOneMore(plan, cp, prior, targets[..i], t, parts);
      plan := plan[t.id := parts];
    }
    assert targets[..|targets|] == targets;
    PlannedIsOk(plan, cp, prior, targets);
    ok := true;
  }

  method PlanRescaleState(cp: Snapshot, prior: seq<Task>, targets: seq<Task>)
    returns (r: Option<map<string, seq<Part>>>)
    ensures r.Some? <==> Accepts(cp, prior, targets)
    ensures r.Some? ==> Planned(r.value, cp, prior, targets)
  {
    var ok := CheckSources(cp, prior);
    if !ok {
      return None;
    }
    var grouped := GroupByOperator(prior);
    var sources;
    sources, ok := TileSources(prior, cp.groups, grouped);
    if !ok {
      return None;
    }
    ok := TileTargets(prior, targets, cp.groups, sources);
    if !ok {
      return None;
    }
    var plan;
    plan, ok := CutTargets(cp, prior, targets, sources);
    if !ok {
      return None;
    }
    return Some(plan);
  }
}
