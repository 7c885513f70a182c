/**
  Physical tasks and the channels between them (internal/coordinator/physical_tasks.go), and where
  the router (internal/engine/output_writer.go) sends a record.
 */
module PhysicalTasks {
  import opened Basics
  import opened KeyGroups
  import opened PhysicalPlan

  const MAX_PARTITIONS: nat := 65536

  /** One end of a channel: the task and subtask at the other end, and the target's partition index. */
  datatype Channel = Channel(task: nat, subtask: nat, partition: nat)

  datatype Task = Task(chain: nat, subtask: nat, groups: Range, outputGroups: nat, down: seq<Channel>, up: seq<Channel>)

  // ---------------------------------------------------------------- layout

  /** `indexes[c][i]` is the task of subtask `i` of chain `c`, and every task is one of these. */
  predicate Laid(tasks: seq<Task>, indexes: seq<seq<nat>>, chains: seq<Chain>, n: nat) {
    && |indexes| <= |chains|
    && (forall c :: 0 <= c < |indexes| ==> 1 <= chains[c].parallelism == |indexes[c]|)
    && (forall c, i :: 0 <= c < |indexes| && 0 <= i < |indexes[c]| ==> Subtask(tasks, indexes, c, i, n))
    && (forall t :: 0 <= t < |tasks| ==> Indexed(tasks, indexes, t))
  }

  predicate Subtask(tasks: seq<Task>, indexes: seq<seq<nat>>, c: nat, i: nat, n: nat)
    requires c < |indexes| && i < |indexes[c]|
  {
    var t := indexes[c][i];
    t < |tasks| && tasks[t].chain == c && tasks[t].subtask == i && tasks[t].groups == TaskRange(i, n, |indexes[c]|)
  }

  predicate Indexed(tasks: seq<Task>, indexes: seq<seq<nat>>, t: nat)
    requires t < |tasks|
  {
    tasks[t].chain < |indexes| && tasks[t].subtask < |indexes[tasks[t].chain]|
      && indexes[tasks[t].chain][tasks[t].subtask] == t
  }

  predicate Unwired(tasks: seq<Task>) {
    forall t :: 0 <= t < |tasks| ==> tasks[t].down == [] && tasks[t].up == [] && tasks[t].outputGroups == 0
  }

  /** The tasks of one chain. */
  method LayChain(tasks0: seq<Task>, indexes: seq<seq<nat>>, chains: seq<Chain>, n: nat, ranges: seq<Range>)
    returns (tasks: seq<Task>, row: seq<nat>)
    requires Laid(tasks0, indexes, chains, n) && Unwired(tasks0) && |indexes| < |chains|
    requires |ranges| == chains[|indexes|].parallelism >= 1
    requires forall i :: 0 <= i < |ranges| ==> ranges[i] == TaskRange(i, n, |ranges|)
    ensures Laid(tasks, indexes + [row], chains, n) && Unwired(tasks)
  {
    var c := |indexes|;
    tasks, row := tasks0, [];
    for i := 0 to |ranges|
      invariant |row| == i && |tasks| == |tasks0| + i && tasks[..|tasks0|] == tasks0 && Unwired(tasks)
      invariant forall k :: 0 <= k < i ==> row[k] == |tasks0| + k && tasks[row[k]] == Task(c, k, ranges[k], 0, [], [])
    {
      row := row + [|tasks|];
      tasks := tasks + [Task(c, i, ranges[i], 0, [], [])];
    }
    var after := indexes + [row];
    forall d, i | 0 <= d < |after| && 0 <= i < |after[d]| ensures Subtask(tasks, after, d, i, n) {
      if d < c {
        assert Subtask(tasks0, indexes, d, i, n);
        assert tasks[indexes[d][i]] == tasks[..|tasks0|][indexes[d][i]];
      }
    }
    forall t | 0 <= t < |tasks| ensures Indexed(tasks, after, t) {
      if t < |tasks0| {
        assert Indexed(tasks0, indexes, t) && tasks[t] == tasks[..|tasks0|][t];
      } else {
        assert row[t - |tasks0|] == t;
      }
    }
  }

  // ---------------------------------------------------------------- channels

  /** The downstream end `j` of task `s` is matched by the upstream end at its partition. */
  predicate DownMatched(tasks: seq<Task>, s: nat, j: nat)
    requires s < |tasks| && j < |tasks[s].down|
  {
    var x := tasks[s].down[j];
    && x.task < |tasks| && x.subtask == tasks[x.task].subtask && x.partition < |tasks[x.task].up|
    && tasks[x.task].up[x.partition] == Channel(s, tasks[s].subtask, x.partition)
  }

  /** The upstream end at partition `p` of task `d` is matched by a downstream end of its source. */
  predicate UpMatched(tasks: seq<Task>, d: nat, p: nat)
    requires d < |tasks| && p < |tasks[d].up|
  {
    var x := tasks[d].up[p];
    && x.partition == p && x.task < |tasks| && x.subtask == tasks[x.task].subtask
    && Channel(d, tasks[d].subtask, p) in tasks[x.task].down
  }

  predicate Matched(tasks: seq<Task>) {
    && (forall s, j :: 0 <= s < |tasks| && 0 <= j < |tasks[s].down| ==> DownMatched(tasks, s, j))
    && (forall d, p :: 0 <= d < |tasks| && 0 <= p < |tasks[d].up| ==> UpMatched(tasks, d, p))
    && (forall s, j, k :: 0 <= s < |tasks| && 0 <= j < k < |tasks[s].down| ==> tasks[s].down[j] != tasks[s].down[k])
  }

  function Connect(tasks: seq<Task>, s: nat, d: nat): seq<Task>
    requires s < |tasks| && d < |tasks| && s != d
  {
    var partition := |tasks[d].up|;
    tasks[s := tasks[s].(down := tasks[s].down + [Channel(d, tasks[d].subtask, partition)])]
         [d := tasks[d].(up := tasks[d].up + [Channel(s, tasks[s].subtask, partition)])]
  }

  lemma ConnectDowns(tasks: seq<Task>, s: nat, d: nat, t: nat, j: nat)
    requires Matched(tasks) && s < |tasks| && d < |tasks| && s != d
    requires t < |tasks| && j < |Connect(tasks, s, d)[t].down|
    ensures DownMatched(Connect(tasks, s, d), t, j)
  {
    if j < |tasks[t].down| {
      assert DownMatched(tasks, t, j);
    }
  }

  lemma ConnectUps(tasks: seq<Task>, s: nat, d: nat, t: nat, p: nat)
    requires Matched(tasks) && s < |tasks| && d < |tasks| && s != d
    requires t < |tasks| && p < |Connect(tasks, s, d)[t].up|
    ensures UpMatched(Connect(tasks, s, d), t, p)
  {
    var after := Connect(tasks, s, d);
    if p < |tasks[t].up| {
      assert UpMatched(tasks, t, p);
    } else {
      assert after[s].down[|tasks[s].down|] == Channel(d, tasks[d].subtask, p);
    }
  }

  lemma ConnectDistinct(tasks: seq<Task>, s: nat, d: nat, t: nat, j: nat, k: nat)
    requires Matched(tasks) && s < |tasks| && d < |tasks| && s != d
    requires t < |tasks| && j < k < |Connect(tasks, s, d)[t].down|
    ensures Connect(tasks, s, d)[t].down[j] != Connect(tasks, s, d)[t].down[k]
  {
    assert DownMatched(tasks, t, j);
  }

  /** A new channel takes a partition no other channel of the target has. */
  lemma ConnectKeepsMatching(tasks: seq<Task>, s: nat, d: nat)
    requires Matched(tasks) && s < |tasks| && d < |tasks| && s != d
    ensures Matched(Connect(tasks, s, d))
  {
    var after := Connect(tasks, s, d);
    forall t, j | 0 <= t < |after| && 0 <= j < |after[t].down| ensures DownMatched(after, t, j) {
      ConnectDowns(tasks, s, d, t, j);
    }
    forall t, p | 0 <= t < |after| && 0 <= p < |after[t].up| ensures UpMatched(after, t, p) {
      ConnectUps(tasks, s, d, t, p);
    }
    forall t, j, k | 0 <= t < |after| && 0 <= j < k < |after[t].down| ensures after[t].down[j] != after[t].down[k] {
      ConnectDistinct(tasks, s, d, t, j, k);
    }
  }

  /** Same tasks; only channels may differ. */
  predicate SameTasks(a: seq<Task>, b: seq<Task>) {
    |a| == |b| && forall t :: 0 <= t < |a| ==>
      a[t].chain == b[t].chain && a[t].subtask == b[t].subtask && a[t].groups == b[t].groups && a[t].outputGroups
        == b[t].outputGroups
  }

  predicate SameDowns(a: seq<Task>, b: seq<Task>, except: set<nat>)
    requires |a| == |b|
  {
    forall t :: 0 <= t < |a| && t !in except ==> a[t].down == b[t].down
  }

  /** The downstream ends of subtask `si`: its own counterpart, or all targets in subtask order. */
  predicate Row(down: seq<Channel>, dsts: seq<nat>, si: nat, forward: bool) {
    if forward then |down| == 1 && si < |dsts| && down[0].task == dsts[si]
    else |down| == |dsts| && forall t :: 0 <= t < |dsts| ==> down[t].task == dsts[t]
  }

  /** The upstream ends each target gains; other tasks gain none. */
  predicate Gained(a: seq<Task>, b: seq<Task>, dsts: seq<nat>, gain: seq<nat>)
    requires |a| == |b| && |gain| == |dsts| && forall t :: 0 <= t < |dsts| ==> dsts[t] < |a|
  {
    && (forall t :: 0 <= t < |dsts| ==> |b[dsts[t]].up| == |a[dsts[t]].up| + gain[t])
    && (forall t :: 0 <= t < |a| && t !in dsts ==> |b[t].up| == |a[t].up|)
  }

  /** What the first `ti` targets gain from row `si`. */
  function RowGain(n: nat, si: nat, ti: nat, forward: bool): (r: seq<nat>)
    ensures |r| == n
  {
    seq(n, t requires 0 <= t < n => if t < ti && (!forward || si == t) then 1 else 0)
  }

  /** What the targets gain from the first `si` rows. */
  function RowsGain(n: nat, si: nat, forward: bool): (r: seq<nat>)
    ensures |r| == n
  {
    seq(n, t requires 0 <= t < n => if !forward then si else if t < si then 1 else 0)
  }

  lemma GainOne(a: seq<Task>, b: seq<Task>, s: nat, dsts: seq<nat>, si: nat, ti: nat, forward: bool)
    requires |a| == |b| && s < |b| && ti < |dsts| && Targets(dsts, s, |a|)
    requires Gained(a, b, dsts, RowGain(|dsts|, si, ti, forward)) && (!forward || si == ti)
    ensures Gained(a, Connect(b, s, dsts[ti]), dsts, RowGain(|dsts|, si, ti + 1, forward))
  {
  }

  lemma GainRow(a: seq<Task>, b: seq<Task>, c: seq<Task>, dsts: seq<nat>, si: nat, forward: bool)
    requires |a| == |b| == |c| && forall t :: 0 <= t < |dsts| ==> dsts[t] < |a|
    requires Gained(a, b, dsts, RowsGain(|dsts|, si, forward))
    requires Gained(b, c, dsts, RowGain(|dsts|, si, |dsts|, forward))
    ensures Gained(a, c, dsts, RowsGain(|dsts|, si + 1, forward))
  {
  }

  /** Targets of a row: distinct tasks other than its source. */
  predicate Targets(dsts: seq<nat>, src: nat, bound: nat) {
    && (forall t :: 0 <= t < |dsts| ==> dsts[t] < bound && dsts[t] != src)
    && (forall t, u :: 0 <= t < u < |dsts| ==> dsts[t] != dsts[u])
  }

  predicate RowSoFar(down: seq<Channel>, dsts: seq<nat>, si: nat, ti: nat, forward: bool)
    requires ti <= |dsts|
  {
    if forward then (if si < ti then |down| == 1 && down[0].task == dsts[si] else down == [])
    else |down| == ti && forall t :: 0 <= t < ti ==> down[t].task == dsts[t]
  }

  predicate FreeSoFar(tasks: seq<Task>, dsts: seq<nat>, si: nat, ti: nat, forward: bool)
    requires ti <= |dsts| && forall t :: 0 <= t < |dsts| ==> dsts[t] < |tasks|
  {
    forall t :: 0 <= t < ti && (!forward || si == t) ==> |tasks[dsts[t]].up| < MAX_PARTITIONS
  }

  lemma ConnectFrame(a: seq<Task>, b: seq<Task>, s: nat, d: nat, dsts: seq<nat>, si: nat, ti: nat, forward: bool)
    requires SameTasks(a, b) && SameDowns(a, b, {s}) && s < |b| && d < |b| && s != d
    requires ti < |dsts| && d == dsts[ti] && RowSoFar(b[s].down, dsts, si, ti, forward) && (!forward || si == ti)
    ensures SameTasks(a, Connect(b, s, d)) && SameDowns(a, Connect(b, s, d), {s})
    ensures RowSoFar(Connect(b, s, d)[s].down, dsts, si, ti + 1, forward)
  {
  }

  lemma NotYetGained(a: seq<Task>, b: seq<Task>, dsts: seq<nat>, si: nat, ti: nat, forward: bool)
    requires |a| == |b| && ti < |dsts| && (forall t :: 0 <= t < |dsts| ==> dsts[t] < |a|)
    requires Gained(a, b, dsts, RowGain(|dsts|, si, ti, forward))
    ensures |b[dsts[ti]].up| == |a[dsts[ti]].up|
    ensures forward && si != ti ==> Gained(a, b, dsts, RowGain(|dsts|, si, ti + 1, forward))
  {
    assert forward && si != ti ==> RowGain(|dsts|, si, ti + 1, forward) == RowGain(|dsts|, si, ti, forward);
  }

  method ConnectRow(tasks0: seq<Task>, src: nat, si: nat, dsts: seq<nat>, forward: bool)
    returns (tasks: seq<Task>, ok: bool)
    requires Matched(tasks0) && src < |tasks0| && tasks0[src].down == [] && (forward ==> si < |dsts|)
    requires Targets(dsts, src, |tasks0|)
    ensures Matched(tasks) && SameTasks(tasks0, tasks) && SameDowns(tasks0, tasks, {src})
    ensures ok ==> RowSoFar(tasks[src].down, dsts, si, |dsts|, forward)
    ensures ok ==> Gained(tasks0, tasks, dsts, RowGain(|dsts|, si, |dsts|, forward))
    ensures ok <==> FreeSoFar(tasks0, dsts, si, |dsts|, forward)
  {
    tasks := tasks0;
    for ti := 0 to |dsts|
      invariant Matched(tasks) && SameTasks(tasks0, tasks) && SameDowns(tasks0, tasks, {src})
      invariant RowSoFar(tasks[src].down, dsts, si, ti, forward) && FreeSoFar(tasks0, dsts, si, ti, forward)
      invariant Gained(tasks0, tasks, dsts, RowGain(|dsts|, si, ti, forward))
    {
      NotYetGained(tasks0, tasks, dsts, si, ti, forward);
      if forward && si != ti {
        continue;
      }
      if |tasks[dsts[ti]].up| >= MAX_PARTITIONS {
        return tasks, false;
      }
      ConnectKeepsMatching(tasks, src, dsts[ti]);
      GainOne(tasks0, tasks, src, dsts, si, ti, forward);
      ConnectFrame(tasks0, tasks, src, dsts[ti], dsts, si, ti, forward);
      tasks := Connect(tasks, src, dsts[ti]);
    }
    ok := true;
  }

  predicate Apart(srcs: seq<nat>, dsts: seq<nat>, bound: nat) {
    && (forall i :: 0 <= i < |srcs| ==> srcs[i] < bound) && (forall t :: 0 <= t < |dsts| ==> dsts[t] < bound)
    && (forall i, t :: 0 <= i < |srcs| && 0 <= t < |dsts| ==> srcs[i] != dsts[t])
    && (forall i, j :: 0 <= i < j < |srcs| ==> srcs[i] != srcs[j])
    && (forall t, u :: 0 <= t < u < |dsts| ==> dsts[t] != dsts[u])
  }

  /** The channels one boundary adds to each of its targets. */
  function Load(srcs: nat, forward: bool): nat {
    if forward then 1 else srcs
  }

  predicate HasRoom(tasks: seq<Task>, dsts: seq<nat>, load: nat)
    requires forall t :: 0 <= t < |dsts| ==> dsts[t] < |tasks|
  {
    forall t :: 0 <= t < |dsts| ==> |tasks[dsts[t]].up| + load <= MAX_PARTITIONS
  }

  /** Enough room for what the first `si` rows added. */
  predicate RoomSoFar(tasks: seq<Task>, dsts: seq<nat>, si: nat, forward: bool)
    requires forall t :: 0 <= t < |dsts| ==> dsts[t] < |tasks|
  {
    forall t :: 0 <= t < |dsts| && si > 0 && (forward ==> t < si) ==>
      |tasks[dsts[t]].up| + Load(si, forward) <= MAX_PARTITIONS
  }

  lemma RoomNext(a: seq<Task>, b: seq<Task>, dsts: seq<nat>, si: nat, forward: bool)
    requires |a| == |b| && (forall t :: 0 <= t < |dsts| ==> dsts[t] < |a|) && (forward ==> si < |dsts|)
    requires Gained(a, b, dsts, RowsGain(|dsts|, si, forward)) && RoomSoFar(a, dsts, si, forward)
    ensures FreeSoFar(b, dsts, si, |dsts|, forward) <==> RoomSoFar(a, dsts, si + 1, forward)
  {
    if forward {
      assert |b[dsts[si]].up| == |a[dsts[si]].up|;
    }
  }

  predicate RowsSoFar(tasks: seq<Task>, srcs: seq<nat>, dsts: seq<nat>, si: nat, forward: bool)
    requires si <= |srcs| && forall i :: 0 <= i < |srcs| ==> srcs[i] < |tasks|
  {
    && (forall i :: 0 <= i < si ==> RowSoFar(tasks[srcs[i]].down, dsts, i, |dsts|, forward))
    && (forall i :: si <= i < |srcs| ==> tasks[srcs[i]].down == [])
  }

  lemma RowsNext(a: seq<Task>, b: seq<Task>, c: seq<Task>, srcs: seq<nat>, dsts: seq<nat>, si: nat, forward: bool)
    requires Apart(srcs, dsts, |a|) && si < |srcs| && |a| == |b| == |c| && RowsSoFar(b, srcs, dsts, si, forward)
    requires SameDowns(a, b, Members(srcs)) && SameDowns(b, c, {srcs[si]})
    requires RowSoFar(c[srcs[si]].down, dsts, si, |dsts|, forward)
    ensures RowsSoFar(c, srcs, dsts, si + 1, forward) && SameDowns(a, c, Members(srcs))
  {
    assert srcs[si] in Members(srcs);
  }

  function Members(srcs: seq<nat>): set<nat> {
    set i | 0 <= i < |srcs| :: srcs[i]
  }

  /** All channels of one boundary; refused exactly when some target would have too many. */
  method ConnectChains(tasks0: seq<Task>, srcs: seq<nat>, dsts: seq<nat>, forward: bool)
    returns (tasks: seq<Task>, ok: bool)
    requires Matched(tasks0) && Apart(srcs, dsts, |tasks0|) && srcs != [] && (forward ==> |srcs| == |dsts|)
    requires forall i :: 0 <= i < |srcs| ==> tasks0[srcs[i]].down == []
    ensures Matched(tasks) && SameTasks(tasks0, tasks)
    ensures ok ==> SameDowns(tasks0, tasks, Members(srcs)) && RowsSoFar(tasks, srcs, dsts, |srcs|, forward)
    ensures ok ==> Gained(tasks0, tasks, dsts, RowsGain(|dsts|, |srcs|, forward))
    ensures ok <==> HasRoom(tasks0, dsts, Load(|srcs|, forward))
  {
    tasks := tasks0;
    for si := 0 to |srcs|
      invariant Matched(tasks) && SameTasks(tasks0, tasks) && SameDowns(tasks0, tasks, Members(srcs))
      invariant RowsSoFar(tasks, srcs, dsts, si, forward) && RoomSoFar(tasks0, dsts, si, forward)
      invariant Gained(tasks0, tasks, dsts, RowsGain(|dsts|, si, forward))
    {
      ghost var before := tasks;
      RoomNext(tasks0, tasks, dsts, si, forward);
      tasks, ok := ConnectRow(tasks, srcs[si], si, dsts, forward);
      if !ok {
        return;
      }
      GainRow(tasks0, before, tasks, dsts, si, forward);
      RowsNext(tasks0, before, tasks, srcs, dsts, si, forward);
    }
    ok := true;
  }

  // ---------------------------------------------------------------- all tasks

  predicate PlanOk(plan: Plan, links: seq<Link>) {
    && (forall c :: 0 <= c < |plan.chains| ==> plan.chains[c].parallelism >= 1)
    && (forall k :: 0 <= k < |links| ==>
          && links[k].src in plan.member && plan.member[links[k].src] < |plan.chains|
          && links[k].dst in plan.member && plan.member[links[k].dst] < |plan.chains|)
  }

  /** What the chain planner returns is what the task builder needs. */
  lemma PlanIsUsable(plan: Plan, pos: seq<seq<nat>>, sorted: seq<Operator>, links: seq<Link>, fallback: int)
    requires Topological(sorted, links) && Holds(plan, pos, sorted, |sorted|) && ChainsOk(plan, links, fallback)
    ensures PlanOk(plan, links)
  {
    forall c | 0 <= c < |plan.chains| ensures plan.chains[c].parallelism >= 1 {
      assert ChainOk(links, fallback, plan.chains[c]);
    }
    forall k | 0 <= k < |links|
      ensures links[k].src in plan.member && plan.member[links[k].src] < |plan.chains|
      ensures links[k].dst in plan.member && plan.member[links[k].dst] < |plan.chains|
    {
      var c, j := Sits(plan, pos, sorted, links[k].src);
      var d, i := Sits(plan, pos, sorted, links[k].dst);
    }
  }

  method LayTasks(chains: seq<Chain>, n: nat) returns (tasks: seq<Task>, indexes: seq<seq<nat>>, ok: bool)
    requires forall c :: 0 <= c < |chains| ==> chains[c].parallelism >= 1
    ensures ok <==> forall c :: 0 <= c < |chains| ==> Valid(n, chains[c].parallelism)
    ensures ok ==> Laid(tasks, indexes, chains, n) && Unwired(tasks) && |indexes| == |chains|
  {
    tasks, indexes := [], [];
    for c := 0 to |chains|
      invariant Laid(tasks, indexes, chains, n) && Unwired(tasks) && |indexes| == c
      invariant forall d :: 0 <= d < c ==> Valid(n, chains[d].parallelism)
    {
      var ranges := AllTaskRanges(n, chains[c].parallelism);
      if ranges.None? {
        return tasks, indexes, false;
      }
      var row;
      tasks, row := LayChain(tasks, indexes, chains, n, ranges.value);
      indexes := indexes + [row];
    }
    ok := true;
  }

  lemma ChainsApart(tasks: seq<Task>, indexes: seq<seq<nat>>, chains: seq<Chain>, n: nat, c: nat, d: nat)
    requires Laid(tasks, indexes, chains, n) && c < |indexes| && d < |indexes| && c != d
    ensures Apart(indexes[c], indexes[d], |tasks|)
  {
    forall i | 0 <= i < |indexes[c]|
      ensures indexes[c][i] < |tasks| && tasks[indexes[c][i]].chain == c && tasks[indexes[c][i]].subtask == i
    {
      assert Subtask(tasks, indexes, c, i, n);
    }
    forall t | 0 <= t < |indexes[d]|
      ensures indexes[d][t] < |tasks| && tasks[indexes[d][t]].chain == d && tasks[indexes[d][t]].subtask == t
    {
      assert Subtask(tasks, indexes, d, t, n);
    }
  }

  lemma StillLaid(a: seq<Task>, b: seq<Task>, indexes: seq<seq<nat>>, chains: seq<Chain>, n: nat)
    requires Laid(a, indexes, chains, n) && |a| == |b|
    requires forall t :: 0 <= t < |a| ==>
      a[t].chain == b[t].chain && a[t].subtask == b[t].subtask && a[t].groups == b[t].groups
    ensures Laid(b, indexes, chains, n)
  {
    forall c, i | 0 <= c < |indexes| && 0 <= i < |indexes[c]| ensures Subtask(b, indexes, c, i, n) {
      assert Subtask(a, indexes, c, i, n);
    }
    forall t | 0 <= t < |b| ensures Indexed(b, indexes, t) {
      assert Indexed(a, indexes, t);
    }
  }

  /** The tasks of chain `c` have no downstream channel yet. */
  predicate Silent(tasks: seq<Task>, c: nat) {
    forall t :: 0 <= t < |tasks| && tasks[t].chain == c ==> tasks[t].down == []
  }

  predicate Boundary(plan: Plan, link: Link)
    requires link.src in plan.member && link.dst in plan.member
  {
    plan.member[link.src] != plan.member[link.dst]
  }

  /** Every subtask at the source of a boundary reaches its counterpart, or all targets in order. */
  predicate Wired(tasks: seq<Task>, indexes: seq<seq<nat>>, plan: Plan, link: Link)
    requires link.src in plan.member && link.dst in plan.member
  {
    var c, d := plan.member[link.src], plan.member[link.dst];
    c < |indexes| && d < |indexes| && forall i :: 0 <= i < |indexes[c]| ==>
      indexes[c][i] < |tasks| && Row(tasks[indexes[c][i]].down, indexes[d], i, link.IsForward())
  }

  method MarkOutput(tasks0: seq<Task>, srcs: seq<nat>, n: nat) returns (tasks: seq<Task>)
    requires forall i :: 0 <= i < |srcs| ==> srcs[i] < |tasks0|
    ensures |tasks| == |tasks0|
    ensures forall t :: 0 <= t < |tasks| ==> tasks[t] == if t in srcs then tasks0[t].(outputGroups := n) else tasks0[t]
  {
    tasks := tasks0;
    for i := 0 to |srcs|
      invariant |tasks| == |tasks0|
      invariant forall t :: 0 <= t < |tasks| ==>
        tasks[t] == if t in srcs[..i] then tasks0[t].(outputGroups := n) else tasks0[t]
    {
      assert srcs[..i + 1] == srcs[..i] + [srcs[i]];
      tasks := tasks[srcs[i] := tasks[srcs[i]].(outputGroups := n)];
    }
    assert srcs[..|srcs|] == srcs;
  }

  lemma MarkKeepsMatching(a: seq<Task>, b: seq<Task>)
    requires Matched(a) && |a| == |b|
    requires forall t :: 0 <= t < |a| ==> a[t].down == b[t].down && a[t].up == b[t].up && a[t].subtask == b[t].subtask
    ensures Matched(b)
  {
    forall s, j | 0 <= s < |b| && 0 <= j < |b[s].down| ensures DownMatched(b, s, j) {
      assert DownMatched(a, s, j);
    }
    forall d, p | 0 <= d < |b| && 0 <= p < |b[d].up| ensures UpMatched(b, d, p) {
      assert UpMatched(a, d, p);
    }
    forall s, j, k | 0 <= s < |b| && 0 <= j < k < |b[s].down| ensures b[s].down[j] != b[s].down[k] {
      assert a[s].down[j] != a[s].down[k];
    }
  }

  /** The checks on a boundary link: a supported strategy, no key selector, forward only between equals. */
  predicate LinkAllowed(plan: Plan, link: Link)
    requires link.src in plan.member && link.dst in plan.member
    requires plan.member[link.src] < |plan.chains| && plan.member[link.dst] < |plan.chains|
  {
    && (link.IsForward() || link.shuffle == Hash || link.shuffle == Rebalance) && !link.selector
    && (link.IsForward() ==>
      plan.chains[plan.member[link.src]].parallelism == plan.chains[plan.member[link.dst]].parallelism)
  }

  /** The channels the first `k` links bring to each subtask of chain `d`. */
  function FanIn(plan: Plan, links: seq<Link>, k: nat, d: nat): nat
    requires PlanOk(plan, links) && k <= |links|
  {
    if k == 0 then 0
    else FanIn(plan, links, k - 1, d) + if Boundary(plan, links[k - 1]) && plan.member[links[k - 1].dst]
      == d then LoadOf(plan, links[k - 1]) else 0
  }

  function LoadOf(plan: Plan, link: Link): nat
    requires link.src in plan.member && plan.member[link.src] < |plan.chains|
    requires plan.chains[plan.member[link.src]].parallelism >= 1
  {
    Load(plan.chains[plan.member[link.src]].parallelism, link.IsForward())
  }

  lemma {:induction false} FanInGrows(plan: Plan, links: seq<Link>, j: nat, k: nat, d: nat)
    requires PlanOk(plan, links) && j <= k <= |links|
    ensures FanIn(plan, links, j, d) <= FanIn(plan, links, k, d)
  {
    if j < k {
      FanInGrows(plan, links, j, k - 1, d);
    }
  }

  /** The key-group count the first `k` links leave on the tasks of chain `c`; 0 stands for round-robin. */
  function GroupsOf(plan: Plan, links: seq<Link>, k: nat, c: nat, n: nat): nat
    requires PlanOk(plan, links) && k <= |links|
  {
    if k == 0 then 0
    else if Boundary(plan, links[k - 1]) && plan.member[links[k - 1].src] == c && links[k - 1].shuffle == Hash then n
    else GroupsOf(plan, links, k - 1, c, n)
  }

  predicate GroupsSet(tasks: seq<Task>, plan: Plan, links: seq<Link>, k: nat, n: nat)
    requires PlanOk(plan, links) && k <= |links|
  {
    forall t :: 0 <= t < |tasks| ==> tasks[t].outputGroups == GroupsOf(plan, links, k, tasks[t].chain, n)
  }

  /** What one boundary does to the counts. */
  predicate Marked(a: seq<Task>, b: seq<Task>, plan: Plan, link: Link, n: nat)
    requires link.src in plan.member && |a| == |b|
  {
    forall t :: 0 <= t < |a| ==> b[t].outputGroups == MarkOf(a[t], plan, link, n)
  }

  function MarkOf(task: Task, plan: Plan, link: Link, n: nat): nat
    requires link.src in plan.member
  {
    if link.shuffle == Hash && task.chain == plan.member[link.src] then n else task.outputGroups
  }

  lemma {:induction false} HashGroups(plan: Plan, links: seq<Link>, k: nat, j: nat, n: nat)
    requires PlanOk(plan, links) && k < j <= |links| && Boundary(plan, links[k]) && links[k].shuffle == Hash
    ensures GroupsOf(plan, links, j, plan.member[links[k].src], n) == n
    decreases j
  {
    if j > k + 1 {
      HashGroups(plan, links, k, j - 1, n);
    }
  }

  predicate UpCounts(tasks: seq<Task>, plan: Plan, links: seq<Link>, k: nat)
    requires PlanOk(plan, links) && k <= |links|
  {
    forall t :: 0 <= t < |tasks| ==> |tasks[t].up| == FanIn(plan, links, k, tasks[t].chain)
  }

  /** Exactly the graphs that can be laid out and wired. */
  predicate Buildable(plan: Plan, links: seq<Link>, n: nat)
    requires PlanOk(plan, links)
  {
    && (forall c :: 0 <= c < |plan.chains| ==> Valid(n, plan.chains[c].parallelism))
    && LinksOk(plan, links, |links|)
  }

  /** The first `k` links: each boundary allowed, at most one out of a chain, no target overloaded. */
  predicate LinksOk(plan: Plan, links: seq<Link>, k: nat)
    requires PlanOk(plan, links) && k <= |links|
  {
    && (forall i :: 0 <= i < k && Boundary(plan, links[i]) ==> LinkAllowed(plan, links[i]))
    && (forall i, j :: 0 <= i < j < k && Boundary(plan, links[i]) && Boundary(plan, links[j]) ==>
          plan.member[links[i].src] != plan.member[links[j].src])
    && (forall d :: 0 <= d < |plan.chains| ==> FanIn(plan, links, k, d) <= MAX_PARTITIONS)
  }

  /** The chains with a boundary among the first `k` links. */
  function Bounded(plan: Plan, links: seq<Link>, k: nat): set<nat>
    requires PlanOk(plan, links) && k <= |links|
  {
    set i | 0 <= i < k && Boundary(plan, links[i]) :: plan.member[links[i].src]
  }

  lemma LinksOkNext(plan: Plan, links: seq<Link>, k: nat)
    requires PlanOk(plan, links) && k < |links| && LinksOk(plan, links, k)
    ensures LinksOk(plan, links, k + 1) <==> (Boundary(plan, links[k]) ==> LinkFits(plan, links, k))
  {
    if Boundary(plan, links[k]) && LinksOk(plan, links, k + 1) {
      FitsAfter(plan, links, k);
    } else if !Boundary(plan, links[k]) || LinkFits(plan, links, k) {
      OkAfter(plan, links, k);
    }
  }

  /** The conditions link `k` adds. */
  predicate LinkFits(plan: Plan, links: seq<Link>, k: nat)
    requires PlanOk(plan, links) && k < |links|
  {
    && LinkAllowed(plan, links[k]) && plan.member[links[k].src] !in Bounded(plan, links, k)
    && FanIn(plan, links, k + 1, plan.member[links[k].dst]) <= MAX_PARTITIONS
  }

  lemma FitsAfter(plan: Plan, links: seq<Link>, k: nat)
    requires PlanOk(plan, links) && k < |links| && Boundary(plan, links[k]) && LinksOk(plan, links, k + 1)
    ensures LinkFits(plan, links, k)
  {
    forall i | 0 <= i < k && Boundary(plan, links[i]) ensures plan.member[links[i].src] != plan.member[links[k].src] {
    }
  }

  lemma OkAfter(plan: Plan, links: seq<Link>, k: nat)
    requires PlanOk(plan, links) && k < |links| && LinksOk(plan, links, k)
    requires Boundary(plan, links[k]) ==> LinkFits(plan, links, k)
    ensures LinksOk(plan, links, k + 1)
  {
    var next := k + 1;
    forall d | 0 <= d < |plan.chains| ensures FanIn(plan, links, next, d) <= MAX_PARTITIONS {
      assert FanIn(plan, links, k, d) <= MAX_PARTITIONS;
    }
    forall i | 0 <= i < k && Boundary(plan, links[i]) && Boundary(plan, links[k])
      ensures plan.member[links[i].src] != plan.member[links[k].src]
    {
      assert plan.member[links[i].src] in Bounded(plan, links, k);
    }
  }

  lemma LinksOkBefore(plan: Plan, links: seq<Link>, k: nat)
    requires PlanOk(plan, links) && k <= |links| && LinksOk(plan, links, |links|)
    ensures LinksOk(plan, links, k)
  {
    forall d | 0 <= d < |plan.chains| ensures FanIn(plan, links, k, d) <= MAX_PARTITIONS {
      FanInGrows(plan, links, k, |links|, d);
    }
  }

  lemma CountsNext(a: seq<Task>, b: seq<Task>, indexes: seq<seq<nat>>, plan: Plan, links: seq<Link>, k: nat, n: nat)
    requires PlanOk(plan, links) && k < |links| && Boundary(plan, links[k]) && UpCounts(a, plan, links, k)
    requires Laid(a, indexes, plan.chains, n) && |indexes| == |plan.chains| && |a| == |b|
    requires forall t :: 0 <= t < |a| ==> b[t].chain == a[t].chain
    requires WiredUps(a, b, indexes, plan, links[k])
    ensures UpCounts(b, plan, links, k + 1)
  {
    var d := plan.member[links[k].dst];
    OfChain(a, indexes, plan.chains, n, d);
    forall t | 0 <= t < |b| ensures |b[t].up| == FanIn(plan, links, k + 1, b[t].chain) {
      assert Indexed(a, indexes, t);
      assert a[t].chain == d ==> indexes[d][a[t].subtask] == t;
    }
  }

  /** The upstream ends a boundary adds. */
  predicate WiredUps(a: seq<Task>, b: seq<Task>, indexes: seq<seq<nat>>, plan: Plan, link: Link)
    requires link.src in plan.member && link.dst in plan.member && plan.member[link.src] < |plan.chains| && |a| == |b|
    requires plan.member[link.dst] < |indexes| && plan.chains[plan.member[link.src]].parallelism >= 1
  {
    var dsts := indexes[plan.member[link.dst]];
    && (forall t :: 0 <= t < |dsts| ==> dsts[t] < |a| && |b[dsts[t]].up| == |a[dsts[t]].up| + LoadOf(plan, link))
    && (forall t :: 0 <= t < |a| && t !in dsts ==> |b[t].up| == |a[t].up|)
  }

  /** One boundary link: the checks, then its channels. */
  method WireLink(tasks0: seq<Task>, indexes: seq<seq<nat>>, plan: Plan, link: Link, n: nat)
    returns (tasks: seq<Task>, ok: bool)
    requires Laid(tasks0, indexes, plan.chains, n) && |indexes| == |plan.chains| && Matched(tasks0)
    requires link.src in plan.member && link.dst in plan.member && Boundary(plan, link)
    requires plan.member[link.src] < |indexes| && plan.member[link.dst] < |indexes|
    requires Silent(tasks0, plan.member[link.src])
    requires forall t :: 0 <= t < |indexes[plan.member[link.dst]]| ==> indexes[plan.member[link.dst]][t] < |tasks0|
    ensures ok ==> Laid(tasks, indexes, plan.chains, n) && Matched(tasks) && Wired(tasks, indexes, plan, link)
    ensures ok ==> |tasks| == |tasks0| && forall t :: 0 <= t < |tasks| && tasks0[t].chain != plan.member[link.src] ==>
      tasks[t].down == tasks0[t].down
    ensures ok ==> (forall t :: 0 <= t < |tasks| ==>
      tasks[t].chain == tasks0[t].chain) && WiredUps(tasks0, tasks, indexes, plan, link)
    ensures ok <==> LinkAllowed(plan, link) && HasRoom(tasks0, indexes[plan.member[link.dst]], LoadOf(plan, link))
    ensures ok ==> Marked(tasks0, tasks, plan, link, n)
  {
    var c, d := plan.member[link.src], plan.member[link.dst];
    tasks, ok := tasks0, false;
    if !link.IsForward() && link.shuffle != Hash && link.shuffle != Rebalance {
      return;
    }
    if link.selector || (link.IsForward() && |indexes[c]| != |indexes[d]|) {
      return;
    }
    ChainsApart(tasks0, indexes, plan.chains, n, c, d);
    OfChain(tasks0, indexes, plan.chains, n, c);
    if link.shuffle == Hash {
      tasks := MarkOutput(tasks, indexes[c], n);
    }
    MarkKeepsMatching(tasks0, tasks);
    ghost var marked := tasks;
    tasks, ok := ConnectChains(tasks, indexes[c], indexes[d], link.IsForward());
    StillLaid(tasks0, tasks, indexes, plan.chains, n);
    if ok {
      LinkWired(tasks0, marked, tasks, indexes, plan, link);
      ChainMembers(tasks0, indexes, plan.chains, n, c);
    }
  }

  /** What connecting the two chains says about the link. */
  lemma LinkWired(a: seq<Task>, b: seq<Task>, after: seq<Task>, indexes: seq<seq<nat>>, plan: Plan, link: Link)
    requires link.src in plan.member && link.dst in plan.member && |indexes| == |plan.chains|
    requires plan.member[link.src] < |indexes| && plan.member[link.dst] < |indexes| && |a| == |b|
    requires 1 <= plan.chains[plan.member[link.src]].parallelism == |indexes[plan.member[link.src]]|
    requires forall t :: 0 <= t < |a| ==> b[t].chain == a[t].chain && b[t].down == a[t].down && b[t].up == a[t].up
    requires SameTasks(b, after) && Apart(indexes[plan.member[link.src]], indexes[plan.member[link.dst]], |a|)
    requires link.IsForward() ==> |indexes[plan.member[link.src]]| == |indexes[plan.member[link.dst]]|
    requires SameDowns(b, after, Members(indexes[plan.member[link.src]]))
    requires RowsSoFar(after, indexes[plan.member[link.src]], indexes[plan.member[link.dst]],
      |indexes[plan.member[link.src]]|, link.IsForward())
    requires var dsts := indexes[plan.member[link.dst]];
      Gained(b, after, dsts, RowsGain(|dsts|, |indexes[plan.member[link.src]]|, link.IsForward()))
    ensures Wired(after, indexes, plan, link) && WiredUps(a, after, indexes, plan, link)
  {
  }

  lemma ChainMembers(tasks: seq<Task>, indexes: seq<seq<nat>>, chains: seq<Chain>, n: nat, c: nat)
    requires Laid(tasks, indexes, chains, n) && c < |indexes|
    ensures forall t :: 0 <= t < |tasks| ==> (t in indexes[c] <==> tasks[t].chain == c)
  {
    OfChain(tasks, indexes, chains, n, c);
    forall t | 0 <= t < |tasks| ensures t in indexes[c] <==> tasks[t].chain == c {
      assert Indexed(tasks, indexes, t);
    }
  }

  lemma OfChain(tasks: seq<Task>, indexes: seq<seq<nat>>, chains: seq<Chain>, n: nat, c: nat)
    requires Laid(tasks, indexes, chains, n) && c < |indexes|
    ensures forall i :: 0 <= i < |indexes[c]| ==> indexes[c][i] < |tasks| && tasks[indexes[c][i]].chain == c
  {
    forall i | 0 <= i < |indexes[c]| ensures indexes[c][i] < |tasks| && tasks[indexes[c][i]].chain == c {
      assert Subtask(tasks, indexes, c, i, n);
    }
  }

  predicate WiredUpTo(tasks: seq<Task>, indexes: seq<seq<nat>>, plan: Plan, links: seq<Link>, k: nat)
    requires PlanOk(plan, links) && k <= |links|
  {
    forall i :: 0 <= i < k && Boundary(plan, links[i]) ==> Wired(tasks, indexes, plan, links[i])
  }

  lemma WiredStays(a: seq<Task>, b: seq<Task>, indexes: seq<seq<nat>>, plan: Plan, link: Link, n: nat, c: nat)
    requires link.src in plan.member && link.dst in plan.member && plan.member[link.src] != c
    requires Laid(a, indexes, plan.chains, n) && Wired(a, indexes, plan, link) && |a| == |b|
    requires forall t :: 0 <= t < |b| && a[t].chain != c ==> b[t].down == a[t].down
    ensures Wired(b, indexes, plan, link)
  {
    OfChain(a, indexes, plan.chains, n, plan.member[link.src]);
  }

  /** The targets have room for link `k` exactly when its chain's fan-in stays within the limit. */
  lemma RoomIsFanIn(tasks: seq<Task>, indexes: seq<seq<nat>>, plan: Plan, links: seq<Link>, k: nat, n: nat)
    requires PlanOk(plan, links) && k < |links| && Boundary(plan, links[k]) && UpCounts(tasks, plan, links, k)
    requires Laid(tasks, indexes, plan.chains, n) && |indexes| == |plan.chains|
    requires forall t :: 0 <= t < |indexes[plan.member[links[k].dst]]| ==>
      indexes[plan.member[links[k].dst]][t] < |tasks|
    ensures HasRoom(tasks, indexes[plan.member[links[k].dst]], LoadOf(plan, links[k]))
      <==> FanIn(plan, links, k + 1, plan.member[links[k].dst]) <= MAX_PARTITIONS
  {
    var d := plan.member[links[k].dst];
    assert Subtask(tasks, indexes, d, 0, n);
    OfChain(tasks, indexes, plan.chains, n, d);
  }

  /** Everything the first `k` links wire. */
  predicate WiredState(tasks: seq<Task>, indexes: seq<seq<nat>>, plan: Plan, links: seq<Link>, k: nat, n: nat)
    requires PlanOk(plan, links) && k <= |links|
  {
    && Laid(tasks, indexes, plan.chains, n) && |indexes| == |plan.chains| && Matched(tasks)
    && WiredUpTo(tasks, indexes, plan, links, k) && UpCounts(tasks, plan, links, k)
      && GroupsSet(tasks, plan, links, k, n)
    && forall c :: 0 <= c < |indexes| && c !in Bounded(plan, links, k) ==> Silent(tasks, c)
  }

  /** One link of the loop, given the chains that already have a boundary. */
  method WireNext(tasks0: seq<Task>, indexes: seq<seq<nat>>, plan: Plan, links: seq<Link>, k: nat, n: nat,
                  bounded: set<nat>)
    returns (tasks: seq<Task>, after: set<nat>, ok: bool)
    requires PlanOk(plan, links) && k < |links| && WiredState(tasks0, indexes, plan, links, k, n)
    requires LinksOk(plan, links, k)
    requires bounded == Bounded(plan, links, k)
    ensures ok <==> LinksOk(plan, links, k + 1)
    ensures ok ==> WiredState(tasks, indexes, plan, links, k + 1, n) && after == Bounded(plan, links, k + 1)
  {
    var link := links[k];
    LinksOkNext(plan, links, k);
    tasks, after, ok := tasks0, bounded, true;
    if !Boundary(plan, link) {
      return;
    }
    var c := plan.member[link.src];
    if c in bounded {
      ok := false;
      return;
    }
    OfChain(tasks, indexes, plan.chains, n, plan.member[link.dst]);
    RoomIsFanIn(tasks, indexes, plan, links, k, n);
    tasks, ok := WireLink(tasks, indexes, plan, link, n);
    if !ok {
      return;
    }
    after := bounded + {c};
    WiredStateNext(tasks0, tasks, indexes, plan, links, k, n);
  }

  lemma WiredStateNext(a: seq<Task>, b: seq<Task>, indexes: seq<seq<nat>>, plan: Plan, links: seq<Link>, k: nat, n: nat)
    requires PlanOk(plan, links) && k < |links| && WiredState(a, indexes, plan, links, k, n) && Boundary(plan, links[k])
    requires plan.member[links[k].src] !in Bounded(plan, links, k)
    requires Laid(b, indexes, plan.chains, n) && Matched(b) && Wired(b, indexes, plan, links[k]) && |a| == |b|
    requires forall t :: 0 <= t < |b| && a[t].chain != plan.member[links[k].src] ==> b[t].down == a[t].down
    requires (forall t :: 0 <= t < |b| ==> b[t].chain == a[t].chain) && WiredUps(a, b, indexes, plan, links[k])
    requires Marked(a, b, plan, links[k], n)
    ensures WiredState(b, indexes, plan, links, k + 1, n)
    ensures Bounded(plan, links, k + 1) == Bounded(plan, links, k) + {plan.member[links[k].src]}
  {
    var c := plan.member[links[k].src];
    forall i | 0 <= i < k && Boundary(plan, links[i]) ensures Wired(b, indexes, plan, links[i]) {
      assert plan.member[links[i].src] in Bounded(plan, links, k);
      WiredStays(a, b, indexes, plan, links[i], n, c);
    }
    CountsNext(a, b, indexes, plan, links, k, n);
    assert Bounded(plan, links, k + 1) == Bounded(plan, links, k) + {c};
  }

  method BuildPhysicalTasks(plan: Plan, links: seq<Link>, n: nat)
    returns (r: Option<seq<Task>>, ghost indexes: seq<seq<nat>>)
    requires PlanOk(plan, links)
    ensures r.Some? <==> Buildable(plan, links, n)
    ensures r.Some? ==> Laid(r.value, indexes, plan.chains, n) && |indexes| == |plan.chains| && Matched(r.value)
    ensures r.Some? ==> WiredUpTo(r.value, indexes, plan, links, |links|) && GroupsSet(r.value, plan, links, |links|, n)
  {
    var tasks, places, ok := LayTasks(plan.chains, n);
    indexes := places;
    if !ok {
      return None, indexes;
    }
    var bounded: set<nat> := {};
    for k := 0 to |links|
      invariant WiredState(tasks, places, plan, links, k, n) && LinksOk(plan, links, k)
      invariant bounded == Bounded(plan, links, k)
    {
      if LinksOk(plan, links, |links|) {
        LinksOkBefore(plan, links, k + 1);
      }
      tasks, bounded, ok := WireNext(tasks, places, plan, links, k, n, bounded);
      if !ok {
        return None, indexes;
      }
    }
    return Some(tasks), indexes;
  }

  // ---------------------------------------------------------------- routing

  /**
    On a hash boundary of a built graph the router picks a downstream channel by the key group the
    source task's count gives; that channel leads to the one subtask whose range holds the group.
   */
  lemma RoutedToOwner(tasks: seq<Task>, indexes: seq<seq<nat>>, plan: Plan, links: seq<Link>, k: nat, n: nat, i: nat,
                      g: nat)
    requires PlanOk(plan, links) && Buildable(plan, links, n) && Laid(tasks, indexes, plan.chains, n)
    requires |indexes| == |plan.chains| && WiredUpTo(tasks, indexes, plan, links, |links|)
    requires GroupsSet(tasks, plan, links, |links|, n)
    requires k < |links| && Boundary(plan, links[k]) && links[k].shuffle == Hash
    requires i < |indexes[plan.member[links[k].src]]| && indexes[plan.member[links[k].src]][i] < |tasks|
    requires g < tasks[indexes[plan.member[links[k].src]][i]].outputGroups
    ensures var src := tasks[indexes[plan.member[links[k].src]][i]];
      src.outputGroups > 0 && |src.down| > 0
        && Delivers(tasks, src.down, AssignedTask(g, src.outputGroups, |src.down|), g)
  {
    var c, d := plan.member[links[k].src], plan.member[links[k].dst];
    var src := tasks[indexes[c][i]];
    assert Subtask(tasks, indexes, c, i, n);
    HashGroups(plan, links, k, |links|, n);
    assert Wired(tasks, indexes, plan, links[k]) && Row(src.down, indexes[d], i, false);
    AssignedTaskOwns(g, n, |src.down|);
    forall u | 0 <= u < |src.down|
      ensures src.down[u].task < |tasks| && tasks[src.down[u].task].groups == TaskRange(u, n, |src.down|)
    {
      assert Subtask(tasks, indexes, d, u, n);
    }
  }

  /** Channel `t`, and no other, leads to a task that owns the group. */
  predicate Delivers(tasks: seq<Task>, down: seq<Channel>, t: nat, g: nat) {
    && t < |down| && down[t].task < |tasks| && tasks[down[t].task].groups.Contains(g)
    && forall u :: 0 <= u < |down| && down[u].task < |tasks| && tasks[down[u].task].groups.Contains(g) ==> u == t
  }
}
