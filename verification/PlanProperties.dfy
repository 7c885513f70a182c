/** What an accepted rescale plan guarantees, and that well-formed topologies are accepted. */
module PlanProperties {
  import opened Basics
  import opened KeyGroups
  import opened RescalePlan

  function Clamp(x: int, lo: int, hi: int): int {
    if x < lo then lo else if x > hi then hi else x
  }

  predicate NonEmpty(ts: seq<Task>) {
    forall k :: 0 <= k < |ts| ==> ts[k].lo <= ts[k].hi
  }

  lemma {:induction false} NextStartsRise(ts: seq<Task>, n: int, chain: string, i: nat, j: nat)
    requires Tiled(ts, n, chain) && NonEmpty(ts) && i <= j <= |ts|
    ensures NextStart(ts, i) <= NextStart(ts, j) && (i < j ==> NextStart(ts, i) < NextStart(ts, j))
    decreases j
  {
    if i < j {
      NextStartsRise(ts, n, chain, i, j - 1);
      assert Fits(ts, j - 1, chain);
    }
  }

  /** Through tiled sources the planner's cursor never meets a gap. */
  lemma {:induction false} ProgressIsClamp(target: Task, sources: seq<Task>, n: int, chain: string, k: nat)
    requires Tiled(sources, n, chain) && NonEmpty(sources) && 0 <= target.lo <= target.hi && k <= |sources|
    ensures Progress(target, sources, k) == Some(Clamp(NextStart(sources, k), target.lo, target.hi + 1))
  {
    if k > 0 {
      ProgressIsClamp(target, sources, n, chain, k - 1);
      assert Fits(sources, k - 1, chain);
    }
  }

  /** The planner's last check can never fail once the tilings hold. */
  lemma CoverageIsRedundant(target: Task, sources: seq<Task>, n: int, chain: string)
    requires Tiled(sources, n, chain) && NonEmpty(sources) && IntervalOk(target, n)
    ensures Covered(target, sources)
  {
    ProgressIsClamp(target, sources, n, chain, |sources|);
  }

  // ---------------------------------------------------------------- the parts of one target

  /** Adjacent parts from `lo` up to `end`, exclusive. */
  predicate Abut(parts: seq<Part>, lo: int, end: int) {
    && (forall i :: 0 <= i < |parts| ==> parts[i].lo <= parts[i].hi)
    && (forall i :: 0 <= i < |parts| ==> parts[i].lo == if i == 0 then lo else parts[i - 1].hi + 1)
    && end == (if parts == [] then lo else parts[|parts| - 1].hi + 1)
  }

  lemma {:induction false} PartsAbut(cp: Snapshot, target: Task, sources: seq<Task>, k: nat)
    requires k <= |sources| && Progress(target, sources, k).Some?
    ensures Abut(Parts(cp, target, sources, k), target.lo, Progress(target, sources, k).value)
  {
    if k > 0 {
      PartsAbut(cp, target, sources, k - 1);
    }
  }

  /** Each part is the overlap with one source, and names that source and its replica. */
  predicate TakenFrom(cp: Snapshot, target: Task, s: Task, part: Part) {
    && part.source == s.id && part.replica == Find(cp.replicas, s.id)
    && part.lo == MaxInt(s.lo, target.lo) && part.hi == MinInt(s.hi, target.hi) && part.lo <= part.hi
  }

  lemma {:induction false} PartsTaken(cp: Snapshot, target: Task, sources: seq<Task>, k: nat, part: Part)
    requires k <= |sources| && part in Parts(cp, target, sources, k)
    ensures exists s :: s in sources && TakenFrom(cp, target, s, part)
  {
    var s := sources[k - 1];
    if part in Parts(cp, target, sources, k - 1) {
      PartsTaken(cp, target, sources, k - 1, part);
    } else {
      assert TakenFrom(cp, target, s, part);
    }
  }

  lemma {:induction false} OverlapIsPart(cp: Snapshot, target: Task, sources: seq<Task>, k: nat, i: nat)
    requires i < k <= |sources|
    requires MaxInt(sources[i].lo, target.lo) <= MinInt(sources[i].hi, target.hi)
    ensures exists part :: part in Parts(cp, target, sources, k) && TakenFrom(cp, target, sources[i], part)
  {
    if i < k - 1 {
      OverlapIsPart(cp, target, sources, k - 1, i);
    } else {
      var s := sources[i];
      var part := Part(s.id, Find(cp.replicas, s.id), MaxInt(s.lo, target.lo), MinInt(s.hi, target.hi));
      assert Parts(cp, target, sources, k) == Parts(cp, target, sources, i) + [part];
      assert part in Parts(cp, target, sources, k) && TakenFrom(cp, target, s, part);
    }
  }

  // ---------------------------------------------------------------- owners

  predicate Holds(t: Task, g: int) {
    t.lo <= g <= t.hi
  }

  lemma {:induction false} TiledOwner(ts: seq<Task>, n: int, chain: string, k: nat, g: int) returns (i: nat)
    requires Tiled(ts, n, chain) && k <= |ts| && 0 <= g < NextStart(ts, k)
    ensures i < k && Holds(ts[i], g)
  {
    assert k > 0 && Fits(ts, k - 1, chain);
    if g >= ts[k - 1].lo {
      i := k - 1;
    } else {
      i := TiledOwner(ts, n, chain, k - 1, g);
    }
  }

  lemma TiledOwnerUnique(ts: seq<Task>, n: int, chain: string, g: int, i: nat, j: nat)
    requires Tiled(ts, n, chain) && NonEmpty(ts) && i < |ts| && j < |ts| && Holds(ts[i], g) && Holds(ts[j], g)
    ensures i == j
  {
    assert Fits(ts, i, chain) && Fits(ts, j, chain);
    if i < j {
      NextStartsRise(ts, n, chain, i + 1, j);
    } else if j < i {
      NextStartsRise(ts, n, chain, j + 1, i);
    }
  }

  lemma SourcesNonEmpty(cp: Snapshot, prior: seq<Task>, op: string)
    requires SnapshotOk(cp, prior)
    ensures NonEmpty(Sources(prior, op))
  {
    forall k | 0 <= k < |Sources(prior, op)| ensures Sources(prior, op)[k].lo <= Sources(prior, op)[k].hi {
      SourceMembers(prior, op, Sources(prior, op)[k]);
    }
  }

  lemma TargetsNonEmpty(prior: seq<Task>, targets: seq<Task>, n: int, op: string)
    requires AllTargetsOk(prior, targets, n)
    ensures NonEmpty(Sources(targets, op))
  {
    forall k | 0 <= k < |Sources(targets, op)| ensures Sources(targets, op)[k].lo <= Sources(targets, op)[k].hi {
      SourceMembers(targets, op, Sources(targets, op)[k]);
      assert TargetOk(prior, n, Sources(targets, op)[k]);
    }
  }

  /** Every group of an operator has exactly one old owner. */
  lemma OldOwner(cp: Snapshot, prior: seq<Task>, op: string, g: int) returns (s: Task)
    requires SnapshotOk(cp, prior) && AllSourcesTiled(prior, cp.groups) && op in Operators(prior) && 0 <= g < cp.groups
    ensures s in prior && s.operator == op && Holds(s, g)
    ensures forall o :: o in prior && o.operator == op && Holds(o, g) ==> o == s
  {
    var ts := Sources(prior, op);
    assert SourcesTiled(prior, op, cp.groups);
    SourcesNonEmpty(cp, prior, op);
    var i := TiledOwner(ts, cp.groups, ts[0].chain, |ts|, g);
    s := ts[i];
    SourceMembers(prior, op, s);
    forall o | o in prior && o.operator == op && Holds(o, g) ensures o == s {
      SourceMembers(prior, op, o);
      var j :| 0 <= j < |ts| && ts[j] == o;
      TiledOwnerUnique(ts, cp.groups, ts[0].chain, g, i, j);
    }
  }

  /** Two new tasks of one operator never hold the same group. */
  lemma NewOwnerUnique(cp: Snapshot, prior: seq<Task>, targets: seq<Task>, g: int, t: Task, u: Task)
    requires Accepts(cp, prior, targets) && t in targets && u in targets && t.operator == u.operator
    requires Holds(t, g) && Holds(u, g)
    ensures t == u
  {
    var op := t.operator;
    assert op in Operators(targets) && TargetsTiled(prior, targets, op, cp.groups);
    TargetsNonEmpty(prior, targets, cp.groups, op);
    var ts := Sources(targets, op);
    SourceMembers(targets, op, t);
    SourceMembers(targets, op, u);
    var i :| 0 <= i < |ts| && ts[i] == t;
    var j :| 0 <= j < |ts| && ts[j] == u;
    TiledOwnerUnique(ts, cp.groups, Sources(prior, op)[0].chain, g, i, j);
  }

  /** The plan of an accepted target starts at its first group, has no gap or overlap, and ends at its last. */
  lemma PlanCoversTarget(cp: Snapshot, prior: seq<Task>, targets: seq<Task>, t: Task)
    requires Accepts(cp, prior, targets) && t in targets
    ensures Abut(PlanOf(cp, prior, t), t.lo, t.hi + 1) && PlanOf(cp, prior, t) != []
  {
    assert TargetOk(prior, cp.groups, t);
    var sources := Sources(prior, t.operator);
    PartsAbut(cp, t, sources, |sources|);
  }

  // ---------------------------------------------------------------- agreement with the two-cursor mapping

  /** The planner's tasks carry the ranges of the mapping, as inclusive intervals. */
  predicate Carries(ts: seq<Task>, rs: seq<Range>) {
    |ts| == |rs| && forall k :: 0 <= k < |ts| ==> ts[k].lo == rs[k].start && ts[k].hi == rs[k].end - 1
  }

  function HalfOpen(parts: seq<Part>): seq<Range>
    requires forall i :: 0 <= i < |parts| ==> 0 <= parts[i].lo <= parts[i].hi
  {
    seq(|parts|, i requires 0 <= i < |parts| => Range(parts[i].lo, parts[i].hi + 1))
  }

  lemma {:induction false} PlanAgreesWithMapping(cp: Snapshot, target: Task, sources: seq<Task>, rs: seq<Range>,
                                                 r: Range, k: nat)
    requires Carries(sources, rs) && target.lo == r.start && target.hi == r.end - 1 && k <= |sources|
    ensures forall i :: 0 <= i < |Parts(cp, target, sources, k)| ==>
      0 <= Parts(cp, target, sources, k)[i].lo <= Parts(cp, target, sources, k)[i].hi
    ensures HalfOpen(Parts(cp, target, sources, k)) == Cuts(rs, k, r)
  {
    if k > 0 {
      PlanAgreesWithMapping(cp, target, sources, rs, r, k - 1);
      var last := Overlap(rs[k - 1], r);
      var before, parts := Parts(cp, target, sources, k - 1), Parts(cp, target, sources, k);
      if last.start < last.end {
        assert parts
          == before + [Part(sources[k - 1].id, Find(cp.replicas, sources[k - 1].id), last.start, last.end - 1)];
      } else {
        assert parts == before;
      }
    }
  }
}
