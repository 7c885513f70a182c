/**
  Copying keyed state between tasks at a rescale (internal/engine/state_rescale.go,
  state_key_groups.go) and the end-to-end guarantee: routed by the new assignment, every key
  finds the value its old owner had.
 */
module StateRescale {
  import opened KeyGroups
  import opened StateKeys
  import opened RescalePlan
  import opened PlanProperties

  type State = map<Bytes, Bytes>

  datatype Handle = Handle(checkpoint: nat, state: State)

  /** An interval of key groups taken from one snapshot. */
  datatype Piece = Piece(groups: Range, snapshot: Handle)

  predicate RangeOk(r: Range) {
    r.start < r.end <= MAX_KEY_GROUPS
  }

  /** The key lies between the two group prefixes, in byte order. */
  predicate Scanned(key: Bytes, r: Range)
    requires RangeOk(r)
  {
    !Less(key, Put16(r.start as uint16)) && Less(key, Put16(r.end as uint16))
  }

  function Restrict(m: State, r: Range): State
    requires RangeOk(r)
  {
    map key | key in m && Scanned(key, r) :: m[key]
  }

  function InsertPiece(p: Piece, ps: seq<Piece>): seq<Piece> {
    if ps == [] || p.groups.start <= ps[0].groups.start then [p] + ps else [ps[0]] + InsertPiece(p, ps[1..])
  }

  function SortPieces(ps: seq<Piece>): seq<Piece> {
    if ps == [] then [] else InsertPiece(ps[0], SortPieces(ps[1..]))
  }

  function NextGroup(own: Range, ps: seq<Piece>, k: nat): nat
    requires k <= |ps|
  {
    if k == 0 then own.start else ps[k - 1].groups.end
  }

  predicate Continues(own: Range, ps: seq<Piece>, k: nat)
    requires k < |ps|
  {
    && ps[k].groups.start == NextGroup(own, ps, k) < ps[k].groups.end <= own.end
    && ps[k].snapshot.checkpoint == ps[0].snapshot.checkpoint != 0
  }

  /** Ordered pieces of one checkpoint that cover the assigned range exactly once. */
  predicate Covers(own: Range, ps: seq<Piece>) {
    && RangeOk(own) && |ps| > 0
    && (forall k {:trigger Continues(own, ps, k)} :: 0 <= k < |ps| ==> Continues(own, ps, k))
    && NextGroup(own, ps, |ps|) == own.end
  }

  /** The state assembled from the first `k` pieces. */
  function Assemble(own: Range, ps: seq<Piece>, k: nat): State
    requires Covers(own, ps) && k <= |ps|
  {
    if k == 0 then map[]
    else
      assert Continues(own, ps, k - 1);
      Assemble(own, ps, k - 1) + Restrict(ps[k - 1].snapshot.state, ps[k - 1].groups)
  }

  function Without(m: State, keys: set<Bytes>): State {
    map key | key in m && key !in keys :: m[key]
  }

  /** The target after all entries but those still to visit. */
  ghost function Filled(target: State, m: State, rest: set<Bytes>): State {
    target + Without(m, rest)
  }

  lemma FilledNext(target: State, m: State, rest: set<Bytes>, key: Bytes)
    requires key in rest && rest <= m.Keys
    ensures Filled(target, m, rest - {key}) == Filled(target, m, rest)[key := m[key]]
  {
  }

  lemma FilledEnds(target: State, m: State)
    ensures Filled(target, m, m.Keys) == target && Filled(target, m, {}) == target + m
  {
    assert Without(m, m.Keys) == map[] && Without(m, {}) == m;
  }

  class PebbleStateBackend {
    var open: bool
    var state: State

    constructor ()
      ensures open && state == map[]
    {
      open, state := true, map[];
    }

    /** Visits the keys of a group interval, handing each entry to the target. */
    method VisitKeyGroupRange(groups: Range, target: State) returns (ok: bool, filled: State)
      ensures ok <==> open && RangeOk(groups)
      ensures ok ==> filled == target + Restrict(state, groups)
    {
      filled := target;
      if !RangeOk(groups) || !open {
        return false, target;
      }
      var selected := Restrict(state, groups);
      filled := VisitAll(selected, target);
      ok := true;
    }

    method VisitAll(selected: State, target: State) returns (filled: State)
      ensures filled == target + selected
    {
      filled := target;
      var rest := selected.Keys;
      FilledEnds(target, selected);
      while rest != {}
        invariant rest <= selected.Keys && filled == Filled(target, selected, rest)
        decreases |rest|
      {
        var key :| key in rest;
        FilledNext(target, selected, rest, key);
        filled := filled[key := selected[key]];
        rest := rest - {key};
      }
    }

    method CheckCoverage(own: Range, ps: seq<Piece>) returns (ok: bool)
      ensures ok <==> Covers(own, ps)
    {
      if !RangeOk(own) || |ps| == 0 {
        return false;
      }
      var next, checkpoint := own.start, ps[0].snapshot.checkpoint;
      for i := 0 to |ps|
        invariant next == NextGroup(own, ps, i)
        invariant forall k {:trigger Continues(own, ps, k)} :: 0 <= k < i ==> Continues(own, ps, k)
      {
        var part := ps[i];
        if part.groups.start != next || part.groups.end <= next || part.groups.end > own.end
           || part.snapshot.checkpoint != checkpoint || checkpoint == 0 {
          assert !Continues(own, ps, i);
          return false;
        }
        next := part.groups.end;
      }
      return next == own.end;
    }

    /** Assembles the replacement aside and publishes it only when every piece is in place. */
    method RestoreKeyGroupRanges(own: Range, parts: seq<Piece>) returns (ok: bool)
      modifies this
      ensures open == old(open)
      ensures ok <==> open && Covers(own, SortPieces(parts))
      ensures ok ==> state == Assemble(own, SortPieces(parts), |SortPieces(parts)|)
      ensures !ok ==> state == old(state)
    {
      var ordered := SortPieces(parts);
      var covered := CheckCoverage(own, ordered);
      if !covered || !open {
        return false;
      }
      var staging: State := map[];
      for i := 0 to |ordered|
        invariant staging == Assemble(own, ordered, i) && open && state == old(state)
      {
        assert Continues(own, ordered, i);
        var source := new PebbleStateBackend();
        source.state := ordered[i].snapshot.state;
        var visited;
        visited, staging := source.VisitKeyGroupRange(ordered[i].groups, staging);
      }
      state := staging;
      return true;
    }
  }

  // ---------------------------------------------------------------- from the plan to the pieces

  /** The downloaded snapshots of the old tasks, by task id. */
  type Snapshots = map<string, Handle>

  predicate Downloaded(cp: Snapshot, prior: seq<Task>, snaps: Snapshots) {
    && (forall t :: t in prior ==> t.id in snaps)
    && (forall id, other :: id in snaps && other in snaps ==> snaps[id].checkpoint == snaps[other].checkpoint != 0)
  }

  /** Every part's source has been downloaded and its interval is proper. */
  predicate Fetched(plan: seq<Part>, snaps: Snapshots) {
    forall i :: 0 <= i < |plan| ==> plan[i].source in snaps && 0 <= plan[i].lo <= plan[i].hi
  }

  function Pieces(plan: seq<Part>, snaps: Snapshots): seq<Piece>
    requires Fetched(plan, snaps)
  {
    seq(|plan|, i requires 0 <= i < |plan| => Piece(Range(plan[i].lo, plan[i].hi + 1), snaps[plan[i].source]))
  }

  predicate Ascending(ps: seq<Piece>) {
    forall i :: 0 < i < |ps| ==> ps[i - 1].groups.start <= ps[i].groups.start
  }

  lemma {:induction false} SortedAlready(ps: seq<Piece>)
    requires Ascending(ps)
    ensures SortPieces(ps) == ps
  {
    if ps != [] {
      var rest := ps[1..];
      forall i | 0 < i < |rest| ensures rest[i - 1].groups.start <= rest[i].groups.start {
        assert ps[i].groups.start <= ps[i + 1].groups.start;
      }
      SortedAlready(rest);
      if rest != [] {
        assert ps[0].groups.start <= ps[1].groups.start;
      }
    }
  }

  /** The pieces a new task downloads for its part of an accepted plan. */
  lemma PlannedPieces(cp: Snapshot, prior: seq<Task>, targets: seq<Task>, t: Task, snaps: Snapshots)
    requires Accepts(cp, prior, targets) && t in targets && Downloaded(cp, prior, snaps)
    ensures Fetched(PlanOf(cp, prior, t), snaps)
  {
    var sources := Sources(prior, t.operator);
    assert TargetOk(prior, cp.groups, t);
    forall i | 0 <= i < |PlanOf(cp, prior, t)|
      ensures PlanOf(cp, prior, t)[i].source in snaps && 0 <= PlanOf(cp, prior, t)[i].lo <= PlanOf(cp, prior, t)[i].hi
    {
      var part := PlanOf(cp, prior, t)[i];
      PartsTaken(cp, t, sources, |sources|, part);
      var s :| s in sources && TakenFrom(cp, t, s, part);
      SourceMembers(prior, t.operator, s);
    }
  }

  function OwnRange(t: Task): Range
    requires 0 <= t.lo <= t.hi
  {
    Range(t.lo, t.hi + 1)
  }

  /** The parts of an accepted plan always pass the restore's coverage check. */
  lemma PlanPassesRestore(cp: Snapshot, prior: seq<Task>, targets: seq<Task>, t: Task, snaps: Snapshots, ps: seq<Piece>)
    requires Accepts(cp, prior, targets) && t in targets && Downloaded(cp, prior, snaps) && IntervalOk(t, cp.groups)
    requires Fetched(PlanOf(cp, prior, t), snaps) && ps == Pieces(PlanOf(cp, prior, t), snaps)
    ensures SortPieces(ps) == ps && Covers(OwnRange(t), ps)
  {
    var plan := PlanOf(cp, prior, t);
    PlanCoversTarget(cp, prior, targets, t);
    forall i | 0 < i < |ps| ensures ps[i - 1].groups.start <= ps[i].groups.start {
      assert plan[i].lo == plan[i - 1].hi + 1;
    }
    SortedAlready(ps);
    AbutIsContinuous(plan, snaps, OwnRange(t), ps);
  }

  lemma {:induction false} PartsStayBelow(plan: seq<Part>, lo: int, end: int, i: nat)
    requires Abut(plan, lo, end) && i < |plan|
    ensures plan[i].hi < end
    decreases |plan| - i
  {
    if i + 1 < |plan| {
      PartsStayBelow(plan, lo, end, i + 1);
      assert plan[i + 1].lo == plan[i].hi + 1;
    }
  }

  lemma AbutIsContinuous(plan: seq<Part>, snaps: Snapshots, own: Range, ps: seq<Piece>)
    requires RangeOk(own) && plan != [] && Abut(plan, own.start, own.end)
    requires Fetched(plan, snaps)
    requires forall id, other :: id in snaps && other in snaps ==> snaps[id].checkpoint == snaps[other].checkpoint != 0
    requires ps == Pieces(plan, snaps)
    ensures Covers(own, ps)
  {
    forall k | 0 <= k < |ps| ensures Continues(own, ps, k) {
      PartsStayBelow(plan, own.start, own.end, k);
      assert plan[k].lo == if k == 0 then own.start else plan[k - 1].hi + 1;
    }
  }
}
