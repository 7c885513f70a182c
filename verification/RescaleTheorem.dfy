/** A rescale keeps every keyed value and puts it where the router looks for it. */
module RescaleTheorem {
  import opened KeyGroups
  import opened StateKeys
  import opened RescalePlan
  import opened PlanProperties
  import opened StateRescale

  // ---------------------------------------------------------------- assembled state

  lemma {:induction false} PiecesRise(own: Range, ps: seq<Piece>, i: nat, j: nat)
    requires Covers(own, ps) && i < j < |ps|
    ensures ps[i].groups.end <= ps[j].groups.start
    decreases j
  {
    assert Continues(own, ps, j);
    if i + 1 < j {
      PiecesRise(own, ps, i, j - 1);
      assert Continues(own, ps, j - 1);
    }
  }

  lemma {:induction false} PieceOf(own: Range, ps: seq<Piece>, k: nat, g: nat) returns (i: nat)
    requires Covers(own, ps) && k <= |ps| && own.start <= g < NextGroup(own, ps, k)
    ensures i < k && ps[i].groups.Contains(g)
  {
    assert k > 0 && Continues(own, ps, k - 1);
    if g >= ps[k - 1].groups.start {
      i := k - 1;
    } else {
      i := PieceOf(own, ps, k - 1, g);
    }
  }

  lemma RestrictedKey(m: State, r: Range, key: Bytes)
    requires RangeOk(r) && |key| >= 2
    ensures key in Restrict(m, r) <==> key in m && r.Contains(Get16(key) as nat)
  {
    PrefixBounds(key, r.start as uint16, r.end as uint16);
  }

  /** A key of the groups of piece `i` comes from that piece alone. */
  lemma {:induction false} AssembledKey(own: Range, ps: seq<Piece>, k: nat, i: nat, key: Bytes)
    requires Covers(own, ps) && i < k <= |ps| && |key| >= 2 && ps[i].groups.Contains(Get16(key) as nat)
    ensures key in Assemble(own, ps, k) <==> key in ps[i].snapshot.state
    ensures key in Assemble(own, ps, k) ==> Assemble(own, ps, k)[key] == ps[i].snapshot.state[key]
    decreases k
  {
    assert Continues(own, ps, k - 1);
    RestrictedKey(ps[k - 1].snapshot.state, ps[k - 1].groups, key);
    if i < k - 1 {
      AssembledKey(own, ps, k - 1, i, key);
      PiecesRise(own, ps, i, k - 1);
    } else {
      AbsentBefore(own, ps, k - 1, key);
    }
  }

  lemma {:induction false} AbsentBefore(own: Range, ps: seq<Piece>, k: nat, key: Bytes)
    requires Covers(own, ps) && k <= |ps| && |key| >= 2
    requires Get16(key) as nat < own.start || NextGroup(own, ps, k) <= Get16(key) as nat
    ensures key !in Assemble(own, ps, k)
  {
    if k > 0 {
      assert Continues(own, ps, k - 1);
      RestrictedKey(ps[k - 1].snapshot.state, ps[k - 1].groups, key);
      if own.start <= Get16(key) as nat {
        AbsentBefore(own, ps, k - 1, key);
      } else {
        AbsentBefore(own, ps, k - 1, key);
        StartsWithin(own, ps, k - 1);
      }
    }
  }

  lemma {:induction false} StartsWithin(own: Range, ps: seq<Piece>, k: nat)
    requires Covers(own, ps) && k < |ps|
    ensures own.start <= ps[k].groups.start
  {
    assert Continues(own, ps, k);
    if k > 0 {
      StartsWithin(own, ps, k - 1);
      assert Continues(own, ps, k - 1);
    }
  }

  // ---------------------------------------------------------------- one new task

  /** What the restored task holds, for any key long enough to carry its group. */
  predicate HoldsExactly(after: State, t: Task, before: State, key: Bytes)
    requires |key| >= 2
  {
    && (key in after <==> Holds(t, Get16(key) as int) && key in before)
    && (key in after ==> after[key] == before[key])
  }

  lemma PieceComesFromOwner(cp: Snapshot, prior: seq<Task>, t: Task, s: Task, i: nat, g: int)
    requires SnapshotOk(cp, prior) && AllSourcesTiled(prior, cp.groups) && t.operator in Operators(prior)
    requires s in prior && s.operator == t.operator && Holds(s, g) && 0 <= g < cp.groups
    requires i < |PlanOf(cp, prior, t)| && PlanOf(cp, prior, t)[i].lo <= g <= PlanOf(cp, prior, t)[i].hi
    ensures PlanOf(cp, prior, t)[i].source == s.id
  {
    var sources := Sources(prior, t.operator);
    var part := PlanOf(cp, prior, t)[i];
    PartsTaken(cp, t, sources, |sources|, part);
    var from :| from in sources && TakenFrom(cp, t, from, part);
    SourceMembers(prior, t.operator, from);
    var owner := OldOwner(cp, prior, t.operator, g);
  }

  lemma RestoredHoldsExactly(cp: Snapshot, prior: seq<Task>, targets: seq<Task>, t: Task, snaps: Snapshots,
                             ps: seq<Piece>, s: Task, key: Bytes)
    requires Accepts(cp, prior, targets) && t in targets && Downloaded(cp, prior, snaps) && IntervalOk(t, cp.groups)
    requires Fetched(PlanOf(cp, prior, t), snaps) && ps == Pieces(PlanOf(cp, prior, t), snaps)
    requires Covers(OwnRange(t), ps)
    requires |key| >= 2 && Get16(key) as int < cp.groups
    requires s in prior && s.operator == t.operator && Holds(s, Get16(key) as int)
    ensures HoldsExactly(Assemble(OwnRange(t), ps, |ps|), t, snaps[s.id].state, key)
  {
    var g := Get16(key) as nat;
    if Holds(t, g) {
      var i := PieceOf(OwnRange(t), ps, |ps|, g);
      AssembledKey(OwnRange(t), ps, |ps|, i, key);
      assert t.operator in Operators(targets);
      PieceComesFromOwner(cp, prior, t, s, i, g);
    } else {
      AbsentBefore(OwnRange(t), ps, |ps|, key);
    }
  }

  // ---------------------------------------------------------------- routing

  /** The task carries the interval of index `j` among `p`. */
  predicate Indexed(t: Task, j: nat, n: nat, p: nat)
    requires p > 0
  {
    t.lo == TaskRange(j, n, p).start && t.hi == TaskRange(j, n, p).end - 1
  }

  /** A task's restored state never holds a key outside its own groups. */
  lemma NoStrayKeys(own: Range, ps: seq<Piece>, key: Bytes)
    requires Covers(own, ps) && |key| >= 2 && !own.Contains(Get16(key) as nat)
    ensures key !in Assemble(own, ps, |ps|)
  {
    AbsentBefore(own, ps, |ps|, key);
  }

  /** The plan's parts for a new task are downloaded and pass the restore's coverage check. */
  predicate Restorable(cp: Snapshot, prior: seq<Task>, snaps: Snapshots, t: Task) {
    && IntervalOk(t, cp.groups) && Fetched(PlanOf(cp, prior, t), snaps)
    && Covers(OwnRange(t), Pieces(PlanOf(cp, prior, t), snaps))
  }

  /** The state a new task has after the restore. */
  function RestoredState(cp: Snapshot, prior: seq<Task>, snaps: Snapshots, t: Task): State
    requires Restorable(cp, prior, snaps, t)
  {
    var ps := Pieces(PlanOf(cp, prior, t), snaps);
    Assemble(OwnRange(t), ps, |ps|)
  }

  /**
    Let a record's key fall in group `g`.  Before the rescale it was routed to the old task of index
    AssignedTask(g, n, oldP), afterwards to the new task of index AssignedTask(g, n, newP).  The new
    task has the entry exactly when the old one had it, with the same value; and no other new task
    of the operator has it at all.
   */
  lemma RoutedKeyFindsItsState(cp: Snapshot, prior: seq<Task>, targets: seq<Task>, snaps: Snapshots,
                               oldP: nat, newP: nat, s: Task, t: Task, key: Bytes)
    requires Accepts(cp, prior, targets) && Downloaded(cp, prior, snaps)
    requires Valid(cp.groups, oldP) && Valid(cp.groups, newP)
    requires |key| >= MIN_KEY_SIZE && Get16(key) as int < cp.groups
    requires s in prior && t in targets && s.operator == t.operator
    requires Indexed(s, AssignedTask(Get16(key) as nat, cp.groups, oldP), cp.groups, oldP)
    requires Indexed(t, AssignedTask(Get16(key) as nat, cp.groups, newP), cp.groups, newP)
    ensures Restorable(cp, prior, snaps, t)
    ensures var after, before := RestoredState(cp, prior, snaps, t), snaps[s.id].state;
      (key in after <==> key in before) && (key in after ==> after[key] == before[key])
    ensures forall u :: u in targets && u.operator == t.operator && u != t ==>
      Restorable(cp, prior, snaps, u) && key !in RestoredState(cp, prior, snaps, u)
  {
    var g := Get16(key) as nat;
    AssignedTaskOwns(g, cp.groups, oldP);
    AssignedTaskOwns(g, cp.groups, newP);
    TargetRestores(cp, prior, targets, snaps, t);
    RestoredHoldsExactly(cp, prior, targets, t, snaps, Pieces(PlanOf(cp, prior, t), snaps), s, key);
    forall u | u in targets && u.operator == t.operator && u != t
      ensures Restorable(cp, prior, snaps, u) && key !in RestoredState(cp, prior, snaps, u)
    {
      TargetRestores(cp, prior, targets, snaps, u);
      if Holds(u, g) {
        NewOwnerUnique(cp, prior, targets, g, t, u);
      } else {
        var ps := Pieces(PlanOf(cp, prior, u), snaps);
        NoStrayKeys(OwnRange(u), ps, key);
      }
    }
  }

  lemma TargetRestores(cp: Snapshot, prior: seq<Task>, targets: seq<Task>, snaps: Snapshots, t: Task)
    requires Accepts(cp, prior, targets) && Downloaded(cp, prior, snaps) && t in targets
    ensures Restorable(cp, prior, snaps, t)
  {
    assert TargetOk(prior, cp.groups, t);
    PlannedPieces(cp, prior, targets, t, snaps);
    PlanPassesRestore(cp, prior, targets, t, snaps, Pieces(PlanOf(cp, prior, t), snaps));
  }

  // ---------------------------------------------------------------- every parallelism is accepted

  /** An operator's tasks as the scheduler generates them: in index order, one range each. */
  predicate Generated(ts: seq<Task>, n: nat, p: nat, chain: string) {
    && 1 <= p && |ts| == p
    && forall j :: 0 <= j < p ==> ts[j].groups == n && ts[j].chain == chain && Indexed(ts[j], j, n, p)
  }

  lemma {:induction false} SortedStays(ts: seq<Task>)
    requires forall i :: 0 < i < |ts| ==> ts[i - 1].lo <= ts[i].lo
    ensures Sorted(ts) == ts
  {
    if ts != [] {
      var rest := ts[1..];
      forall i | 0 < i < |rest| ensures rest[i - 1].lo <= rest[i].lo {
        assert ts[i].lo <= ts[i + 1].lo;
      }
      SortedStays(rest);
      if rest != [] {
        assert ts[0].lo <= ts[1].lo;
      }
    }
  }

  lemma GeneratedTiles(ts: seq<Task>, n: nat, p: nat, chain: string)
    requires Valid(n, p) && Generated(ts, n, p, chain)
    ensures Sorted(ts) == ts && Tiled(ts, n, chain)
    ensures forall t :: t in ts ==> IntervalOk(t, n)
  {
    Ends(n, p);
    forall j | 0 <= j < p ensures ts[j].lo < ts[j].hi + 1 && 0 <= ts[j].lo && ts[j].hi < n {
      StartRises(j, n, p);
      StartsRise(0, j, n, p);
      StartsRise(j + 1, p, n, p);
    }
    forall i | 0 < i < |ts| ensures ts[i - 1].lo <= ts[i].lo {
      StartsRise(i - 1, i, n, p);
    }
    SortedStays(ts);
    forall k | 0 <= k < |ts| ensures Fits(ts, k, chain) {
      assert Indexed(ts[k], k, n, p);
      if k > 0 {
        assert Indexed(ts[k - 1], k - 1, n, p);
      }
    }
    assert Indexed(ts[p - 1], p - 1, n, p);
  }

  /** Any change of parallelism between generated topologies with the same operators is accepted. */
  lemma AnyParallelismIsAccepted(cp: Snapshot, prior: seq<Task>, targets: seq<Task>,
                                 oldP: map<string, nat>, newP: map<string, nat>, chains: map<string, string>)
    requires SnapshotOk(cp, prior) && DistinctIds(targets)
    requires Operators(prior) == Operators(targets) == oldP.Keys == newP.Keys == chains.Keys
    requires forall op :: op in chains ==>
      && Valid(cp.groups, oldP[op]) && Generated(Owned(prior, op), cp.groups, oldP[op], chains[op])
      && Valid(cp.groups, newP[op]) && Generated(Owned(targets, op), cp.groups, newP[op], chains[op])
    ensures Accepts(cp, prior, targets)
  {
    forall op | op in chains ensures SourcesTiled(prior, op, cp.groups) && TargetsTiled(prior, targets, op, cp.groups) {
      GeneratedTiles(Owned(prior, op), cp.groups, oldP[op], chains[op]);
      GeneratedTiles(Owned(targets, op), cp.groups, newP[op], chains[op]);
    }
    forall t | t in targets ensures TargetOk(prior, cp.groups, t) {
      var op := t.operator;
      assert op in Operators(targets);
      OwnedMembers(targets, op, t);
      GeneratedTiles(Owned(targets, op), cp.groups, newP[op], chains[op]);
      SourcesNonEmpty(cp, prior, op);
      CoverageIsRedundant(t, Sources(prior, op), cp.groups, Sources(prior, op)[0].chain);
    }
  }
}
