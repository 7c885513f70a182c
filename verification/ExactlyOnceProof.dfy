/** The invariant behind exactly-once output and its preservation by every step. */
module ExactlyOnceProof {
  import opened Basics
  import opened ExactlyOnce

  predicate IsCompleted(c: Coord, id: nat) {
    id in c.checkpoints && c.checkpoints[id].decision == Completed
  }

  predicate IsCurrent(c: Coord, id: nat) {
    id in c.checkpoints && c.checkpoints[id].attempt == c.attempt
  }

  /** The source prefix that checkpoint `id` captured; 0 stands for a fresh start. */
  function Cut(c: Coord, id: nat): nat
    requires id == 0 || id in c.handed
  {
    if id == 0 then 0 else c.handed[id].offset
  }

  ghost predicate SnapshotOk(g: Program, snapshot: Snapshot) {
    snapshot.offset <= |g.source| && snapshot.ops == StateAfter(g, snapshot.offset)
  }

  ghost predicate SnapshotsOk(g: Program, c: Coord) {
    forall id: nat :: id in c.handed ==> SnapshotOk(g, c.handed[id]) && id in c.checkpoints
  }

  ghost predicate CoordOk(c: Coord) {
    && (forall id: nat :: id in c.checkpoints ==> id != 0 && c.checkpoints[id].attempt <= c.attempt)
    && (forall id: nat :: IsCompleted(c, id) ==> id in c.handed && id <= c.latest)
    && (forall id: nat :: IsOpen(c, id) ==> id > c.latest && IsCurrent(c, id))
    && (forall i: nat, j: nat :: IsOpen(c, i) && j in c.checkpoints ==> j <= i)
    && (c.latest == 0 || IsCompleted(c, c.latest))
  }

  /** The sink can still publish exactly what `id` needs. */
  ghost predicate Promised(g: Program, c: Coord, k: Sink, id: nat)
    requires SnapshotsOk(g, c)
  {
    id in k.prepared && id in c.handed && k.committed + k.prepared[id] == Output(g, Cut(c, id))
  }

  ghost predicate SinkOk(g: Program, c: Coord, k: Sink)
    requires SnapshotsOk(g, c) && CoordOk(c)
  {
    && (k.last == 0 || IsCompleted(c, k.last))
    && k.last <= c.latest && k.last !in k.prepared
    && k.committed == Output(g, Cut(c, k.last))
    && (forall id: nat :: IsCompleted(c, id) ==> id <= k.last || id == c.latest)
    && (k.last < c.latest ==> Promised(g, c, k, c.latest))
    && (forall id: nat :: IsOpen(c, id) && id in c.handed ==> k.last == c.latest && Promised(g, c, k, id))
  }

  ghost predicate NoneHanded(c: Coord) {
    forall id: nat :: IsOpen(c, id) ==> id !in c.handed
  }

  ghost predicate NoneCurrent(c: Coord) {
    forall id: nat :: id in c.checkpoints ==> !IsCurrent(c, id)
  }

  ghost predicate FlowOk(g: Program, t: Task) {
    && t.done <= t.offset <= |g.source|
    && t.queue + t.inHand == g.source[t.done..t.offset]
    && t.ops == StateAfter(g, t.done)
  }

  ghost predicate FenceOk(c: Coord, t: Task)
  {
    && (forall id: nat :: id in c.handed && IsCurrent(c, id) ==> id <= t.lastTrigger)
    && (t.base == 0 || t.base in c.checkpoints)
    && (t.lastTrigger == 0 || t.lastTrigger in c.checkpoints) && (t.retired == 0 || t.retired in c.checkpoints)
    && (forall id: nat :: IsCurrent(c, id) ==> id > t.base)
    && (t.lastCommitted == t.base || t.lastCommitted <= t.lastTrigger)
    && (t.prepared.Some? ==> t.prepared.value <= t.lastTrigger)
    && (t.pc.Draining? ==> t.boundary == Some(t.pc.id))
    && (t.boundary.Some? ==>
          && t.inHand == [] && t.boundary.value == t.lastTrigger && t.boundary.value > t.lastCommitted
          && IsCurrent(c, t.boundary.value) && t.boundary.value !in c.handed)
  }

  ghost predicate OpenTxnOk(g: Program, c: Coord, k: Sink, t: Task)
    requires t.done <= |g.source| && t.prepared == None
  {
    && !t.pending && (t.pc.Free? || t.pc.Draining?)
    && t.lastCommitted == k.last == c.latest
    && k.committed + k.active == Output(g, t.done)
    && (t.dirty <==> k.active != [])
    && NoneHanded(c)
  }

  predicate PreparedShape(c: Coord, t: Task, p: nat) {
    && t.pending == !t.pc.Capturing? && !t.pc.Draining?
    && (t.pc.Capturing? ==> t.pc.id == p && p !in c.handed && t.boundary == Some(p) && t.queue == [] && t.inHand == [])
    && (!t.pc.Capturing? ==> p in c.handed && c.handed[p].offset == t.done)
    && (t.pc.Committing? ==> t.pc.id == p && IsCompleted(c, p))
  }

  ghost predicate PreparedTxnOk(g: Program, c: Coord, k: Sink, t: Task, p: nat)
    requires t.done <= |g.source|
  {
    && k.active == [] && PreparedShape(c, t, p)
    && IsCurrent(c, p) && p > t.lastCommitted
    && (forall id: nat :: IsOpen(c, id) && id in c.handed ==> id == p)
    && (p == c.latest || (c.latest == k.last && !IsCompleted(c, p)))
    && ((k.last == t.lastCommitted && p in k.prepared && k.committed + k.prepared[p] == Output(g, t.done))
        || (k.last == p && t.pc.Committing? && k.committed == Output(g, t.done)))
  }

  ghost predicate TxnOk(g: Program, c: Coord, k: Sink, t: Task)
    requires t.done <= |g.source|
  {
    match t.prepared
    case None => OpenTxnOk(g, c, k, t)
    case Some(p) => PreparedTxnOk(g, c, k, t, p)
  }

  ghost predicate PhaseOk(g: Program, c: Coord, k: Sink, phase: Phase) {
    match phase
    case Down => true
    case Recovered(id) => id == c.latest && NoneOpen(c) && NoneCurrent(c) && k.active == []
    case Resolved(id) => id == c.latest == k.last && NoneOpen(c) && NoneCurrent(c) && k.active == []
    case Up(t) => FlowOk(g, t) && FenceOk(c, t) && TxnOk(g, c, k, t)
    case Ended(t) => k.committed == Output(g, |g.source|) && k.last == c.latest && NoneHanded(c)
  }

  ghost predicate Inv(s: State) {
    SnapshotsOk(s.g, s.coord) && CoordOk(s.coord) && SinkOk(s.g, s.coord, s.sink)
      && PhaseOk(s.g, s.coord, s.sink, s.phase)
  }

  lemma InitInv(s: State)
    requires Init(s)
    ensures Inv(s)
  {
  }

  lemma ReadKeeps(s: State, n: nat)
    requires Inv(s) && CanRead(s, n)
    ensures Inv(ReadStep(s, n))
  {
    ReadFlow(s.g, s.phase.t, n, ReadStep(s, n).phase.t);
  }

  lemma ReadFlow(g: Program, t: Task, n: nat, after: Task)
    requires FlowOk(g, t) && t.inHand == [] && t.offset + n <= |g.source|
    requires after == t.(offset := t.offset + n, inHand := g.source[t.offset..t.offset + n])
    ensures FlowOk(g, after)
  {
    assert g.source[t.done..t.offset] + g.source[t.offset..t.offset + n] == g.source[t.done..t.offset + n];
    assert t.queue + [] == t.queue;
  }

  lemma DispatchKeeps(s: State)
    requires Inv(s) && s.phase.Up? && s.phase.t.inHand != []
    ensures Inv(DispatchStep(s))
  {
    var t := s.phase.t;
    assert t.queue + [t.inHand[0]] + t.inHand[1..] == t.queue + t.inHand;
  }

  lemma AcceptFence(c: Coord, t: Task, id: nat)
    requires FenceOk(c, t) && IsCurrent(c, id) && t.boundary == None && t.inHand == [] && id > t.lastTrigger
    ensures FenceOk(c, t.(lastTrigger := id))
    ensures FenceOk(c, t.(lastTrigger := id, boundary := Some(id), aligned := true))
  {
  }

  lemma FencesLeaveTxn(g: Program, c: Coord, k: Sink, t: Task, after: Task)
    requires FlowOk(g, t) && TxnOk(g, c, k, t) && t.boundary == None
    requires after == t.(lastTrigger := after.lastTrigger, boundary := after.boundary, aligned := after.aligned)
    ensures FlowOk(g, after) && TxnOk(g, c, k, after)
  {
  }

  lemma AcceptKeeps(s: State, id: nat)
    requires Inv(s) && CanAccept(s, id)
    ensures Inv(AcceptStep(s, id))
  {
    var t := s.phase.t;
    var after := AcceptStep(s, id).phase.t;
    if id > t.lastTrigger {
      AcceptFence(s.coord, t, id);
      FencesLeaveTxn(s.g, s.coord, s.sink, t, after);
    }
  }

  lemma ProcessKeeps(s: State)
    requires Inv(s) && CanProcess(s)
    ensures Inv(ProcessStep(s))
  {
    var t, k := s.phase.t, s.sink;
    var results := s.g.step(t.ops, t.queue[0]).1;
    assert t.queue[0] == (t.queue + t.inHand)[0] == s.g.source[t.done];
    assert t.queue[1..] + t.inHand == (t.queue + t.inHand)[1..];
    assert s.g.source[t.done..t.offset][1..] == s.g.source[t.done + 1..t.offset];
    assert k.committed + (k.active + results) == (k.committed + k.active) + results;
  }

  lemma StartKeeps(s: State)
    requires Inv(s) && CanStart(s)
    ensures Inv(StartStep(s))
  {
  }

  lemma PrepareKeeps(s: State)
    requires Inv(s) && CanPrepare(s)
    ensures Inv(PrepareStep(s))
  {
  }

  lemma HandedFacts(c: Coord, after: Coord)
    requires after.checkpoints == c.checkpoints && after.attempt == c.attempt
    ensures forall k: nat :: IsOpen(after, k) <==> IsOpen(c, k)
    ensures forall k: nat :: IsCompleted(after, k) <==> IsCompleted(c, k)
    ensures forall k: nat :: IsCurrent(after, k) <==> IsCurrent(c, k)
  {
  }

  lemma SubmitKeeps(s: State)
    requires Inv(s) && s.phase.Up? && s.phase.t.pc.Capturing?
    ensures Inv(SubmitStep(s))
  {
    var t, c, after := s.phase.t, s.coord, SubmitStep(s).coord;
    assert t.queue + t.inHand == [];
    assert t.done == t.offset;
    HandedFacts(c, after);
    assert forall id: nat :: IsOpen(c, id) && id in c.handed ==> id == t.pc.id;
    assert FenceOk(after, SubmitStep(s).phase.t);
  }

  lemma DeliverCommitKeeps(s: State, id: nat)
    requires Inv(s) && CanCommit(s, id)
    ensures Inv(CommitStep(s, id))
  {
    ExitKeeps(s);
  }

  lemma CommitEffectKeeps(s: State)
    requires Inv(s) && s.phase.Up? && s.phase.t.pc.Committing?
    ensures Inv(CommitEffectStep(s))
  {
  }

  lemma CommitDoneKeeps(s: State)
    requires Inv(s) && CanCommitDone(s)
    ensures Inv(CommitDoneStep(s))
  {
  }

  lemma DeliverAbortKeeps(s: State, id: nat)
    requires Inv(s) && CanAbort(s, id)
    ensures Inv(AbortStep(s, id))
  {
    ExitKeeps(s);
  }

  lemma ExitKeeps(s: State)
    requires Inv(s) && s.phase.Up?
    ensures Inv(ExitStep(s))
  {
    if s.phase.t.prepared.Some? && !s.phase.t.pending {
      ExitPreparedKeeps(s, ExitStep(s));
    }
  }

  lemma ExitPreparedKeeps(s: State, after: State)
    requires Inv(s) && s.phase.Up? && s.phase.t.prepared.Some? && !s.phase.t.pending && after == ExitStep(s)
    ensures Inv(after)
  {
  }

  lemma EndKeeps(s: State)
    requires Inv(s) && CanEnd(s)
    ensures Inv(EndStep(s))
  {
    ExitKeeps(s);
    assert s.phase.t.queue + s.phase.t.inHand == [];
  }

  lemma DecideFacts(c: Coord, after: Coord, id: nat, d: Decision)
    requires IsOpen(c, id) && d != Open
    requires after.checkpoints == Decide(c, id, d).checkpoints && after.attempt == c.attempt
    ensures forall k: nat :: IsOpen(after, k) <==> IsOpen(c, k) && k != id
    ensures forall k: nat :: IsCompleted(after, k) <==> IsCompleted(c, k) || (k == id && d == Completed)
    ensures forall k: nat :: IsCurrent(after, k) <==> IsCurrent(c, k)
  {
  }

  lemma TriggerFacts(c: Coord, after: Coord, id: nat)
    requires id !in c.checkpoints && after == c.(checkpoints := c.checkpoints[id := Checkpoint(c.attempt, Open)])
    ensures forall k: nat :: IsOpen(after, k) <==> IsOpen(c, k) || k == id
    ensures forall k: nat :: IsCompleted(after, k) <==> IsCompleted(c, k)
    ensures forall k: nat :: IsCurrent(after, k) <==> IsCurrent(c, k) || k == id
  {
  }

  lemma TriggerKeeps(s: State, id: nat)
    requires Inv(s) && CanTrigger(s, id)
    ensures Inv(TriggerStep(s, id))
  {
    TriggerFacts(s.coord, TriggerStep(s, id).coord, id);
  }

  lemma CompleteKeeps(s: State, id: nat)
    requires Inv(s) && IsOpen(s.coord, id) && id in s.coord.handed
    ensures Inv(CompleteStep(s, id))
  {
    DecideFacts(s.coord, CompleteStep(s, id).coord, id, Completed);
  }

  lemma DecideAbortKeeps(s: State, id: nat)
    requires Inv(s) && IsOpen(s.coord, id)
    ensures Inv(DecideAbortStep(s, id))
  {
    DecideFacts(s.coord, DecideAbortStep(s, id).coord, id, Aborted);
  }

  lemma CrashKeeps(s: State)
    requires Inv(s) && !s.phase.Ended?
    ensures Inv(CrashStep(s))
  {
  }

  lemma RecoverKeeps(s: State)
    requires Inv(s) && s.phase.Down? && NoneOpen(s.coord)
    ensures Inv(RecoverStep(s))
  {
    var c, after := s.coord, RecoverStep(s).coord;
    assert forall k: nat :: IsCompleted(after, k) <==> IsCompleted(c, k);
    assert forall k: nat :: IsOpen(after, k) <==> IsOpen(c, k);
  }

  lemma ResolveKeeps(s: State)
    requires Inv(s) && s.phase.Recovered?
    ensures Inv(ResolveStep(s))
  {
  }

  lemma BeginKeeps(s: State)
    requires Inv(s) && CanBegin(s)
    ensures Inv(BeginStep(s))
  {
  }
}
