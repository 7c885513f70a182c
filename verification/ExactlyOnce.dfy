/**
  Exactly-once output of a source -> deterministic operators -> transactional sink task
  (internal/engine/operator_chain.go, source_checkpoint.go, checkpoint_restore.go).

  The task reads its source in batches, queues records, runs them through the operators into
  the sink's open transaction, and takes part in checkpoints: the source captures its position
  between batches, the chain drains the queue, prepares the sink and hands over the snapshot;
  the coordinator completes or aborts the checkpoint; a commit or abort command follows.  The
  task may exit or crash at any point and is restarted from the last completed checkpoint.

  The sink is an external system: `Commit` is idempotent and recovery aborts every transaction
  except the one of the completed checkpoint, as the TransactionalSink contract demands.
 */
module ExactlyOnce {
  import opened Basics

  type Rec(==, !new)
  type OpState(==, !new)
  type Result(==, !new)

  /** The source's records and the operators: deterministic, with a state that checkpoints capture. */
  datatype Program = Program(source: seq<Rec>, init: OpState, step: (OpState, Rec) -> (OpState, seq<Result>))

  function StateAfter(g: Program, n: nat): OpState
    requires n <= |g.source|
  {
    if n == 0 then g.init else g.step(StateAfter(g, n - 1), g.source[n - 1]).0
  }

  /** What the operators emit for the first `n` source records. */
  function Output(g: Program, n: nat): seq<Result>
    requires n <= |g.source|
  {
    if n == 0 then [] else Output(g, n - 1) + g.step(StateAfter(g, n - 1), g.source[n - 1]).1
  }

  datatype Snapshot = Snapshot(offset: nat, ops: OpState)

  datatype Decision = Open | Completed | Aborted

  datatype Checkpoint = Checkpoint(attempt: nat, decision: Decision)

  /** The coordinator's durable view, and the snapshots handed over to replication. */
  datatype Coord = Coord(attempt: nat, checkpoints: map<nat, Checkpoint>, latest: nat, handed: map<nat, Snapshot>)

  datatype Sink = Sink(committed: seq<Result>, last: nat, active: seq<Result>, prepared: map<nat, seq<Result>>)

  datatype ChainPc =
    | Free
    | Draining(id: nat)      // consuming the queue before the snapshot of `id`
    | Capturing(id: nat)     // sink prepared, snapshot not yet handed over
    | Committing(id: nat)    // commit being (re)tried

  datatype Task = Task(
    base: nat,                 // the checkpoint this attempt was restored from, 0 if none
    offset: nat,               // source position: records returned by ReadBatch
    inHand: seq<Rec>,          // read but not yet queued
    queue: seq<Rec>,
    done: nat,                 // records processed
    ops: OpState,
    dirty: bool,
    prepared: Option<nat>,
    pending: bool,             // the decision on the prepared transaction is not the task's to make
    lastCommitted: nat,
    lastTrigger: nat,          // highest accepted trigger
    retired: nat,              // highest retired checkpoint
    boundary: Option<nat>,     // the source waits for the chain to take this checkpoint
    aligned: bool,             // ... and its alignment has not been aborted meanwhile
    pc: ChainPc)

  datatype Phase =
    | Down
    | Recovered(id: nat)       // orphans aborted, completed transaction kept
    | Resolved(id: nat)        // its commit repeated
    | Up(t: Task)
    | Ended(t: Task)

  datatype State = State(g: Program, coord: Coord, sink: Sink, phase: Phase)

  // ---------------------------------------------------------------- source

  predicate CanRead(s: State, n: nat) {
    && s.phase.Up? && s.phase.t.inHand == [] && s.phase.t.boundary == None
    && s.phase.t.offset + n <= |s.g.source|
  }

  function ReadStep(s: State, n: nat): State
    requires CanRead(s, n)
  {
    var t := s.phase.t;
    s.(phase := Up(t.(offset := t.offset + n, inHand := s.g.source[t.offset..t.offset + n])))
  }

  function DispatchStep(s: State): State
    requires s.phase.Up? && s.phase.t.inHand != []
  {
    var t := s.phase.t;
    s.(phase := Up(t.(inHand := t.inHand[1..], queue := t.queue + [t.inHand[0]])))
  }

  /**
    A trigger reaches the source between batches.  Triggers may be redelivered any number of
    times, in any order, after any decision; they are fenced to the attempt they were made for.
   */
  predicate CanAccept(s: State, id: nat) {
    && s.phase.Up? && s.phase.t.inHand == [] && s.phase.t.boundary == None
    && id != 0 && id in s.coord.checkpoints && s.coord.checkpoints[id].attempt == s.coord.attempt
  }

  function AcceptStep(s: State, id: nat): State
    requires s.phase.Up?
  {
    var t := s.phase.t;
    if id <= t.lastTrigger then s
    else if id <= t.retired then s.(phase := Up(t.(lastTrigger := id)))
    else s.(phase := Up(t.(lastTrigger := id, boundary := Some(id), aligned := true)))
  }

  // ---------------------------------------------------------------- chain

  predicate CanProcess(s: State) {
    s.phase.Up? && s.phase.t.queue != [] && s.phase.t.prepared == None && (s.phase.t.pc.Free? || s.phase.t.pc.Draining?)
  }

  function ProcessStep(s: State): State
    requires CanProcess(s)
  {
    var t := s.phase.t;
    var (ops, results) := s.g.step(t.ops, t.queue[0]);
    s.(phase := Up(t.(queue := t.queue[1..], done := t.done + 1, ops := ops, dirty := t.dirty || results != [])),
       sink := s.sink.(active := s.sink.active + results))
  }

  /** The barrier reaches the chain: an aligned one starts the drain, an aborted one is released. */
  predicate CanStart(s: State) {
    s.phase.Up? && s.phase.t.boundary.Some? && s.phase.t.pc.Free? && s.phase.t.prepared == None
  }

  function StartStep(s: State): State
    requires CanStart(s)
  {
    var t := s.phase.t;
    var id := t.boundary.value;
    if t.aligned then s.(phase := Up(t.(pc := Draining(id)))) else s.(phase := Up(t.(boundary := None)))
  }

  predicate CanPrepare(s: State) {
    s.phase.Up? && s.phase.t.pc.Draining? && s.phase.t.queue == [] && s.phase.t.prepared == None
  }

  function PrepareStep(s: State): State
    requires CanPrepare(s)
  {
    var t := s.phase.t;
    var id := t.pc.id;
    s.(phase := Up(t.(prepared := Some(id), pc := Capturing(id))),
       sink := s.sink.(active := [], prepared := s.sink.prepared[id := s.sink.active]))
  }

  /** Snapshot captured and submitted; alignment finished; the source is released. */
  function SubmitStep(s: State): State
    requires s.phase.Up? && s.phase.t.pc.Capturing?
  {
    var t := s.phase.t;
    var id := t.pc.id;
    s.(coord := s.coord.(handed := s.coord.handed[id := Snapshot(t.offset, t.ops)]),
       phase := Up(t.(pending := true, boundary := None, pc := Free, retired := Max(id, t.retired))))
  }

  predicate CanCommit(s: State, id: nat) {
    && s.phase.Up? && s.phase.t.pc.Free?
    && id in s.coord.checkpoints && s.coord.checkpoints[id].decision == Completed
  }

  /** A commit command; a mismatch fails the task, which exits. */
  function CommitStep(s: State, id: nat): State
    requires s.phase.Up?
  {
    var t := s.phase.t;
    if id <= t.lastCommitted then s
    else if t.prepared == Some(id) then s.(phase := Up(t.(pending := true, pc := Committing(id))))
    else ExitStep(s)
  }

  /** The external commit: publishes the prepared transaction once, and repeats as a no-op. */
  function Commit(k: Sink, id: nat): Sink {
    if id in k.prepared
    then k.(committed := k.committed + k.prepared[id], last := id, prepared := k.prepared - {id})
    else k
  }

  function CommitEffectStep(s: State): State
    requires s.phase.Up? && s.phase.t.pc.Committing?
  {
    s.(sink := Commit(s.sink, s.phase.t.pc.id))
  }

  predicate CanCommitDone(s: State) {
    s.phase.Up? && s.phase.t.pc.Committing? && s.phase.t.pc.id !in s.sink.prepared
  }

  function CommitDoneStep(s: State): State
    requires CanCommitDone(s)
  {
    var t := s.phase.t;
    s.(phase := Up(t.(lastCommitted := t.pc.id, dirty := false, prepared := None, pending := false, pc := Free)))
  }

  predicate CanAbort(s: State, id: nat) {
    && s.phase.Up? && s.phase.t.pc.Free?
    && id in s.coord.checkpoints && s.coord.checkpoints[id].decision == Aborted
  }

  /**
    An abort command: with nothing prepared it only retires the checkpoint and gives up its
    alignment; otherwise it rolls back and stops the task.
   */
  function AbortStep(s: State, id: nat): State
    requires s.phase.Up?
  {
    var t := s.phase.t;
    if t.prepared == None then
      s.(phase := Up(t.(retired := Max(id, t.retired), aligned := t.aligned && t.boundary != Some(id))))
    else if id <= t.lastCommitted then s
    else if t.prepared != Some(id) then ExitStep(s)
    else s.(phase := Down, sink := s.sink.(active := [], prepared := s.sink.prepared - {id}))
  }

  /** The exit hook aborts only a transaction that was never reported. */
  function ExitStep(s: State): State
    requires s.phase.Up?
  {
    var t := s.phase.t;
    if t.pending then s.(phase := Down)
    else if t.prepared.Some? then
      s.(phase := Down, sink := s.sink.(active := [], prepared := s.sink.prepared - {t.prepared.value}))
    else s.(phase := Down, sink := s.sink.(active := []))
  }

  /** End of input reaches the chain; it refuses to end with uncommitted writes. */
  predicate CanEnd(s: State) {
    && s.phase.Up? && s.phase.t.pc.Free? && s.phase.t.prepared == None && s.phase.t.boundary == None
    && s.phase.t.offset == |s.g.source| && s.phase.t.inHand == [] && s.phase.t.queue == []
  }

  function EndStep(s: State): State
    requires s.phase.Up?
  {
    if s.phase.t.dirty then ExitStep(s) else s.(phase := Ended(s.phase.t))
  }

  // ---------------------------------------------------------------- coordinator

  predicate NoneOpen(c: Coord) {
    forall id :: id in c.checkpoints ==> c.checkpoints[id].decision != Open
  }

  predicate CanTrigger(s: State, id: nat) {
    s.phase.Up? && id != 0 && NoneOpen(s.coord) && forall k :: k in s.coord.checkpoints ==> k < id
  }

  function TriggerStep(s: State, id: nat): State
    requires CanTrigger(s, id)
  {
    s.(coord := s.coord.(checkpoints := s.coord.checkpoints[id := Checkpoint(s.coord.attempt, Open)]))
  }

  predicate IsOpen(c: Coord, id: nat) {
    id in c.checkpoints && c.checkpoints[id].decision == Open
  }

  function Decide(c: Coord, id: nat, d: Decision): Coord
    requires id in c.checkpoints
  {
    c.(checkpoints := c.checkpoints[id := c.checkpoints[id].(decision := d)])
  }

  /** Completion needs the durable snapshot; it also makes the checkpoint the recovery boundary. */
  function CompleteStep(s: State, id: nat): State
    requires IsOpen(s.coord, id) && id in s.coord.handed
  {
    s.(coord := Decide(s.coord, id, Completed).(latest := id))
  }

  function DecideAbortStep(s: State, id: nat): State
    requires IsOpen(s.coord, id)
  {
    s.(coord := Decide(s.coord, id, Aborted))
  }

  // ---------------------------------------------------------------- crash and restore

  function CrashStep(s: State): State
    requires !s.phase.Ended?
  {
    s.(phase := Down)
  }

  /** A new attempt starts only once the in-flight checkpoint is decided. */
  function RecoverStep(s: State): State
    requires s.phase.Down? && NoneOpen(s.coord)
  {
    var latest := s.coord.latest;
    s.(coord := s.coord.(attempt := s.coord.attempt + 1),
       sink := s.sink.(active := [], prepared := map id | id in s.sink.prepared && id == latest :: s.sink.prepared[id]),
       phase := Recovered(latest))
  }

  function ResolveStep(s: State): State
    requires s.phase.Recovered?
  {
    s.(sink := if s.phase.id == 0 then s.sink else Commit(s.sink, s.phase.id), phase := Resolved(s.phase.id))
  }

  predicate CanBegin(s: State) {
    s.phase.Resolved? && (s.phase.id == 0 || s.phase.id in s.coord.handed)
  }

  function BeginStep(s: State): State
    requires CanBegin(s)
  {
    var id := s.phase.id;
    var from := if id == 0 then Snapshot(0, s.g.init) else s.coord.handed[id];
    s.(phase := Up(Task(id, from.offset, [], [], from.offset, from.ops, false, None, false, id, 0, 0, None, false,
      Free)))
  }

  // ---------------------------------------------------------------- runs

  datatype Action =
    | Read(n: nat)
    | Dispatch
    | Accept(id: nat)
    | Process
    | Start
    | Prepare
    | Submit
    | DeliverCommit(id: nat)
    | CommitEffect
    | CommitDone
    | DeliverAbort(id: nat)
    | Exit
    | End
    | Trigger(id: nat)
    | Complete(id: nat)
    | DecideAbort(id: nat)
    | Crash
    | Recover
    | Resolve
    | Begin

  predicate Enabled(s: State, a: Action) {
    match a
    case Read(n) => CanRead(s, n)
    case Dispatch => s.phase.Up? && s.phase.t.inHand != []
    case Accept(id) => CanAccept(s, id)
    case Process => CanProcess(s)
    case Start => CanStart(s)
    case Prepare => CanPrepare(s)
    case Submit => s.phase.Up? && s.phase.t.pc.Capturing?
    case DeliverCommit(id) => CanCommit(s, id)
    case CommitEffect => s.phase.Up? && s.phase.t.pc.Committing?
    case CommitDone => CanCommitDone(s)
    case DeliverAbort(id) => CanAbort(s, id)
    case Exit => s.phase.Up?
    case End => CanEnd(s)
    case Trigger(id) => CanTrigger(s, id)
    case Complete(id) => IsOpen(s.coord, id) && id in s.coord.handed
    case DecideAbort(id) => IsOpen(s.coord, id)
    case Crash => !s.phase.Ended?
    case Recover => s.phase.Down? && NoneOpen(s.coord)
    case Resolve => s.phase.Recovered?
    case Begin => CanBegin(s)
  }

  function Next(s: State, a: Action): State
    requires Enabled(s, a)
  {
    match a
    case Read(n) => ReadStep(s, n)
    case Dispatch => DispatchStep(s)
    case Accept(id) => AcceptStep(s, id)
    case Process => ProcessStep(s)
    case Start => StartStep(s)
    case Prepare => PrepareStep(s)
    case Submit => SubmitStep(s)
    case DeliverCommit(id) => CommitStep(s, id)
    case CommitEffect => CommitEffectStep(s)
    case CommitDone => CommitDoneStep(s)
    case DeliverAbort(id) => AbortStep(s, id)
    case Exit => ExitStep(s)
    case End => EndStep(s)
    case Trigger(id) => TriggerStep(s, id)
    case Complete(id) => CompleteStep(s, id)
    case DecideAbort(id) => DecideAbortStep(s, id)
    case Crash => CrashStep(s)
    case Recover => RecoverStep(s)
    case Resolve => ResolveStep(s)
    case Begin => BeginStep(s)
  }

  predicate Init(s: State) {
    && s.coord == Coord(0, map[], 0, map[])
    && s.sink == Sink([], 0, [], map[])
    && s.phase == Down
  }

  ghost predicate Run(states: seq<State>, actions: seq<Action>) {
    && |states| == |actions| + 1
    && Init(states[0])
    && forall k :: 0 <= k < |actions| ==> Enabled(states[k], actions[k]) && states[k + 1] == Next(states[k], actions[k])
  }
}
