/**
  What the readers and the chain can always do: align a barrier, take and forward its snapshot,
  release what alignment held back, and come out of commits, aborts and drains.  The safety
  theorems alone would hold of a chain that ignores every barrier.
 */
module CutProgress {
  import opened Basics
  import opened Paths
  import opened Alignment
  import opened ConsistentCut
  import opened CutInvariants

  // ---------------------------------------------------------------- paths

  function Play(s: State, actions: seq<Action>): Option<State> {
    Fold(Take, s, actions)
  }

  function Take(s: State, a: Action): Option<State> {
    if Enabled(s, a) then Some(Next(s, a)) else None
  }

  lemma PlayOne(s: State, actions: seq<Action>, m: State, a: Action)
    requires Play(s, actions) == Some(m) && Enabled(m, a)
    ensures Play(s, actions + [a]) == Some(Next(m, a))
  {
    FoldOne(Take, s, actions, m, a);
  }

  lemma PlayOn(s: State, actions: seq<Action>, m: State, more: seq<Action>)
    requires Play(s, actions) == Some(m)
    ensures Play(s, actions + more) == Play(m, more)
  {
    FoldConcat(Take, s, actions, m, more);
  }

  lemma Plays1(s: State, a: Action)
    requires Enabled(s, a)
    ensures Play(s, [a]) == Some(Next(s, a))
  {
    PlayOne(s, [], s, a);
    assert [] + [a] == [a];
  }

  lemma Plays2(s: State, a: Action, b: Action)
    requires Enabled(s, a) && Enabled(Next(s, a), b)
    ensures Play(s, [a, b]) == Some(Next(Next(s, a), b))
  {
    Plays1(s, a);
    PlayOne(s, [a], Next(s, a), b);
    assert [a] + [b] == [a, b];
  }

  // ---------------------------------------------------------------- draining and replaying

  /** The first `k` queued records have been processed and put out, and nothing else is different. */
  function Drained(s: State, k: nat, pc: ChainPc): State
    requires k <= |s.queue|
  {
    s.(queue := s.queue[k..], chain := s.chain.(pc := pc), log := ProcessedAll(s.log, s.queue[..k]))
  }

  function ProcessedAll(log: Log, rs: seq<Record>): Log {
    if rs == [] then log else Process(ProcessedAll(log, rs[..|rs| - 1]), rs[|rs| - 1])
  }

  lemma {:induction false} ProcessedAllIs(log: Log, rs: seq<Record>)
    ensures ProcessedAll(log, rs).processed == log.processed + rs && ProcessedAll(log, rs).snapshots == log.snapshots
    ensures RecordsOf(ProcessedAll(log, rs).out) == RecordsOf(log.out) + rs
  {
    if rs != [] {
      var n := |rs| - 1;
      ProcessedAllIs(log, rs[..n]);
      var front := ProcessedAll(log, rs[..n]);
      assert (front.out + [OutRecord(rs[n])])[..|front.out|] == front.out;
      assert rs[..n] + [rs[n]] == rs;
    }
  }

  /** A drain other than an abort's: it keeps its control point. */
  predicate PlainDrain(pc: ChainPc) {
    pc.BarrierDrain? || pc.StopDrain? || pc.LastDrain?
  }

  lemma {:induction false} QueueDrains(s: State, k: nat)
    requires PlainDrain(s.chain.pc) && k <= |s.queue|
    ensures Play(s, Repeat(DrainOne, k)) == Some(Drained(s, k, s.chain.pc))
  {
    if k == 0 {
      assert s.queue[0..] == s.queue && s.queue[..0] == [];
    } else {
      QueueDrains(s, k - 1);
      var m := Drained(s, k - 1, s.chain.pc);
      PlayOne(s, Repeat(DrainOne, k - 1), m, DrainOne);
      DrainedOneMore(s, k, s.chain.pc, s.chain.pc);
    }
  }

  lemma DrainedOneMore(s: State, k: nat, before: ChainPc, pc: ChainPc)
    requires 0 < k <= |s.queue|
    ensures var m := Drained(s, k - 1, before);
      m.queue != [] && TakeHead(m).(chain := s.chain.(pc := pc)) == Drained(s, k, pc)
  {
    assert s.queue[..k][..k - 1] == s.queue[..k - 1];
    assert s.queue[k - 1..][1..] == s.queue[k..];
  }

  lemma {:induction false} AbortDrains(s: State, b: Ident, k: nat)
    requires s.chain.pc == AbortDrain(b, |s.queue|) && k <= |s.queue|
    ensures Play(s, Repeat(DrainOne, k)) == Some(Drained(s, k, AbortDrain(b, |s.queue| - k)))
  {
    if k == 0 {
      assert s.queue[0..] == s.queue && s.queue[..0] == [];
    } else {
      AbortDrains(s, b, k - 1);
      var m := Drained(s, k - 1, AbortDrain(b, |s.queue| - (k - 1)));
      PlayOne(s, Repeat(DrainOne, k - 1), m, DrainOne);
      DrainedOneMore(s, k, AbortDrain(b, |s.queue| - (k - 1)), AbortDrain(b, |s.queue| - k));
    }
  }

  function Replayed(s: State, k: nat): State
    requires s.chain.pc.Replay? && k <= |s.chain.pc.rest|
  {
    s.(chain := s.chain.(pc := Replay(s.chain.pc.rest[k..])), log := ProcessedAll(s.log, s.chain.pc.rest[..k]))
  }

  lemma {:induction false} ReplayRuns(s: State, k: nat)
    requires s.chain.pc.Replay? && k <= |s.chain.pc.rest|
    ensures Play(s, Repeat(ReplayOne, k)) == Some(Replayed(s, k))
  {
    var rest := s.chain.pc.rest;
    if k == 0 {
      assert rest[0..] == rest && rest[..0] == [];
    } else {
      ReplayRuns(s, k - 1);
      PlayOne(s, Repeat(ReplayOne, k - 1), Replayed(s, k - 1), ReplayOne);
      assert rest[..k][..k - 1] == rest[..k - 1];
      assert rest[k - 1..][1..] == rest[k..];
    }
  }

  /** Where the chain is once everything released or deferred has been processed. */
  function AfterReplay(s: State): State
    requires s.chain.pc.Replay?
  {
    var h := s.chain.(eofs := s.chain.eofs + s.chain.deferredEofs, deferredEofs := 0);
    s.(chain := h.(pc := if s.chain.deferredEofs > 0 && h.eofs >= |s.cfg.streams| then LastDrain(true) else Idle),
       log := ProcessedAll(s.log, s.chain.pc.rest))
  }

  /** A replay always comes to its end: every released record is processed, in order. */
  lemma ReplayEnds(s: State)
    requires s.chain.pc.Replay?
    ensures Play(s, Repeat(ReplayOne, |s.chain.pc.rest|) + [ReplayDone]) == Some(AfterReplay(s))
  {
    var n := |s.chain.pc.rest|;
    ReplayRuns(s, n);
    assert s.chain.pc.rest[..n] == s.chain.pc.rest && s.chain.pc.rest[n..] == [];
    PlayOne(s, Repeat(ReplayOne, n), Replayed(s, n), ReplayDone);
  }

  // ---------------------------------------------------------------- a barrier that is aligned

  /** The chain is between messages, and `c` is the next one. */
  predicate Takes(s: State, c: Ctrl) {
    s.chain.pc.Idle? && s.controls != [] && s.controls[0] == c
  }

  /** The head message is taken and leaves the chain at `pc`. */
  function Taken(s: State, h: Chain): State
    requires s.controls != []
  {
    s.(controls := s.controls[1..], chain := h)
  }

  /** The barrier of `b` has arrived on every input and the chain is about to hear of it. */
  ghost predicate Aligned(s: State, b: Ident) {
    && Takes(s, BarrierReceived(b)) && !s.chain.prepared && !s.chain.draining
    && b.id != 0 && s.aligner.active == b && EveryInputArrived(s.aligner)
  }

  lemma AlignedStartsDrain(s: State, b: Ident)
    requires Inv(s) && Aligned(s, b)
    ensures Play(s, [TakeControl]) == Some(Taken(s, s.chain.(pc := BarrierDrain(b))))
  {
    AlignedMeansEveryInput(s.aligner, b.id);
    Plays1(s, TakeControl);
  }

  /** The snapshot of what has been processed. */
  function Captured(s: State, b: Ident): State {
    s.(chain := s.chain.(prepared := s.cfg.transactional, preparedAs := b, pc := Forwarding(b)),
       log := s.log.(snapshots := s.log.snapshots + [Snapshot(b, s.log.processed, s.marks)]))
  }

  lemma DrainedIsCaptured(s: State, b: Ident)
    requires s.chain.pc == BarrierDrain(b) && s.queue == [] && !s.chain.prepared
    ensures Play(s, [DrainDone, Capture]) == Some(Captured(s, b))
  {
    Plays2(s, DrainDone, Capture);
  }

  /** Barrier forwarded, alignment over, and the held records where the chain gets at them. */
  function Finished(s: State, b: Ident): State {
    s.(aligner := s.aligner.Finish(b.id), marks := map[],
       chain := if s.cfg.transactional then s.chain.(deferred := Flatten(s.aligner.side), pc := Idle)
                else s.chain.(pc := Replay(Flatten(s.aligner.side))),
       log := if s.cfg.transactional then s.log else s.log.(out := s.log.out + [OutBarrier(b)]))
  }

  lemma CapturedIsFinished(s: State, b: Ident)
    requires s.chain.pc == Forwarding(b) && s.aligner.active == b
    ensures Play(s, [Forward, Finish]) == Some(Finished(s, b))
  {
    Plays2(s, Forward, Finish);
  }

  /** No alignment is in progress and no reader is held back. */
  ghost predicate Unaligned(a: Aligner<Record>) {
    && a.active == NONE && a.arrived == {} && (forall i :: 0 <= i < |a.side| ==> a.side[i] == [])
    && (forall i, id: nat :: a.GateFor(i, id) == Proceed) && (forall i :: a.Decide(i) == NotAligning)
  }

  lemma FinishUnaligns(a: Aligner<Record>, b: Ident)
    requires b.id != 0 && a.active == b
    ensures Unaligned(a.Finish(b.id)) && AtMost(b, a.Finish(b.id).retired)
    ensures Unaligned(a.Abort(b)) && AtMost(b, a.Abort(b).retired)
  {
  }

  function CapturePath(queued: nat): seq<Action> {
    [TakeControl] + Repeat(DrainOne, queued) + [DrainDone, Capture]
  }

  /**
    An aligned barrier is captured: everything queued is processed, then exactly one snapshot is
    taken, of this barrier and of exactly the records processed by then.
   */
  lemma AlignedIsCaptured(s: State, b: Ident) returns (m: State)
    requires Inv(s) && Aligned(s, b)
    ensures Play(s, CapturePath(|s.queue|)) == Some(m) && m.chain.pc == Forwarding(b)
    ensures m.log.snapshots == s.log.snapshots + [Snapshot(b, s.log.processed + s.queue, s.marks)]
    ensures m.log.processed == s.log.processed + s.queue && RecordsOf(m.log.out) == RecordsOf(s.log.out) + s.queue
    ensures m.queue == [] && m.aligner == s.aligner && m.cfg == s.cfg && m.readers == s.readers
    ensures m.chain.prepared == s.cfg.transactional && m.chain.preparedAs == b
  {
    var n := |s.queue|;
    AlignedStartsDrain(s, b);
    var a := Taken(s, s.chain.(pc := BarrierDrain(b)));
    QueueDrains(a, n);
    PlayOn(s, [TakeControl], a, Repeat(DrainOne, n));
    var d := Drained(a, n, BarrierDrain(b));
    assert s.queue[..n] == s.queue && s.queue[n..] == [];
    DrainedIsCaptured(d, b);
    PlayOn(s, [TakeControl] + Repeat(DrainOne, n), d, [DrainDone, Capture]);
    ProcessedAllIs(s.log, s.queue);
    m := Captured(d, b);
  }

  /** Then the barrier is forwarded, right behind those records, and the held records are released. */
  lemma CapturedIsReleased(s: State, b: Ident) returns (n: State)
    requires b.id != 0 && s.chain.pc == Forwarding(b) && s.aligner.active == b
    ensures Play(s, [Forward, Finish]) == Some(n) && n.log.snapshots == s.log.snapshots
    ensures n.log.processed == s.log.processed && Unaligned(n.aligner) && AtMost(b, n.aligner.retired)
    ensures n.log.out == s.log.out + if s.cfg.transactional then [] else [OutBarrier(b)]
    ensures if s.cfg.transactional then n.chain.pc.Idle? && n.chain.deferred == Flatten(s.aligner.side)
      else n.chain.pc == Replay(Flatten(s.aligner.side))
  {
    CapturedIsFinished(s, b);
    FinishUnaligns(s.aligner, b);
    n := Finished(s, b);
    assert s.log.out + [] == s.log.out;
  }

  /**
    The whole round of a task without a transactional sink: afterwards the chain has processed what
    was queued and then what alignment held back, with the barrier in between.
   */
  lemma CheckpointRound(s: State, b: Ident) returns (n: State, path: seq<Action>)
    requires Inv(s) && Aligned(s, b) && !s.cfg.transactional
    ensures Play(s, path) == Some(n) && !n.chain.pc.Replay? && Unaligned(n.aligner)
    ensures n.log.snapshots == s.log.snapshots + [Snapshot(b, s.log.processed + s.queue, s.marks)]
    ensures n.log.processed == s.log.processed + s.queue + Flatten(s.aligner.side)
  {
    var m := AlignedIsCaptured(s, b);
    path := CapturePath(|s.queue|);
    var f := CapturedIsReleased(m, b);
    PlayOn(s, path, m, [Forward, Finish]);
    path := path + [Forward, Finish];
    var replay := Repeat(ReplayOne, |f.chain.pc.rest|) + [ReplayDone];
    ReplayEnds(f);
    PlayOn(s, path, f, replay);
    path, n := path + replay, AfterReplay(f);
    ProcessedAllIs(f.log, f.chain.pc.rest);
  }

  // ---------------------------------------------------------------- commit and abort

  /** A commit of the prepared checkpoint opens the chain again and processes what was deferred. */
  lemma CommitReleases(s: State, b: Ident) returns (n: State)
    requires Inv(s) && Takes(s, CommitCheckpoint(b)) && s.chain.prepared && s.chain.preparedAs == b
    ensures Play(s, [TakeControl] + (Repeat(ReplayOne, |s.chain.deferred|) + [ReplayDone])) == Some(n)
    ensures !n.chain.prepared && n.chain.lastCommitted == b.id && n.chain.deferred == []
    ensures n.log.processed == s.log.processed + s.chain.deferred && n.queue == s.queue
    ensures n.chain.eofs == s.chain.eofs + s.chain.deferredEofs && n.chain.deferredEofs == 0
    ensures n.chain.pc == if s.chain.deferredEofs > 0 && n.chain.eofs >= |s.cfg.streams| then LastDrain(true) else Idle
  {
    var h := s.chain.(prepared := false, lastCommitted := b.id, pc := Replay(s.chain.deferred), deferred := []);
    var a := Taken(s, h);
    Plays1(s, TakeControl);
    ReplayEnds(a);
    PlayOn(s, [TakeControl], a, Repeat(ReplayOne, |s.chain.deferred|) + [ReplayDone]);
    ProcessedAllIs(a.log, s.chain.deferred);
    n := AfterReplay(a);
  }

  predicate AbortsCheckpoint(c: Ctrl, b: Ident) {
    c == AbortCheckpoint(b) || (c == AbortTransaction(b) && b.id != 0)
  }

  function AbortPath(queued: nat, released: nat): seq<Action> {
    [TakeControl] + Repeat(DrainOne, queued) + [DrainDone, AbortRelease] + (Repeat(ReplayOne, released) + [ReplayDone])
  }

  lemma AbortStartsDrain(s: State, c: Ctrl, b: Ident)
    requires Takes(s, c) && AbortsCheckpoint(c, b) && !s.chain.prepared
    ensures Play(s, [TakeControl]) == Some(Taken(s, s.chain.(pc := AbortDrain(b, |s.queue|))))
  {
    Plays1(s, TakeControl);
  }

  lemma DrainedIsAborted(s: State, b: Ident)
    requires s.chain.pc == AbortDrain(b, 0)
    ensures Play(s, [DrainDone, AbortRelease]) == Some(s.(aligner := s.aligner.Abort(b),
      marks := if s.aligner.active == b then map[] else s.marks,
      chain := s.chain.(pc := Replay(s.aligner.AbortReleases(b)))))
  {
    Plays2(s, DrainDone, AbortRelease);
  }

  /** An abort gives the alignment up: what was queued and what it held back is processed, nothing is captured. */
  lemma AbortReleasesAll(s: State, c: Ctrl, b: Ident) returns (n: State)
    requires Takes(s, c) && AbortsCheckpoint(c, b) && !s.chain.prepared
    ensures Play(s, AbortPath(|s.queue|, |s.aligner.AbortReleases(b)|)) == Some(n) && n.queue == []
    ensures n.aligner == s.aligner.Abort(b) && n.log.snapshots == s.log.snapshots
    ensures n.log.processed == s.log.processed + s.queue + s.aligner.AbortReleases(b)
    ensures s.aligner.active == b && b.id != 0 ==> Unaligned(n.aligner) && AtMost(b, n.aligner.retired)
  {
    var k, rel := |s.queue|, s.aligner.AbortReleases(b);
    AbortStartsDrain(s, c, b);
    var a := Taken(s, s.chain.(pc := AbortDrain(b, k)));
    AbortDrains(a, b, k);
    PlayOn(s, [TakeControl], a, Repeat(DrainOne, k));
    var path := [TakeControl] + Repeat(DrainOne, k);
    var d := Drained(a, k, AbortDrain(b, 0));
    assert s.queue[..k] == s.queue && s.queue[k..] == [];
    DrainedIsAborted(d, b);
    PlayOn(s, path, d, [DrainDone, AbortRelease]);
    path := path + [DrainDone, AbortRelease];
    var e := d.(aligner := s.aligner.Abort(b), marks := if s.aligner.active == b then map[] else s.marks,
                chain := d.chain.(pc := Replay(rel)));
    ReplayEnds(e);
    PlayOn(s, path, e, Repeat(ReplayOne, |rel|) + [ReplayDone]);
    n := AfterReplay(e);
    ProcessedAllIs(s.log, s.queue);
    ProcessedAllIs(e.log, rel);
    if s.aligner.active == b && b.id != 0 {
      FinishUnaligns(s.aligner, b);
    }
  }

  /** An abort of the prepared checkpoint itself stops the chain, which then restores. */
  lemma AbortStopsPrepared(s: State, c: Ctrl, b: Ident)
    requires Inv(s) && Takes(s, c) && AbortsCheckpoint(c, b) && s.chain.prepared && s.chain.preparedAs == b
    ensures Play(s, [TakeControl]) == Some(Taken(s, s.chain.(pc := Halted([]))))
  {
    Plays1(s, TakeControl);
  }

  // ---------------------------------------------------------------- end and shutdown

  /** Draining the inputs processes everything queued and held back, and ends alignment for good. */
  lemma DrainInputsReleasesAll(s: State) returns (n: State)
    requires Takes(s, DrainInputs) && !s.chain.prepared
    ensures Play(s, [TakeControl] + Repeat(DrainOne, |s.queue|) + [DrainDone, StopRelease]
      + (Repeat(ReplayOne, |Flatten(s.aligner.side)|) + [ReplayDone])) == Some(n)
    ensures n.queue == [] && n.chain.draining && n.aligner == s.aligner.BeginDrain()
    ensures n.log.processed == s.log.processed + s.queue + Flatten(s.aligner.side)
  {
    var k, rel := |s.queue|, Flatten(s.aligner.side);
    var a := Taken(s, s.chain.(draining := true, pc := StopDrain));
    Plays1(s, TakeControl);
    QueueDrains(a, k);
    PlayOn(s, [TakeControl], a, Repeat(DrainOne, k));
    var path := [TakeControl] + Repeat(DrainOne, k);
    var d := Drained(a, k, StopDrain);
    assert s.queue[..k] == s.queue && s.queue[k..] == [];
    Plays2(d, DrainDone, StopRelease);
    PlayOn(s, path, d, [DrainDone, StopRelease]);
    path := path + [DrainDone, StopRelease];
    var e := d.(aligner := s.aligner.BeginDrain(), marks := map[], chain := d.chain.(pc := Replay(rel)));
    ReplayEnds(e);
    PlayOn(s, path, e, Repeat(ReplayOne, |rel|) + [ReplayDone]);
    n := AfterReplay(e);
    ProcessedAllIs(s.log, s.queue);
    ProcessedAllIs(e.log, rel);
  }

  /** The message that is the last end of input, or a shutdown of a draining chain. */
  predicate IsLast(s: State, c: Ctrl) {
    (c.EndOfPartition? && s.chain.eofs + 1 >= |s.cfg.streams|) || (c.Shutdown? && s.chain.draining)
  }

  /** It is acted on only once the queue is empty: everything queued is processed, then the chain exits. */
  lemma LastDrainsQueue(s: State, c: Ctrl) returns (n: State)
    requires Takes(s, c) && IsLast(s, c) && !s.chain.prepared
    ensures Play(s, [TakeControl] + Repeat(DrainOne, |s.queue|) + [DrainDone]) == Some(n)
    ensures n.chain.pc == Halted([]) && n.queue == [] && n.log.processed == s.log.processed + s.queue
  {
    var k := |s.queue|;
    var a := TakeControlStep(s);
    Plays1(s, TakeControl);
    QueueDrains(a, k);
    PlayOn(s, [TakeControl], a, Repeat(DrainOne, k));
    var d := Drained(a, k, a.chain.pc);
    assert s.queue[..k] == s.queue && s.queue[k..] == [];
    Plays1(d, DrainDone);
    PlayOn(s, [TakeControl] + Repeat(DrainOne, k), d, [DrainDone]);
    ProcessedAllIs(s.log, s.queue);
    n := DrainDoneStep(d);
  }

  /** Behind a prepared transaction an end of input is kept for later. */
  lemma EndWaitsForCommit(s: State)
    requires Takes(s, EndOfPartition) && s.chain.prepared && s.chain.deferredEofs < |s.cfg.streams|
    ensures Play(s, [TakeControl]) == Some(Taken(s, s.chain.(deferredEofs := s.chain.deferredEofs + 1)))
  {
    Plays1(s, TakeControl);
  }

  // ---------------------------------------------------------------- from the readers on

  /** Every reader stands before the barrier of `b`, and nothing keeps it from being aligned. */
  ghost predicate BeforeBarrier(s: State, b: Ident) {
    && (forall i :: 0 <= i < |s.cfg.streams| ==> AtMessage(s, i) && Message(s, i) == Barrier(b))
    && b.id != 0 && !AtMost(b, s.aligner.retired) && !s.aligner.draining && s.aligner.active == NONE
  }

  function FirstInputs(k: nat): set<int> {
    if k == 0 then {} else FirstInputs(k - 1) + {k - 1}
  }

  lemma {:induction false} FirstInputsAre(k: nat, i: int)
    ensures i in FirstInputs(k) <==> 0 <= i < k
  {
    if k > 0 {
      FirstInputsAre(k - 1, i);
    }
  }

  /** The first `k` inputs have passed their barrier; everything but readers, aligner and mailbox is as it was. */
  ghost predicate Arriving(s: State, b: Ident, k: nat, m: State) {
    && k <= |s.cfg.streams| && |s.readers| == |s.cfg.streams| && |m.readers| == |s.readers| && m.cfg == s.cfg
    && m.queue == s.queue && m.chain == s.chain && m.log == s.log
    && (forall j :: k <= j < |s.readers| ==> m.readers[j] == s.readers[j])
    && m.controls == s.controls + Repeat(BarrierReceived(b), k)
    && m.aligner == s.aligner.(active := if k == 0 then NONE else b, arrived := FirstInputs(k))
  }

  function Arrive(i: nat): seq<Action> {
    [ReadBarrier(i), Register(i), Post(i)]
  }

  lemma OneArrives(s: State, b: Ident, k: nat, m: State) returns (n: State)
    requires BeforeBarrier(s, b) && s.aligner.Valid() && s.aligner.numInputs == |s.cfg.streams|
    requires Arriving(s, b, k, m) && k < |s.cfg.streams|
    ensures Play(m, Arrive(k)) == Some(n) && Arriving(s, b, k + 1, n)
  {
    assert AtMessage(s, k) && Message(s, k) == Barrier(b);
    var a := ReadBarrierStep(m, k);
    var r := RegisterStep(a, k);
    n := PostStep(r, k);
    Plays2(m, ReadBarrier(k), Register(k));
    PlayOne(m, [ReadBarrier(k), Register(k)], r, Post(k));
    assert [ReadBarrier(k), Register(k)] + [Post(k)] == Arrive(k);
    FirstInputsAre(k, k);
  }

  function ArriveAll(k: nat): seq<Action> {
    if k == 0 then [] else ArriveAll(k - 1) + Arrive(k - 1)
  }

  lemma {:induction false} AllArrive(s: State, b: Ident, k: nat) returns (m: State)
    requires BeforeBarrier(s, b) && s.aligner.Valid() && s.aligner.numInputs == |s.cfg.streams| == |s.readers|
    requires k <= |s.cfg.streams|
    ensures Play(s, ArriveAll(k)) == Some(m) && Arriving(s, b, k, m)
  {
    if k == 0 {
      m := s;
      assert s.controls + [] == s.controls;
    } else {
      var before := AllArrive(s, b, k - 1);
      m := OneArrives(s, b, k - 1, before);
      PlayOn(s, ArriveAll(k - 1), before, Arrive(k - 1));
    }
  }

  lemma {:induction false} PlayKeeps(s: State, path: seq<Action>)
    requires Inv(s) && Play(s, path).Some?
    ensures Inv(Play(s, path).value)
  {
    if path != [] {
      var n := |path| - 1;
      PlayKeeps(s, path[..n]);
      InvStep(Play(s, path[..n]).value, path[n]);
    }
  }

  /**
    From any reachable state in which the readers stand before a barrier and the chain is free, the
    barrier can be aligned and captured: one snapshot of it, of everything processed or queued.
   */
  lemma BarrierCanBeCaptured(s: State, b: Ident) returns (m: State)
    requires Inv(s) && BeforeBarrier(s, b) && |s.cfg.streams| > 0
    requires s.chain.pc.Idle? && !s.chain.prepared && !s.chain.draining && s.controls == []
    ensures Play(s, ArriveAll(|s.cfg.streams|) + CapturePath(|s.queue|)) == Some(m) && Inv(m)
    ensures |m.log.snapshots| == |s.log.snapshots| + 1 && m.log.snapshots[..|s.log.snapshots|] == s.log.snapshots
    ensures var last := m.log.snapshots[|s.log.snapshots|]; last.b == b && last.processed == s.log.processed + s.queue
  {
    var n := |s.cfg.streams|;
    var a := AllArrive(s, b, n);
    PlayKeeps(s, ArriveAll(n));
    forall i | 0 <= i < n ensures i in a.aligner.arrived {
      FirstInputsAre(n, i);
    }
    FirstOf(BarrierReceived(b), n);
    assert s.controls + Repeat(BarrierReceived(b), n) == Repeat(BarrierReceived(b), n);
    m := AlignedIsCaptured(a, b);
    PlayOn(s, ArriveAll(n), a, CapturePath(|s.queue|));
    PlayKeeps(s, ArriveAll(n) + CapturePath(|s.queue|));
  }

  lemma {:induction false} FirstOf(c: Ctrl, n: nat)
    requires n > 0
    ensures |Repeat(c, n)| == n && Repeat(c, n)[0] == c
  {
    if n > 1 {
      FirstOf(c, n - 1);
    }
  }

  // ---------------------------------------------------------------- messages that do not fit

  predicate IsDecision(c: Ctrl) {
    c.BarrierReceived? || c.CommitCheckpoint? || c.AbortCheckpoint? || c.AbortTransaction?
  }

  /** While a transaction is prepared, messages of another term change nothing. */
  lemma OtherTermIsIgnored(s: State, c: Ctrl)
    requires Takes(s, c) && IsDecision(c) && s.chain.prepared && c.b.epoch != s.chain.preparedAs.epoch
    ensures Play(s, [TakeControl]) == Some(Taken(s, s.chain))
  {
    Plays1(s, TakeControl);
  }

  /** A message that contradicts what is prepared: another barrier, or a commit of something else. */
  predicate Contradicts(s: State, c: Ctrl) {
    || (c.BarrierReceived? && s.chain.prepared && !s.chain.draining && c.b.epoch == s.chain.preparedAs.epoch
        && c.b.id != s.chain.preparedAs.id)
    || (c.CommitCheckpoint? && s.cfg.transactional && c.b.id > s.chain.lastCommitted
        && (!s.chain.prepared || (c.b.epoch == s.chain.preparedAs.epoch && c.b.id != s.chain.preparedAs.id)))
  }

  /** It stops the chain rather than being passed over. */
  lemma ContradictionStops(s: State, c: Ctrl)
    requires Takes(s, c) && Contradicts(s, c)
    ensures Play(s, [TakeControl]) == Some(Taken(s, s.chain.(pc := Halted([]))))
  {
    Plays1(s, TakeControl);
  }

  /** A barrier that is not aligned yet, or already prepared, and a commit already made change nothing. */
  lemma EarlyAndRepeatedAreIgnored(s: State, c: Ctrl)
    requires Inv(s) && Takes(s, c)
    requires
      || (c.BarrierReceived? && !s.chain.prepared && !(s.aligner.active == c.b && EveryInputArrived(s.aligner)))
      || (c.BarrierReceived? && s.chain.prepared && c.b == s.chain.preparedAs)
      || (c.CommitCheckpoint? && c.b.id <= s.chain.lastCommitted)
    ensures Play(s, [TakeControl]) == Some(Taken(s, s.chain))
  {
    if c.BarrierReceived? {
      AlignedMeansEveryInput(s.aligner, c.b.id);
    }
    Plays1(s, TakeControl);
  }
}
