/**
  The operator chain of a transactional sink task as the object that handles control messages
  (internal/engine/operator_chain.go).  Every handler is a path of the state machine of
  `ExactlyOnce`: the steps it takes are enabled one after the other, so what holds of every run
  of the machine holds of every sequence of handler calls.
 */
module TransactionalChain {
  import opened Basics
  import opened Paths
  import opened ExactlyOnce
  import opened ExactlyOnceProof
  import opened ExactlyOnceProgress

  lemma RepeatOnce(prefix: seq<Action>, a: Action, n: nat)
    ensures prefix + Repeat(a, n + 1) == prefix + Repeat(a, n) + [a]
  {
  }

  // ---------------------------------------------------------------- the sink

  /** How one call of Commit ends: no effect, an effect whose answer is lost, or success. */
  datatype Answer = Failed | Lost | Confirmed

  const COMMIT_ATTEMPTS: nat := 5

  /** One of the attempts the retry loop makes is confirmed. */
  predicate Confirms(answers: seq<Answer>) {
    exists i :: 0 <= i < |answers| && i < COMMIT_ATTEMPTS && answers[i] == Confirmed
  }

  function RolledBack(k: Sink, id: Option<nat>): Sink {
    k.(active := [], prepared := if id.Some? then k.prepared - {id.value} else k.prepared)
  }

  class TransactionalSink {
    var committed: seq<Result>
    var last: nat
    var active: seq<Result>
    var prepared: map<nat, seq<Result>>

    ghost function Value(): Sink
      reads this
    {
      Sink(committed, last, active, prepared)
    }

    constructor (value: Sink)
      ensures Value() == value
    {
      committed, last, active, prepared := value.committed, value.last, value.active, value.prepared;
    }

    method Write(results: seq<Result>)
      modifies this
      ensures Value() == old(Value()).(active := old(active) + results)
    {
      active := active + results;
    }

    method PreCommit(id: nat)
      modifies this
      ensures Value() == old(Value()).(active := [], prepared := old(prepared)[id := old(active)])
    {
      prepared, active := prepared[id := active], [];
    }

    method Commit(id: nat, answer: Answer)
      modifies this
      ensures Value() == if answer == Failed then old(Value()) else ExactlyOnce.Commit(old(Value()), id)
      ensures answer != Failed ==> id !in prepared
    {
      if answer != Failed && id in prepared {
        committed, last, prepared := committed + prepared[id], id, prepared - {id};
      }
    }

    method Abort(id: Option<nat>)
      modifies this
      ensures Value() == RolledBack(old(Value()), id)
    {
      active := [];
      if id.Some? {
        prepared := prepared - {id.value};
      }
    }
  }

  // ---------------------------------------------------------------- the source

  datatype Boundary = Rejected | Ignored | Barrier(id: nat, position: nat)

  /** The reader of the task's source: whole batches, and checkpoint boundaries only between them. */
  class SourceInput {
    const records: seq<Rec>
    var offset: nat
    var batch: seq<Rec>
    var last: nat
    var waiting: Option<nat>

    ghost predicate Shows(s: State)
      reads this
    {
      && s.phase.Up? && s.g.source == records
      && s.phase.t.offset == offset && s.phase.t.inHand == batch
      && s.phase.t.lastTrigger == last && s.phase.t.boundary == waiting
    }

    constructor (records: seq<Rec>, position: nat)
      ensures this.records == records && offset == position && batch == [] && last == 0 && waiting == None
    {
      this.records := records;
      offset, batch, last, waiting := position, [], 0, None;
    }

    method ReadBatch(n: nat, ghost s: State)
      requires Shows(s) && CanRead(s, n)
      modifies this
      ensures Shows(ReadStep(s, n))
    {
      batch, offset := records[offset..offset + n], offset + n;
    }

    method Dispatch(ghost s: State) returns (r: Rec)
      requires Shows(s) && batch != []
      modifies this
      ensures Shows(DispatchStep(s)) && old(batch) == [r] + batch
    {
      r := batch[0];
      batch := batch[1..];
    }

    /** Any trigger between batches; a redelivered or retired one captures nothing. */
    method AcceptBoundary(id: nat, retired: nat, ghost s: State) returns (b: Boundary)
      requires Shows(s) && batch == [] && waiting == None && s.phase.t.retired == retired
      modifies this
      ensures b == Rejected <==> id == 0
      ensures b.Barrier? <==> id != 0 && id > old(last) && id > retired
      ensures b.Barrier? ==> b == Barrier(id, offset) && waiting == Some(id)
      ensures if id == 0 then Shows(s) else Shows(AcceptStep(s, id))
    {
      if id == 0 {
        return Rejected;
      }
      if id <= last {
        return Ignored;
      }
      last := id;
      if id <= retired {
        return Ignored;
      }
      waiting := Some(id);
      return Barrier(id, offset);
    }
  }

  // ---------------------------------------------------------------- the chain

  /** The restarted task starts from the snapshot `from` of checkpoint `restored`. */
  ghost predicate BeginsWith(s: State, g: Program, k: Sink, uploads: map<nat, Snapshot>, from: Snapshot,
                             restored: nat) {
    && CanBegin(s) && s.g == g && s.sink == k && s.coord.handed == uploads && s.phase.id == restored
    && from == if restored == 0 then Snapshot(0, g.init) else uploads[restored]
  }

  datatype Status = Running | Stopped | Finished

  class ChainContext {
    const g: Program
    const sink: TransactionalSink
    var queue: seq<Rec>
    var ops: OpState
    ghost var done: nat
    var dirty: bool
    var transactionPrepared: bool
    var preparedCheckpoint: nat
    var decisionPending: bool
    var lastCommitted: nat
    var retired: nat
    var boundary: Option<nat>
    var aligned: bool
    var endDeferred: bool
    var uploads: map<nat, Snapshot>
    var status: Status

    function Prepared(): Option<nat>
      reads this
    {
      if transactionPrepared then Some(preparedCheckpoint) else None
    }

    /** The chain's part of the machine state `s`, whose control point is `pc`. */
    ghost predicate Shows(s: State, pc: ChainPc)
      reads this, sink
    {
      && s.g == g && s.sink == sink.Value() && s.coord.handed == uploads
      && match status
         case Stopped => s.phase == Down
         case Finished => s.phase.Ended?
         case Running => s.phase.Up? && ShowsTask(s.phase.t) && s.phase.t.pc == pc
    }

    ghost predicate ShowsTask(t: Task)
      reads this
    {
      && t.queue == queue && t.ops == ops && t.done == done && t.dirty == dirty
      && t.prepared == Prepared() && t.pending == decisionPending
      && t.lastCommitted == lastCommitted && t.retired == retired
      && t.boundary == boundary && t.aligned == aligned && (endDeferred ==> transactionPrepared)
    }

    constructor (g: Program, sink: TransactionalSink, uploads: map<nat, Snapshot>, from: Snapshot, restored: nat)
      ensures this.g == g && this.sink == sink && this.uploads == uploads
      ensures forall s :: BeginsWith(s, g, sink.Value(), uploads, from, restored) ==> Shows(BeginStep(s), Free)
    {
      this.g, this.sink, this.uploads := g, sink, uploads;
      queue, ops, done, dirty := [], from.ops, from.offset, false;
      transactionPrepared, preparedCheckpoint, decisionPending := false, 0, false;
      lastCommitted, retired, boundary, aligned, endDeferred, status := restored, 0, None, false, false, Running;
    }

    /** The source queues a record. */
    method Enqueue(r: Rec, pc: ChainPc, ghost s: State)
      requires status == Running && Shows(s, pc) && s.phase.t.inHand != [] && r == s.phase.t.inHand[0]
      modifies this
      ensures status == Running && Shows(DispatchStep(s), pc) && queue == old(queue) + [r]
    {
      queue := queue + [r];
    }

    /** The source registers an accepted boundary with the aligner the two share. */
    method Register(id: nat, pc: ChainPc, ghost s: State)
      requires status == Running && Shows(s, pc) && id > s.phase.t.lastTrigger && id > retired
      modifies this
      ensures status == Running && Shows(AcceptStep(s, id), pc)
      ensures boundary == Some(id) && aligned && retired == old(retired)
    {
      boundary, aligned := Some(id), true;
    }

    /** One queued record through the operators and into the open transaction. */
    method ProcessEvent(ghost s: State, pc: ChainPc)
      requires status == Running && Shows(s, pc) && CanProcess(s)
      modifies this, sink
      ensures status == Running && Shows(ProcessStep(s), pc) && |queue| == |old(queue)| - 1
    {
      var (next, results) := g.step(ops, queue[0]);
      sink.Write(results);
      if results != [] {
        dirty := true;
      }
      queue, ops, done := queue[1..], next, done + 1;
    }

    /** Everything queued, in order. */
    method DrainInput(ghost s: State, ghost prefix: seq<Action>, pc: ChainPc) returns (ghost n: State)
      requires status == Running && !transactionPrepared && (pc.Free? || pc.Draining?)
      requires Play(s, prefix).Some? && Shows(Play(s, prefix).value, pc)
      modifies this, sink
      ensures status == Running && queue == [] && Shows(n, pc)
      ensures Play(s, prefix + Repeat(Process, |old(queue)|)) == Some(n) && Drained(Play(s, prefix).value, n)
    {
      ghost var k := 0;
      n := Play(s, prefix).value;
      assert prefix + Repeat(Process, 0) == prefix;
      while queue != []
        invariant status == Running && Shows(n, pc) && k + |queue| == |old(queue)|
        invariant Play(s, prefix + Repeat(Process, k)) == Some(n) && Drained(Play(s, prefix).value, n)
        decreases |queue|
      {
        n := DrainOne(s, prefix, k, pc, n);
        k := k + 1;
      }
    }

    method DrainOne(ghost s: State, ghost prefix: seq<Action>, ghost k: nat, pc: ChainPc, ghost m: State)
      returns (ghost n: State)
      requires status == Running && queue != [] && Shows(m, pc) && m.phase.t.prepared == None
      requires (pc.Free? || pc.Draining?) && Play(s, prefix + Repeat(Process, k)) == Some(m)
      modifies this, sink
      ensures status == Running && Shows(n, pc) && |queue| == |old(queue)| - 1
      ensures Play(s, prefix + Repeat(Process, k + 1)) == Some(n) && Drained(m, n)
    {
      PlayOne(s, prefix + Repeat(Process, k), Process);
      RepeatOnce(prefix, Process, k);
      ProcessEvent(m, pc);
      n := ProcessStep(m);
    }

    /**
      A barrier: an aligned boundary is drained, prepared, captured and handed over, all at the
      source position it carries.  A boundary whose alignment was aborted only releases the source,
      one that meets another prepared transaction fails the task, any other barrier does nothing.
     */
    method HandleBarrier(id: nat, position: nat, ghost s: State) returns (ghost n: State, ghost path: seq<Action>)
      requires status == Running && Shows(s, Free) && (boundary == Some(id) ==> s.phase.t.offset == position)
      modifies this, sink
      ensures Play(s, path) == Some(n) && Shows(n, Free)
      ensures path ==
        if old(transactionPrepared) then (if id == old(preparedCheckpoint) then [] else [Exit])
        else if old(boundary) != Some(id) then []
        else if !old(aligned) then [Start]
        else [Start] + Repeat(Process, |old(queue)|) + [Prepare] + [Submit]
    {
      n, path := s, [];
      if transactionPrepared {
        if id != preparedCheckpoint {
          n, path := CloseTask(s, [], Free);
        }
        return;
      }
      if boundary != Some(id) {
        return;
      }
      PlayOne(s, [], Start);
      path := [Start];
      n := StartStep(s);
      assert [] + [Start] == path;
      if !aligned {
        boundary := None;
        return;
      }
      n := DrainInput(s, path, Draining(id));
      path := path + Repeat(Process, |old(queue)|);
      PlayOne(s, path, Prepare);
      path := path + [Prepare];
      PrepareSink(id, n);
      n := PrepareStep(n);
      PlayOne(s, path, Submit);
      path := path + [Submit];
      SubmitSnapshot(id, position, n);
      n := SubmitStep(n);
    }

    method PrepareSink(id: nat, ghost s: State)
      requires status == Running && Shows(s, Draining(id)) && queue == [] && !transactionPrepared
      modifies this, sink
      ensures status == Running && Shows(PrepareStep(s), Capturing(id))
    {
      sink.PreCommit(id);
      transactionPrepared, preparedCheckpoint := true, id;
    }

    method SubmitSnapshot(id: nat, position: nat, ghost s: State)
      requires status == Running && Shows(s, Capturing(id)) && s.phase.t.offset == position
      modifies this
      ensures status == Running && Shows(SubmitStep(s), Free)
    {
      decisionPending := true;
      uploads := uploads[id := Snapshot(position, ops)];
      boundary := None;
      if id > retired {
        retired := id;
      }
    }

    /** Repeats the same commit until it is confirmed; the answers are the sink's. */
    method CommitTransaction(id: nat, answers: seq<Answer>, ghost s: State, ghost prefix: seq<Action>)
      returns (ok: bool, ghost n: State, ghost effects: nat)
      requires status == Running && Play(s, prefix).Some? && Shows(Play(s, prefix).value, Committing(id))
      modifies sink
      ensures Play(s, prefix + Repeat(CommitEffect, effects)) == Some(n) && Shows(n, Committing(id))
      ensures ok ==> sink.Value() == ExactlyOnce.Commit(old(sink.Value()), id) && id !in sink.prepared
      ensures ok <==> Confirms(answers)
    {
      n, effects := Play(s, prefix).value, 0;
      assert prefix + Repeat(CommitEffect, 0) == prefix;
      var attempt := 0;
      while attempt < COMMIT_ATTEMPTS && attempt < |answers|
        invariant 0 <= attempt <= COMMIT_ATTEMPTS && attempt <= |answers|
        invariant forall i :: 0 <= i < attempt ==> answers[i] != Confirmed
        invariant sink.Value() == old(sink.Value()) || sink.Value() == ExactlyOnce.Commit(old(sink.Value()), id)
        invariant Play(s, prefix + Repeat(CommitEffect, effects)) == Some(n) && Shows(n, Committing(id))
      {
        sink.Commit(id, answers[attempt]);
        if answers[attempt] != Failed {
          PlayOne(s, prefix + Repeat(CommitEffect, effects), CommitEffect);
          RepeatOnce(prefix, CommitEffect, effects);
          n, effects := CommitEffectStep(n), effects + 1;
        }
        if answers[attempt] == Confirmed {
          ok := true;
          return;
        }
        attempt := attempt + 1;
      }
      ok := false;
    }

    /**
      A commit command.  One already carried out does nothing, one that does not match the prepared
      transaction stops the task, a match publishes it or leaves it to recovery.  `path` leads on
      from the machine's delivery step.
     */
    method HandleCommit(id: nat, answers: seq<Answer>, ghost s: State)
      returns (ghost m: State, ghost n: State, ghost path: seq<Action>)
      requires status == Running && Shows(s, Free)
      modifies this, sink
      ensures Play(CommitStep(s, id), path) == Some(m) && Shows(n, Free)
      ensures CanCommit(s, id) ==> Play(s, [DeliverCommit(id)] + path) == Some(m)
      ensures id <= old(lastCommitted) ==> m == n == s
      ensures id > old(lastCommitted) && old(Prepared()) != Some(id) ==> m == n == ExitStep(s)
      ensures id > old(lastCommitted) && old(Prepared()) == Some(id) ==>
        if Confirms(answers)
        then Closes(old(endDeferred), m, n, status) && lastCommitted == id
          && Published(old(sink.Value()), id, sink.Value())
          && (Inv(s) && CanCommit(s, id) && old(endDeferred) ==> EndsRightly(m, status, sink.committed))
        else m == n && status == Stopped
    {
      path, n := [], CommitStep(s, id);
      m := n;
      if id > lastCommitted {
        if transactionPrepared && id == preparedCheckpoint {
          decisionPending := true;
          m, n, path := PublishPrepared(id, answers, n);
        } else {
          Stop();
        }
      }
      if CanCommit(s, id) {
        PlayAfter(s, DeliverCommit(id), path);
        EndsAtPublication(s, [DeliverCommit(id)] + path, m);
      }
    }

    /** The decision is known: commit, then begin the next transaction or carry out the end put off. */
    method PublishPrepared(id: nat, answers: seq<Answer>, ghost s: State)
      returns (ghost m: State, ghost n: State, ghost path: seq<Action>)
      requires status == Running && Shows(s, Committing(id))
      modifies this, sink
      ensures Play(s, path) == Some(m) && Shows(n, Free)
      ensures Confirms(answers) ==> sink.committed == m.sink.committed
      ensures if Confirms(answers)
        then Closes(old(endDeferred), m, n, status) && lastCommitted == id
          && Published(old(sink.Value()), id, sink.Value())
        else m == n && status == Stopped
    {
      ghost var effects;
      var ok;
      ok, n, effects := CommitTransaction(id, answers, s, []);
      path := [] + Repeat(CommitEffect, effects);
      if !ok {
        n, path := CloseTask(s, path, Committing(id));
        m := n;
        return;
      }
      PlayOne(s, path, CommitDone);
      path := path + [CommitDone];
      var ending := FinishCommit(id, n);
      m := CommitDoneStep(n);
      n := m;
      if ending {
        ghost var queued := |queue|;
        m, n := EndChain(s, path);
        path := path + Repeat(Process, queued);
      }
    }

    /** The transaction is closed; `ending` tells that an end of input was put off behind it. */
    method FinishCommit(id: nat, ghost s: State) returns (ending: bool)
      requires status == Running && Shows(s, Committing(id)) && id !in sink.prepared
      modifies this
      ensures status == Running && Shows(CommitDoneStep(s), Free) && ending == old(endDeferred)
      ensures lastCommitted == id && !transactionPrepared && queue == old(queue)
    {
      lastCommitted, dirty, transactionPrepared, decisionPending := id, false, false, false;
      ending, endDeferred := endDeferred, false;
    }

    /** With nothing prepared: drains the queue, then ends unless writes are uncommitted. */
    method EndChain(ghost s: State, ghost prefix: seq<Action>) returns (ghost m: State, ghost n: State)
      requires status == Running && !transactionPrepared
      requires Play(s, prefix).Some? && Shows(Play(s, prefix).value, Free)
      modifies this, sink
      ensures Play(s, prefix + Repeat(Process, |old(queue)|)) == Some(m) && Drained(Play(s, prefix).value, m)
      ensures n == EndStep(m) && Shows(n, Free) && status == if m.phase.t.dirty then Stopped else Finished
      ensures lastCommitted == old(lastCommitted) && SameLog(old(sink.Value()), sink.Value())
      ensures Inv(s) ==> EndsRightly(m, status, sink.committed)
    {
      m := DrainInput(s, prefix, Free);
      EndsAtPublication(s, prefix + Repeat(Process, |old(queue)|), m);
      n := EndStep(m);
      if dirty {
        Stop();
      } else {
        status := Finished;
      }
    }

    /**
      An abort of a checkpoint or (`whole`) of its transaction.  With nothing prepared the queue is
      drained first and the alignment given up; a checkpoint abort that misses the prepared
      transaction is ignored.
     */
    method HandleAbort(id: nat, whole: bool, ghost s: State) returns (ghost m: State, ghost n: State)
      requires status == Running && Shows(s, Free)
      modifies this, sink
      ensures Play(s, if old(transactionPrepared) then [] else Repeat(Process, |old(queue)|)) == Some(m)
      ensures Shows(n, Free)
      ensures n == if old(transactionPrepared) && !whole && old(preparedCheckpoint) != id then s else AbortStep(m, id)
      ensures CanAbort(m, id) && n == AbortStep(m, id) ==>
        var drained := if old(transactionPrepared) then [] else Repeat(Process, |old(queue)|);
        Play(s, drained + [DeliverAbort(id)]) == Some(n)
    {
      m, n := s, s;
      if !transactionPrepared {
        assert [] + Repeat(Process, |queue|) == Repeat(Process, |queue|);
        m := DrainInput(s, [], Free);
        n := AbortStep(m, id);
        RetireCheckpoint(id);
        AbortDelivered(s, Repeat(Process, |old(queue)|), m, id);
        return;
      }
      AbortDelivered(s, [], s, id);
      if !whole && id != preparedCheckpoint {
        return;
      }
      n := AbortStep(s, id);
      if id <= lastCommitted {
        return;
      }
      if id != preparedCheckpoint {
        Stop();
        return;
      }
      sink.Abort(Some(id));
      transactionPrepared, decisionPending, status := false, false, Stopped;
    }

    method RetireCheckpoint(id: nat)
      modifies this
      ensures retired == Max(id, old(retired)) && aligned == (old(aligned) && old(boundary) != Some(id))
      ensures queue == old(queue) && ops == old(ops) && done == old(done) && dirty == old(dirty)
      ensures transactionPrepared == old(transactionPrepared) && preparedCheckpoint == old(preparedCheckpoint)
      ensures decisionPending == old(decisionPending) && lastCommitted == old(lastCommitted)
      ensures boundary == old(boundary) && uploads == old(uploads) && status == old(status)
      ensures endDeferred == old(endDeferred)
    {
      if id > retired {
        retired := id;
      }
      if boundary == Some(id) {
        aligned := false;
      }
    }

    /**
      End of input.  Behind a prepared transaction one end is put off until the transaction is
      committed, a second one fails the task; otherwise the chain ends.
     */
    method HandleEnd(ghost s: State) returns (ghost m: State, ghost n: State)
      requires status == Running && Shows(s, Free)
      modifies this, sink
      ensures Shows(n, Free)
      ensures old(transactionPrepared) && !old(endDeferred) ==> m == n == s && status == Running && endDeferred
      ensures old(transactionPrepared) && old(endDeferred) ==> m == s && n == ExitStep(s) && status == Stopped
      ensures !old(transactionPrepared) ==>
        && Play(s, Repeat(Process, |old(queue)|)) == Some(m) && n == EndStep(m)
        && status == if m.phase.t.dirty then Stopped else Finished
      ensures !old(transactionPrepared) && CanEnd(m) ==> Play(s, Repeat(Process, |old(queue)|) + [End]) == Some(n)
      ensures !old(transactionPrepared) && Inv(s) ==> EndsRightly(m, status, sink.committed)
    {
      m, n := s, s;
      if !transactionPrepared {
        assert [] + Repeat(Process, |queue|) == Repeat(Process, |queue|);
        m, n := EndChain(s, []);
        if CanEnd(m) {
          PlayOne(s, Repeat(Process, |old(queue)|), End);
        }
      } else if endDeferred {
        n := ExitStep(s);
        Stop();
      } else {
        endDeferred := true;
      }
    }

    /** The deferred cleanup of the chain: only a transaction that was never reported is aborted. */
    method Stop()
      requires status == Running
      modifies this, sink
      ensures status == Stopped && uploads == old(uploads) && lastCommitted == old(lastCommitted)
      ensures sink.Value() ==
        if old(decisionPending) then old(sink.Value()) else RolledBack(old(sink.Value()), old(Prepared()))
    {
      if !decisionPending {
        sink.Abort(Prepared());
      }
      status := Stopped;
    }

    method CloseTask(ghost s: State, ghost prefix: seq<Action>, pc: ChainPc)
      returns (ghost n: State, ghost path: seq<Action>)
      requires status == Running && Play(s, prefix).Some? && Shows(Play(s, prefix).value, pc)
      modifies this, sink
      ensures path == prefix + [Exit] && Play(s, path) == Some(n) && Shows(n, Free) && status == Stopped
    {
      PlayOne(s, prefix, Exit);
      path, n := prefix + [Exit], ExitStep(Play(s, prefix).value);
      Stop();
    }
  }

  /** Queue and processed records aside, draining leaves the task as it was. */
  predicate Drained(s: State, n: State) {
    && s.phase.Up? && n.phase.Up? && n.coord == s.coord && n.phase.t.prepared == s.phase.t.prepared
    && n.phase.t.offset == s.phase.t.offset && n.phase.t.inHand == s.phase.t.inHand && n.phase.t.pc == s.phase.t.pc
    && n.phase.t.boundary == s.phase.t.boundary && n.phase.t.aligned == s.phase.t.aligned
    && n.phase.t.lastCommitted == s.phase.t.lastCommitted && SameLog(s.sink, n.sink)
  }

  /** With its input used up, the chain has finished exactly when all output is published. */
  ghost predicate EndsRightly(m: State, status: Status, committed: seq<Result>) {
    CanEnd(m) ==> (status == Finished <==> AllPublished(m.g, committed))
  }

  lemma EndsAtPublication(s: State, path: seq<Action>, m: State)
    requires Play(s, path) == Some(m)
    ensures Inv(s) && CanEnd(m) ==> (!m.phase.t.dirty <==> AllPublished(m.g, m.sink.committed))
  {
    if Inv(s) && CanEnd(m) {
      PlayKeeps(s, path);
      EndsWhenPublished(m);
    }
  }

  lemma AbortDelivered(s: State, path: seq<Action>, m: State, id: nat)
    requires Play(s, path) == Some(m) && m.phase.Up?
    ensures CanAbort(m, id) ==> Play(s, path + [DeliverAbort(id)]) == Some(AbortStep(m, id))
  {
    if CanAbort(m, id) {
      PlayOne(s, path, DeliverAbort(id));
    }
  }

  /** With the transaction closed at `m`, the chain goes on from there or carries out the end put off. */
  ghost predicate Closes(ending: bool, m: State, n: State, status: Status) {
    && m.phase.Up? && m.phase.t.prepared == None && n == (if ending then EndStep(m) else m)
    && status == if !ending then Running else if m.phase.t.dirty then Stopped else Finished
  }

  /** What is published and prepared is the same. */
  predicate SameLog(before: Sink, after: Sink) {
    after.committed == before.committed && after.last == before.last && after.prepared == before.prepared
  }

  /** The transaction `id` has been published, once. */
  predicate Published(before: Sink, id: nat, after: Sink) {
    SameLog(ExactlyOnce.Commit(before, id), after)
  }

  // ---------------------------------------------------------------- source and chain together

  /** The source hands its whole batch to the chain's queue. */
  method DispatchBatch(source: SourceInput, chain: ChainContext, pc: ChainPc, ghost s: State) returns (ghost n: State)
    requires source.Shows(s) && chain.status == Running && chain.Shows(s, pc)
    modifies source, chain
    ensures Play(s, Repeat(Dispatch, |old(source.batch)|)) == Some(n) && source.Shows(n) && chain.Shows(n, pc)
    ensures source.batch == [] && chain.status == Running && chain.queue == old(chain.queue) + old(source.batch)
  {
    n := s;
    ghost var k := 0;
    while source.batch != []
      invariant Play(s, Repeat(Dispatch, k)) == Some(n) && source.Shows(n) && chain.Shows(n, pc)
      invariant k + |source.batch| == |old(source.batch)| && source.batch == old(source.batch)[k..]
      invariant chain.status == Running && chain.queue == old(chain.queue) + old(source.batch)[..k]
      decreases |source.batch|
    {
      PlayOne(s, Repeat(Dispatch, k), Dispatch);
      DispatchOne(source, chain, pc, n);
      n, k := DispatchStep(n), k + 1;
    }
  }

  method DispatchOne(source: SourceInput, chain: ChainContext, pc: ChainPc, ghost s: State)
    requires source.Shows(s) && chain.status == Running && chain.Shows(s, pc) && source.batch != []
    modifies source, chain
    ensures source.Shows(DispatchStep(s)) && chain.Shows(DispatchStep(s), pc) && chain.status == Running
    ensures source.batch == old(source.batch)[1..] && chain.queue == old(chain.queue) + [old(source.batch)[0]]
  {
    var r := source.Dispatch(s);
    chain.Enqueue(r, pc, s);
  }

  /** A trigger between batches: source and aligner note the boundary together, or neither does. */
  method AcceptTrigger(source: SourceInput, chain: ChainContext, id: nat, pc: ChainPc, ghost s: State)
    returns (b: Boundary)
    requires source.Shows(s) && source.batch == [] && source.waiting == None
    requires chain.status == Running && chain.Shows(s, pc)
    modifies source, chain
    ensures b.Barrier? <==> id != 0 && id > old(source.last) && id > chain.retired
    ensures b.Barrier? ==> b == Barrier(id, source.offset) && chain.boundary == Some(id) && chain.aligned
    ensures var n := if id == 0 then s else AcceptStep(s, id); source.Shows(n) && chain.Shows(n, pc)
  {
    b := source.AcceptBoundary(id, chain.retired, s);
    if b.Barrier? {
      chain.Register(id, pc, s);
    }
  }
}
