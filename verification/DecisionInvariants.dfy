/** What every step of the coordinator keeps about its checkpoint records. */
module DecisionInvariants {
  import opened Basics
  import opened Decisions

  // ---------------------------------------------------------------- one job's records

  /** A checkpoint's receipts come from captured tasks, at their assigned replicas. */
  predicate ReceiptsOk(cp: Checkpoint) {
    && cp.paths.Keys <= cp.tasks.Keys && cp.manifests.Keys == cp.paths.Keys
    && (forall task :: task in cp.paths ==> cp.paths[task] != "" && cp.paths[task] == Find(cp.replicas, task, ""))
    && (cp.status == Completed ==> cp.paths.Keys == cp.tasks.Keys)
  }

  predicate CheckpointOk(epoch: nat, id: nat, cp: Checkpoint) {
    0 < id && cp.epoch <= epoch && cp.status != Triggered && ReceiptsOk(cp)
  }

  predicate FlightOk(epoch: nat, r: JobRecord) {
    && (forall id :: id in r.checkpoints ==> CheckpointOk(epoch, id, r.checkpoints[id]))
    && (forall i, k :: i in r.checkpoints && k in r.checkpoints && InFlight(r.checkpoints[i]) ==> k <= i)
  }

  predicate IsCompleted(r: JobRecord, id: nat) {
    id in r.checkpoints && r.checkpoints[id].status == Completed
  }

  /** `b` is a completed checkpoint, or 0, and no possibly committed transaction lies beyond it. */
  predicate BoundaryOk(r: JobRecord, b: nat) {
    (b == 0 || IsCompleted(r, b)) && forall id :: id in r.checkpoints ==> Covered(r.checkpoints[id], id, b)
  }

  predicate Covered(cp: Checkpoint, id: nat, b: nat) {
    cp.status == Completed && MayBeCommitted(cp) ==> id <= b
  }

  predicate MetaOk(r: JobRecord) {
    && BoundaryOk(r, r.meta.latest)
    && (r.meta.rollback.Some? ==>
          r.meta.status != Running && !AnyInFlight(r.checkpoints) && BoundaryOk(r, r.meta.rollback.value.checkpoint))
  }

  predicate Linked(id: nat, cp: Checkpoint, sp: Savepoint) {
    sp.checkpoint == id && sp.epoch == cp.epoch && (sp.status == SavepointCompleted <==> cp.status == Completed)
  }

  predicate LinkOk(r: JobRecord, id: nat)
    requires id in r.checkpoints
  {
    var cp := r.checkpoints[id];
    && (cp.savepoint != "" && cp.savepoint in r.savepoints ==> Linked(id, cp, r.savepoints[cp.savepoint]))
    && (InFlight(cp) && cp.savepoint != "" ==>
          cp.savepoint in r.savepoints && r.savepoints[cp.savepoint].status == SavepointInProgress)
  }

  predicate OwnerOk(r: JobRecord, sp: Name)
    requires sp in r.savepoints
  {
    sp != "" && r.savepoints[sp].checkpoint in r.checkpoints && r.checkpoints[r.savepoints[sp].checkpoint].savepoint
      == sp
  }

  predicate SavepointsOk(r: JobRecord) {
    && (forall id {:trigger LinkOk(r, id)} :: id in r.checkpoints ==> LinkOk(r, id))
    && (forall sp {:trigger OwnerOk(r, sp)} :: sp in r.savepoints ==> OwnerOk(r, sp))
    && (forall i, k :: i in r.checkpoints && k in r.checkpoints && i != k ==>
          r.checkpoints[i].savepoint != r.checkpoints[k].savepoint || r.checkpoints[i].savepoint == "")
  }

  predicate RecordOk(epoch: nat, r: JobRecord) {
    FlightOk(epoch, r) && MetaOk(r) && SavepointsOk(r)
  }

  /** An in-progress savepoint belongs to an in-flight checkpoint. */
  predicate Pending(r: JobRecord, sp: Name)
    requires sp in r.savepoints
  {
    r.savepoints[sp].status == SavepointInProgress ==>
      r.savepoints[sp].checkpoint in r.checkpoints && InFlight(r.checkpoints[r.savepoints[sp].checkpoint])
  }

  /** A ready leader's active entry names exactly the stored in-flight checkpoint. */
  predicate LiveOk(epoch: nat, r: JobRecord, active: Option<Ref>) {
    && (forall id :: id in r.checkpoints && InFlight(r.checkpoints[id]) ==>
          active == Some(Ref(id, epoch)) && r.checkpoints[id].epoch == epoch)
    && (active.Some? ==> active.value.id in r.checkpoints && InFlight(r.checkpoints[active.value.id]))
    && (forall sp {:trigger Pending(r, sp)} :: sp in r.savepoints ==> Pending(r, sp))
  }

  // ---------------------------------------------------------------- history

  /** Nothing fixed at the trigger changes, and a terminal decision stays. */
  predicate Persists(cp: Checkpoint, after: Checkpoint) {
    && after.epoch == cp.epoch && after.attempt == cp.attempt && after.tasks == cp.tasks
    && (!InFlight(cp) ==> after.status == cp.status)
  }

  predicate Extends(r: JobRecord, after: JobRecord) {
    forall id :: id in r.checkpoints ==> id in after.checkpoints && Persists(r.checkpoints[id], after.checkpoints[id])
  }

  /** A decision command agrees with the stored decision and goes to a captured task. */
  predicate CommandOk(r: JobRecord, m: Command) {
    && m.id in r.checkpoints && m.epoch == r.checkpoints[m.id].epoch && m.attempt == r.checkpoints[m.id].attempt
    && m.task in r.checkpoints[m.id].tasks && m.worker == r.checkpoints[m.id].tasks[m.task]
    && r.checkpoints[m.id].status == (if m.verb == Commit then Completed else Aborted)
  }

  function ActiveOf(c: Coord, job: Name): Option<Ref> {
    if job in c.active then Some(c.active[job]) else None
  }

  predicate CommandsOk(c: Coord) {
    forall m :: m in c.issued ==> m.job in c.store.jobs && CommandOk(c.store.jobs[m.job], m)
  }

  predicate JobOk(c: Coord, job: Name)
    requires job in c.store.jobs
  {
    && RecordOk(c.store.epoch, c.store.jobs[job])
    && (c.ready ==> c.epoch == c.store.epoch && LiveOk(c.epoch, c.store.jobs[job], ActiveOf(c, job)))
  }

  predicate Inv(c: Coord) {
    && (forall job {:trigger JobOk(c, job)} :: job in c.store.jobs ==> JobOk(c, job))
    && (forall job :: job in c.active ==> c.ready && job in c.store.jobs)
    && (c.ready ==> c.epoch == c.store.epoch)
    && CommandsOk(c)
  }

  // ---------------------------------------------------------------- glue

  lemma ExtendsKeepsCommand(r: JobRecord, after: JobRecord, m: Command)
    requires Extends(r, after) && CommandOk(r, m)
    ensures CommandOk(after, m)
  {
  }

  /** A step that rewrites one job's record and active entry, and sends orders about that job. */
  ghost predicate Rewrites(c: Coord, after: Coord, job: Name) {
    && after.epoch == c.epoch && after.ready == c.ready && after.store.epoch == c.store.epoch
    && job in after.store.jobs && after.store.jobs == c.store.jobs[job := after.store.jobs[job]]
    && (forall other :: other != job ==> ActiveOf(after, other) == ActiveOf(c, other))
    && c.issued <= after.issued
    && (forall m :: m in after.issued && m !in c.issued ==> m.job == job && CommandOk(after.store.jobs[job], m))
  }

  lemma OneJobCommands(c: Coord, after: Coord, job: Name)
    requires CommandsOk(c) && Rewrites(c, after, job)
    requires job in c.store.jobs ==> Extends(c.store.jobs[job], after.store.jobs[job])
    ensures CommandsOk(after)
  {
    forall m | m in after.issued ensures m.job in after.store.jobs && CommandOk(after.store.jobs[m.job], m) {
      if m in c.issued && m.job == job {
        ExtendsKeepsCommand(c.store.jobs[job], after.store.jobs[job], m);
      }
    }
  }

  lemma OneJobKeeps(c: Coord, after: Coord, job: Name)
    requires Inv(c) && Rewrites(c, after, job) && JobOk(after, job) && (job in after.active ==> after.ready)
    requires job in c.store.jobs ==> Extends(c.store.jobs[job], after.store.jobs[job])
    ensures Inv(after)
  {
    OneJobCommands(c, after, job);
    forall j | j in after.store.jobs ensures JobOk(after, j) {
      if j != job {
        assert JobOk(c, j) && ActiveOf(after, j) == ActiveOf(c, j);
      }
    }
    forall j | j in after.active ensures after.ready && j in after.store.jobs {
      assert j != job ==> ActiveOf(after, j) == ActiveOf(c, j);
    }
  }

  lemma OrdersOk(verb: Verb, job: Name, id: nat, r: JobRecord, m: Command)
    requires IsDecided(r, id, verb) && m in Orders(verb, job, id, r.checkpoints[id])
    ensures m.job == job && CommandOk(r, m)
  {
  }

  predicate IsDecided(r: JobRecord, id: nat, verb: Verb) {
    id in r.checkpoints && r.checkpoints[id].status == (if verb == Commit then Completed else Aborted)
  }

  // ---------------------------------------------------------------- trigger

  lemma OpenedFlight(epoch: nat, r: JobRecord, id: nat, cp: Checkpoint)
    requires FlightOk(epoch, r) && !AnyInFlight(r.checkpoints) && CheckpointOk(epoch, id, cp)
    requires forall k :: k in r.checkpoints ==> k < id
    ensures FlightOk(epoch, Opened(r, id, cp)) && Extends(r, Opened(r, id, cp))
  {
  }

  lemma OpenedBoundary(r: JobRecord, id: nat, cp: Checkpoint)
    requires MetaOk(r) && id !in r.checkpoints && InFlight(cp) && r.meta.rollback == None
    ensures MetaOk(Opened(r, id, cp))
  {
  }

  lemma OpenedSavepoints(r: JobRecord, id: nat, cp: Checkpoint)
    requires SavepointsOk(r) && id !in r.checkpoints && InFlight(cp)
    requires cp.savepoint != "" ==> cp.savepoint !in r.savepoints
    requires forall k :: k in r.checkpoints ==> r.checkpoints[k].savepoint != cp.savepoint || cp.savepoint == ""
    ensures SavepointsOk(Opened(r, id, cp))
  {
    var after := Opened(r, id, cp);
    forall k | k in after.checkpoints ensures LinkOk(after, k) {
      if k != id {
        assert LinkOk(r, k);
      }
    }
    forall sp | sp in after.savepoints ensures OwnerOk(after, sp) {
      if sp in r.savepoints {
        assert OwnerOk(r, sp);
      }
    }
  }

  lemma OpenedLive(epoch: nat, r: JobRecord, id: nat, cp: Checkpoint)
    requires LiveOk(epoch, r, None) && id !in r.checkpoints && InFlight(cp) && cp.epoch == epoch
    requires cp.savepoint != "" ==> cp.savepoint !in r.savepoints
    ensures LiveOk(epoch, Opened(r, id, cp), Some(Ref(id, epoch)))
  {
    var after := Opened(r, id, cp);
    forall sp | sp in after.savepoints ensures Pending(after, sp) {
      if sp in r.savepoints {
        assert Pending(r, sp);
      }
    }
  }

  lemma OpenedRecord(epoch: nat, r: JobRecord, id: nat, cp: Checkpoint)
    requires RecordOk(epoch, r) && !AnyInFlight(r.checkpoints) && CheckpointOk(epoch, id, cp) && InFlight(cp)
    requires (forall k :: k in r.checkpoints ==> k < id) && r.meta.rollback == None
    requires cp.savepoint != "" ==> cp.savepoint !in r.savepoints
    requires forall k :: k in r.checkpoints ==> r.checkpoints[k].savepoint != cp.savepoint || cp.savepoint == ""
    ensures RecordOk(epoch, Opened(r, id, cp)) && Extends(r, Opened(r, id, cp))
  {
    OpenedFlight(epoch, r, id, cp);
    OpenedBoundary(r, id, cp);
    OpenedSavepoints(r, id, cp);
  }

  lemma TriggerJob(c: Coord, job: Name, savepoint: Name, final: bool, admitted: bool, highest: nat)
    requires CanTrigger(c, job, admitted, highest) && FreshSavepoint(c, job, savepoint) && JobOk(c, job)
    ensures var after := TriggerStep(c, job, savepoint, final, admitted, highest);
      JobOk(after, job) && Extends(c.store.jobs[job], after.store.jobs[job]) && Rewrites(c, after, job)
  {
    var r := c.store.jobs[job];
    var cp := NewCheckpoint(c, r.assignment, savepoint, final);
    OpenedRecord(c.store.epoch, r, highest + 1, cp);
    OpenedLive(c.epoch, r, highest + 1, cp);
  }

  lemma TriggerKeeps(c: Coord, job: Name, savepoint: Name, final: bool, admitted: bool, highest: nat)
    requires Inv(c) && FreshSavepoint(c, job, savepoint)
    ensures Inv(TriggerStep(c, job, savepoint, final, admitted, highest))
  {
    if CanTrigger(c, job, admitted, highest) {
      assert JobOk(c, job);
      TriggerJob(c, job, savepoint, final, admitted, highest);
      OneJobKeeps(c, TriggerStep(c, job, savepoint, final, admitted, highest), job);
    }
  }

  // ---------------------------------------------------------------- decisions

  lemma OnlyOneInFlight(epoch: nat, r: JobRecord, id: nat, k: nat)
    requires FlightOk(epoch, r) && id in r.checkpoints && k in r.checkpoints
    requires InFlight(r.checkpoints[id]) && InFlight(r.checkpoints[k])
    ensures id == k
  {
  }

  /** `cp` is the decision on the in-flight checkpoint `id`. */
  predicate Decides(epoch: nat, r: JobRecord, id: nat, cp: Checkpoint) {
    && id in r.checkpoints && InFlight(r.checkpoints[id]) && !InFlight(cp)
    && CheckpointOk(epoch, id, cp) && Persists(r.checkpoints[id], cp) && cp.savepoint == r.checkpoints[id].savepoint
  }

  lemma DecidedFlight(epoch: nat, r: JobRecord, id: nat, cp: Checkpoint, meta: JobMeta, after: JobRecord)
    requires FlightOk(epoch, r) && Decides(epoch, r, id, cp) && DecidedRecord(r, id, cp, meta) == Some(after)
    ensures FlightOk(epoch, after) && Extends(r, after) && !AnyInFlight(after.checkpoints)
  {
    forall k | k in after.checkpoints ensures !InFlight(after.checkpoints[k]) {
      if k != id && InFlight(r.checkpoints[k]) {
        OnlyOneInFlight(epoch, r, id, k);
      }
    }
  }

  lemma DecidedSavepoints(epoch: nat, r: JobRecord, id: nat, cp: Checkpoint, meta: JobMeta, after: JobRecord)
    requires SavepointsOk(r) && Decides(epoch, r, id, cp) && DecidedRecord(r, id, cp, meta) == Some(after)
    ensures SavepointsOk(after)
  {
    forall k | k in after.checkpoints ensures LinkOk(after, k) {
      assert LinkOk(r, k);
    }
    forall sp | sp in after.savepoints ensures OwnerOk(after, sp) {
      assert OwnerOk(r, sp);
    }
  }

  lemma DecidedLive(epoch: nat, r: JobRecord, id: nat, cp: Checkpoint, meta: JobMeta, after: JobRecord,
                    active: Option<Ref>)
    requires RecordOk(epoch, r) && LiveOk(epoch, r, active) && Decides(epoch, r, id, cp)
    requires DecidedRecord(r, id, cp, meta) == Some(after) && !AnyInFlight(after.checkpoints)
    ensures LiveOk(epoch, after, None)
  {
    forall sp | sp in after.savepoints ensures Pending(after, sp) {
      assert OwnerOk(r, sp) && Pending(r, sp);
    }
  }

  lemma AbortedBoundary(epoch: nat, r: JobRecord, id: nat, cp: Checkpoint, meta: JobMeta, after: JobRecord)
    requires MetaOk(r) && Decides(epoch, r, id, cp) && cp.status == Aborted
    requires DecidedRecord(r, id, cp, meta) == Some(after) && meta.latest == r.meta.latest
    requires meta.rollback == r.meta.rollback
    ensures MetaOk(after)
  {
  }

  lemma CompletedBoundary(epoch: nat, r: JobRecord, id: nat, cp: Checkpoint, after: JobRecord)
    requires FlightOk(epoch, r) && MetaOk(r) && Decides(epoch, r, id, cp) && cp.status == Completed
    requires DecidedRecord(r, id, cp, r.meta.(latest := id)) == Some(after)
    ensures MetaOk(after)
  {
  }

  lemma AbortedRecordOk(epoch: nat, r: JobRecord, id: nat, meta: JobMeta, after: JobRecord, active: Option<Ref>)
    requires RecordOk(epoch, r) && LiveOk(epoch, r, active) && id in r.checkpoints && InFlight(r.checkpoints[id])
    requires meta.latest == r.meta.latest && meta.rollback == r.meta.rollback
    requires DecidedRecord(r, id, r.checkpoints[id].(status := Aborted), meta) == Some(after)
    ensures RecordOk(epoch, after) && Extends(r, after) && LiveOk(epoch, after, None)
  {
    var cp := r.checkpoints[id].(status := Aborted);
    assert CheckpointOk(epoch, id, r.checkpoints[id]);
    DecidedFlight(epoch, r, id, cp, meta, after);
    DecidedSavepoints(epoch, r, id, cp, meta, after);
    DecidedLive(epoch, r, id, cp, meta, after, active);
    AbortedBoundary(epoch, r, id, cp, meta, after);
  }

  /** The step sends the orders of one decision on checkpoint `id` of `job`. */
  lemma DecisionRewrites(c: Coord, after: Coord, job: Name, r: JobRecord, verb: Verb, id: nat)
    requires IsDecided(r, id, verb)
    requires after
      == PutJob(c, job, r).(active := after.active, issued := c.issued + Orders(verb, job, id, r.checkpoints[id]))
    requires after.active == c.active || after.active == c.active - {job}
    ensures Rewrites(c, after, job)
  {
    forall m | m in after.issued && m !in c.issued ensures m.job == job && CommandOk(r, m) {
      OrdersOk(verb, job, id, r, m);
    }
  }

  lemma AbortJob(c: Coord, job: Name, id: nat, epoch: nat, failure: bool, exceeded: bool, after: Coord)
    requires after == AbortStep(c, job, id, epoch, failure, exceeded) && after != c
    requires JobOk(c, job)
    ensures JobOk(after, job) && Extends(c.store.jobs[job], after.store.jobs[job]) && Rewrites(c, after, job)
  {
    var r := c.store.jobs[job];
    var cp := r.checkpoints[id].(status := Aborted);
    if InFlight(r.checkpoints[id]) {
      AbortedRecordOk(c.epoch, r, id, AbortedMeta(r.meta, cp, failure, exceeded), after.store.jobs[job],
        ActiveOf(c, job));
    }
    DecisionRewrites(c, after, job, after.store.jobs[job], Abort, id);
  }

  lemma AbortKeeps(c: Coord, job: Name, id: nat, epoch: nat, failure: bool, exceeded: bool)
    requires Inv(c)
    ensures Inv(AbortStep(c, job, id, epoch, failure, exceeded))
  {
    var after := AbortStep(c, job, id, epoch, failure, exceeded);
    if after != c {
      assert JobOk(c, job);
      AbortJob(c, job, id, epoch, failure, exceeded, after);
      OneJobKeeps(c, after, job);
    }
  }

  lemma ReportFailureKeeps(c: Coord, q: Request, exceeded: bool)
    requires Inv(c)
    ensures Inv(ReportFailureStep(c, q, exceeded))
  {
    AbortKeeps(c, q.job, q.id, q.epoch, true, exceeded);
  }

  lemma ExpireKeeps(c: Coord, job: Name, exceeded: bool)
    requires Inv(c)
    ensures Inv(ExpireStep(c, job, exceeded))
  {
    if job in c.active {
      assert JobOk(c, job);
      AbortKeeps(c, job, c.active[job].id, c.active[job].epoch, true, exceeded);
    }
  }

  // ---------------------------------------------------------------- acknowledgement

  lemma SameSizeSubset(small: set<Name>, large: set<Name>)
    requires small <= large && |small| == |large|
    ensures small == large
  {
    assert |large - small| == |large| - |small|;
  }

  /** A receipt for every captured task is what equal counts mean. */
  lemma ReceiptOk(cp: Checkpoint, q: Request)
    requires ReceiptsOk(cp) && InFlight(cp) && FromAssignedTask(cp, q) && CarriesReceipt(cp, q)
    ensures ReceiptsOk(WithReceipt(cp, q))
    ensures |WithReceipt(cp, q).paths| == |cp.tasks| ==> ReceiptsOk(WithReceipt(cp, q).(status := Completed))
  {
    var after := WithReceipt(cp, q);
    if |after.paths| == |cp.tasks| {
      assert |after.paths| == |after.paths.Keys| && |cp.tasks| == |cp.tasks.Keys|;
      SameSizeSubset(after.paths.Keys, cp.tasks.Keys);
    }
  }

  /** `cp` is the in-flight checkpoint `id` with another receipt. */
  predicate Advances(epoch: nat, r: JobRecord, id: nat, cp: Checkpoint) {
    && id in r.checkpoints && InFlight(r.checkpoints[id]) && InFlight(cp)
    && CheckpointOk(epoch, id, cp) && Persists(r.checkpoints[id], cp) && cp.savepoint == r.checkpoints[id].savepoint
  }

  lemma AdvancedFlight(epoch: nat, r: JobRecord, id: nat, cp: Checkpoint)
    requires FlightOk(epoch, r) && Advances(epoch, r, id, cp)
    ensures FlightOk(epoch, PutCheckpoint(r, id, cp)) && Extends(r, PutCheckpoint(r, id, cp))
  {
  }

  lemma AdvancedBoundary(epoch: nat, r: JobRecord, id: nat, cp: Checkpoint)
    requires MetaOk(r) && Advances(epoch, r, id, cp)
    ensures MetaOk(PutCheckpoint(r, id, cp))
  {
  }

  lemma AdvancedSavepoints(epoch: nat, r: JobRecord, id: nat, cp: Checkpoint, active: Option<Ref>)
    requires SavepointsOk(r) && LiveOk(epoch, r, active) && Advances(epoch, r, id, cp)
    ensures SavepointsOk(PutCheckpoint(r, id, cp)) && LiveOk(epoch, PutCheckpoint(r, id, cp), active)
  {
    var after := PutCheckpoint(r, id, cp);
    forall k | k in after.checkpoints ensures LinkOk(after, k) {
      assert LinkOk(r, k);
    }
    forall sp | sp in after.savepoints ensures OwnerOk(after, sp) && Pending(after, sp) {
      assert OwnerOk(r, sp) && Pending(r, sp);
    }
  }

  lemma CompletedRecordOk(epoch: nat, r: JobRecord, id: nat, cp: Checkpoint, after: JobRecord, active: Option<Ref>)
    requires RecordOk(epoch, r) && LiveOk(epoch, r, active) && Decides(epoch, r, id, cp) && cp.status == Completed
    requires DecidedRecord(r, id, cp, r.meta.(latest := id)) == Some(after)
    ensures RecordOk(epoch, after) && Extends(r, after) && LiveOk(epoch, after, None)
  {
    var meta := r.meta.(latest := id);
    DecidedFlight(epoch, r, id, cp, meta, after);
    DecidedSavepoints(epoch, r, id, cp, meta, after);
    DecidedLive(epoch, r, id, cp, meta, after, active);
    CompletedBoundary(epoch, r, id, cp, after);
  }

  lemma RepeatedCommitJob(c: Coord, q: Request, after: Coord)
    requires Acceptable(c, q) && c.store.jobs[q.job].checkpoints[q.id].status == Completed && JobOk(c, q.job)
    requires after
      == c.(issued := c.issued + Orders(Commit, q.job, q.id, WithReceipt(c.store.jobs[q.job].checkpoints[q.id], q)))
    ensures Rewrites(c, after, q.job) && JobOk(after, q.job)
  {
    var r := c.store.jobs[q.job];
    assert Orders(Commit, q.job, q.id, WithReceipt(r.checkpoints[q.id], q))
      == Orders(Commit, q.job, q.id, r.checkpoints[q.id]);
    assert c.store.jobs[q.job := r] == c.store.jobs;
    DecisionRewrites(c, after, q.job, r, Commit, q.id);
  }

  lemma ReceiptJob(c: Coord, q: Request, cp: Checkpoint)
    requires Acceptable(c, q) && JobOk(c, q.job) && Advances(c.store.epoch, c.store.jobs[q.job], q.id, cp)
    ensures var after := PutJob(c, q.job, PutCheckpoint(c.store.jobs[q.job], q.id, cp));
      JobOk(after, q.job) && Extends(c.store.jobs[q.job], after.store.jobs[q.job]) && Rewrites(c, after, q.job)
  {
    var r := c.store.jobs[q.job];
    AdvancedFlight(c.store.epoch, r, q.id, cp);
    AdvancedBoundary(c.store.epoch, r, q.id, cp);
    AdvancedSavepoints(c.store.epoch, r, q.id, cp, ActiveOf(c, q.job));
  }

  lemma CompletionJob(c: Coord, q: Request, cp: Checkpoint, r: JobRecord, after: Coord)
    requires Acceptable(c, q) && JobOk(c, q.job) && Decides(c.store.epoch, c.store.jobs[q.job], q.id, cp)
    requires cp.status == Completed
    requires DecidedRecord(c.store.jobs[q.job], q.id, cp, c.store.jobs[q.job].meta.(latest := q.id)) == Some(r)
    requires after
      == PutJob(c, q.job, r).(active := c.active - {q.job}, issued := c.issued + Orders(Commit, q.job, q.id, cp))
    ensures JobOk(after, q.job) && Extends(c.store.jobs[q.job], after.store.jobs[q.job]) && Rewrites(c, after, q.job)
  {
    CompletedRecordOk(c.store.epoch, c.store.jobs[q.job], q.id, cp, r, ActiveOf(c, q.job));
    DecisionRewrites(c, after, q.job, r, Commit, q.id);
  }

  lemma AcknowledgeJob(c: Coord, q: Request, assembled: bool, after: Coord)
    requires after == AcknowledgeStep(c, q, assembled) && Acceptable(c, q) && after != c && JobOk(c, q.job)
    ensures JobOk(after, q.job) && Extends(c.store.jobs[q.job], after.store.jobs[q.job]) && Rewrites(c, after, q.job)
  {
    var r := c.store.jobs[q.job];
    if r.checkpoints[q.id].status == Completed {
      RepeatedCommitJob(c, q, after);
    } else {
      assert CheckpointOk(c.epoch, q.id, r.checkpoints[q.id]);
      ReceiptOk(r.checkpoints[q.id], q);
      var cp := WithReceipt(r.checkpoints[q.id], q);
      if |cp.paths| != |cp.tasks| {
        ReceiptJob(c, q, cp);
      } else {
        var done := cp.(status := Completed);
        CompletionJob(c, q, done, DecidedRecord(r, q.id, done, r.meta.(latest := q.id)).value, after);
      }
    }
  }

  lemma AcknowledgeKeeps(c: Coord, q: Request, assembled: bool)
    requires Inv(c)
    ensures Inv(AcknowledgeStep(c, q, assembled))
  {
    var after := AcknowledgeStep(c, q, assembled);
    if Acceptable(c, q) && after != c {
      assert JobOk(c, q.job);
      AcknowledgeJob(c, q, assembled, after);
      OneJobKeeps(c, after, q.job);
    }
  }

  // ---------------------------------------------------------------- the recovery boundary

  /** Selection returns a usable completed checkpoint and skips no possibly committed one. */
  lemma {:induction false} SelectedBoundary(r: JobRecord, verdicts: map<nat, Verdict>, n: nat, id: nat)
    requires SelectFrom(r, verdicts, n) == Some(id)
    ensures 0 < id <= n && Candidate(r, id) && VerdictOn(r, id, verdicts) == Usable
    ensures forall k :: id < k <= n && Candidate(r, k) && !Pinned(r.meta) ==>
              VerdictOn(r, k, verdicts) == Unusable && !MayBeCommitted(r.checkpoints[k])
    ensures Pinned(r.meta) ==> id == r.meta.rescaleCheckpoint
  {
    if SelectFrom(r, verdicts, n - 1) == Some(id) {
      SelectedBoundary(r, verdicts, n - 1, id);
    }
  }

  lemma SelectedRecord(epoch: nat, r: JobRecord, verdicts: map<nat, Verdict>, id: nat)
    requires RecordOk(epoch, r) && SelectFrom(r, verdicts, r.meta.latest) == Some(id)
    ensures RecordOk(epoch, r.(meta := r.meta.(latest := id)))
  {
    SelectedBoundary(r, verdicts, r.meta.latest, id);
    MetaOnly(epoch, r, r.meta.(latest := id));
  }

  /** A step that touches only the job's metadata needs only its boundary and rollback checked. */
  lemma MetaOnly(epoch: nat, r: JobRecord, meta: JobMeta)
    requires RecordOk(epoch, r) && BoundaryOk(r, meta.latest)
    requires meta.rollback.Some? ==>
      meta.status != Running && !AnyInFlight(r.checkpoints) && BoundaryOk(r, meta.rollback.value.checkpoint)
    ensures RecordOk(epoch, r.(meta := meta)) && Extends(r, r.(meta := meta))
  {
    var after := r.(meta := meta);
    assert BoundaryOk(after, meta.latest);
    SameRecords(epoch, r, after);
  }

  lemma SameRecords(epoch: nat, r: JobRecord, after: JobRecord)
    requires FlightOk(epoch, r) && SavepointsOk(r)
    requires after.checkpoints == r.checkpoints && after.savepoints == r.savepoints
    ensures FlightOk(epoch, after) && SavepointsOk(after) && Extends(r, after)
  {
    forall k | k in after.checkpoints ensures LinkOk(after, k) {
      assert LinkOk(r, k);
    }
    forall sp | sp in after.savepoints ensures OwnerOk(after, sp) {
      assert OwnerOk(r, sp);
    }
  }

  lemma SameLive(epoch: nat, r: JobRecord, after: JobRecord, active: Option<Ref>)
    requires LiveOk(epoch, r, active) && after.checkpoints == r.checkpoints && after.savepoints == r.savepoints
    ensures LiveOk(epoch, after, active)
  {
    forall sp | sp in after.savepoints ensures Pending(after, sp) {
      assert Pending(r, sp);
    }
  }
}
