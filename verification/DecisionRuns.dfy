/** Decision agreement, the recovery boundary and one checkpoint in flight, over every run. */
module DecisionRuns {
  import opened Basics
  import opened Decisions
  import opened DecisionInvariants

  // ---------------------------------------------------------------- steps on job metadata

  /** A step that leaves the job's checkpoints and savepoints alone. */
  lemma MetaStepKeeps(c: Coord, job: Name, r: JobRecord)
    requires Inv(c) && job in c.store.jobs && RecordOk(c.store.epoch, r)
    requires r.checkpoints == c.store.jobs[job].checkpoints && r.savepoints == c.store.jobs[job].savepoints
    ensures Inv(PutJob(c, job, r))
  {
    var after := PutJob(c, job, r);
    assert JobOk(c, job);
    SameRecords(c.store.epoch, c.store.jobs[job], r);
    if c.ready {
      SameLive(c.epoch, c.store.jobs[job], r, ActiveOf(c, job));
    }
    OneJobKeeps(c, after, job);
  }

  lemma SelectKeeps(c: Coord, job: Name, verdicts: map<nat, Verdict>)
    requires Inv(c)
    ensures Inv(SelectStep(c, job, verdicts))
  {
    if c.ready && job in c.store.jobs {
      var r := c.store.jobs[job];
      assert JobOk(c, job);
      match SelectFrom(r, verdicts, r.meta.latest)
      case None =>
      case Some(id) =>
        SelectedRecord(c.store.epoch, r, verdicts, id);
        MetaStepKeeps(c, job, r.(meta := r.meta.(latest := id)));
    }
  }

  lemma MetaKeeps(c: Coord, job: Name, meta: JobMeta, a: Assignment)
    requires Inv(c) && job in c.store.jobs
    requires BoundaryOk(c.store.jobs[job], meta.latest)
    requires meta.rollback.Some? ==>
      && meta.status != Running && !AnyInFlight(c.store.jobs[job].checkpoints)
      && BoundaryOk(c.store.jobs[job], meta.rollback.value.checkpoint)
    ensures Inv(PutJob(c, job, c.store.jobs[job].(meta := meta, assignment := a)))
  {
    var r := c.store.jobs[job];
    assert JobOk(c, job);
    MetaOnly(c.store.epoch, r, meta);
    var after := r.(meta := meta, assignment := a);
    SameRecords(c.store.epoch, r.(meta := meta), after);
    assert BoundaryOk(after, meta.latest);
    MetaStepKeeps(c, job, after);
  }

  lemma RescaleKeeps(c: Coord, job: Name, savepoint: Name, config: Name, parallelism: nat, accepted: bool)
    requires Inv(c)
    ensures Inv(RescaleStep(c, job, savepoint, config, parallelism, accepted))
  {
    if CanRescale(c, job, savepoint, accepted) {
      assert JobOk(c, job);
      var r := c.store.jobs[job];
      MetaKeeps(c, job, RescaleStep(c, job, savepoint, config, parallelism, accepted).store.jobs[job].meta,
        r.assignment);
    }
  }

  lemma RollbackKeeps(c: Coord, job: Name)
    requires Inv(c)
    ensures Inv(RollbackStep(c, job))
  {
    if CanRollback(c, job) {
      assert JobOk(c, job);
      MetaKeeps(c, job, RollbackStep(c, job).store.jobs[job].meta, c.store.jobs[job].assignment);
    }
  }

  lemma PlacementFailedKeeps(c: Coord, job: Name)
    requires Inv(c)
    ensures Inv(PlacementFailedStep(c, job))
  {
    if job in c.store.jobs {
      assert JobOk(c, job);
      if PlacementFailedStep(c, job) != c {
        MetaKeeps(c, job, PlacementFailedStep(c, job).store.jobs[job].meta, c.store.jobs[job].assignment);
      }
    }
  }

  lemma TransitionKeeps(c: Coord, job: Name, to: JobStatus)
    requires Inv(c)
    ensures Inv(TransitionStep(c, job, to))
  {
    if job in c.store.jobs {
      assert JobOk(c, job);
      if TransitionStep(c, job, to) != c {
        MetaKeeps(c, job, TransitionStep(c, job, to).store.jobs[job].meta, c.store.jobs[job].assignment);
      }
    }
  }

  lemma DeployKeeps(c: Coord, job: Name, a: Assignment)
    requires Inv(c)
    ensures Inv(DeployStep(c, job, a))
  {
    if job in c.store.jobs {
      assert JobOk(c, job);
      if DeployStep(c, job, a) != c {
        MetaKeeps(c, job, DeployStep(c, job, a).store.jobs[job].meta, a);
      }
    }
  }

  lemma SubmitKeeps(c: Coord, job: Name, config: Name, parallelism: nat)
    requires Inv(c)
    ensures Inv(SubmitStep(c, job, config, parallelism))
  {
    if c.ready && job !in c.store.jobs {
      OneJobKeeps(c, SubmitStep(c, job, config, parallelism), job);
    }
  }

  lemma InvalidatedRecord(epoch: nat, r: JobRecord, id: nat)
    requires RecordOk(epoch, r) && id in r.checkpoints
    ensures var after := PutCheckpoint(r, id, r.checkpoints[id].(invalid := true));
      FlightOk(epoch, after) && SavepointsOk(after) && Extends(r, after)
  {
    assert CheckpointOk(epoch, id, r.checkpoints[id]);
    InvalidatedSavepoints(r, id);
  }

  lemma InvalidatedSavepoints(r: JobRecord, id: nat)
    requires SavepointsOk(r) && id in r.checkpoints
    ensures SavepointsOk(PutCheckpoint(r, id, r.checkpoints[id].(invalid := true)))
  {
    var after := PutCheckpoint(r, id, r.checkpoints[id].(invalid := true));
    forall k | k in after.checkpoints ensures LinkOk(after, k) {
      assert LinkOk(r, k);
    }
    forall sp | sp in after.savepoints ensures OwnerOk(after, sp) {
      assert OwnerOk(r, sp);
    }
  }

  lemma InvalidatedBoundary(r: JobRecord, id: nat)
    requires MetaOk(r) && id in r.checkpoints
    ensures MetaOk(PutCheckpoint(r, id, r.checkpoints[id].(invalid := true)))
  {
    assert Covered(r.checkpoints[id], id, r.meta.latest);
  }

  lemma InvalidatedLive(epoch: nat, r: JobRecord, id: nat, active: Option<Ref>)
    requires LiveOk(epoch, r, active) && id in r.checkpoints
    ensures LiveOk(epoch, PutCheckpoint(r, id, r.checkpoints[id].(invalid := true)), active)
  {
    var after := PutCheckpoint(r, id, r.checkpoints[id].(invalid := true));
    forall sp | sp in after.savepoints ensures Pending(after, sp) {
      assert Pending(r, sp);
    }
  }

  lemma InvalidateKeeps(c: Coord, job: Name, id: nat)
    requires Inv(c)
    ensures Inv(InvalidateStep(c, job, id))
  {
    var after := InvalidateStep(c, job, id);
    if c.ready && job in c.store.jobs && id in c.store.jobs[job].checkpoints {
      assert JobOk(c, job);
      InvalidatedJob(c, job, id, after);
      OneJobKeeps(c, after, job);
    }
  }

  lemma InvalidatedJob(c: Coord, job: Name, id: nat, after: Coord)
    requires c.ready && job in c.store.jobs && id in c.store.jobs[job].checkpoints && JobOk(c, job)
    requires after == InvalidateStep(c, job, id)
    ensures Rewrites(c, after, job) && JobOk(after, job) && Extends(c.store.jobs[job], after.store.jobs[job])
  {
    InvalidatedRecord(c.store.epoch, c.store.jobs[job], id);
    InvalidatedBoundary(c.store.jobs[job], id);
    InvalidatedLive(c.epoch, c.store.jobs[job], id, ActiveOf(c, job));
  }

  lemma DeletedRecord(epoch: nat, r: JobRecord, savepoint: Name, active: Option<Ref>)
    requires RecordOk(epoch, r) && LiveOk(epoch, r, active)
    requires savepoint in r.savepoints && r.savepoints[savepoint].status != SavepointInProgress
    ensures var after := r.(savepoints := r.savepoints - {savepoint});
      RecordOk(epoch, after) && Extends(r, after) && LiveOk(epoch, after, active)
  {
    var after := r.(savepoints := r.savepoints - {savepoint});
    forall k | k in after.checkpoints ensures LinkOk(after, k) {
      assert LinkOk(r, k);
    }
    forall sp | sp in after.savepoints ensures OwnerOk(after, sp) && Pending(after, sp) {
      assert OwnerOk(r, sp) && Pending(r, sp);
    }
    assert BoundaryOk(after, after.meta.latest);
  }

  lemma DeleteSavepointKeeps(c: Coord, job: Name, savepoint: Name)
    requires Inv(c)
    ensures Inv(DeleteSavepointStep(c, job, savepoint))
  {
    var after := DeleteSavepointStep(c, job, savepoint);
    if after != c {
      assert JobOk(c, job);
      DeletedRecord(c.store.epoch, c.store.jobs[job], savepoint, ActiveOf(c, job));
      OneJobKeeps(c, after, job);
    }
  }

  // ---------------------------------------------------------------- recovery

  lemma AbortedFlight(epoch: nat, raised: nat, r: JobRecord, ids: set<nat>)
    requires FlightOk(epoch, r) && epoch <= raised
    ensures FlightOk(raised, AbortedRecord(r, ids)) && Extends(r, AbortedRecord(r, ids))
  {
    var after := AbortedRecord(r, ids);
    forall id | id in after.checkpoints ensures CheckpointOk(raised, id, after.checkpoints[id]) {
      assert CheckpointOk(epoch, id, r.checkpoints[id]);
    }
  }

  lemma AbortedMetaOk(r: JobRecord, ids: set<nat>)
    requires MetaOk(r)
    ensures MetaOk(AbortedRecord(r, ids))
  {
    var after := AbortedRecord(r, ids);
    forall id | id in after.checkpoints
      ensures forall b: nat :: Covered(r.checkpoints[id], id, b) ==> Covered(after.checkpoints[id], id, b)
    {
    }
    assert IsCompleted(r, r.meta.latest) ==> IsCompleted(after, r.meta.latest);
  }

  lemma AbortedSavepoints(r: JobRecord, ids: set<nat>)
    requires SavepointsOk(r)
    ensures SavepointsOk(AbortedRecord(r, ids))
  {
    var after := AbortedRecord(r, ids);
    forall id | id in after.checkpoints ensures LinkOk(after, id) {
      assert LinkOk(r, id);
    }
    forall sp | sp in after.savepoints ensures OwnerOk(after, sp) {
      assert OwnerOk(r, sp);
    }
  }

  lemma FailedSavepoints(epoch: nat, r: JobRecord, names: set<Name>)
    requires RecordOk(epoch, r) && !AnyInFlight(r.checkpoints)
    ensures RecordOk(epoch, FailedRecord(r, names)) && Extends(r, FailedRecord(r, names))
  {
    var after := FailedRecord(r, names);
    forall id | id in after.checkpoints ensures LinkOk(after, id) {
      assert LinkOk(r, id);
    }
    forall sp | sp in after.savepoints ensures OwnerOk(after, sp) {
      assert OwnerOk(r, sp);
    }
    assert BoundaryOk(after, after.meta.latest);
  }

  lemma RewrittenRecord(epoch: nat, raised: nat, p: Progress, job: Name, r: JobRecord)
    requires RecordOk(epoch, r) && epoch <= raised
    ensures RecordOk(raised, Rewritten(p, job, r)) && Extends(r, Rewritten(p, job, r))
  {
    var ids := match p case Aborting(m) => Find(m, job, {}) case Closing(_) => r.checkpoints.Keys;
    AbortedFlight(epoch, raised, r, ids);
    AbortedMetaOk(r, ids);
    AbortedSavepoints(r, ids);
    if p.Closing? {
      FailedSavepoints(raised, AbortedRecord(r, ids), Find(p.names, job, {}));
    }
  }

  lemma RewrittenLive(epoch: nat, r: JobRecord)
    requires !AnyInFlight(r.checkpoints)
    requires forall sp :: sp in r.savepoints ==> r.savepoints[sp].status != SavepointInProgress
    ensures LiveOk(epoch, r, None)
  {
  }

  lemma RecoverJob(c: Coord, after: Coord, p: Progress, job: Name)
    requires job in c.store.jobs && RecordOk(c.store.epoch, c.store.jobs[job])
    requires job in after.store.jobs && after.store.jobs[job] == Rewritten(p, job, c.store.jobs[job])
    requires c.store.epoch <= after.store.epoch && after.active == map[]
    requires after.ready ==> after.epoch == after.store.epoch && AllRewritten(after.store)
    ensures JobOk(after, job) && Extends(c.store.jobs[job], after.store.jobs[job])
  {
    RewrittenRecord(c.store.epoch, after.store.epoch, p, job, c.store.jobs[job]);
    if after.ready {
      RewrittenLive(after.epoch, after.store.jobs[job]);
    }
  }

  lemma RecoverCommands(c: Coord, after: Coord)
    requires CommandsOk(c) && after.issued == c.issued
    requires forall job :: job in c.store.jobs ==>
      job in after.store.jobs && Extends(c.store.jobs[job], after.store.jobs[job])
    ensures CommandsOk(after)
  {
    forall m | m in after.issued ensures m.job in after.store.jobs && CommandOk(after.store.jobs[m.job], m) {
      ExtendsKeepsCommand(c.store.jobs[m.job], after.store.jobs[m.job], m);
    }
  }

  lemma RecoverKeeps(c: Coord, election: nat, p: Progress)
    requires Inv(c)
    ensures Inv(RecoverStep(c, election, p))
  {
    var after := RecoverStep(c, election, p);
    if !c.ready && c.store.epoch < MAX_UINT64 {
      forall job | job in c.store.jobs
        ensures job in after.store.jobs && JobOk(after, job) && Extends(c.store.jobs[job], after.store.jobs[job])
      {
        assert JobOk(c, job);
        RecoverJob(c, after, p, job);
      }
      RecoverCommands(c, after);
    }
  }

  lemma CrashKeeps(c: Coord)
    requires Inv(c)
    ensures Inv(CrashStep(c))
  {
    forall job | job in c.store.jobs ensures JobOk(CrashStep(c), job) {
      assert JobOk(c, job);
    }
  }

  // ---------------------------------------------------------------- every run

  lemma InvStep(c: Coord, a: Action)
    requires Inv(c) && Enabled(c, a)
    ensures Inv(Next(c, a))
  {
    match a
    case DoTrigger(job, sp, final, admitted, highest) => TriggerKeeps(c, job, sp, final, admitted, highest);
    case DoAbort(job, id, epoch, failure, exceeded) => AbortKeeps(c, job, id, epoch, failure, exceeded);
    case DoAcknowledge(q, assembled) => AcknowledgeKeeps(c, q, assembled);
    case DoReportFailure(q, exceeded) => ReportFailureKeeps(c, q, exceeded);
    case DoExpire(job, exceeded) => ExpireKeeps(c, job, exceeded);
    case DoSelect(job, verdicts) => SelectKeeps(c, job, verdicts);
    case DoInvalidate(job, id) => InvalidateKeeps(c, job, id);
    case DoRescale(job, sp, config, n, accepted) => RescaleKeeps(c, job, sp, config, n, accepted);
    case DoRollback(job) => RollbackKeeps(c, job);
    case DoPlacementFailed(job) => PlacementFailedKeeps(c, job);
    case DoSubmit(job, config, n) => SubmitKeeps(c, job, config, n);
    case DoTransition(job, to) => TransitionKeeps(c, job, to);
    case DoDeploy(job, assignment) => DeployKeeps(c, job, assignment);
    case DoDeleteSavepoint(job, sp) => DeleteSavepointKeeps(c, job, sp);
    case DoCrash => CrashKeeps(c);
    case DoRecover(election, p) => RecoverKeeps(c, election, p);
  }

  lemma {:induction false} InvAt(states: seq<Coord>, actions: seq<Action>, k: nat)
    requires Run(states, actions) && k < |states|
    ensures Inv(states[k])
  {
    if k > 0 {
      InvAt(states, actions, k - 1);
      InvStep(states[k - 1], actions[k - 1]);
    }
  }

  /** Commit and abort commands are never both issued for one checkpoint, in any run. */
  lemma NeverBothDecisions(states: seq<Coord>, actions: seq<Action>, k: nat, commit: Command, abort: Command)
    requires Run(states, actions) && k < |states| && commit in states[k].issued && abort in states[k].issued
    requires commit.verb == Commit && abort.verb == Abort
    ensures commit.job != abort.job || commit.id != abort.id
  {
    InvAt(states, actions, k);
    assert CommandOk(states[k].store.jobs[commit.job], commit) && CommandOk(states[k].store.jobs[abort.job], abort);
  }

  /** A command agrees with the stored decision and reaches the worker captured at the trigger. */
  lemma CommandsMatchDecisions(states: seq<Coord>, actions: seq<Action>, k: nat, m: Command)
    requires Run(states, actions) && k < |states| && m in states[k].issued
    ensures m.job in states[k].store.jobs && CommandOk(states[k].store.jobs[m.job], m)
  {
    InvAt(states, actions, k);
  }

  /** The boundary a job restores from is completed and covers every possibly committed transaction. */
  lemma BoundaryCoversCommits(states: seq<Coord>, actions: seq<Action>, k: nat, job: Name, id: nat)
    requires Run(states, actions) && k < |states| && job in states[k].store.jobs
    ensures var r := states[k].store.jobs[job];
      && (r.meta.latest == 0 || IsCompleted(r, r.meta.latest))
      && (IsCompleted(r, id) && MayBeCommitted(r.checkpoints[id]) ==> id <= r.meta.latest)
  {
    InvAt(states, actions, k);
    assert JobOk(states[k], job);
  }

  /** At most one checkpoint of a job is in flight, and a ready leader's active entry names it. */
  lemma OneInFlight(states: seq<Coord>, actions: seq<Action>, k: nat, job: Name, i: nat, j: nat)
    requires Run(states, actions) && k < |states| && job in states[k].store.jobs
    requires i in states[k].store.jobs[job].checkpoints && j in states[k].store.jobs[job].checkpoints
    requires InFlight(states[k].store.jobs[job].checkpoints[i]) && InFlight(states[k].store.jobs[job].checkpoints[j])
    ensures i == j
    ensures states[k].ready ==> job in states[k].active && states[k].active[job] == Ref(i, states[k].epoch)
  {
    InvAt(states, actions, k);
    assert JobOk(states[k], job);
  }

  /** Conversely, every active entry of a leader names a stored in-flight checkpoint of its own term. */
  lemma ActiveIsInFlight(states: seq<Coord>, actions: seq<Action>, k: nat, job: Name)
    requires Run(states, actions) && k < |states| && job in states[k].active
    ensures var c := states[k];
      && c.ready && job in c.store.jobs && c.active[job].id in c.store.jobs[job].checkpoints
      && InFlight(c.store.jobs[job].checkpoints[c.active[job].id])
      && c.active[job].epoch == c.epoch == c.store.jobs[job].checkpoints[c.active[job].id].epoch
  {
    InvAt(states, actions, k);
    assert JobOk(states[k], job);
  }

  /** A completed checkpoint has a receipt, at the assigned replica, from precisely the captured tasks. */
  lemma CompletedHasEveryReceipt(states: seq<Coord>, actions: seq<Action>, k: nat, job: Name, id: nat)
    requires Run(states, actions) && k < |states| && job in states[k].store.jobs
    requires IsCompleted(states[k].store.jobs[job], id)
    ensures var cp := states[k].store.jobs[job].checkpoints[id];
      && cp.paths.Keys == cp.tasks.Keys == cp.manifests.Keys
      && forall task :: task in cp.tasks ==> cp.paths[task] != "" && cp.paths[task] == Find(cp.replicas, task, "")
  {
    InvAt(states, actions, k);
    assert JobOk(states[k], job);
    assert CheckpointOk(states[k].store.epoch, id, states[k].store.jobs[job].checkpoints[id]);
  }

  /** While it exists, a checkpoint's savepoint is completed exactly when the checkpoint is. */
  lemma SavepointFollowsCheckpoint(states: seq<Coord>, actions: seq<Action>, k: nat, job: Name, id: nat)
    requires Run(states, actions) && k < |states| && job in states[k].store.jobs
    requires id in states[k].store.jobs[job].checkpoints
    ensures var r := states[k].store.jobs[job];
      var cp := r.checkpoints[id];
      cp.savepoint != "" && cp.savepoint in r.savepoints ==>
        && r.savepoints[cp.savepoint].checkpoint == id
        && (r.savepoints[cp.savepoint].status == SavepointCompleted <==> cp.status == Completed)
  {
    InvAt(states, actions, k);
    assert JobOk(states[k], job);
    assert LinkOk(states[k].store.jobs[job], id);
  }
}
