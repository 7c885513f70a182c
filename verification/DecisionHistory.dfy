/** How the coordinator's records evolve: decisions last, ids only grow, terms fence completion. */
module DecisionHistory {
  import opened Basics
  import opened Decisions
  import opened DecisionInvariants

  lemma TriggerExtends(c: Coord, job: Name, savepoint: Name, final: bool, admitted: bool, highest: nat)
    requires CanTrigger(c, job, admitted, highest)
    ensures Extends(c.store.jobs[job], TriggerStep(c, job, savepoint, final, admitted, highest).store.jobs[job])
  {
  }

  lemma AbortExtends(c: Coord, job: Name, id: nat, epoch: nat, failure: bool, exceeded: bool)
    requires job in c.store.jobs
    ensures job in AbortStep(c, job, id, epoch, failure, exceeded).store.jobs
    ensures Extends(c.store.jobs[job], AbortStep(c, job, id, epoch, failure, exceeded).store.jobs[job])
  {
  }

  lemma AcknowledgeExtends(c: Coord, q: Request, assembled: bool)
    requires q.job in c.store.jobs
    ensures q.job in AcknowledgeStep(c, q, assembled).store.jobs
    ensures Extends(c.store.jobs[q.job], AcknowledgeStep(c, q, assembled).store.jobs[q.job])
  {
    var r := c.store.jobs[q.job];
    if Acceptable(c, q) {
      var cp := WithReceipt(r.checkpoints[q.id], q);
      PutExtends(r, q.id, cp);
      if cp.status != Completed {
        DecidedExtends(r, q.id, cp.(status := Completed), r.meta.(latest := q.id));
      }
    }
  }

  lemma PutExtends(r: JobRecord, id: nat, cp: Checkpoint)
    requires id in r.checkpoints && Persists(r.checkpoints[id], cp)
    ensures Extends(r, PutCheckpoint(r, id, cp))
  {
  }

  lemma DecidedExtends(r: JobRecord, id: nat, cp: Checkpoint, meta: JobMeta)
    requires id in r.checkpoints && Persists(r.checkpoints[id], cp)
    ensures DecidedRecord(r, id, cp, meta).Some? ==> Extends(r, DecidedRecord(r, id, cp, meta).value)
  {
  }

  lemma RecoverExtends(c: Coord, election: nat, p: Progress, job: Name)
    requires job in c.store.jobs
    ensures job in RecoverStep(c, election, p).store.jobs
    ensures Extends(c.store.jobs[job], RecoverStep(c, election, p).store.jobs[job])
  {
  }

  /** The job a request or command of the coordinator is about. */
  function Subject(a: Action): Name {
    match a
    case DoAcknowledge(q, _) => q.job
    case DoReportFailure(q, _) => q.job
    case DoCrash => ""
    case DoRecover(_, _) => ""
    case _ => a.job
  }

  lemma OtherJobsUntouched(c: Coord, a: Action, job: Name)
    requires job in c.store.jobs && job != Subject(a) && !a.DoRecover?
    ensures job in Next(c, a).store.jobs && Next(c, a).store.jobs[job] == c.store.jobs[job]
  {
    if Decides(a) {
      OthersUndecided(c, a, job);
    }
  }

  /** Requests about checkpoints; the others are about jobs. */
  predicate Decides(a: Action) {
    a.DoTrigger? || a.DoAbort? || a.DoAcknowledge? || a.DoReportFailure? || a.DoExpire? || a.DoInvalidate?
  }

  lemma OthersUndecided(c: Coord, a: Action, job: Name)
    requires job in c.store.jobs && job != Subject(a) && Decides(a)
    ensures job in Next(c, a).store.jobs && Next(c, a).store.jobs[job] == c.store.jobs[job]
  {
    match a
    case DoAbort(own, id, epoch, failure, exceeded) => AbortElsewhere(c, own, id, epoch, failure, exceeded, job);
    case DoReportFailure(q, exceeded) => AbortElsewhere(c, q.job, q.id, q.epoch, true, exceeded, job);
    case DoExpire(own, exceeded) =>
      if own in c.active {
        AbortElsewhere(c, own, c.active[own].id, c.active[own].epoch, true, exceeded, job);
      }
    case _ =>
  }

  lemma AbortElsewhere(c: Coord, own: Name, id: nat, epoch: nat, failure: bool, exceeded: bool, job: Name)
    requires job in c.store.jobs && job != own
    ensures var after := AbortStep(c, own, id, epoch, failure, exceeded);
      job in after.store.jobs && after.store.jobs[job] == c.store.jobs[job]
  {
  }

  lemma StepExtends(c: Coord, a: Action, job: Name)
    requires job in c.store.jobs
    ensures job in Next(c, a).store.jobs && Extends(c.store.jobs[job], Next(c, a).store.jobs[job])
  {
    if a.DoRecover? {
      RecoverExtends(c, a.election, a.p, job);
    } else if job != Subject(a) {
      OtherJobsUntouched(c, a, job);
    } else if Decides(a) {
      DecisionExtends(c, a, job);
    } else {
      JobRequestExtends(c, a, job);
    }
  }

  lemma JobRequestExtends(c: Coord, a: Action, job: Name)
    requires job in c.store.jobs && job == Subject(a) && !Decides(a) && !a.DoRecover?
    ensures job in Next(c, a).store.jobs
    ensures Next(c, a).store.jobs[job].checkpoints == c.store.jobs[job].checkpoints
    ensures Extends(c.store.jobs[job], Next(c, a).store.jobs[job])
  {
  }

  lemma DecisionExtends(c: Coord, a: Action, job: Name)
    requires job in c.store.jobs && job == Subject(a) && Decides(a)
    ensures job in Next(c, a).store.jobs && Extends(c.store.jobs[job], Next(c, a).store.jobs[job])
  {
    match a
    case DoTrigger(_, sp, final, admitted, highest) =>
      if CanTrigger(c, job, admitted, highest) {
        TriggerExtends(c, job, sp, final, admitted, highest);
      }
    case DoAbort(_, id, epoch, failure, exceeded) => AbortExtends(c, job, id, epoch, failure, exceeded);
    case DoAcknowledge(q, assembled) => AcknowledgeExtends(c, q, assembled);
    case DoReportFailure(q, exceeded) => AbortExtends(c, job, q.id, q.epoch, true, exceeded);
    case DoExpire(_, exceeded) =>
      if job in c.active {
        AbortExtends(c, job, c.active[job].id, c.active[job].epoch, true, exceeded);
      }
    case DoInvalidate(_, id) =>
      if id in c.store.jobs[job].checkpoints {
        PutExtends(c.store.jobs[job], id, c.store.jobs[job].checkpoints[id].(invalid := true));
      }
  }

  lemma ExtendsTrans(a: JobRecord, b: JobRecord, c: JobRecord)
    requires Extends(a, b) && Extends(b, c)
    ensures Extends(a, c)
  {
  }

  /** From any point of a run onward, records stay and terminal decisions never change. */
  lemma {:induction false} DecisionsAreFinal(states: seq<Coord>, actions: seq<Action>, i: nat, j: nat, job: Name)
    requires Run(states, actions) && i <= j < |states| && job in states[i].store.jobs
    ensures job in states[j].store.jobs && Extends(states[i].store.jobs[job], states[j].store.jobs[job])
    decreases j
  {
    if i < j {
      DecisionsAreFinal(states, actions, i, j - 1, job);
      ExtendsOn(states[i].store.jobs[job], states[j - 1], actions[j - 1], states[j], job);
    }
  }

  lemma ExtendsOn(first: JobRecord, c: Coord, a: Action, after: Coord, job: Name)
    requires job in c.store.jobs && Extends(first, c.store.jobs[job]) && after == Next(c, a)
    ensures job in after.store.jobs && Extends(first, after.store.jobs[job])
  {
    StepExtends(c, a, job);
    ExtendsTrans(first, c.store.jobs[job], after.store.jobs[job]);
  }

  predicate HasCheckpoint(c: Coord, job: Name, id: nat) {
    job in c.store.jobs && id in c.store.jobs[job].checkpoints
  }

  predicate HasCompleted(c: Coord, job: Name, id: nat) {
    job in c.store.jobs && IsCompleted(c.store.jobs[job], id)
  }

  lemma RecoveryCompletesNothing(c: Coord, election: nat, p: Progress, job: Name, id: nat)
    requires HasCompleted(RecoverStep(c, election, p), job, id)
    ensures HasCompleted(c, job, id)
  {
  }

  lemma AcknowledgeCompletes(c: Coord, q: Request, assembled: bool, id: nat)
    requires HasCompleted(AcknowledgeStep(c, q, assembled), q.job, id) && !HasCompleted(c, q.job, id)
    ensures c.ready && HasCheckpoint(c, q.job, id) && c.store.jobs[q.job].checkpoints[id].epoch == c.epoch
  {
  }

  lemma OthersCompleteNothing(c: Coord, a: Action, id: nat)
    requires !a.DoAcknowledge? && !a.DoRecover? && HasCompleted(Next(c, a), Subject(a), id)
    ensures HasCompleted(c, Subject(a), id)
  {
  }

  /** Only the leader of the term that triggered a checkpoint can complete it. */
  lemma CompletedByItsOwnTerm(c: Coord, a: Action, job: Name, id: nat)
    requires Inv(c) && HasCompleted(Next(c, a), job, id) && !HasCompleted(c, job, id)
    ensures a.DoAcknowledge? && c.ready && HasCheckpoint(c, job, id)
    ensures c.store.jobs[job].checkpoints[id].epoch == c.epoch == c.store.epoch
  {
    if a.DoRecover? {
      RecoveryCompletesNothing(c, a.election, a.p, job, id);
    } else if job == Subject(a) {
      if a.DoAcknowledge? {
        AcknowledgeCompletes(c, a.q, a.assembled, id);
      } else {
        OthersCompleteNothing(c, a, id);
      }
    } else {
      NoStrayJobs(c, a, job);
      OtherJobsUntouched(c, a, job);
    }
  }

  lemma NoStrayJobs(c: Coord, a: Action, job: Name)
    requires job in Next(c, a).store.jobs && job != Subject(a)
    ensures job in c.store.jobs
  {
  }

  lemma EpochStep(c: Coord, a: Action)
    ensures Next(c, a).store.epoch >= c.store.epoch
    ensures a.DoRecover? && Next(c, a) != c ==> Next(c, a).store.epoch > c.store.epoch
  {
  }

  predicate Ascending(states: seq<Coord>) {
    forall k :: 0 < k < |states| ==> states[k - 1].store.epoch <= states[k].store.epoch
  }

  lemma EpochsAscend(states: seq<Coord>, actions: seq<Action>)
    requires Run(states, actions)
    ensures Ascending(states)
  {
    forall k | 0 < k < |states| ensures states[k - 1].store.epoch <= states[k].store.epoch {
      EpochStep(states[k - 1], actions[k - 1]);
    }
  }

  lemma {:induction false} AscendingAt(states: seq<Coord>, i: nat, j: nat)
    requires Ascending(states) && i <= j < |states|
    ensures states[i].store.epoch <= states[j].store.epoch
    decreases j
  {
    if i < j {
      AscendingAt(states, i, j - 1);
    }
  }

  /** Every recovery leaves an epoch larger than any persisted before it. */
  lemma RecoveryRaisesEpoch(states: seq<Coord>, actions: seq<Action>, i: nat, j: nat)
    requires Run(states, actions) && i < j < |states| && actions[j - 1].DoRecover? && states[j] != states[j - 1]
    ensures states[i].store.epoch < states[j].store.epoch
  {
    EpochsAscend(states, actions);
    AscendingAt(states, i, j - 1);
    RecoverRaises(states[j - 1], actions[j - 1], states[j]);
  }

  lemma RecoverRaises(before: Coord, a: Action, after: Coord)
    requires a.DoRecover? && after == Next(before, a) && after != before
    ensures before.store.epoch < after.store.epoch
  {
  }

  lemma NewIdIsHighest(c: Coord, a: Action, job: Name, id: nat, earlier: nat)
    requires HasCheckpoint(Next(c, a), job, id) && !HasCheckpoint(c, job, id) && HasCheckpoint(c, job, earlier)
    ensures earlier < id
  {
    if a.DoRecover? {
    } else if job != Subject(a) {
      OtherJobsUntouched(c, a, job);
    }
  }

  /** A new checkpoint's id exceeds every id the job ever had, in this term or an earlier one. */
  lemma IdsStrictlyIncrease(states: seq<Coord>, actions: seq<Action>, i: nat, k: nat, job: Name, id: nat, earlier: nat)
    requires Run(states, actions) && i <= k < |actions|
    requires HasCheckpoint(states[k + 1], job, id) && !HasCheckpoint(states[k], job, id)
    requires HasCheckpoint(states[i], job, earlier)
    ensures earlier < id
  {
    DecisionsAreFinal(states, actions, i, k, job);
    NewIdIsHighest(states[k], actions[k], job, id, earlier);
  }

  /** A rescale that is rolled back restores the topology and the boundary it started from. */
  lemma RollbackUndoesRescale(c: Coord, job: Name, savepoint: Name, config: Name, parallelism: nat, a: Assignment)
    requires Inv(c) && CanRescale(c, job, savepoint, true)
    ensures
      var deployed := DeployStep(RescaleStep(c, job, savepoint, config, parallelism, true), job, a);
      var undone := RollbackStep(TransitionStep(deployed, job, Failing), job);
      var before, m := c.store.jobs[job].meta, undone.store.jobs[job].meta;
      m.config == before.config && m.parallelism == before.parallelism && m.latest == before.latest && m.rollback
        == None
  {
  }
}
