/**
  What each request achieves when it is granted: the safety theorems alone would hold of a
  coordinator that grants nothing.
 */
module DecisionOutcomes {
  import opened Basics
  import opened Paths
  import opened Decisions
  import opened DecisionInvariants
  import opened DecisionRuns
  import opened DecisionHistory

  // ---------------------------------------------------------------- trigger

  /** Exactly one checkpoint is added: numbered next, of this term, with the tasks deployed now. */
  ghost predicate TriggerStands(before: Coord, c: Coord, job: Name, id: nat, savepoint: Name, final: bool) {
    && job in before.store.jobs && job in c.store.jobs && id !in before.store.jobs[job].checkpoints
    && id in c.store.jobs[job].checkpoints && c.store.jobs[job].meta == before.store.jobs[job].meta
    && var r, cp := c.store.jobs[job], c.store.jobs[job].checkpoints[id];
       && InFlight(cp) && cp.epoch == before.epoch && cp.attempt == before.store.jobs[job].assignment.attempt
       && cp.tasks == before.store.jobs[job].assignment.tasks
       && cp.replicas == before.store.jobs[job].assignment.replicas
       && cp.paths == map[] && cp.manifests == map[] && cp.final == final && cp.savepoint == savepoint && !cp.invalid
       && job in c.active && c.active[job] == Ref(id, before.epoch)
       && (savepoint == ""
           || (savepoint in r.savepoints
               && r.savepoints[savepoint] == Savepoint(id, before.epoch, SavepointInProgress)))
  }

  /** A trigger that is possible opens the next checkpoint; any other changes nothing. */
  lemma TriggerOutcome(c: Coord, job: Name, savepoint: Name, final: bool, admitted: bool, highest: nat)
    ensures var after := TriggerStep(c, job, savepoint, final, admitted, highest);
      if CanTrigger(c, job, admitted, highest) then TriggerStands(c, after, job, highest + 1, savepoint, final)
      else after == c
  {
  }

  // ---------------------------------------------------------------- completion

  lemma AcknowledgeMovesBoundary(c: Coord, q: Request, assembled: bool, id: nat)
    requires HasCompleted(AcknowledgeStep(c, q, assembled), q.job, id) && !HasCompleted(c, q.job, id)
    ensures AcknowledgeStep(c, q, assembled).store.jobs[q.job].meta.latest == id
  {
  }

  /** A checkpoint that is completed becomes the job's recovery boundary in the same write. */
  lemma CompletionIsBoundary(c: Coord, a: Action, job: Name, id: nat)
    requires Inv(c) && HasCompleted(Next(c, a), job, id) && !HasCompleted(c, job, id)
    ensures Next(c, a).store.jobs[job].meta.latest == id
  {
    CompletedByItsOwnTerm(c, a, job, id);
    if job == Subject(a) {
      AcknowledgeMovesBoundary(c, a.q, a.assembled, id);
    } else {
      OtherJobsUntouched(c, a, job);
    }
  }

  // ---------------------------------------------------------------- failures

  /** A failure report of an assigned task aborts the checkpoint. */
  lemma FailureAborts(c: Coord, q: Request, exceeded: bool)
    requires q.failure != "" && Abortable(c, q.job, q.id, q.epoch)
    requires FromAssignedTask(c.store.jobs[q.job].checkpoints[q.id], q)
    ensures AbortStands(ReportFailureStep(c, q, exceeded), q.job, q.id)
  {
    AbortOutcome(c, q.job, q.id, q.epoch, true, exceeded);
  }

  /** An abort that settles an in-flight checkpoint fails the running job exactly as the policy demands. */
  lemma AbortPolicy(c: Coord, job: Name, id: nat, epoch: nat, failure: bool, exceeded: bool)
    requires Abortable(c, job, id, epoch) && InFlight(c.store.jobs[job].checkpoints[id])
    ensures var r, m := c.store.jobs[job], AbortStep(c, job, id, epoch, failure, exceeded).store.jobs[job].meta;
      var fails := r.checkpoints[id].savepoint == "" && ((failure && exceeded) || r.checkpoints[id].final);
      m == if fails && r.meta.status == Running then r.meta.(status := Failing) else r.meta
  {
  }

  /** Repeating an abort tells the tasks again and changes no record. */
  lemma RepeatedAbortChangesNothing(c: Coord, job: Name, id: nat, epoch: nat, failure: bool, exceeded: bool)
    requires Current(c, job, id, epoch) && c.store.jobs[job].checkpoints[id].status == Aborted
    ensures AbortStep(c, job, id, epoch, failure, exceeded).store == c.store
  {
    assert c.store.jobs[job := c.store.jobs[job]] == c.store.jobs;
  }

  /** The timeout of an active checkpoint aborts it. */
  lemma ExpiryAborts(c: Coord, job: Name, exceeded: bool)
    requires Inv(c) && job in c.active
    ensures AbortStands(ExpireStep(c, job, exceeded), job, c.active[job].id)
  {
    var at := c.active[job];
    assert JobOk(c, job) && ActiveOf(c, job) == Some(at);
    var cp := c.store.jobs[job].checkpoints[at.id];
    assert LinkOk(c.store.jobs[job], at.id);
    AbortOutcome(c, job, at.id, at.epoch, true, exceeded);
  }

  // ---------------------------------------------------------------- jobs

  /** Deployment publishes the assignment and counts as the attempt of a pending rescale. */
  lemma DeployOutcome(c: Coord, job: Name, a: Assignment)
    requires c.ready && job in c.store.jobs && ValidTransition(c.store.jobs[job].meta.status, Deploying)
    ensures var r, after := c.store.jobs[job], DeployStep(c, job, a).store.jobs[job];
      && after.assignment == a && after.meta.status == Deploying && after.checkpoints == r.checkpoints
      && after.meta.latest == r.meta.latest && after.meta.config == r.meta.config
      && after.meta.parallelism == r.meta.parallelism && after.savepoints == r.savepoints
      && (after.meta.rollback.Some? <==> r.meta.rollback.Some?)
      && (after.meta.rollback.Some? ==> after.meta.rollback.value == r.meta.rollback.value.(attempted := true))
  {
  }

  /** A savepoint that is neither in progress nor pinned by a rescale is deleted, its checkpoint kept. */
  lemma DeleteOutcome(c: Coord, job: Name, savepoint: Name)
    requires c.ready && job in c.store.jobs && savepoint in c.store.jobs[job].savepoints
    ensures var r, after := c.store.jobs[job], DeleteSavepointStep(c, job, savepoint).store.jobs[job];
      && after.checkpoints == r.checkpoints && after.meta == r.meta
      && (savepoint !in after.savepoints <==>
            r.savepoints[savepoint].status != SavepointInProgress && !InUse(r.meta, r.savepoints[savepoint]))
      && forall sp :: sp != savepoint ==>
           (sp in after.savepoints <==> sp in r.savepoints)
           && (sp in r.savepoints ==> after.savepoints[sp] == r.savepoints[sp])
  {
  }

  // ---------------------------------------------------------------- the recovery boundary

  /** A completed checkpoint that recovery may consider. */
  predicate Eligible(r: JobRecord, id: nat) {
    Candidate(r, id) && (Pinned(r.meta) ==> id == r.meta.rescaleCheckpoint)
  }

  /** Recovery may fall back behind it: unusable, surely not committed, and not pinned by a rescale. */
  predicate Skippable(r: JobRecord, verdicts: map<nat, Verdict>, id: nat) {
    Eligible(r, id) ==>
      VerdictOn(r, id, verdicts) == Unusable && !MayBeCommitted(r.checkpoints[id]) && !Pinned(r.meta)
  }

  ghost predicate SkippableAbove(r: JobRecord, verdicts: map<nat, Verdict>, id: nat, n: nat) {
    forall k :: id < k <= n ==> Skippable(r, verdicts, k)
  }

  /**
    Selection returns the newest checkpoint that may not be skipped, if it is usable.  It returns
    nothing exactly when that one is not usable, or when all may be skipped.
   */
  lemma {:induction false} SelectionIsExact(r: JobRecord, verdicts: map<nat, Verdict>, n: nat, id: nat)
    requires 0 < id <= n
    ensures SelectFrom(r, verdicts, n) == Some(id) <==>
      Eligible(r, id) && VerdictOn(r, id, verdicts) == Usable && SkippableAbove(r, verdicts, id, n)
  {
    if id < n {
      SelectionIsExact(r, verdicts, n - 1, id);
      assert SkippableAbove(r, verdicts, id, n) <==>
        SkippableAbove(r, verdicts, id, n - 1) && Skippable(r, verdicts, n);
    } else if SelectFrom(r, verdicts, n - 1) == Some(n) {
      SelectedBoundary(r, verdicts, n - 1, n);
    }
  }

  /** The newest checkpoint that may not be skipped, if there is one, is not usable. */
  ghost predicate Blocks(r: JobRecord, verdicts: map<nat, Verdict>, id: nat, n: nat) {
    && id <= n && SkippableAbove(r, verdicts, id, n)
    && (id == 0 || (Eligible(r, id) && !Skippable(r, verdicts, id) && VerdictOn(r, id, verdicts) != Usable))
  }

  lemma {:induction false} BlockingOne(r: JobRecord, verdicts: map<nat, Verdict>, n: nat) returns (id: nat)
    requires SelectFrom(r, verdicts, n) == None
    ensures Blocks(r, verdicts, id, n)
  {
    if n == 0 {
      id := 0;
    } else if Skippable(r, verdicts, n) {
      id := BlockingOne(r, verdicts, n - 1);
    } else {
      id := n;
    }
  }

  /** Selection returns nothing exactly when something blocks it or nothing is left to try. */
  lemma SelectsNothingExactly(r: JobRecord, verdicts: map<nat, Verdict>, n: nat)
    ensures SelectFrom(r, verdicts, n) == None <==> exists id :: Blocks(r, verdicts, id, n)
  {
    if SelectFrom(r, verdicts, n) == None {
      var id := BlockingOne(r, verdicts, n);
    } else {
      var k := SelectFrom(r, verdicts, n).value;
      SelectedBoundary(r, verdicts, n, k);
      SelectionIsExact(r, verdicts, n, k);
      forall id ensures !Blocks(r, verdicts, id, n) {
        assert !Skippable(r, verdicts, k);
      }
    }
  }

  /** A boundary that is stored as completed and checks out is the one selected. */
  lemma UsableBoundaryIsSelected(r: JobRecord, verdicts: map<nat, Verdict>)
    requires r.meta.latest > 0 && r.meta.latest in r.checkpoints
    requires r.checkpoints[r.meta.latest].status == Completed && !r.checkpoints[r.meta.latest].invalid
    requires r.meta.latest in verdicts && verdicts[r.meta.latest] == Usable
    ensures SelectFrom(r, verdicts, r.meta.latest) == Some(r.meta.latest)
  {
  }

  /** An invalidated checkpoint is never selected again. */
  lemma InvalidatedIsNotSelected(c: Coord, job: Name, id: nat, verdicts: map<nat, Verdict>, n: nat)
    requires c.ready && job in c.store.jobs && id in c.store.jobs[job].checkpoints && 0 < id <= n
    ensures SelectFrom(InvalidateStep(c, job, id).store.jobs[job], verdicts, n) != Some(id)
  {
    SelectionIsExact(InvalidateStep(c, job, id).store.jobs[job], verdicts, n, id);
  }

  // ---------------------------------------------------------------- rescale

  /** The job will restart with the requested topology, from the savepoint and nothing else. */
  ghost predicate RescaleStands(before: Coord, c: Coord, job: Name, savepoint: Name, config: Name, parallelism: nat) {
    && job in before.store.jobs && savepoint in before.store.jobs[job].savepoints && job in c.store.jobs
    && c.store.jobs[job].checkpoints == before.store.jobs[job].checkpoints
    && var m, prior := c.store.jobs[job].meta, before.store.jobs[job].meta;
       && m.config == config && m.parallelism == parallelism && m.status == Failing && Pinned(m)
       && m.latest == before.store.jobs[job].savepoints[savepoint].checkpoint
       && m.rollback == Some(Rollback(prior.config, prior.parallelism, prior.latest, false))
  }

  /** An accepted rescale pins the job at the savepoint with the new topology; any other changes nothing. */
  lemma RescaleOutcome(c: Coord, job: Name, savepoint: Name, config: Name, parallelism: nat, accepted: bool)
    ensures var after := RescaleStep(c, job, savepoint, config, parallelism, accepted);
      if CanRescale(c, job, savepoint, accepted) then RescaleStands(c, after, job, savepoint, config, parallelism)
      else after == c
  {
  }

  /** A running job at rest is rescaled from the completed savepoint that is its boundary. */
  lemma RescaleIsGranted(c: Coord, job: Name, savepoint: Name, config: Name, parallelism: nat)
    requires c.ready && job in c.store.jobs && job !in c.active && c.store.jobs[job].meta.status == Running
    requires savepoint in c.store.jobs[job].savepoints && c.store.jobs[job].meta.latest != 0
    requires c.store.jobs[job].savepoints[savepoint].status == SavepointCompleted
    requires c.store.jobs[job].savepoints[savepoint].checkpoint == c.store.jobs[job].meta.latest
    ensures var after := RescaleStep(c, job, savepoint, config, parallelism, true);
      RescaleStands(c, after, job, savepoint, config, parallelism)
  {
    RescaleOutcome(c, job, savepoint, config, parallelism, true);
  }

  /** While a rescale is pinned, recovery selects its savepoint's checkpoint or nothing. */
  lemma PinnedSelectsSavepoint(r: JobRecord, verdicts: map<nat, Verdict>, id: nat)
    requires Pinned(r.meta) && 0 < id <= r.meta.latest
    ensures SelectFrom(r, verdicts, r.meta.latest) == Some(id) <==>
      id == r.meta.latest && Candidate(r, id) && VerdictOn(r, id, verdicts) == Usable
  {
    SelectionIsExact(r, verdicts, r.meta.latest, id);
  }

  // ---------------------------------------------------------------- recovery

  /** Every in-flight checkpoint is aborted and every in-progress savepoint failed. */
  function Complete(c: Coord): Progress {
    Closing(map job | job in c.store.jobs :: c.store.jobs[job].savepoints.Keys)
  }

  /**
    A recovery whose writes all succeed is ready at exactly the larger of the stored epoch plus one
    and the election's, has nothing in flight, and has changed no other decision.
   */
  lemma RecoveryIsReady(c: Coord, election: nat)
    requires !c.ready && c.store.epoch < MAX_UINT64
    ensures var after := RecoverStep(c, election, Complete(c));
      && after.ready && after.epoch == after.store.epoch == Max(c.store.epoch + 1, election)
      && after.store.jobs.Keys == c.store.jobs.Keys && after.active == map[] && after.issued == c.issued
      && forall job :: job in c.store.jobs ==> OnlyClosed(c.store.jobs[job], after.store.jobs[job])
  {
    forall job | job in c.store.jobs
      ensures OnlyClosed(c.store.jobs[job], Rewritten(Complete(c), job, c.store.jobs[job]))
      ensures Quiet(Rewritten(Complete(c), job, c.store.jobs[job]))
    {
      RecordCloses(c, job);
    }
  }

  /** Nothing of the job is in flight. */
  predicate Quiet(r: JobRecord) {
    !AnyInFlight(r.checkpoints) && forall sp :: sp in r.savepoints ==> r.savepoints[sp].status != SavepointInProgress
  }

  lemma RecordCloses(c: Coord, job: Name)
    requires job in c.store.jobs
    ensures var after := Rewritten(Complete(c), job, c.store.jobs[job]);
      OnlyClosed(c.store.jobs[job], after) && Quiet(after)
  {
  }

  /** What was open is closed, and nothing else is different. */
  ghost predicate OnlyClosed(r: JobRecord, after: JobRecord) {
    && after.meta == r.meta && after.assignment == r.assignment
    && after.checkpoints.Keys == r.checkpoints.Keys && after.savepoints.Keys == r.savepoints.Keys
    && (forall id :: id in r.checkpoints ==> after.checkpoints[id] == ClosedCheckpoint(r.checkpoints[id]))
    && (forall sp :: sp in r.savepoints ==> after.savepoints[sp] == ClosedSavepoint(r.savepoints[sp]))
  }

  function ClosedCheckpoint(cp: Checkpoint): Checkpoint {
    if InFlight(cp) then cp.(status := Aborted) else cp
  }

  function ClosedSavepoint(sp: Savepoint): Savepoint {
    if sp.status == SavepointInProgress then sp.(status := SavepointFailed) else sp
  }

  // ---------------------------------------------------------------- a whole checkpoint

  function Play(c: Coord, actions: seq<Action>): Option<Coord> {
    Fold(Take, c, actions)
  }

  function Take(c: Coord, a: Action): Option<Coord> {
    if Enabled(c, a) then Some(Next(c, a)) else None
  }

  /** Every captured task has a worker and a replica. */
  predicate Placed(tasks: map<Name, Name>, replicas: map<Name, Name>) {
    forall task :: task in tasks ==> tasks[task] != "" && Find(replicas, task, "") != ""
  }

  /** The checkpoint is in progress and some task has yet to report. */
  predicate Waiting(c: Coord, job: Name, id: nat) {
    && c.ready && job in c.store.jobs && id in c.store.jobs[job].checkpoints
    && var cp := c.store.jobs[job].checkpoints[id];
       cp.status == InProgress && Placed(cp.tasks, cp.replicas) && cp.paths.Keys != cp.tasks.Keys
  }

  /** The report of a task that has written its snapshot to its replica. */
  function ReportOf(job: Name, id: nat, cp: Checkpoint, task: Name, prepared: bool): Request
    requires task in cp.tasks
  {
    Request(job, id, cp.epoch, cp.attempt, task, cp.tasks[task],
      Some(Report(task, Find(cp.replicas, task, ""), Some(TaskMeta("", task, prepared)))), "")
  }

  /** The checkpoint is completed, the recovery boundary, and announced to every captured task. */
  ghost predicate Completes(c: Coord, job: Name, id: nat) {
    && HasCompleted(c, job, id) && c.store.jobs[job].meta.latest == id
    && Told(c, Commit, job, id, c.store.jobs[job].checkpoints[id])
  }

  lemma ReportIsAcceptable(c: Coord, job: Name, id: nat, task: Name, prepared: bool)
    requires Inv(c) && Waiting(c, job, id)
    requires task in c.store.jobs[job].checkpoints[id].tasks && task !in c.store.jobs[job].checkpoints[id].paths
    ensures Acceptable(c, ReportOf(job, id, c.store.jobs[job].checkpoints[id], task, prepared))
  {
    assert JobOk(c, job) && CheckpointOk(c.store.epoch, id, c.store.jobs[job].checkpoints[id]);
  }

  lemma SavepointCanBeSettled(c: Coord, job: Name, id: nat, cp: Checkpoint)
    requires Inv(c) && c.ready && job in c.store.jobs && id in c.store.jobs[job].checkpoints
    requires InFlight(c.store.jobs[job].checkpoints[id]) && cp.status == Completed
    requires cp.savepoint == c.store.jobs[job].checkpoints[id].savepoint
    requires cp.epoch == c.store.jobs[job].checkpoints[id].epoch
    ensures SavepointDecision(c.store.jobs[job], id, cp).Some?
  {
    assert JobOk(c, job) && LinkOk(c.store.jobs[job], id);
  }

  lemma OneReceiptMore(cp: Checkpoint, q: Request)
    requires ReceiptsOk(cp) && CarriesReceipt(cp, q) && q.task in cp.tasks
    ensures WithReceipt(cp, q).paths.Keys == cp.paths.Keys + {q.task}
    ensures |WithReceipt(cp, q).paths| == |cp.tasks| <==> cp.paths.Keys + {q.task} == cp.tasks.Keys
  {
    var after := WithReceipt(cp, q);
    assert after.paths.Keys <= cp.tasks.Keys;
    SameSize(after.paths.Keys, cp.tasks.Keys);
  }

  lemma SameSize(some: set<Name>, all: set<Name>)
    requires some <= all
    ensures |some| == |all| <==> some == all
  {
    assert all == some + (all - some);
  }

  /** One report brings the checkpoint to completion or one task nearer to it. */
  lemma ReportHelps(c: Coord, job: Name, id: nat, task: Name, prepared: bool, after: Coord)
    requires Inv(c) && Waiting(c, job, id)
    requires task in c.store.jobs[job].checkpoints[id].tasks && task !in c.store.jobs[job].checkpoints[id].paths
    requires after == AcknowledgeStep(c, ReportOf(job, id, c.store.jobs[job].checkpoints[id], task, prepared), true)
    ensures job in after.store.jobs && id in after.store.jobs[job].checkpoints
    ensures var cp, cp' := c.store.jobs[job].checkpoints[id], after.store.jobs[job].checkpoints[id];
      && cp'.tasks == cp.tasks && cp'.paths.Keys == cp.paths.Keys + {task}
      && if cp'.paths.Keys == cp.tasks.Keys then Completes(after, job, id) else Waiting(after, job, id)
  {
    var cp := c.store.jobs[job].checkpoints[id];
    var q := ReportOf(job, id, cp, task, prepared);
    ReportIsAcceptable(c, job, id, task, prepared);
    assert JobOk(c, job) && CheckpointOk(c.store.epoch, id, cp);
    OneReceiptMore(cp, q);
    SavepointCanBeSettled(c, job, id, WithReceipt(cp, q).(status := Completed));
  }

  /** How many tasks have yet to report. */
  function Missing(c: Coord, job: Name, id: nat): nat
    requires job in c.store.jobs && id in c.store.jobs[job].checkpoints
  {
    |c.store.jobs[job].checkpoints[id].tasks.Keys - c.store.jobs[job].checkpoints[id].paths.Keys|
  }

  lemma SomeoneReports(c: Coord, job: Name, id: nat, prepared: bool) returns (next: Coord, a: Action)
    requires Inv(c) && Waiting(c, job, id)
    ensures Play(c, [a]) == Some(next) && Inv(next) && a.DoAcknowledge?
    ensures Completes(next, job, id) || (Waiting(next, job, id) && Missing(next, job, id) < Missing(c, job, id))
  {
    var cp := c.store.jobs[job].checkpoints[id];
    var task := Unreported(c, job, id);
    a := DoAcknowledge(ReportOf(job, id, cp, task, prepared), true);
    next := AcknowledgeStep(c, a.q, true);
    ReportHelps(c, job, id, task, prepared, next);
    AcknowledgeKeeps(c, a.q, true);
    FoldOne(Take, c, [], c, a);
    assert [] + [a] == [a];
    Fewer(cp.tasks.Keys, cp.paths.Keys, task);
  }

  lemma Unreported(c: Coord, job: Name, id: nat) returns (task: Name)
    requires Inv(c) && Waiting(c, job, id)
    ensures task in c.store.jobs[job].checkpoints[id].tasks && task !in c.store.jobs[job].checkpoints[id].paths
  {
    var cp := c.store.jobs[job].checkpoints[id];
    assert JobOk(c, job) && CheckpointOk(c.store.epoch, id, cp);
    task :| task in cp.tasks.Keys && task !in cp.paths.Keys;
  }

  /** Only reports of tasks. */
  predicate AllReports(path: seq<Action>) {
    forall k :: 0 <= k < |path| ==> path[k].DoAcknowledge?
  }

  /** The path leads to a checkpoint that is completed or waits for its remaining tasks. */
  ghost predicate OnTheWay(c: Coord, job: Name, id: nat, path: seq<Action>, now: Coord) {
    && Play(c, path) == Some(now) && Inv(now) && AllReports(path)
    && (Completes(now, job, id) || Waiting(now, job, id))
  }

  lemma OneNearer(c: Coord, job: Name, id: nat, prepared: bool, path: seq<Action>, now: Coord)
    returns (next: Coord, longer: seq<Action>)
    requires OnTheWay(c, job, id, path, now) && Waiting(now, job, id)
    ensures OnTheWay(c, job, id, longer, next)
    ensures Completes(next, job, id) || (Waiting(next, job, id) && Missing(next, job, id) < Missing(now, job, id))
  {
    var a;
    next, a := SomeoneReports(now, job, id, prepared);
    FoldConcat(Take, c, path, now, [a]);
    longer := path + [a];
  }

  /** Reports of the tasks that have yet to report complete the checkpoint. */
  lemma {:induction false} ReportsComplete(c: Coord, job: Name, id: nat, prepared: bool)
    returns (after: Coord, path: seq<Action>)
    requires Inv(c) && Waiting(c, job, id)
    ensures OnTheWay(c, job, id, path, after) && Completes(after, job, id)
  {
    after, path := c, [];
    while !Completes(after, job, id)
      invariant OnTheWay(c, job, id, path, after)
      decreases if Completes(after, job, id) then 0 else 1 + Missing(after, job, id)
    {
      after, path := OneNearer(c, job, id, prepared, path, after);
    }
  }

  lemma Fewer(tasks: set<Name>, paths: set<Name>, task: Name)
    requires task in tasks && task !in paths
    ensures |tasks - (paths + {task})| < |tasks - paths|
  {
    assert tasks - (paths + {task}) == tasks - paths - {task};
  }

  /**
    A running job with deployed, replicated tasks and nothing in flight can always be checkpointed:
    the trigger, then one report of each task, and the checkpoint is the new recovery boundary.
   */
  lemma CheckpointCanComplete(c: Coord, job: Name, highest: nat, prepared: bool)
    returns (after: Coord, path: seq<Action>)
    requires Inv(c) && c.ready && job in c.store.jobs && c.store.jobs[job].meta.status == Running
    requires c.store.jobs[job].assignment.tasks != map[]
    requires Placed(c.store.jobs[job].assignment.tasks, c.store.jobs[job].assignment.replicas)
    requires forall id :: id in c.store.jobs[job].checkpoints ==> !InFlight(c.store.jobs[job].checkpoints[id])
    requires !FinalTaken(c.store.jobs[job].checkpoints, c.store.jobs[job].assignment.attempt)
    requires IsHighest(c.store.jobs[job].checkpoints, highest) && highest < MAX_UINT64
    ensures Play(c, path) == Some(after) && Inv(after) && Completes(after, job, highest + 1)
  {
    var a := DoTrigger(job, "", false, true, highest);
    TriggerOutcome(c, job, "", false, true, highest);
    var next := Next(c, a);
    InvStep(c, a);
    FoldOne(Take, c, [], c, a);
    assert [] + [a] == [a];
    OpenedWaits(c, next, job, highest + 1);
    var rest;
    after, rest := ReportsComplete(next, job, highest + 1, prepared);
    FoldConcat(Take, c, [a], next, rest);
    path := [a] + rest;
  }

  lemma OpenedWaits(c: Coord, after: Coord, job: Name, id: nat)
    requires c.ready && after.ready && TriggerStands(c, after, job, id, "", false) && Inv(after)
    requires c.store.jobs[job].assignment.tasks != map[]
    requires Placed(c.store.jobs[job].assignment.tasks, c.store.jobs[job].assignment.replicas)
    ensures Waiting(after, job, id)
  {
    var cp := after.store.jobs[job].checkpoints[id];
    assert JobOk(after, job) && CheckpointOk(after.store.epoch, id, cp);
    assert cp.paths.Keys == {};
    var task :| task in cp.tasks;
  }
}
