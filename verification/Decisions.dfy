/**
  The coordinator's checkpoint decisions as a state machine over its metadata store
  (internal/coordinator: checkpoint_manager.go, checkpoint_selection.go, recovery.go,
  coordinator.go, savepoint_decision.go, savepoint_manager.go, task_restart.go, rescale_manager.go).

  Requests arrive in any order with any contents.  The store applies one batch atomically; the
  coordinator may crash between batches and a later one recovers from the store.  Each job is one
  value, held in the store; what a leader caches of it is that value.
 */
module Decisions {
  import opened Basics

  type Name = string

  const MAX_UINT64: nat := 0xFFFF_FFFF_FFFF_FFFF

  // ---------------------------------------------------------------- records

  datatype JobStatus =
    | Created | Deploying | Running | Paused | Finishing | Failing | Canceling
    | Finished | Failed | Canceled

  /** The table of legal job transitions (job_state_machine.go:19-31). */
  predicate ValidTransition(from: JobStatus, to: JobStatus) {
    match from
    case Created => to in {Deploying, Failing, Canceling}
    case Deploying => to in {Running, Failing, Canceling}
    case Running => to in {Finishing, Paused, Failing, Canceling}
    case Paused => to == Deploying
    case Finishing => to == Finished
    case Failing => to in {Deploying, Failed, Canceled}
    case Canceling => to == Canceled
    case _ => false
  }

  datatype Rollback = Rollback(config: Name, parallelism: nat, checkpoint: nat, attempted: bool)

  datatype JobMeta = JobMeta(
    status: JobStatus, config: Name, parallelism: nat,
    latest: nat, rescaleCheckpoint: nat, rollback: Option<Rollback>)

  datatype Status = Triggered | InProgress | Completed | Aborted

  /** What a task reports about its snapshot: bytes that may fail to decode. */
  datatype Manifest = Garbage(raw: Name) | TaskMeta(raw: Name, task: Name, sinkPrepared: bool)

  datatype Checkpoint = Checkpoint(
    epoch: nat, attempt: Name, final: bool, status: Status, savepoint: Name,
    tasks: map<Name, Name>, replicas: map<Name, Name>,
    paths: map<Name, Name>, manifests: map<Name, Manifest>, invalid: bool)

  datatype SavepointStatus = SavepointInProgress | SavepointCompleted | SavepointFailed

  datatype Savepoint = Savepoint(checkpoint: nat, epoch: nat, status: SavepointStatus)

  datatype Assignment = Assignment(attempt: Name, tasks: map<Name, Name>, replicas: map<Name, Name>)

  datatype JobRecord = JobRecord(
    meta: JobMeta, assignment: Assignment,
    checkpoints: map<nat, Checkpoint>, savepoints: map<Name, Savepoint>)

  datatype Store = Store(epoch: nat, jobs: map<Name, JobRecord>)

  datatype Verb = Commit | Abort

  datatype Command = Command(verb: Verb, job: Name, id: nat, epoch: nat, attempt: Name, task: Name, worker: Name)

  datatype Ref = Ref(id: nat, epoch: nat)

  /** The leader's fields and, in `issued`, every decision command ever sent. */
  datatype Coord = Coord(epoch: nat, ready: bool, store: Store, active: map<Name, Ref>, issued: set<Command>)

  function Find<V>(m: map<Name, V>, key: Name, none: V): V {
    if key in m then m[key] else none
  }

  // ---------------------------------------------------------------- writes of one batch

  function PutJob(c: Coord, job: Name, r: JobRecord): Coord {
    c.(store := c.store.(jobs := c.store.jobs[job := r]))
  }

  function PutCheckpoint(r: JobRecord, id: nat, cp: Checkpoint): JobRecord {
    r.(checkpoints := r.checkpoints[id := cp])
  }

  function Orders(verb: Verb, job: Name, id: nat, cp: Checkpoint): set<Command> {
    set task | task in cp.tasks :: Command(verb, job, id, cp.epoch, cp.attempt, task, cp.tasks[task])
  }

  /** Every task the checkpoint captured has been told, at the worker it was captured on. */
  ghost predicate Told(c: Coord, verb: Verb, job: Name, id: nat, cp: Checkpoint) {
    forall task :: task in cp.tasks ==>
      Command(verb, job, id, cp.epoch, cp.attempt, task, cp.tasks[task]) in c.issued
  }

  // ---------------------------------------------------------------- trigger

  predicate InFlight(cp: Checkpoint) {
    cp.status == Triggered || cp.status == InProgress
  }

  predicate AnyInFlight(checkpoints: map<nat, Checkpoint>) {
    exists id :: id in checkpoints && InFlight(checkpoints[id])
  }

  predicate FinalTaken(checkpoints: map<nat, Checkpoint>, attempt: Name) {
    exists id :: id in checkpoints && checkpoints[id].final && checkpoints[id].attempt == attempt
      && checkpoints[id].status == Completed
  }

  /** `h` is the highest checkpoint id, 0 when there is none. */
  predicate IsHighest(checkpoints: map<nat, Checkpoint>, h: nat) {
    (h == 0 || h in checkpoints) && forall id :: id in checkpoints ==> id <= h
  }

  predicate Replicated(a: Assignment) {
    a.tasks != map[] && forall task :: task in a.tasks ==> Find(a.replicas, task, "") != ""
  }

  function NewCheckpoint(c: Coord, a: Assignment, savepoint: Name, final: bool): Checkpoint {
    Checkpoint(c.epoch, a.attempt, final, InProgress, savepoint, a.tasks, a.replicas, map[], map[], false)
  }

  /**
    `admitted` is the verdict of the checks on time and on exhausted sources; a savepoint name,
    when there is one, is freshly drawn.
   */
  predicate CanTrigger(c: Coord, job: Name, admitted: bool, highest: nat) {
    && c.ready && job in c.store.jobs && admitted
    && c.store.jobs[job].meta.status == Running
    && Replicated(c.store.jobs[job].assignment)
    && !AnyInFlight(c.store.jobs[job].checkpoints)
    && !FinalTaken(c.store.jobs[job].checkpoints, c.store.jobs[job].assignment.attempt)
    && IsHighest(c.store.jobs[job].checkpoints, highest) && highest != MAX_UINT64
  }

  predicate FreshSavepoint(c: Coord, job: Name, savepoint: Name) {
    savepoint != "" && job in c.store.jobs ==>
      && savepoint !in c.store.jobs[job].savepoints
      && forall id :: id in c.store.jobs[job].checkpoints ==> c.store.jobs[job].checkpoints[id].savepoint != savepoint
  }

  /** The record with a new checkpoint and, when it is for a savepoint, that savepoint. */
  function Opened(r: JobRecord, id: nat, cp: Checkpoint): JobRecord {
    var r1 := PutCheckpoint(r, id, cp);
    if cp.savepoint == "" then r1
    else r1.(savepoints := r.savepoints[cp.savepoint := Savepoint(id, cp.epoch, SavepointInProgress)])
  }

  function TriggerStep(c: Coord, job: Name, savepoint: Name, final: bool, admitted: bool, highest: nat): Coord {
    if !CanTrigger(c, job, admitted, highest) then c
    else
      var r := c.store.jobs[job];
      var id := highest + 1;
      PutJob(c, job,
        Opened(r, id, NewCheckpoint(c, r.assignment, savepoint, final))).(active := c.active[job := Ref(id, c.epoch)])
  }

  // ---------------------------------------------------------------- decisions

  /** The savepoint write that accompanies a terminal decision; None when it must be refused. */
  function SavepointDecision(r: JobRecord, id: nat, cp: Checkpoint): Option<map<Name, Savepoint>> {
    if cp.savepoint == "" then Some(r.savepoints)
    else if cp.savepoint !in r.savepoints then None
    else
      var sp := r.savepoints[cp.savepoint];
      if sp.checkpoint != id || sp.epoch != cp.epoch then None
      else if cp.status == Completed then Some(r.savepoints[cp.savepoint := sp.(status := SavepointCompleted)])
      else if cp.status == Aborted then Some(r.savepoints[cp.savepoint := sp.(status := SavepointFailed)])
      else None
  }

  predicate Current(c: Coord, job: Name, id: nat, epoch: nat) {
    && c.ready && epoch == c.epoch && job in c.store.jobs && id in c.store.jobs[job].checkpoints
    && c.store.jobs[job].checkpoints[id].epoch == epoch
  }

  /** The abort policy: a failed or final checkpoint may fail its running job. */
  function AbortedMeta(m: JobMeta, cp: Checkpoint, failure: bool, exceeded: bool): JobMeta {
    if cp.savepoint == "" && (failure || cp.final) && (exceeded || cp.final) && m.status == Running
    then m.(status := Failing) else m
  }

  /** The record after the decision `cp` on checkpoint `id`, refused when its savepoint does not match. */
  function DecidedRecord(r: JobRecord, id: nat, cp: Checkpoint, meta: JobMeta): Option<JobRecord> {
    match SavepointDecision(r, id, cp)
    case None => None
    case Some(sps) => Some(PutCheckpoint(r, id, cp).(savepoints := sps, meta := meta))
  }

  /** An abort of the leader's own term, of a checkpoint not completed, whose savepoint can be settled. */
  predicate Abortable(c: Coord, job: Name, id: nat, epoch: nat) {
    && Current(c, job, id, epoch) && c.store.jobs[job].checkpoints[id].status != Completed
    && (c.store.jobs[job].checkpoints[id].status == Aborted
        || SavepointDecision(c.store.jobs[job], id, c.store.jobs[job].checkpoints[id].(status := Aborted)).Some?)
  }

  /** The checkpoint is stored as aborted and every task it captured is told. */
  ghost predicate AbortStands(c: Coord, job: Name, id: nat) {
    && job in c.store.jobs && id in c.store.jobs[job].checkpoints
    && c.store.jobs[job].checkpoints[id].status == Aborted
    && Told(c, Abort, job, id, c.store.jobs[job].checkpoints[id])
  }

  function AbortStep(c: Coord, job: Name, id: nat, epoch: nat, failure: bool, exceeded: bool): Coord {
    if !Current(c, job, id, epoch) || c.store.jobs[job].checkpoints[id].status == Completed then c
    else
      var r := c.store.jobs[job];
      var cp := r.checkpoints[id].(status := Aborted);
      var after := if r.checkpoints[id].status == Aborted then Some(r)
                   else DecidedRecord(r, id, cp, AbortedMeta(r.meta, cp, failure, exceeded));
      if after == None then c
      else
        var active := if job in c.active && c.active[job] == Ref(id, epoch) then c.active - {job} else c.active;
        PutJob(c, job, after.value).(active := active, issued := c.issued + Orders(Abort, job, id, cp))
  }

  /** Success means the decision stands; otherwise nothing changed. */
  lemma AbortOutcome(c: Coord, job: Name, id: nat, epoch: nat, failure: bool, exceeded: bool)
    ensures var after := AbortStep(c, job, id, epoch, failure, exceeded);
      if Abortable(c, job, id, epoch) then AbortStands(after, job, id) else after == c
  {
  }

  datatype Report = Report(task: Name, path: Name, manifest: Option<Manifest>)

  datatype Request = Request(
    job: Name, id: nat, epoch: nat, attempt: Name, task: Name, worker: Name,
    state: Option<Report>, failure: Name)

  predicate FromAssignedTask(cp: Checkpoint, q: Request) {
    q.task in cp.tasks && cp.tasks[q.task] != "" && cp.tasks[q.task] == q.worker && q.attempt == cp.attempt
  }

  predicate CarriesReceipt(cp: Checkpoint, q: Request) {
    && q.state.Some? && q.state.value.task == q.task && q.state.value.path != ""
    && Find(cp.replicas, q.task, "") == q.state.value.path
    && q.state.value.manifest.Some? && q.state.value.manifest.value.TaskMeta?
    && q.state.value.manifest.value.task == q.task
    && (q.task in cp.manifests ==> cp.manifests[q.task] == q.state.value.manifest.value)
    && (q.task in cp.paths ==> cp.paths[q.task] == q.state.value.path)
  }

  predicate Acceptable(c: Coord, q: Request) {
    && Current(c, q.job, q.id, q.epoch)
    && FromAssignedTask(c.store.jobs[q.job].checkpoints[q.id], q)
    && CarriesReceipt(c.store.jobs[q.job].checkpoints[q.id], q)
    && c.store.jobs[q.job].checkpoints[q.id].status in {InProgress, Completed}
  }

  function WithReceipt(cp: Checkpoint, q: Request): Checkpoint
    requires CarriesReceipt(cp, q)
  {
    cp.(manifests := cp.manifests[q.task := q.state.value.manifest.value],
      paths := cp.paths[q.task := q.state.value.path])
  }

  /**
    An acceptable receipt, unless it would complete the checkpoint and that decision cannot be
    written; `assembled` is the verdict on the manifest built from all reports.
   */
  predicate Recordable(c: Coord, q: Request, assembled: bool) {
    && Acceptable(c, q)
    && var r := c.store.jobs[q.job];
       var cp := WithReceipt(r.checkpoints[q.id], q);
       cp.status != Completed && |cp.paths| == |cp.tasks| ==>
         assembled && SavepointDecision(r, q.id, cp.(status := Completed)).Some?
  }

  /**
    The receipt is stored; a checkpoint with a receipt from every task is completed, announced and,
    when this receipt completed it, the recovery boundary.
   */
  ghost predicate ReceiptStands(before: Coord, c: Coord, q: Request) {
    && q.job in c.store.jobs && q.id in c.store.jobs[q.job].checkpoints && q.state.Some?
    && var cp := c.store.jobs[q.job].checkpoints[q.id];
       && (cp.status == Completed || (q.task in cp.paths && cp.paths[q.task] == q.state.value.path))
       && (|cp.paths| == |cp.tasks| ==> cp.status == Completed)
       && (cp.status == Completed ==> Told(c, Commit, q.job, q.id, cp))
       && (cp.status == Completed ==> c.store.jobs[q.job].meta.latest == q.id || before.store == c.store)
  }

  function AcknowledgeStep(c: Coord, q: Request, assembled: bool): Coord {
    if !Acceptable(c, q) then c
    else
      var r := c.store.jobs[q.job];
      var cp := WithReceipt(r.checkpoints[q.id], q);
      if cp.status == Completed then c.(issued := c.issued + Orders(Commit, q.job, q.id, cp))
      else if |cp.paths| != |cp.tasks| then PutJob(c, q.job, PutCheckpoint(r, q.id, cp))
      else
        var done := cp.(status := Completed);
        var after := DecidedRecord(r, q.id, done, r.meta.(latest := q.id));
        if !assembled || after == None then c
        else PutJob(c, q.job, after.value).(active := c.active - {q.job},
          issued := c.issued + Orders(Commit, q.job, q.id, done))
  }

  /** Success means the receipt and whatever it decides stand; otherwise nothing changed. */
  lemma ReceiptOutcome(c: Coord, q: Request, assembled: bool)
    ensures var after := AcknowledgeStep(c, q, assembled);
      if Recordable(c, q, assembled) then ReceiptStands(c, after, q) else after == c
  {
  }

  function ReportFailureStep(c: Coord, q: Request, exceeded: bool): Coord {
    if q.failure == "" || !c.ready || q.epoch != c.epoch || q.job !in c.store.jobs
       || q.id !in c.store.jobs[q.job].checkpoints || !FromAssignedTask(c.store.jobs[q.job].checkpoints[q.id], q)
    then c
    else AbortStep(c, q.job, q.id, q.epoch, true, exceeded)
  }

  /** The timeout of one active checkpoint. */
  function ExpireStep(c: Coord, job: Name, exceeded: bool): Coord {
    if job !in c.active then c
    else if c.active[job].epoch != c.epoch then c.(active := c.active - {job})
    else AbortStep(c, job, c.active[job].id, c.active[job].epoch, true, exceeded)
  }

  // ---------------------------------------------------------------- the recovery boundary

  /** The verdict of checking a completed checkpoint's manifest; `Unreadable` stops the search. */
  datatype Verdict = Usable | Unusable | Unreadable

  /** Its transaction may already be committed, so recovery must not fall behind it. */
  predicate MayBeCommitted(cp: Checkpoint) {
    exists task :: task in cp.manifests && (cp.manifests[task].Garbage? || cp.manifests[task].sinkPrepared)
  }

  predicate Candidate(r: JobRecord, id: nat) {
    id in r.checkpoints && r.checkpoints[id].status == Completed && id <= r.meta.latest
  }

  predicate Pinned(m: JobMeta) {
    m.rescaleCheckpoint != 0 && m.rescaleCheckpoint == m.latest
  }

  function VerdictOn(r: JobRecord, id: nat, verdicts: map<nat, Verdict>): Verdict
    requires id in r.checkpoints
  {
    if r.checkpoints[id].invalid then Unusable else if id in verdicts then verdicts[id] else Unusable
  }

  /** The boundary found at or below `n`: the newest usable candidate, unless one in between forbids skipping it. */
  function SelectFrom(r: JobRecord, verdicts: map<nat, Verdict>, n: nat): Option<nat> {
    if n == 0 then None
    else if !Candidate(r, n) || (Pinned(r.meta) && n != r.meta.rescaleCheckpoint) then SelectFrom(r, verdicts, n - 1)
    else
      match VerdictOn(r, n, verdicts)
      case Usable => Some(n)
      case Unreadable => None
      case Unusable =>
        if MayBeCommitted(r.checkpoints[n]) || Pinned(r.meta) then None else SelectFrom(r, verdicts, n - 1)
  }

  function SelectStep(c: Coord, job: Name, verdicts: map<nat, Verdict>): Coord {
    if !c.ready || job !in c.store.jobs then c
    else
      var r := c.store.jobs[job];
      match SelectFrom(r, verdicts, r.meta.latest)
      case None => c
      case Some(id) => PutJob(c, job, r.(meta := r.meta.(latest := id)))
  }

  /** A restore that could not read its checkpoint marks it unusable. */
  function InvalidateStep(c: Coord, job: Name, id: nat): Coord {
    if !c.ready || job !in c.store.jobs || id !in c.store.jobs[job].checkpoints then c
    else
      var r := c.store.jobs[job];
      PutJob(c, job, PutCheckpoint(r, id, r.checkpoints[id].(invalid := true)))
  }

  // ---------------------------------------------------------------- rescale

  /** `accepted` is the verdict on the new graph and on restoring the savepoint into it. */
  predicate CanRescale(c: Coord, job: Name, savepoint: Name, accepted: bool) {
    && c.ready && accepted && job in c.store.jobs && job !in c.active
    && c.store.jobs[job].meta.status == Running
    && savepoint in c.store.jobs[job].savepoints
    && c.store.jobs[job].savepoints[savepoint].status == SavepointCompleted
    && c.store.jobs[job].savepoints[savepoint].checkpoint != 0
    && c.store.jobs[job].savepoints[savepoint].checkpoint == c.store.jobs[job].meta.latest
  }

  function RescaleStep(c: Coord, job: Name, savepoint: Name, config: Name, parallelism: nat, accepted: bool): Coord {
    if !CanRescale(c, job, savepoint, accepted) then c
    else
      var r := c.store.jobs[job];
      var m := r.meta;
      PutJob(c, job, r.(meta := JobMeta(Failing, config, parallelism, m.latest, m.latest,
        Some(Rollback(m.config, m.parallelism, m.latest, false)))))
  }

  predicate CanRollback(c: Coord, job: Name) {
    && c.ready && job in c.store.jobs && c.store.jobs[job].meta.status == Failing
    && c.store.jobs[job].meta.rollback.Some? && c.store.jobs[job].meta.rollback.value.attempted
  }

  function RollbackStep(c: Coord, job: Name): Coord {
    if !CanRollback(c, job) then c
    else
      var r := c.store.jobs[job];
      var saved := r.meta.rollback.value;
      PutJob(c, job, r.(meta := JobMeta(r.meta.status, saved.config, saved.parallelism, saved.checkpoint, 0, None)))
  }

  /** A placement that failed for too long gives up the larger topology. */
  function PlacementFailedStep(c: Coord, job: Name): Coord {
    if !c.ready || job !in c.store.jobs || c.store.jobs[job].meta.status != Failing
       || c.store.jobs[job].meta.rollback == None
    then c
    else
      var r := c.store.jobs[job];
      PutJob(c, job, r.(meta := r.meta.(rollback := Some(r.meta.rollback.value.(attempted := true)))))
  }

  // ---------------------------------------------------------------- jobs and savepoints

  function SubmitStep(c: Coord, job: Name, config: Name, parallelism: nat): Coord {
    if !c.ready || job in c.store.jobs then c
    else PutJob(c, job,
      JobRecord(JobMeta(Created, config, parallelism, 0, 0, None), Assignment("", map[], map[]), map[], map[]))
  }

  function TransitionStep(c: Coord, job: Name, to: JobStatus): Coord {
    if job !in c.store.jobs || !ValidTransition(c.store.jobs[job].meta.status, to) then c
    else
      var r := c.store.jobs[job];
      PutJob(c, job, r.(meta := r.meta.(status := to, rollback := if to == Running then None else r.meta.rollback)))
  }

  /** Deployment publishes the assignment with the status and counts as the rescale attempt. */
  function DeployStep(c: Coord, job: Name, a: Assignment): Coord {
    if !c.ready || job !in c.store.jobs || !ValidTransition(c.store.jobs[job].meta.status, Deploying) then c
    else
      var r := c.store.jobs[job];
      var rollback := match r.meta.rollback case None => None case Some(saved) => Some(saved.(attempted := true));
      PutJob(c, job, r.(assignment := a, meta := r.meta.(status := Deploying, rollback := rollback)))
  }

  predicate InUse(m: JobMeta, sp: Savepoint) {
    && m.status !in {Finished, Failed, Canceled} && m.rescaleCheckpoint != 0
    && m.rescaleCheckpoint == sp.checkpoint && m.latest == sp.checkpoint
  }

  function DeleteSavepointStep(c: Coord, job: Name, savepoint: Name): Coord {
    if !c.ready || job !in c.store.jobs || savepoint !in c.store.jobs[job].savepoints
       || InUse(c.store.jobs[job].meta, c.store.jobs[job].savepoints[savepoint])
       || c.store.jobs[job].savepoints[savepoint].status == SavepointInProgress
    then c
    else
      var r := c.store.jobs[job];
      PutJob(c, job, r.(savepoints := r.savepoints - {savepoint}))
  }

  // ---------------------------------------------------------------- crash and recovery

  function CrashStep(c: Coord): Coord {
    c.(ready := false, active := map[])
  }

  function AbortedRecord(r: JobRecord, ids: set<nat>): JobRecord {
    r.(checkpoints := map id | id in r.checkpoints ::
         if id in ids && InFlight(r.checkpoints[id]) then r.checkpoints[id].(status := Aborted) else r.checkpoints[id])
  }

  function FailedRecord(r: JobRecord, names: set<Name>): JobRecord {
    r.(savepoints := map sp | sp in r.savepoints ::
         if sp in names && r.savepoints[sp].status == SavepointInProgress
         then r.savepoints[sp].(status := SavepointFailed) else r.savepoints[sp])
  }

  /** How far recovery's rewriting got: all checkpoints come before the first savepoint. */
  datatype Progress = Aborting(ids: map<Name, set<nat>>) | Closing(names: map<Name, set<Name>>)

  function Rewritten(p: Progress, job: Name, r: JobRecord): JobRecord {
    match p
    case Aborting(ids) => AbortedRecord(r, Find(ids, job, {}))
    case Closing(names) => FailedRecord(AbortedRecord(r, r.checkpoints.Keys), Find(names, job, {}))
  }

  function RewrittenJobs(p: Progress, jobs: map<Name, JobRecord>): map<Name, JobRecord> {
    map job | job in jobs :: Rewritten(p, job, jobs[job])
  }

  predicate AllRewritten(s: Store) {
    forall job :: job in s.jobs ==>
      && !AnyInFlight(s.jobs[job].checkpoints)
      && forall sp :: sp in s.jobs[job].savepoints ==> s.jobs[job].savepoints[sp].status != SavepointInProgress
  }

  /**
    Recovery persists a strictly larger epoch, then aborts the in-flight checkpoints and fails the
    in-flight savepoints one write at a time.  It becomes ready only after the last of them.
   */
  function RecoverStep(c: Coord, election: nat, p: Progress): Coord {
    if c.ready || c.store.epoch >= MAX_UINT64 then c
    else
      var epoch := if c.store.epoch + 1 > election then c.store.epoch + 1 else election;
      var store := Store(epoch, RewrittenJobs(p, c.store.jobs));
      c.(epoch := epoch, ready := AllRewritten(store), store := store, active := map[])
  }

  // ---------------------------------------------------------------- runs

  datatype Action =
    | DoTrigger(job: Name, savepoint: Name, final: bool, admitted: bool, highest: nat)
    | DoAbort(job: Name, id: nat, epoch: nat, failure: bool, exceeded: bool)
    | DoAcknowledge(q: Request, assembled: bool)
    | DoReportFailure(q: Request, exceeded: bool)
    | DoExpire(job: Name, exceeded: bool)
    | DoSelect(job: Name, verdicts: map<nat, Verdict>)
    | DoInvalidate(job: Name, id: nat)
    | DoRescale(job: Name, savepoint: Name, config: Name, parallelism: nat, accepted: bool)
    | DoRollback(job: Name)
    | DoPlacementFailed(job: Name)
    | DoSubmit(job: Name, config: Name, parallelism: nat)
    | DoTransition(job: Name, to: JobStatus)
    | DoDeploy(job: Name, a: Assignment)
    | DoDeleteSavepoint(job: Name, savepoint: Name)
    | DoCrash
    | DoRecover(election: nat, p: Progress)

  predicate Enabled(c: Coord, a: Action) {
    a.DoTrigger? ==> FreshSavepoint(c, a.job, a.savepoint)
  }

  function Next(c: Coord, a: Action): Coord {
    match a
    case DoTrigger(job, sp, final, admitted, highest) => TriggerStep(c, job, sp, final, admitted, highest)
    case DoAbort(job, id, epoch, failure, exceeded) => AbortStep(c, job, id, epoch, failure, exceeded)
    case DoAcknowledge(q, assembled) => AcknowledgeStep(c, q, assembled)
    case DoReportFailure(q, exceeded) => ReportFailureStep(c, q, exceeded)
    case DoExpire(job, exceeded) => ExpireStep(c, job, exceeded)
    case DoSelect(job, verdicts) => SelectStep(c, job, verdicts)
    case DoInvalidate(job, id) => InvalidateStep(c, job, id)
    case DoRescale(job, sp, config, p, accepted) => RescaleStep(c, job, sp, config, p, accepted)
    case DoRollback(job) => RollbackStep(c, job)
    case DoPlacementFailed(job) => PlacementFailedStep(c, job)
    case DoSubmit(job, config, p) => SubmitStep(c, job, config, p)
    case DoTransition(job, to) => TransitionStep(c, job, to)
    case DoDeploy(job, assignment) => DeployStep(c, job, assignment)
    case DoDeleteSavepoint(job, sp) => DeleteSavepointStep(c, job, sp)
    case DoCrash => CrashStep(c)
    case DoRecover(election, p) => RecoverStep(c, election, p)
  }

  predicate Init(c: Coord) {
    !c.ready && c.store.jobs == map[] && c.active == map[] && c.issued == {}
  }

  predicate Run(states: seq<Coord>, actions: seq<Action>) {
    && |states| == |actions| + 1
    && Init(states[0])
    && forall k :: 0 <= k < |actions| ==> Enabled(states[k], actions[k]) && states[k + 1] == Next(states[k], actions[k])
  }
}
