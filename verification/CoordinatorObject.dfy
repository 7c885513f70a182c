/**
  The leader as the object the source updates in place.  Each method follows the source's own
  order of checks and writes, and is proved to perform the corresponding step of `Decisions`.
 */
module CoordinatorObject {
  import opened Basics
  import opened Decisions
  import opened DecisionInvariants

  function OrderFor(verb: Verb, job: Name, id: nat, cp: Checkpoint, task: Name): Command
    requires task in cp.tasks
  {
    Command(verb, job, id, cp.epoch, cp.attempt, task, cp.tasks[task])
  }

  function Sent(verb: Verb, job: Name, id: nat, cp: Checkpoint, tasks: set<Name>): set<Command>
    requires tasks <= cp.tasks.Keys
  {
    set task | task in tasks :: OrderFor(verb, job, id, cp, task)
  }

  lemma SentOneMore(verb: Verb, job: Name, id: nat, cp: Checkpoint, tasks: set<Name>, task: Name)
    requires tasks <= cp.tasks.Keys && task in cp.tasks
    ensures Sent(verb, job, id, cp, tasks + {task})
      == Sent(verb, job, id, cp, tasks) + {OrderFor(verb, job, id, cp, task)}
  {
  }

  lemma SentAll(verb: Verb, job: Name, id: nat, cp: Checkpoint)
    ensures Sent(verb, job, id, cp, cp.tasks.Keys - {}) == Orders(verb, job, id, cp)
  {
    assert cp.tasks.Keys - {} == cp.tasks.Keys;
    forall m | m in Orders(verb, job, id, cp) ensures m in Sent(verb, job, id, cp, cp.tasks.Keys) {
      assert m == OrderFor(verb, job, id, cp, m.task);
    }
  }

  class Coordinator {
    var epoch: nat
    var ready: bool
    var store: Store
    var active: map<Name, Ref>
    var issued: set<Command>

    function View(): Coord
      reads this
    {
      Coord(epoch, ready, store, active, issued)
    }

    constructor (handle: Store)
      ensures View() == Coord(0, false, handle, map[], {})
    {
      epoch, ready, store, active, issued := 0, false, handle, map[], {};
    }

    /** Sends one order to every task captured at the trigger. */
    method SendOrders(verb: Verb, job: Name, id: nat, cp: Checkpoint)
      modifies this`issued
      ensures issued == old(issued) + Orders(verb, job, id, cp)
    {
      var rest := cp.tasks.Keys;
      while rest != {}
        invariant rest <= cp.tasks.Keys
        invariant issued == old(issued) + Sent(verb, job, id, cp, cp.tasks.Keys - rest)
        decreases |rest|
      {
        var task :| task in rest;
        issued := issued + {OrderFor(verb, job, id, cp, task)};
        SentOneMore(verb, job, id, cp, cp.tasks.Keys - rest, task);
        assert cp.tasks.Keys - rest + {task} == cp.tasks.Keys - (rest - {task});
        rest := rest - {task};
      }
      SentAll(verb, job, id, cp);
    }

    /** The scan of a job's checkpoints: the highest id, unless one of them forbids a new checkpoint. */
    method ScanCheckpoints(checkpoints: map<nat, Checkpoint>, attempt: Name) returns (highest: nat, blocked: bool)
      ensures blocked <==> AnyInFlight(checkpoints) || FinalTaken(checkpoints, attempt)
      ensures !blocked ==> IsHighest(checkpoints, highest)
    {
      highest, blocked := 0, false;
      var rest := checkpoints.Keys;
      while rest != {}
        invariant rest <= checkpoints.Keys && (highest == 0 || highest in checkpoints)
        invariant forall id :: id in checkpoints && id !in rest ==>
          && id <= highest && !InFlight(checkpoints[id])
          && !(checkpoints[id].final && checkpoints[id].attempt == attempt && checkpoints[id].status == Completed)
        decreases |rest|
      {
        var id :| id in rest;
        var previous := checkpoints[id];
        if previous.final && previous.attempt == attempt && previous.status == Completed {
          return highest, true;
        }
        if previous.status == Triggered || previous.status == InProgress {
          return highest, true;
        }
        if id > highest {
          highest := id;
        }
        rest := rest - {id};
      }
    }

    method TriggerCheckpoint(job: Name, savepoint: Name, final: bool, admitted: bool) returns (id: nat, highest: nat)
      requires FreshSavepoint(View(), job, savepoint)
      modifies this
      ensures View() == TriggerStep(old(View()), job, savepoint, final, admitted, highest)
      ensures id == 0 <==> forall h :: !CanTrigger(old(View()), job, admitted, h)
      ensures id != 0 ==> id == highest + 1 && job in active && active[job] == Ref(id, epoch)
    {
      id, highest := 0, 0;
      if !ready || job !in store.jobs || store.jobs[job].meta.status != Running || !admitted {
        return;
      }
      var r := store.jobs[job];
      if !Replicated(r.assignment) {
        return;
      }
      var blocked;
      highest, blocked := ScanCheckpoints(r.checkpoints, r.assignment.attempt);
      if blocked || highest == MAX_UINT64 {
        return;
      }
      id := highest + 1;
      var cp := Checkpoint(epoch, r.assignment.attempt, final, InProgress, savepoint,
        r.assignment.tasks, r.assignment.replicas, map[], map[], false);
      assert CanTrigger(View(), job, admitted, highest);
      r := r.(checkpoints := r.checkpoints[id := cp]);
      if savepoint != "" {
        r := r.(savepoints := r.savepoints[savepoint := Savepoint(id, epoch, SavepointInProgress)]);
      }
      store := store.(jobs := store.jobs[job := r]);
      active := active[job := Ref(id, epoch)];
    }

    method AbortCheckpoint(job: Name, id: nat, request: nat, failure: bool, exceeded: bool) returns (ok: bool)
      modifies this
      ensures View() == AbortStep(old(View()), job, id, request, failure, exceeded)
      ensures ok <==> Abortable(old(View()), job, id, request)
    {
      if !ready || request != epoch || job !in store.jobs || id !in store.jobs[job].checkpoints {
        return false;
      }
      var r := store.jobs[job];
      var cp := r.checkpoints[id];
      if cp.epoch != request || cp.status == Completed {
        return false;
      }
      var already := cp.status == Aborted;
      cp := cp.(status := Aborted);
      if !already {
        var decision := SavepointDecision(r, id, cp);
        if decision.None? {
          return false;
        }
        r := r.(checkpoints := r.checkpoints[id := cp], savepoints := decision.value);
        if cp.savepoint == "" && (failure || cp.final) && (exceeded || cp.final) && r.meta.status == Running {
          r := r.(meta := r.meta.(status := Failing));
        }
      }
      PublishAbort(job, id, request, r, cp);
      return true;
    }

    /** Writes the decision, forgets the active entry and orders every captured task. */
    method PublishAbort(job: Name, id: nat, request: nat, r: JobRecord, cp: Checkpoint)
      modifies this
      ensures View() == PutJob(old(View()), job, r).(issued := old(issued) + Orders(Abort, job, id, cp),
        active := if job in old(active) && old(active)[job] == Ref(id, request) then old(active) - {job}
          else old(active))
    {
      store := store.(jobs := store.jobs[job := r]);
      if job in active && active[job] == Ref(id, request) {
        active := active - {job};
      }
      SendOrders(Abort, job, id, cp);
    }

    method AcknowledgeCheckpoint(q: Request, assembled: bool) returns (ok: bool)
      modifies this
      ensures View() == AcknowledgeStep(old(View()), q, assembled)
      ensures ok <==> Recordable(old(View()), q, assembled)
    {
      if !ready || q.epoch != epoch || q.job !in store.jobs || q.id !in store.jobs[q.job].checkpoints {
        return false;
      }
      var r := store.jobs[q.job];
      var cp := r.checkpoints[q.id];
      if cp.epoch != q.epoch {
        return false;
      }
      if q.task !in cp.tasks || cp.tasks[q.task] == "" || cp.tasks[q.task] != q.worker || q.attempt != cp.attempt {
        return false;
      }
      if q.state.None? || q.state.value.task != q.task || q.state.value.path == "" {
        return false;
      }
      if q.task !in cp.replicas || q.state.value.path != cp.replicas[q.task] {
        return false;
      }
      if cp.status != InProgress && cp.status != Completed {
        return false;
      }
      var manifest := q.state.value.manifest;
      if manifest.None? || manifest.value.Garbage? || manifest.value.task != q.task {
        return false;
      }
      if q.task in cp.manifests && cp.manifests[q.task] != q.state.value.manifest.value {
        return false;
      }
      if q.task in cp.paths && cp.paths[q.task] != q.state.value.path {
        return false;
      }
      assert Acceptable(View(), q);
      cp := cp.(manifests := cp.manifests[q.task := q.state.value.manifest.value],
        paths := cp.paths[q.task := q.state.value.path]);
      if cp.status == Completed {
        SendOrders(Commit, q.job, q.id, cp);
        return true;
      }
      var complete := |cp.paths| == |cp.tasks|;
      if complete {
        cp := cp.(status := Completed);
        var decision := SavepointDecision(r, q.id, cp);
        if !assembled || decision.None? {
          return false;
        }
        r := r.(savepoints := decision.value, meta := r.meta.(latest := q.id));
      }
      r := r.(checkpoints := r.checkpoints[q.id := cp]);
      store := store.(jobs := store.jobs[q.job := r]);
      if complete {
        active := active - {q.job};
        SendOrders(Commit, q.job, q.id, cp);
      }
      return true;
    }

    /** Completed checkpoints at or below the boundary, newest first. */
    method Candidates(r: JobRecord) returns (ids: seq<nat>)
      ensures forall id :: id in ids <==> id != 0 && Candidate(r, id)
      ensures forall i, k :: 0 <= i < k < |ids| ==> ids[i] > ids[k]
    {
      ids := [];
      var rest := set id | id in r.checkpoints && id != 0 && Candidate(r, id);
      ghost var all := rest;
      while rest != {}
        invariant rest <= all && forall id :: id in all <==> id in rest || id in ids
        invariant forall i, id :: 0 <= i < |ids| && id in rest ==> ids[i] > id
        invariant forall i, k :: 0 <= i < k < |ids| ==> ids[i] > ids[k]
        decreases |rest|
      {
        var newest := Newest(rest);
        ids := ids + [newest];
        rest := rest - {newest};
      }
    }

    method Newest(ids: set<nat>) returns (newest: nat)
      requires ids != {}
      ensures newest in ids && forall id :: id in ids ==> id <= newest
    {
      newest :| newest in ids;
      var rest := ids - {newest};
      while rest != {}
        invariant newest in ids && rest <= ids
        invariant forall id :: id in ids && id !in rest ==> id <= newest
        decreases |rest|
      {
        var id :| id in rest;
        if id > newest {
          newest := id;
        }
        rest := rest - {id};
      }
    }

    method SelectRecoveryCheckpoint(job: Name, verdicts: map<nat, Verdict>) returns (boundary: Option<nat>)
      modifies this
      ensures View() == SelectStep(old(View()), job, verdicts)
      ensures boundary == if !ready || job !in old(store.jobs) then None
        else SelectFrom(old(store.jobs)[job], verdicts, old(store.jobs)[job].meta.latest)
    {
      if !ready || job !in store.jobs {
        return None;
      }
      var r := store.jobs[job];
      var pinned := r.meta.rescaleCheckpoint != 0 && r.meta.rescaleCheckpoint == r.meta.latest;
      var ids := Candidates(r);
      var i := 0;
      while i < |ids|
        invariant i <= |ids| && View() == old(View())
        invariant SelectFrom(r, verdicts, r.meta.latest) == SelectFrom(r, verdicts, Below(r.meta.latest, ids, i))
      {
        var id := ids[i];
        SkipsToCandidate(r, verdicts, ids, i);
        if pinned && id != r.meta.rescaleCheckpoint {
          i := i + 1;
          continue;
        }
        var verdict := VerdictOn(r, id, verdicts);
        if verdict == Unreadable {
          return None;
        }
        if verdict == Unusable {
          if MayBeCommitted(r.checkpoints[id]) || pinned {
            return None;
          }
          i := i + 1;
          continue;
        }
        if id != r.meta.latest {
          store := store.(jobs := store.jobs[job := r.(meta := r.meta.(latest := id))]);
        }
        assert store.jobs == old(store.jobs)[job := r.(meta := r.meta.(latest := id))];
        return Some(id);
      }
      NoneLeft(r, verdicts, ids);
      return None;
    }

    method RollbackFailedRescale(job: Name)
      modifies this
      ensures View() == RollbackStep(old(View()), job)
    {
      if !ready || job !in store.jobs || store.jobs[job].meta.status != Failing {
        return;
      }
      var r := store.jobs[job];
      if r.meta.rollback.None? || !r.meta.rollback.value.attempted {
        return;
      }
      var saved := r.meta.rollback.value;
      var meta := r.meta.(config := saved.config, parallelism := saved.parallelism, latest := saved.checkpoint);
      meta := meta.(rescaleCheckpoint := 0, rollback := None);
      store := store.(jobs := store.jobs[job := r.(meta := meta)]);
    }

    /** The timeout sweep: entries of another term are dropped, then each late checkpoint is aborted. */
    method ExpireCheckpoints(late: set<Name>, exceeded: bool) returns (ghost expired: seq<(Name, Ref)>)
      modifies this
      ensures View() == AbortAll(DropStale(old(View())), expired, exceeded)
      ensures forall e :: e in expired <==>
        e.0 in old(active) && e.1 == old(active)[e.0] && e.1.epoch == old(epoch) && e.0 in late
    {
      ghost var start := View();
      var found := CollectExpired(late);
      expired := found;
      var i := 0;
      while i < |found|
        invariant i <= |found| && View() == AbortAll(DropStale(start), found[..i], exceeded)
      {
        var (job, at) := found[i];
        assert found[..i + 1][..i] == found[..i];
        var _ := AbortCheckpoint(job, at.id, at.epoch, true, exceeded);
        i := i + 1;
      }
      assert found[..i] == found;
    }

    /** Drops the entries of another term and lists the late ones of this term. */
    method CollectExpired(late: set<Name>) returns (found: seq<(Name, Ref)>)
      modifies this`active
      ensures View() == DropStale(old(View()))
      ensures forall e :: e in found <==>
        e.0 in old(active) && e.1 == old(active)[e.0] && e.1.epoch == epoch && e.0 in late
    {
      found := [];
      var rest := active.Keys;
      ghost var start := View();
      while rest != {}
        invariant rest <= active.Keys && View() == start.(active := active)
        invariant forall job :: job in active <==>
          job in start.active && (job in rest || start.active[job].epoch == start.epoch)
        invariant forall job :: job in active ==> active[job] == start.active[job]
        invariant forall e :: e in found <==>
          e.0 in start.active && e.0 !in rest && e.1 == start.active[e.0] && e.1.epoch == start.epoch && e.0 in late
        decreases |rest|
      {
        var job :| job in rest;
        rest := rest - {job};
        if active[job].epoch != epoch {
          active := active - {job};
        } else if job in late {
          found := found + [(job, active[job])];
        }
      }
      assert View() == DropStale(start);
    }

    /** Rewrites the in-flight checkpoints one at a time, while the store accepts writes. */
    method AbortInFlight(writes: nat) returns (done: bool, left: nat, ghost ids: map<Name, set<nat>>)
      modifies this`store
      ensures store == old(store).(jobs := RewrittenJobs(Aborting(ids), old(store.jobs)))
      ensures done <==> FlightsLeft(old(store.jobs), ids) == {}
      ensures done <==> |FlightsLeft(old(store.jobs), map[])| <= writes
      ensures done ==> left == writes - |FlightsLeft(old(store.jobs), map[])|
    {
      ghost var before := store.jobs;
      var flights := FlightsLeft(store.jobs, map[]);
      done, left, ids := true, writes, map[];
      NothingAborted(before);
      while flights != {}
        invariant store == old(store).(jobs := RewrittenJobs(Aborting(ids), before))
        invariant flights == FlightsLeft(before, ids) && left + |FlightsLeft(before, map[])| == writes + |flights|
        decreases |flights|
      {
        var e :| e in flights;
        var (job, id) := e;
        if left == 0 {
          done := false;
          return;
        }
        left := left - 1;
        AbortOneMore(before, ids, job, id);
        OneFlightFewer(before, ids, job, id);
        var r := store.jobs[job];
        store := store.(jobs := store.jobs[job := PutCheckpoint(r, id, r.checkpoints[id].(status := Aborted))]);
        ids := ids[job := Find(ids, job, {}) + {id}];
        flights := flights - {e};
      }
    }

    /** Then the in-progress savepoints; `before` is the store from before the checkpoints were rewritten. */
    method CloseSavepoints(ghost before: map<Name, JobRecord>, writes: nat)
      returns (done: bool, ghost names: map<Name, set<Name>>)
      requires store.jobs == RewrittenJobs(Closing(map[]), before)
      modifies this`store
      ensures store == old(store).(jobs := RewrittenJobs(Closing(names), before))
      ensures done <==> PendingLeft(before, names) == {}
      ensures done <==> |PendingLeft(before, map[])| <= writes
    {
      var pending := PendingLeft(store.jobs, map[]);
      PendingUnchanged(before);
      var left: nat := writes;
      done, names := true, map[];
      while pending != {}
        invariant store == old(store).(jobs := RewrittenJobs(Closing(names), before))
        invariant pending == PendingLeft(before, names) && left + |PendingLeft(before, map[])| == writes + |pending|
        decreases |pending|
      {
        var e :| e in pending;
        var (job, sp) := e;
        if left == 0 {
          done := false;
          return;
        }
        left := left - 1;
        CloseOneMore(before, names, job, sp);
        OnePendingFewer(before, names, job, sp);
        var r := store.jobs[job];
        store := store.(jobs := store.jobs[job := r.(savepoints :=
          r.savepoints[sp := r.savepoints[sp].(status := SavepointFailed)])]);
        names := names[job := Find(names, job, {}) + {sp}];
        pending := pending - {e};
      }
    }

    /** Decided against and closed, record by record; a write that the store refuses ends it. */
    method RewriteJobs(writes: nat) returns (done: bool, ghost p: Progress)
      modifies this`store
      ensures store == old(store).(jobs := RewrittenJobs(p, old(store.jobs)))
      ensures done <==> AllRewritten(store)
      ensures done <==> WritesNeeded(old(store.jobs)) <= writes
    {
      ghost var before := store.jobs;
      var left;
      ghost var ids;
      done, left, ids := AbortInFlight(writes);
      p := Aborting(ids);
      if !done {
        StillInFlight(before, ids, store.epoch);
        return;
      }
      AllAborted(before, ids);
      ghost var names;
      done, names := CloseSavepoints(before, left);
      p := Closing(names);
      if !done {
        StillPending(before, names, store.epoch);
        return;
      }
      AllClosed(before, names, store.epoch);
    }

    /**
      Recovery at the start of a term.  The store stops accepting writes after `writes` of them, as
      a crash would; `p` tells how far the rewriting got.
     */
    method Recover(election: nat, writes: nat) returns (ok: bool, ghost p: Progress)
      requires !ready
      modifies this
      ensures View() == RecoverStep(old(View()), election, p)
      ensures ok == ready
      ensures ok <==> old(store).epoch < MAX_UINT64 && WritesNeeded(old(store.jobs)) <= writes
      ensures ok ==> epoch == store.epoch == Max(old(store).epoch + 1, election) && AllRewritten(store)
    {
      ok, p := false, Aborting(map[]);
      if store.epoch >= MAX_UINT64 {
        return;
      }
      epoch := if store.epoch + 1 > election then store.epoch + 1 else election;
      store, active := store.(epoch := epoch), map[];
      ok, p := RewriteJobs(writes);
      ready := ok;
    }
  }

  /** The in-flight checkpoints not yet rewritten. */
  function FlightsLeft(jobs: map<Name, JobRecord>, ids: map<Name, set<nat>>): set<(Name, nat)> {
    set job, id | job in jobs && id in jobs[job].checkpoints && InFlight(jobs[job].checkpoints[id])
                  && id !in Find(ids, job, {}) :: (job, id)
  }

  /** The in-progress savepoints not yet rewritten. */
  function PendingLeft(jobs: map<Name, JobRecord>, names: map<Name, set<Name>>): set<(Name, Name)> {
    set job, sp | job in jobs && sp in jobs[job].savepoints && jobs[job].savepoints[sp].status == SavepointInProgress
                  && sp !in Find(names, job, {}) :: (job, sp)
  }

  /** One write for each in-flight checkpoint and each in-progress savepoint. */
  function WritesNeeded(jobs: map<Name, JobRecord>): nat {
    |FlightsLeft(jobs, map[])| + |PendingLeft(jobs, map[])|
  }

  lemma NothingAborted(jobs: map<Name, JobRecord>)
    ensures RewrittenJobs(Aborting(map[]), jobs) == jobs
  {
    forall job | job in jobs ensures AbortedRecord(jobs[job], {}) == jobs[job] {
      assert AbortedRecord(jobs[job], {}).checkpoints == jobs[job].checkpoints;
    }
  }

  lemma StillInFlight(jobs: map<Name, JobRecord>, ids: map<Name, set<nat>>, epoch: nat)
    requires FlightsLeft(jobs, ids) != {}
    ensures !AllRewritten(Store(epoch, RewrittenJobs(Aborting(ids), jobs)))
  {
    var e :| e in FlightsLeft(jobs, ids);
    var after := RewrittenJobs(Aborting(ids), jobs)[e.0].checkpoints;
    assert InFlight(after[e.1]);
    assert AnyInFlight(after);
  }

  lemma OneFlightFewer(jobs: map<Name, JobRecord>, ids: map<Name, set<nat>>, job: Name, id: nat)
    ensures FlightsLeft(jobs, ids[job := Find(ids, job, {}) + {id}]) == FlightsLeft(jobs, ids) - {(job, id)}
  {
  }

  lemma OnePendingFewer(jobs: map<Name, JobRecord>, names: map<Name, set<Name>>, job: Name, sp: Name)
    ensures PendingLeft(jobs, names[job := Find(names, job, {}) + {sp}]) == PendingLeft(jobs, names) - {(job, sp)}
  {
  }

  lemma AbortOneMore(jobs: map<Name, JobRecord>, ids: map<Name, set<nat>>, job: Name, id: nat)
    requires (job, id) in FlightsLeft(jobs, ids)
    ensures var now := RewrittenJobs(Aborting(ids), jobs);
      && job in now && id in now[job].checkpoints
      && RewrittenJobs(Aborting(ids[job := Find(ids, job, {}) + {id}]), jobs)
         == now[job := PutCheckpoint(now[job], id, now[job].checkpoints[id].(status := Aborted))]
  {
    AbortedOneMore(jobs[job], Find(ids, job, {}), id);
  }

  lemma AbortedOneMore(r: JobRecord, ids: set<nat>, id: nat)
    requires id in r.checkpoints && InFlight(r.checkpoints[id])
    ensures var now := AbortedRecord(r, ids);
      AbortedRecord(r, ids + {id}) == PutCheckpoint(now, id, now.checkpoints[id].(status := Aborted))
  {
    var now := AbortedRecord(r, ids);
    assert AbortedRecord(r, ids + {id}).checkpoints == now.checkpoints[id := now.checkpoints[id].(status := Aborted)];
  }

  lemma FailedOneMore(r: JobRecord, names: set<Name>, sp: Name)
    requires sp in r.savepoints && r.savepoints[sp].status == SavepointInProgress
    ensures var now := FailedRecord(r, names);
      FailedRecord(r, names + {sp})
      == now.(savepoints := now.savepoints[sp := now.savepoints[sp].(status := SavepointFailed)])
  {
    var now := FailedRecord(r, names);
    assert FailedRecord(r, names + {sp}).savepoints
      == now.savepoints[sp := now.savepoints[sp].(status := SavepointFailed)];
  }

  lemma AbortedAll(r: JobRecord, ids: set<nat>)
    requires forall id :: id in r.checkpoints && InFlight(r.checkpoints[id]) ==> id in ids
    ensures AbortedRecord(r, ids) == FailedRecord(AbortedRecord(r, r.checkpoints.Keys), {})
  {
    var all := AbortedRecord(r, r.checkpoints.Keys);
    assert AbortedRecord(r, ids).checkpoints == all.checkpoints;
    assert FailedRecord(all, {}).savepoints == all.savepoints;
  }

  /** Once no checkpoint is in flight, the savepoints' turn starts from the same store. */
  lemma AllAborted(jobs: map<Name, JobRecord>, ids: map<Name, set<nat>>)
    requires FlightsLeft(jobs, ids) == {}
    ensures RewrittenJobs(Aborting(ids), jobs) == RewrittenJobs(Closing(map[]), jobs)
  {
    forall job | job in jobs
      ensures Rewritten(Aborting(ids), job, jobs[job]) == Rewritten(Closing(map[]), job, jobs[job])
    {
      forall id | id in jobs[job].checkpoints && InFlight(jobs[job].checkpoints[id]) ensures id in Find(ids, job, {}) {
        assert (job, id) !in FlightsLeft(jobs, ids);
      }
      AbortedAll(jobs[job], Find(ids, job, {}));
    }
  }

  lemma PendingUnchanged(jobs: map<Name, JobRecord>)
    ensures PendingLeft(RewrittenJobs(Closing(map[]), jobs), map[]) == PendingLeft(jobs, map[])
  {
  }

  lemma StillPending(jobs: map<Name, JobRecord>, names: map<Name, set<Name>>, epoch: nat)
    requires PendingLeft(jobs, names) != {}
    ensures !AllRewritten(Store(epoch, RewrittenJobs(Closing(names), jobs)))
  {
    var e :| e in PendingLeft(jobs, names);
    assert RewrittenJobs(Closing(names), jobs)[e.0].savepoints[e.1].status == SavepointInProgress;
  }

  function Failed(sp: Savepoint): Savepoint {
    sp.(status := SavepointFailed)
  }

  lemma CloseOneMore(jobs: map<Name, JobRecord>, names: map<Name, set<Name>>, job: Name, sp: Name)
    requires (job, sp) in PendingLeft(jobs, names)
    ensures var now := RewrittenJobs(Closing(names), jobs);
      && job in now && sp in now[job].savepoints
      && RewrittenJobs(Closing(names[job := Find(names, job, {}) + {sp}]), jobs)
         == now[job := now[job].(savepoints := now[job].savepoints[sp := Failed(now[job].savepoints[sp])])]
  {
    FailedOneMore(AbortedRecord(jobs[job], jobs[job].checkpoints.Keys), Find(names, job, {}), sp);
  }

  lemma AllClosed(jobs: map<Name, JobRecord>, names: map<Name, set<Name>>, epoch: nat)
    requires PendingLeft(jobs, names) == {}
    ensures AllRewritten(Store(epoch, RewrittenJobs(Closing(names), jobs)))
  {
    var after := RewrittenJobs(Closing(names), jobs);
    forall job | job in after
      ensures !AnyInFlight(after[job].checkpoints)
      ensures forall sp :: sp in after[job].savepoints ==> after[job].savepoints[sp].status != SavepointInProgress
    {
      forall sp | sp in after[job].savepoints ensures after[job].savepoints[sp].status != SavepointInProgress {
        assert (job, sp) !in PendingLeft(jobs, names);
      }
    }
  }

  function DropStale(c: Coord): Coord {
    c.(active := map job | job in c.active && c.active[job].epoch == c.epoch :: c.active[job])
  }

  function AbortAll(c: Coord, expired: seq<(Name, Ref)>, exceeded: bool): Coord {
    if expired == [] then c
    else
      var n := |expired| - 1;
      AbortStep(AbortAll(c, expired[..n], exceeded), expired[n].0, expired[n].1.id, expired[n].1.epoch, true, exceeded)
  }

  /** In every reachable state the sweep's clean-up finds nothing to drop. */
  lemma NothingStale(c: Coord)
    requires Inv(c)
    ensures DropStale(c) == c
  {
    forall job | job in c.active ensures c.active[job].epoch == c.epoch {
      assert JobOk(c, job);
    }
    assert DropStale(c).active == c.active;
  }

  /** Where the search continues after the first `i` candidates. */
  function Below(latest: nat, ids: seq<nat>, i: nat): nat
    requires i <= |ids|
  {
    if i == 0 then latest else if ids[i - 1] == 0 then 0 else ids[i - 1] - 1
  }

  predicate Gap(r: JobRecord, high: nat, low: nat) {
    low <= high && forall k :: low < k <= high ==> !Candidate(r, k)
  }

  /** Ids that are no candidates do not affect the selection. */
  lemma {:induction false} SkipGap(r: JobRecord, verdicts: map<nat, Verdict>, high: nat, low: nat)
    requires Gap(r, high, low)
    ensures SelectFrom(r, verdicts, high) == SelectFrom(r, verdicts, low)
    decreases high
  {
    if low < high {
      assert !Candidate(r, high);
      SkipGap(r, verdicts, high - 1, low);
    }
  }

  lemma SkipsToCandidate(r: JobRecord, verdicts: map<nat, Verdict>, ids: seq<nat>, i: nat)
    requires i < |ids|
    requires forall id :: id in ids <==> id != 0 && Candidate(r, id)
    requires forall i, k :: 0 <= i < k < |ids| ==> ids[i] > ids[k]
    ensures SelectFrom(r, verdicts, Below(r.meta.latest, ids, i)) == SelectFrom(r, verdicts, ids[i])
    ensures 0 < ids[i] && Candidate(r, ids[i])
  {
    var high := Below(r.meta.latest, ids, i);
    assert ids[i] in ids;
    forall k | ids[i] < k && Candidate(r, k) ensures high < k {
      assert k in ids;
      var at :| 0 <= at < |ids| && ids[at] == k;
      assert at < i;
    }
    SkipGap(r, verdicts, high, ids[i]);
  }

  lemma NoneLeft(r: JobRecord, verdicts: map<nat, Verdict>, ids: seq<nat>)
    requires forall id :: id in ids <==> id != 0 && Candidate(r, id)
    requires forall i, k :: 0 <= i < k < |ids| ==> ids[i] > ids[k]
    ensures SelectFrom(r, verdicts, Below(r.meta.latest, ids, |ids|)) == None
  {
    var high := Below(r.meta.latest, ids, |ids|);
    forall k: nat | 0 < k && Candidate(r, k) ensures high < k {
      assert k in ids;
    }
    SkipGap(r, verdicts, high, 0);
  }
}
