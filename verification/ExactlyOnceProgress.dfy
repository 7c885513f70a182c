/**
  What the exactly-once machine can always do: checkpoint and publish, restart, and end.  The
  safety theorems alone would hold of a machine that never publishes anything.
 */
module ExactlyOnceProgress {
  import opened Basics
  import opened Paths
  import opened ExactlyOnce
  import opened ExactlyOnceProof
  import opened ExactlyOnceRuns

  // ---------------------------------------------------------------- paths

  /** Where the actions lead from `s`, if each is enabled when its turn comes. */
  function Play(s: State, actions: seq<Action>): Option<State> {
    Fold(Take, s, actions)
  }

  function Take(s: State, a: Action): Option<State> {
    if Enabled(s, a) then Some(Next(s, a)) else None
  }

  lemma PlayOne(s: State, actions: seq<Action>, a: Action)
    requires Play(s, actions).Some? && Enabled(Play(s, actions).value, a)
    ensures Play(s, actions + [a]) == Some(Next(Play(s, actions).value, a))
  {
    FoldOne(Take, s, actions, Play(s, actions).value, a);
  }

  lemma PlayAfter(s: State, a: Action, rest: seq<Action>)
    requires Enabled(s, a)
    ensures Play(s, [a] + rest) == Play(Next(s, a), rest)
  {
    FoldAfter(Take, s, a, rest);
  }

  lemma PlayOn(s: State, actions: seq<Action>, m: State, more: seq<Action>)
    requires Play(s, actions) == Some(m)
    ensures Play(s, actions + more) == Play(m, more)
  {
    FoldConcat(Take, s, actions, m, more);
  }

  /** The invariant behind exactly-once output survives any path. */
  lemma {:induction false} PlayKeeps(s: State, actions: seq<Action>)
    requires Inv(s) && Play(s, actions).Some?
    ensures Inv(Play(s, actions).value) && Play(s, actions).value.g == s.g
  {
    if actions != [] {
      var last := |actions| - 1;
      PlayKeeps(s, actions[..last]);
      InvStep(Play(s, actions[..last]).value, actions[last]);
      SameProgram(Play(s, actions[..last]).value, actions[last]);
    }
  }

  /** Along any path the sink has published exactly the output of its last committed cut. */
  lemma PathIsExactlyOnce(s: State, actions: seq<Action>)
    requires Inv(s) && Play(s, actions).Some?
    ensures var n := Play(s, actions).value;
      && (n.sink.last == 0 || n.sink.last in n.coord.handed) && Cut(n.coord, n.sink.last) <= |s.g.source|
      && n.sink.committed == Output(s.g, Cut(n.coord, n.sink.last))
  {
    PlayKeeps(s, actions);
  }

  // ---------------------------------------------------------------- ending

  /** Everything the operators emit for the whole source is published. */
  ghost predicate AllPublished(g: Program, committed: seq<Result>) {
    committed == Output(g, |g.source|)
  }

  lemma EndsWhenPublished(s: State)
    requires Inv(s) && CanEnd(s)
    ensures EndStep(s).phase.Ended? <==> AllPublished(s.g, s.sink.committed)
  {
    assert s.phase.t.queue + s.phase.t.inHand == [];
    Unextended(s.sink.committed, s.sink.active, Output(s.g, |s.g.source|));
  }

  lemma Unextended(committed: seq<Result>, active: seq<Result>, all: seq<Result>)
    requires committed + active == all
    ensures active == [] <==> committed == all
  {
    if active == [] {
      assert committed + [] == committed;
    } else {
      assert |committed| < |all|;
    }
  }

  /** In every run, a task whose input is used up ends exactly when all its output is published. */
  lemma EndsExactlyWhenPublished(states: seq<State>, actions: seq<Action>, k: nat)
    requires Run(states, actions) && k < |states| && CanEnd(states[k])
    ensures EndStep(states[k]).phase.Ended? <==> AllPublished(states[0].g, states[k].sink.committed)
  {
    InvAt(states, actions, k);
    EndsWhenPublished(states[k]);
  }

  // ---------------------------------------------------------------- a checkpoint round

  /** The task is between batches and takes part in no checkpoint; none is open. */
  predicate Quiet(s: State) {
    && s.phase.Up? && s.phase.t.pc.Free? && s.phase.t.prepared == None && s.phase.t.boundary == None
    && s.phase.t.inHand == [] && NoneOpen(s.coord)
  }

  predicate FreshId(c: Coord, id: nat) {
    id != 0 && forall k :: k in c.checkpoints ==> k < id
  }

  /** The barrier of `id` has reached the chain, which drains its queue. */
  function Drawn(s: State, id: nat): State
    requires s.phase.Up?
  {
    s.(coord := s.coord.(checkpoints := s.coord.checkpoints[id := Checkpoint(s.coord.attempt, Open)]),
       phase := Up(s.phase.t.(lastTrigger := id, boundary := Some(id), aligned := true, pc := Draining(id))))
  }

  lemma BoundaryReachesChain(s: State, id: nat)
    requires Inv(s) && Quiet(s) && FreshId(s.coord, id)
    ensures Play(s, [Trigger(id), Accept(id), Start]) == Some(Drawn(s, id))
  {
    var triggered := TriggerStep(s, id);
    assert triggered.coord.checkpoints[id] == Checkpoint(s.coord.attempt, Open);
    PlayAfter(s, Trigger(id), [Accept(id), Start]);
    assert [Trigger(id)] + [Accept(id), Start] == [Trigger(id), Accept(id), Start];
    var accepted := AcceptStep(triggered, id);
    PlayAfter(triggered, Accept(id), [Start]);
    assert [Accept(id)] + [Start] == [Accept(id), Start];
    PlayAfter(accepted, Start, []);
    assert [Start] + [] == [Start];
  }

  /** Only the records in the queue have been processed since. */
  ghost predicate ProcessedFrom(s: State, n: State) {
    && s.phase.Up? && n.phase.Up? && n.g == s.g && n.coord == s.coord
    && n.phase.t == s.phase.t.(queue := n.phase.t.queue, done := n.phase.t.done, ops := n.phase.t.ops,
         dirty := n.phase.t.dirty)
    && n.sink == s.sink.(active := n.sink.active)
  }

  lemma {:induction false} QueueDrains(s: State, k: nat) returns (n: State)
    requires s.phase.Up? && s.phase.t.prepared == None && (s.phase.t.pc.Free? || s.phase.t.pc.Draining?)
    requires k <= |s.phase.t.queue|
    ensures Play(s, Repeat(Process, k)) == Some(n) && ProcessedFrom(s, n)
    ensures n.phase.t.queue == s.phase.t.queue[k..]
  {
    if k == 0 {
      n := s;
    } else {
      var m := QueueDrains(s, k - 1);
      PlayOne(s, Repeat(Process, k - 1), Process);
      n := ProcessStep(m);
    }
  }

  /** Drained, prepared and handed over. */
  lemma DrainedIsHandedOver(s: State, id: nat) returns (n: State)
    requires s.phase.Up? && s.phase.t.pc == Draining(id) && s.phase.t.queue == [] && s.phase.t.prepared == None
    ensures Play(s, [Prepare, Submit]) == Some(n) && n.phase.Up? && n.g == s.g
    ensures n.coord == s.coord.(handed := s.coord.handed[id := Snapshot(s.phase.t.offset, s.phase.t.ops)])
    ensures n.phase.t.prepared == Some(id) && n.phase.t.pc.Free? && n.phase.t.lastCommitted == s.phase.t.lastCommitted
    ensures Settled(s, n) && id in n.sink.prepared
  {
    var m := PrepareStep(s);
    PlayAfter(s, Prepare, [Submit]);
    assert [Prepare] + [Submit] == [Prepare, Submit];
    n := SubmitStep(m);
    PlayAfter(m, Submit, []);
    assert [Submit] + [] == [Submit];
  }

  /** The source stands where it stood, with no boundary pending. */
  predicate Settled(s: State, n: State) {
    && s.phase.Up? && n.phase.Up? && n.phase.t.offset == s.phase.t.offset && n.phase.t.inHand == s.phase.t.inHand
    && n.phase.t.queue == s.phase.t.queue && n.phase.t.boundary == None
  }

  lemma HandedOverIsPublished(s: State, id: nat) returns (n: State)
    requires s.phase.Up? && s.phase.t.prepared == Some(id) && s.phase.t.pc.Free? && s.phase.t.boundary == None
    requires IsOpen(s.coord, id) && id in s.coord.handed && id > s.phase.t.lastCommitted && id in s.sink.prepared
    ensures Play(s, [Complete(id), DeliverCommit(id), CommitEffect, CommitDone]) == Some(n) && n.g == s.g
    ensures n.coord == Decide(s.coord, id, Completed).(latest := id) && Settled(s, n)
    ensures n.sink.last == id && n.phase.t.prepared == None && n.phase.t.pc.Free? && n.phase.t.lastCommitted == id
  {
    var a := CompleteStep(s, id);
    PlayAfter(s, Complete(id), [DeliverCommit(id), CommitEffect, CommitDone]);
    assert [Complete(id)] + [DeliverCommit(id), CommitEffect, CommitDone]
      == [Complete(id), DeliverCommit(id), CommitEffect, CommitDone];
    var b := CommitStep(a, id);
    PlayAfter(a, DeliverCommit(id), [CommitEffect, CommitDone]);
    assert [DeliverCommit(id)] + [CommitEffect, CommitDone] == [DeliverCommit(id), CommitEffect, CommitDone];
    n := CommitIsDone(b, id);
  }

  lemma CommitIsDone(s: State, id: nat) returns (n: State)
    requires s.phase.Up? && s.phase.t.pc == Committing(id) && id in s.sink.prepared && s.phase.t.boundary == None
    ensures Play(s, [CommitEffect, CommitDone]) == Some(n) && n.g == s.g && n.coord == s.coord && Settled(s, n)
    ensures n.sink.last == id && n.phase.t.prepared == None && n.phase.t.pc.Free? && n.phase.t.lastCommitted == id
  {
    var m := CommitEffectStep(s);
    PlayAfter(s, CommitEffect, [CommitDone]);
    assert [CommitEffect] + [CommitDone] == [CommitEffect, CommitDone];
    n := CommitDoneStep(m);
    PlayAfter(m, CommitDone, []);
    assert [CommitDone] + [] == [CommitDone];
  }

  function Round(id: nat, queued: nat): seq<Action> {
    [Trigger(id), Accept(id), Start] + Repeat(Process, queued) + [Prepare, Submit]
      + [Complete(id), DeliverCommit(id), CommitEffect, CommitDone]
  }

  /**
    From any reachable quiet state a checkpoint can be triggered, taken, completed and committed,
    and then the sink has published the operators' output on everything the source had read.
   */
  lemma CheckpointPublishes(s: State, id: nat) returns (n: State)
    requires Inv(s) && Quiet(s) && FreshId(s.coord, id)
    ensures Play(s, Round(id, |s.phase.t.queue|)) == Some(n) && Inv(n) && Quiet(n) && n.g == s.g
    ensures n.sink.last == n.coord.latest == id && n.phase.t.offset == s.phase.t.offset && n.phase.t.queue == []
    ensures n.phase.t.offset <= |s.g.source| && n.sink.committed == Output(s.g, n.phase.t.offset)
  {
    n := RoundPlays(s, id);
    PlayKeeps(s, Round(id, |s.phase.t.queue|));
    NoneLeftOpen(s.coord, n.coord, id);
  }

  lemma RoundPlays(s: State, id: nat) returns (n: State)
    requires Inv(s) && Quiet(s) && FreshId(s.coord, id)
    ensures Play(s, Round(id, |s.phase.t.queue|)) == Some(n) && n.phase.Up? && n.g == s.g
    ensures n.coord.checkpoints == s.coord.checkpoints[id := Checkpoint(s.coord.attempt, Completed)]
    ensures n.coord.latest == id && id in n.coord.handed && n.coord.handed[id].offset == s.phase.t.offset
    ensures n.sink.last == id && n.phase.t.prepared == None && n.phase.t.pc.Free? && n.phase.t.boundary == None
    ensures n.phase.t.offset == s.phase.t.offset && n.phase.t.inHand == [] && n.phase.t.queue == []
  {
    var queued, path := |s.phase.t.queue|, [Trigger(id), Accept(id), Start];
    BoundaryReachesChain(s, id);
    var a := Drawn(s, id);
    var b := QueueDrains(a, queued);
    PlayOn(s, path, a, Repeat(Process, queued));
    path := path + Repeat(Process, queued);
    var c := DrainedIsHandedOver(b, id);
    PlayOn(s, path, b, [Prepare, Submit]);
    path := path + [Prepare, Submit];
    n := HandedOverIsPublished(c, id);
    PlayOn(s, path, c, [Complete(id), DeliverCommit(id), CommitEffect, CommitDone]);
  }

  lemma NoneLeftOpen(c: Coord, after: Coord, id: nat)
    requires NoneOpen(c) && id in after.checkpoints && after.checkpoints[id].decision != Open
    requires forall k :: k in after.checkpoints && k != id ==>
      k in c.checkpoints && after.checkpoints[k] == c.checkpoints[k]
    ensures NoneOpen(after)
  {
  }

  // ---------------------------------------------------------------- restart

  lemma RestartPlays(s: State) returns (n: State)
    requires s.phase.Down? && NoneOpen(s.coord) && (s.coord.latest == 0 || s.coord.latest in s.coord.handed)
    ensures Play(s, [Recover, Resolve, Begin]) == Some(n) && Quiet(n) && n.g == s.g
    ensures n.coord == s.coord.(attempt := s.coord.attempt + 1)
    ensures n.phase.t.offset == Cut(s.coord, s.coord.latest) && n.phase.t.queue == []
  {
    var a := RecoverStep(s);
    var b := ResolveStep(a);
    n := BeginStep(b);
    PlayAfter(s, Recover, [Resolve, Begin]);
    assert [Recover] + [Resolve, Begin] == [Recover, Resolve, Begin];
    PlayAfter(a, Resolve, [Begin]);
    assert [Resolve] + [Begin] == [Resolve, Begin];
    PlayAfter(b, Begin, []);
    assert [Begin] + [] == [Begin];
  }

  /** A restart publishes what the completed checkpoint promised and stands at its cut. */
  lemma RestartResumes(s: State) returns (n: State)
    requires Inv(s) && s.phase.Down? && NoneOpen(s.coord)
    ensures Play(s, [Recover, Resolve, Begin]) == Some(n) && Inv(n) && Quiet(n) && n.g == s.g
    ensures n.coord.latest == s.coord.latest && (s.coord.latest == 0 || s.coord.latest in s.coord.handed)
    ensures n.phase.t.offset == Cut(s.coord, s.coord.latest) <= |s.g.source| && n.phase.t.queue == []
    ensures n.sink.committed == Output(s.g, n.phase.t.offset)
  {
    n := RestartPlays(s);
    PlayKeeps(s, [Recover, Resolve, Begin]);
  }

  // ---------------------------------------------------------------- to the end

  lemma FreshIdExists(c: Coord) returns (id: nat)
    ensures FreshId(c, id)
  {
    var rest := c.checkpoints.Keys;
    id := 1;
    while rest != {}
      invariant rest <= c.checkpoints.Keys && id != 0
      invariant forall k :: k in c.checkpoints && k !in rest ==> k < id
      decreases |rest|
    {
      var k :| k in rest;
      if k >= id {
        id := k + 1;
      }
      rest := rest - {k};
    }
  }

  lemma {:induction false} BatchIsQueued(s: State, k: nat) returns (n: State)
    requires s.phase.Up? && k <= |s.phase.t.inHand|
    ensures Play(s, Repeat(Dispatch, k)) == Some(n) && n.phase.Up?
    ensures n == s.(phase := Up(s.phase.t.(inHand := n.phase.t.inHand, queue := n.phase.t.queue)))
    ensures n.phase.t.inHand == s.phase.t.inHand[k..]
  {
    if k == 0 {
      n := s;
    } else {
      var m := BatchIsQueued(s, k - 1);
      PlayOne(s, Repeat(Dispatch, k - 1), Dispatch);
      n := DispatchStep(m);
    }
  }

  /** The rest of the source read as one batch and queued. */
  lemma RestIsQueued(s: State) returns (n: State, path: seq<Action>)
    requires Inv(s) && Quiet(s)
    ensures Play(s, path) == Some(n) && Inv(n) && Quiet(n) && n.g == s.g && n.coord == s.coord
    ensures n.phase.t.offset == |s.g.source|
  {
    var rest := |s.g.source| - s.phase.t.offset;
    var m := ReadStep(s, rest);
    n := BatchIsQueued(m, rest);
    path := [Read(rest)] + Repeat(Dispatch, rest);
    PlayAfter(s, Read(rest), Repeat(Dispatch, rest));
    PlayKeeps(s, path);
  }

  /** A quiet task can publish the output of its whole source and end. */
  lemma QuietCanFinish(s: State) returns (n: State, path: seq<Action>)
    requires Inv(s) && Quiet(s)
    ensures Play(s, path) == Some(n) && n.phase.Ended? && AllPublished(s.g, n.sink.committed)
  {
    var m;
    m, path := RestIsQueued(s);
    var id := FreshIdExists(m.coord);
    var done := CheckpointPublishes(m, id);
    PlayOn(s, path, m, Round(id, |m.phase.t.queue|));
    path := path + Round(id, |m.phase.t.queue|);
    EndsWhenPublished(done);
    PlayOne(s, path, End);
    path, n := path + [End], EndStep(done);
  }

  /** The open checkpoint, if there is one, is aborted. */
  lemma OpenIsDecided(s: State) returns (n: State, path: seq<Action>)
    requires Inv(s) && s.phase.Down?
    ensures Play(s, path) == Some(n) && Inv(n) && n.phase.Down? && NoneOpen(n.coord) && n.g == s.g
  {
    if NoneOpen(s.coord) {
      n, path := s, [];
    } else {
      var id :| id in s.coord.checkpoints && s.coord.checkpoints[id].decision == Open;
      n, path := DecideAbortStep(s, id), [DecideAbort(id)];
      PlayAfter(s, DecideAbort(id), []);
      assert [DecideAbort(id)] + [] == path;
      DecideAbortKeeps(s, id);
      OnlyOneOpen(s.coord, id);
    }
  }

  lemma OnlyOneOpen(c: Coord, id: nat)
    requires CoordOk(c) && IsOpen(c, id)
    ensures NoneOpen(Decide(c, id, Aborted))
  {
    forall k | k in c.checkpoints && k != id ensures c.checkpoints[k].decision != Open {
      assert IsOpen(c, k) ==> k <= id && id <= k;
    }
  }

  /**
    From every reachable state, whatever crashed, was aborted or is still undecided, the task can
    be brought to its end with the output of the whole source published, once.
   */
  lemma AlwaysCanFinish(s: State) returns (n: State, path: seq<Action>)
    requires Inv(s)
    ensures Play(s, path) == Some(n) && n.phase.Ended? && AllPublished(s.g, n.sink.committed)
  {
    if s.phase.Ended? {
      n, path := s, [];
      return;
    }
    var down := CrashStep(s);
    CrashKeeps(s);
    var decided, first := OpenIsDecided(down);
    PlayAfter(s, Crash, first);
    path := [Crash] + first;
    var up := RestartResumes(decided);
    PlayOn(s, path, decided, [Recover, Resolve, Begin]);
    path := path + [Recover, Resolve, Begin];
    var last;
    n, last := QuietCanFinish(up);
    PlayOn(s, path, up, last);
    path := path + last;
  }

  /** Stated over runs: no run leads to a state from which the output cannot be completed. */
  lemma EveryRunCanFinish(states: seq<State>, actions: seq<Action>, k: nat) returns (n: State, path: seq<Action>)
    requires Run(states, actions) && k < |states|
    ensures Play(states[k], path) == Some(n) && n.phase.Ended? && AllPublished(states[0].g, n.sink.committed)
  {
    InvAt(states, actions, k);
    n, path := AlwaysCanFinish(states[k]);
  }

  // ---------------------------------------------------------------- aborted boundaries

  /** An abort that overtakes the barrier: the source is released and nothing is prepared or handed over. */
  lemma AbortedBoundaryIsReleased(s: State, id: nat) returns (n: State)
    requires CanAbort(s, id) && s.phase.t.prepared == None && s.phase.t.boundary == Some(id)
    ensures Play(s, [DeliverAbort(id), Start]) == Some(n) && n.phase.Up? && n.sink == s.sink && n.coord == s.coord
    ensures n.phase.t.boundary == None && n.phase.t.prepared == None && n.phase.t.pc.Free? && n.phase.t.retired >= id
    ensures n.phase.t.queue == s.phase.t.queue && n.phase.t.offset == s.phase.t.offset
  {
    var m := AbortStep(s, id);
    PlayAfter(s, DeliverAbort(id), [Start]);
    assert [DeliverAbort(id)] + [Start] == [DeliverAbort(id), Start];
    PlayAfter(m, Start, []);
    assert [Start] + [] == [Start];
    n := StartStep(m);
  }

  /** An abort of a prepared transaction rolls exactly that one back and stops the task. */
  lemma AbortRollsBack(s: State, id: nat)
    requires CanAbort(s, id) && s.phase.t.prepared == Some(id) && id > s.phase.t.lastCommitted
    ensures Play(s, [DeliverAbort(id)]).Some?
    ensures var n := Play(s, [DeliverAbort(id)]).value;
      && n.phase.Down? && n.coord == s.coord && n.sink.committed == s.sink.committed && n.sink.active == []
      && n.sink.prepared == s.sink.prepared - {id}
  {
    PlayAfter(s, DeliverAbort(id), []);
    assert [DeliverAbort(id)] + [] == [DeliverAbort(id)];
  }
}
