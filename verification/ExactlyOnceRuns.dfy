/** Exactly-once output, stated over every run. */
module ExactlyOnceRuns {
  import opened Basics
  import opened ExactlyOnce
  import opened ExactlyOnceProof

  /** Actions of the chain; the others belong to the source, the coordinator and restarts. */
  predicate OfChain(a: Action) {
    a.Process? || a.Start? || a.Prepare? || a.Submit? || a.DeliverCommit? || a.CommitEffect? || a.CommitDone?
    || a.DeliverAbort? || a.Exit? || a.End?
  }

  lemma ChainStep(s: State, a: Action)
    requires Inv(s) && Enabled(s, a) && OfChain(a)
    ensures Inv(Next(s, a))
  {
    match a
    case Process => ProcessKeeps(s);
    case Start => StartKeeps(s);
    case Prepare => PrepareKeeps(s);
    case Submit => SubmitKeeps(s);
    case DeliverCommit(id) => DeliverCommitKeeps(s, id);
    case CommitEffect => CommitEffectKeeps(s);
    case CommitDone => CommitDoneKeeps(s);
    case DeliverAbort(id) => DeliverAbortKeeps(s, id);
    case Exit => ExitKeeps(s);
    case End => EndKeeps(s);
  }

  lemma OtherStep(s: State, a: Action)
    requires Inv(s) && Enabled(s, a) && !OfChain(a)
    ensures Inv(Next(s, a))
  {
    match a
    case Read(n) => ReadKeeps(s, n);
    case Dispatch => DispatchKeeps(s);
    case Accept(id) => AcceptKeeps(s, id);
    case Trigger(id) => TriggerKeeps(s, id);
    case Complete(id) => CompleteKeeps(s, id);
    case DecideAbort(id) => DecideAbortKeeps(s, id);
    case Crash => CrashKeeps(s);
    case Recover => RecoverKeeps(s);
    case Resolve => ResolveKeeps(s);
    case Begin => BeginKeeps(s);
  }

  lemma InvStep(s: State, a: Action)
    requires Inv(s) && Enabled(s, a)
    ensures Inv(Next(s, a))
  {
    if OfChain(a) {
      ChainStep(s, a);
    } else {
      OtherStep(s, a);
    }
  }

  lemma SameProgram(s: State, a: Action)
    requires Enabled(s, a)
    ensures Next(s, a).g == s.g
  {
  }

  lemma {:induction false} InvAt(states: seq<State>, actions: seq<Action>, k: nat)
    requires Run(states, actions) && k < |states|
    ensures Inv(states[k]) && states[k].g == states[0].g
  {
    if k == 0 {
      InitInv(states[0]);
    } else {
      InvAt(states, actions, k - 1);
      InvStep(states[k - 1], actions[k - 1]);
      SameProgram(states[k - 1], actions[k - 1]);
    }
  }

  /**
    At every point of every run, whatever crashed, was aborted or was replayed, the sink has
    published exactly the operators' output on the source prefix of the last committed checkpoint.
   */
  lemma CommittedIsOutputOfCut(states: seq<State>, actions: seq<Action>, k: nat)
    requires Run(states, actions) && k < |states|
    ensures var s := states[k];
      && (s.sink.last == 0 || (IsCompleted(s.coord, s.sink.last) && s.sink.last in s.coord.handed))
      && Cut(s.coord, s.sink.last) <= |states[0].g.source|
      && s.sink.committed == Output(states[0].g, Cut(s.coord, s.sink.last))
  {
    InvAt(states, actions, k);
  }

  /** A task that ends has published the output of its whole source. */
  lemma EndedMeansAllPublished(states: seq<State>, actions: seq<Action>, k: nat)
    requires Run(states, actions) && k < |states| && states[k].phase.Ended?
    ensures states[k].sink.committed == Output(states[0].g, |states[0].g.source|)
  {
    InvAt(states, actions, k);
  }

  /** Before a restored task reads a record, the completed checkpoint's transaction is published. */
  lemma RestoreResolvesTransaction(states: seq<State>, actions: seq<Action>, k: nat)
    requires Run(states, actions) && k < |states| && states[k].phase.Resolved?
    ensures states[k].sink.last == states[k].coord.latest == states[k].phase.id
  {
    InvAt(states, actions, k);
  }

  // ---------------------------------------------------------------- one step

  /** Publication is the commit of the latest completed checkpoint, and nothing else. */
  lemma OnlyCompletedPublishes(s: State, a: Action)
    requires Inv(s) && Enabled(s, a)
    ensures var k, after := s.sink, Next(s, a).sink;
      if after.last == k.last then after.committed == k.committed
      else
        && after.last == s.coord.latest && IsCompleted(s.coord, after.last)
        && after.last in k.prepared && after.committed == k.committed + k.prepared[after.last]
  {
  }

  /** The transaction of `id` was handed to the coordinator, which has not decided to abort it. */
  predicate Reported(s: State, id: nat) {
    id in s.coord.handed && (IsOpen(s.coord, id) || IsCompleted(s.coord, id)) && id > s.sink.last
  }

  /** Neither exit, crash, abort command nor recovery rolls back a reported transaction. */
  lemma ReportedSurvives(s: State, a: Action, id: nat)
    requires Inv(s) && Enabled(s, a) && Reported(s, id)
    ensures id in s.sink.prepared
    ensures Next(s, a).sink.last == id
      || (id in Next(s, a).sink.prepared && Next(s, a).sink.prepared[id] == s.sink.prepared[id])
  {
    ReportedIsPrepared(s, id);
    if OfChain(a) {
      ChainKeepsReported(s, a, id);
    }
  }

  /** The sink still holds it, or it is published. */
  predicate StillHeld(s: State, after: State, id: nat)
    requires id in s.sink.prepared
  {
    after.sink.last == id || (id in after.sink.prepared && after.sink.prepared[id] == s.sink.prepared[id])
  }

  lemma ReportedIsPrepared(s: State, id: nat)
    requires Inv(s) && Reported(s, id)
    ensures id in s.sink.prepared && (IsOpen(s.coord, id) || id == s.coord.latest)
  {
  }

  lemma ChainKeepsReported(s: State, a: Action, id: nat)
    requires Inv(s) && Enabled(s, a) && OfChain(a) && Reported(s, id) && id in s.sink.prepared
    ensures StillHeld(s, Next(s, a), id)
  {
    ReportedIsPrepared(s, id);
    match a
    case DeliverAbort(i) => assert i != id;
    case Exit =>
    case End =>
    case DeliverCommit(i) =>
    case Prepare =>
    case _ =>
  }

  lemma {:induction false} CommittedOnlyGrows(states: seq<State>, actions: seq<Action>, i: nat, j: nat)
    requires Run(states, actions) && i <= j < |states|
    ensures states[i].sink.committed <= states[j].sink.committed
    decreases j
  {
    if i < j {
      CommittedOnlyGrows(states, actions, i, j - 1);
      InvAt(states, actions, j - 1);
      OnlyCompletedPublishes(states[j - 1], actions[j - 1]);
    }
  }

  // ---------------------------------------------------------------- a run with a crash

  ghost predicate Leads(s: State, actions: seq<Action>, goal: State)
    decreases |actions|
  {
    if actions == [] then s == goal
    else Enabled(s, actions[0]) && Leads(Next(s, actions[0]), actions[1..], goal)
  }

  lemma {:induction false} LeadsOn(s: State, first: seq<Action>, middle: State, rest: seq<Action>, goal: State)
    requires Leads(s, first, middle) && Leads(middle, rest, goal)
    ensures Leads(s, first + rest, goal)
    decreases |first|
  {
    if first == [] {
      assert first + rest == rest;
    } else {
      LeadsOn(Next(s, first[0]), first[1..], middle, rest, goal);
      assert (first + rest)[1..] == first[1..] + rest;
    }
  }

  lemma {:induction false} LeadsIsRun(s: State, actions: seq<Action>, goal: State) returns (states: seq<State>)
    requires Leads(s, actions, goal)
    ensures |states| == |actions| + 1 && states[0] == s && states[|actions|] == goal
    ensures forall k :: 0 <= k < |actions| ==>
      Enabled(states[k], actions[k]) && states[k + 1] == Next(states[k], actions[k])
    decreases |actions|
  {
    if actions == [] {
      states := [s];
    } else {
      var rest := LeadsIsRun(Next(s, actions[0]), actions[1..], goal);
      states := [s] + rest;
    }
  }

  lemma Leads1(s: State, a: Action)
    requires Enabled(s, a)
    ensures Leads(s, [a], Next(s, a))
  {
    assert [a][1..] == [];
  }

  lemma Leads3(s: State, a: Action, b: Action, c: Action)
    requires Enabled(s, a) && Enabled(Next(s, a), b) && Enabled(Next(Next(s, a), b), c)
    ensures Leads(s, [a, b, c], Next(Next(Next(s, a), b), c))
  {
    Leads1(s, a);
    Leads1(Next(s, a), b);
    Leads1(Next(Next(s, a), b), c);
    LeadsOn(Next(s, a), [b], Next(Next(s, a), b), [c], Next(Next(Next(s, a), b), c));
    LeadsOn(s, [a], Next(s, a), [b, c], Next(Next(Next(s, a), b), c));
    assert [b] + [c] == [b, c] && [a] + [b, c] == [a, b, c];
  }

  function Fresh(g: Program): State {
    State(g, Coord(0, map[], 0, map[]), Sink([], 0, [], map[]), Down)
  }

  function Booted(g: Program): State {
    State(g, Coord(1, map[], 0, map[]), Sink([], 0, [], map[]),
      Up(Task(0, 0, [], [], 0, g.init, false, None, false, 0, 0, 0, None, false, Free)))
  }

  /** One record processed into the open transaction. */
  function Worked(g: Program): State
    requires |g.source| >= 1
  {
    var (ops, results) := g.step(g.init, g.source[0]);
    State(g, Coord(1, map[], 0, map[]), Sink([], 0, results, map[]),
      Up(Task(0, 1, [], [], 1, ops, results != [], None, false, 0, 0, 0, None, false, Free)))
  }

  /** Checkpoint 1 triggered and draining. */
  function Aligned(g: Program): State
    requires |g.source| >= 1
  {
    var (ops, results) := g.step(g.init, g.source[0]);
    State(g, Coord(1, map[1 := Checkpoint(1, Open)], 0, map[]), Sink([], 0, results, map[]),
      Up(Task(0, 1, [], [], 1, ops, results != [], None, false, 0, 1, 0, Some(1), true, Draining(1))))
  }

  /** Checkpoint 1 completed, its transaction still only prepared. */
  function Decided(g: Program): State
    requires |g.source| >= 1
  {
    var (ops, results) := g.step(g.init, g.source[0]);
    State(g, Coord(1, map[1 := Checkpoint(1, Completed)], 1, map[1 := Snapshot(1, ops)]),
      Sink([], 0, [], map[1 := results]),
      Up(Task(0, 1, [], [], 1, ops, results != [], Some(1), true, 0, 1, 1, None, true, Free)))
  }

  lemma Boot(g: Program)
    ensures Leads(Fresh(g), [Recover, Resolve, Begin], Booted(g))
  {
    var s1 := RecoverStep(Fresh(g));
    assert s1.sink.prepared == map[];
    assert BeginStep(ResolveStep(s1)) == Booted(g);
    Leads3(Fresh(g), Recover, Resolve, Begin);
  }

  lemma Work(g: Program)
    requires |g.source| >= 1
    ensures Leads(Booted(g), [Read(1), Dispatch, Process], Worked(g))
  {
    var s1 := ReadStep(Booted(g), 1);
    assert s1.phase.t.inHand == [g.source[0]];
    var s2 := DispatchStep(s1);
    assert s2.phase.t.inHand == [] && s2.phase.t.queue == [g.source[0]];
    assert ProcessStep(s2) == Worked(g);
    Leads3(Booted(g), Read(1), Dispatch, Process);
  }

  lemma Align(g: Program)
    requires |g.source| >= 1
    ensures Leads(Worked(g), [Trigger(1), Accept(1), Start], Aligned(g))
  {
    assert StartStep(AcceptStep(TriggerStep(Worked(g), 1), 1)) == Aligned(g);
    Leads3(Worked(g), Trigger(1), Accept(1), Start);
  }

  lemma Agree(g: Program)
    requires |g.source| >= 1
    ensures Leads(Aligned(g), [Prepare, Submit, Complete(1)], Decided(g))
  {
    var s2 := SubmitStep(PrepareStep(Aligned(g)));
    assert CompleteStep(s2, 1) == Decided(g);
    Leads3(Aligned(g), Prepare, Submit, Complete(1));
  }

  /** After the crash, recovery has kept the transaction and published it. */
  function Republished(g: Program): State
    requires |g.source| >= 1
  {
    var (ops, results) := g.step(g.init, g.source[0]);
    State(g, Coord(2, map[1 := Checkpoint(1, Completed)], 1, map[1 := Snapshot(1, ops)]), Sink(results, 1, [], map[]),
      Resolved(1))
  }

  lemma Restart(g: Program)
    requires |g.source| >= 1
    ensures Leads(Decided(g), [Crash, Recover, Resolve], Republished(g))
  {
    var s2 := RecoverStep(CrashStep(Decided(g)));
    assert s2.sink.prepared == map[1 := Decided(g).sink.prepared[1]];
    assert s2.sink.prepared - {1} == map[];
    assert [] + s2.sink.prepared[1] == s2.sink.prepared[1];
    assert ResolveStep(s2) == Republished(g);
    Leads3(Decided(g), Crash, Recover, Resolve);
  }

  lemma Outward(g: Program) returns (actions: seq<Action>)
    requires |g.source| >= 1
    ensures Leads(Fresh(g), actions, Worked(g))
    ensures forall a :: a in actions ==> !a.DeliverCommit?
  {
    Boot(g);
    Work(g);
    actions := [Recover, Resolve, Begin] + [Read(1), Dispatch, Process];
    LeadsOn(Fresh(g), [Recover, Resolve, Begin], Booted(g), [Read(1), Dispatch, Process], Worked(g));
  }

  lemma Homeward(g: Program) returns (actions: seq<Action>)
    requires |g.source| >= 1
    ensures Leads(Worked(g), actions, Republished(g))
    ensures Crash in actions && forall a :: a in actions ==> !a.DeliverCommit?
  {
    Align(g);
    Agree(g);
    Restart(g);
    actions := [Crash, Recover, Resolve];
    assert actions[0] == Crash;
    LeadsOn(Aligned(g), [Prepare, Submit, Complete(1)], Decided(g), actions, Republished(g));
    actions := [Prepare, Submit, Complete(1)] + actions;
    LeadsOn(Worked(g), [Trigger(1), Accept(1), Start], Aligned(g), actions, Republished(g));
    actions := [Trigger(1), Accept(1), Start] + actions;
  }

  /** A task that crashes after the decision but before any commit command still publishes, once restored. */
  lemma CrashBeforeCommit(g: Program) returns (states: seq<State>, actions: seq<Action>)
    requires |g.source| >= 1
    ensures Run(states, actions) && states[0].g == g
    ensures Crash in actions && forall a :: a in actions ==> !a.DeliverCommit?
    ensures states[|actions|].sink.committed == Output(g, 1)
  {
    var outward := Outward(g);
    var homeward := Homeward(g);
    LeadsOn(Fresh(g), outward, Worked(g), homeward, Republished(g));
    actions := outward + homeward;
    states := LeadsIsRun(Fresh(g), actions, Republished(g));
    assert Output(g, 1) == Output(g, 0) + g.step(StateAfter(g, 0), g.source[0]).1;
  }
}
