/** The consistent cut over whole runs, and a run on which stream order is lost. */
module CutRuns {
  import opened Alignment
  import opened ConsistentCut
  import opened CutInvariants
  import opened CutTheorems

  ghost predicate Good(s: State) {
    && Inv(s) && Conserved(s) && OutputSplit(s)
    && AllExact(s.cfg, s.log.snapshots)
  }

  ghost predicate AllExact(cfg: Config, snapshots: seq<Snapshot>) {
    forall k :: 0 <= k < |snapshots| ==> CutExact(cfg, snapshots[k])
  }

  lemma {:induction false} GoodInit(s: State)
    requires Init(s)
    ensures Good(s) && InOrder(s)
  {
    InvInit(s);
    forall i | 0 <= i < |s.cfg.streams|
      ensures HasInput(s, i) && Trail(s, i) == Read(s, i)
    {
      assert ReaderOk(s, i);
    }
  }

  lemma {:induction false} GoodStep(s: State, a: Action)
    requires Good(s) && Enabled(s, a)
    ensures Good(Next(s, a))
  {
    InvStep(s, a);
    ConservedStep(s, a);
    SplitStep(s, a);
    if a.Capture? {
      CaptureIsExact(s);
    }
    ExactStep(s, a);
  }

  lemma {:induction false} ExactStep(s: State, a: Action)
    requires Enabled(s, a) && AllExact(s.cfg, s.log.snapshots)
    requires a.Capture? ==> CutExact(s.cfg, Snapshot(s.chain.pc.b, s.log.processed, s.marks))
    ensures AllExact(Next(s, a).cfg, Next(s, a).log.snapshots)
  {
    SnapshotsGrow(s, a);
    assert Next(s, a).cfg == s.cfg;
  }

  lemma {:induction false} GoodAt(states: seq<State>, actions: seq<Action>, k: nat)
    requires Run(states, actions) && k < |states|
    ensures Good(states[k])
  {
    if k == 0 {
      GoodInit(states[0]);
    } else {
      GoodAt(states, actions, k - 1);
      GoodStep(states[k - 1], actions[k - 1]);
    }
  }

  /**
    At every state of every run: each record read is in exactly one place, each snapshot taken
    so far is an exact cut of every input, and each forwarded barrier stands at its cut.
   */
  lemma {:induction false} EveryCutIsConsistent(states: seq<State>, actions: seq<Action>, k: nat)
    requires Run(states, actions) && k < |states|
    ensures Conserved(states[k]) && OutputSplit(states[k])
    ensures forall m :: 0 <= m < |states[k].log.snapshots| ==> CutExact(states[k].cfg, states[k].log.snapshots[m])
  {
    GoodAt(states, actions, k);
  }

  /** No checkpoint identity is captured twice: snapshot identities strictly grow along a run. */
  lemma {:induction false} CapturedOnce(states: seq<State>, actions: seq<Action>, k: nat, m: nat, n: nat)
    requires Run(states, actions) && k < |states| && m < n < |states[k].log.snapshots|
    ensures !AtMost(states[k].log.snapshots[n].b, states[k].log.snapshots[m].b)
  {
    GoodAt(states, actions, k);
  }

  // ---------------------------------------------------------------- stream order

  lemma {:induction false} OrderUpTo(states: seq<State>, actions: seq<Action>, k: nat)
    requires Run(states, actions) && k < |states|
    requires forall j :: 0 <= j < k ==> Clean(states[j], actions[j])
    ensures InOrder(states[k])
  {
    if k == 0 {
      GoodInit(states[0]);
    } else {
      OrderUpTo(states, actions, k - 1);
      GoodAt(states, actions, k - 1);
      assert Clean(states[k - 1], actions[k - 1]);
      if Releases(actions[k - 1]) {
        ReleaseKeepsOrderIffClean(states[k - 1], actions[k - 1]);
      } else {
        OrderStep(states[k - 1], actions[k - 1]);
      }
    }
  }

  /**
    Stream order holds throughout a run exactly when every abort and every drain of the run
    releases its side buffers over a queue that holds nothing older of the same inputs.
   */
  lemma {:induction false} OrderIffReleasesClean(states: seq<State>, actions: seq<Action>)
    requires Run(states, actions)
    ensures (forall k :: 0 <= k < |states| ==> InOrder(states[k]))
       <==> (forall k :: 0 <= k < |actions| ==> Clean(states[k], actions[k]))
  {
    if forall k :: 0 <= k < |actions| ==> Clean(states[k], actions[k]) {
      forall k | 0 <= k < |states|
        ensures InOrder(states[k])
      {
        OrderUpTo(states, actions, k);
      }
    }
    if forall k :: 0 <= k < |states| ==> InOrder(states[k]) {
      forall k | 0 <= k < |actions|
        ensures Clean(states[k], actions[k])
      {
        GoodAt(states, actions, k);
        assert InOrder(states[k]) && InOrder(states[k + 1]);
        if Releases(actions[k]) {
          ReleaseKeepsOrderIffClean(states[k], actions[k]);
        }
      }
    }
  }

  ghost predicate AllCutsInOrder(s: State) {
    forall m :: 0 <= m < |s.log.snapshots| ==> CutInOrder(s.cfg, s.log.snapshots[m])
  }

  lemma {:induction false} CaptureInOrder(s: State, after: State)
    requires Inv(s) && InOrder(s) && s.chain.pc.Capturing? && after == CaptureStep(s)
    ensures AllCutsInOrder(s) ==> AllCutsInOrder(after)
  {
    CaptureKeepsOrder(s);
  }

  lemma {:induction false} SnapshotsStay(states: seq<State>, actions: seq<Action>, k: nat)
    requires Run(states, actions) && 0 < k < |states| && !actions[k - 1].Capture?
    ensures states[k].cfg == states[k - 1].cfg && states[k].log.snapshots == states[k - 1].log.snapshots
  {
    SnapshotsGrow(states[k - 1], actions[k - 1]);
    CfgConstant(states[k - 1], actions[k - 1]);
  }

  lemma {:induction false} CaptureAt(states: seq<State>, actions: seq<Action>, k: nat)
    requires Run(states, actions) && 0 < k < |states| && actions[k - 1].Capture? && InOrder(states[k - 1])
    ensures AllCutsInOrder(states[k - 1]) ==> AllCutsInOrder(states[k])
  {
    assert Inv(states[k - 1]) by {
      GoodAt(states, actions, k - 1);
    }
    assert states[k] == CaptureStep(states[k - 1]);
    CaptureInOrder(states[k - 1], states[k]);
  }

  /** On such a run every snapshot has processed each input's records in stream order. */
  lemma {:induction false} CutsInOrder(states: seq<State>, actions: seq<Action>, k: nat)
    requires Run(states, actions) && k < |states|
    requires forall j :: 0 <= j < k ==> Clean(states[j], actions[j])
    ensures AllCutsInOrder(states[k])
  {
    if k > 0 {
      CutsInOrder(states, actions, k - 1);
      if actions[k - 1].Capture? {
        OrderUpTo(states, actions, k - 1);
        CaptureAt(states, actions, k);
      } else {
        SnapshotsStay(states, actions, k);
      }
    }
  }

  // ---------------------------------------------------------------- order lost by an abort

  const ONE := Ident(1, 1)
  const RACE := Config([[Data, Barrier(ONE), Data]], false, 8, 0)
  const FREE: Aligner<Record> := Aligner(1, 8, NONE, false, NONE, {}, [[]])
  const HOLDING: Aligner<Record> := FREE.(active := ONE, arrived := {0})

  function At(next: nat, rpc: ReaderPc, a: Aligner<Record>, queue: seq<Record>, controls: seq<Ctrl>,
              pc: ChainPc): State {
    State(RACE, [Reader(next, rpc)], a, if a.arrived == {} then map[] else map[0 := 1], queue, controls,
          Chain(pc, false, NONE, 0, false, [], 0, 0), Log([], [], []))
  }

  /**
    One input carries a record, a barrier and a second record.  The abort of the checkpoint
    samples an empty queue; then the reader queues the first record, registers the barrier and
    buffers the second record; then the abort releases the buffer.
   */
  function RaceActions(): seq<Action> {
    [Inject(AbortCheckpoint(ONE)), TakeControl, DrainDone,
     ReadData(0), SendData(0), ReadBarrier(0), Register(0), Post(0), ReadData(0), AbortRelease]
  }

  function RaceStates(): seq<State> {
    var first, second := Record(0, 0), Record(0, 2);
    [At(0, Ready, FREE, [], [], Idle),
     At(0, Ready, FREE, [], [AbortCheckpoint(ONE)], Idle),
     At(0, Ready, FREE, [], [], AbortDrain(ONE, 0)),
     At(0, Ready, FREE, [], [], AbortReleasing(ONE)),
     At(1, Sending(first), FREE, [], [], AbortReleasing(ONE)),
     At(1, Ready, FREE, [first], [], AbortReleasing(ONE)),
     At(2, Registering(ONE), FREE, [first], [], AbortReleasing(ONE)),
     At(2, Posting(BarrierReceived(ONE)), HOLDING, [first], [], AbortReleasing(ONE)),
     At(2, Ready, HOLDING, [first], [BarrierReceived(ONE)], AbortReleasing(ONE)),
     At(3, Ready, HOLDING.(side := [[second]]), [first], [BarrierReceived(ONE)], AbortReleasing(ONE)),
     At(3, Ready, FREE.(retired := ONE), [first], [BarrierReceived(ONE)], Replay([second]))]
  }

  ghost predicate RaceStep(k: nat)
    requires k < 10
  {
    && Enabled(RaceStates()[k], RaceActions()[k])
    && RaceStates()[k + 1] == Next(RaceStates()[k], RaceActions()[k])
  }

  lemma RaceBegins()
    ensures Init(RaceStates()[0])
  {
  }

  lemma RaceSamples()
    ensures RaceStep(0)
  {
  }

  lemma RaceTakesAbort()
    ensures RaceStep(1) && RaceStep(2)
  {
  }

  lemma RaceQueues()
    ensures RaceStep(3) && RaceStep(4) && RaceStep(5)
  {
  }

  lemma RaceRegisters()
    ensures RaceStep(6) && RaceStep(7)
  {
    assert FREE.OnBarrier(0, ONE) == HOLDING;
    assert map[][0 := 1] == map[0 := 1];
  }

  lemma RaceBuffers()
    ensures RaceStep(8)
  {
    var none: seq<Record> := [];
    assert none + [Record(0, 2)] == [Record(0, 2)];
    assert HOLDING.side[0] == none;
    assert HOLDING.Buffer(0, Record(0, 2)).side == [[Record(0, 2)]];
  }

  lemma RaceReleases()
    ensures RaceStep(9)
  {
    var a := HOLDING.(side := [[Record(0, 2)]]);
    assert Flatten(a.side) == [Record(0, 2)] by {
      assert a.side[..0] == [];
    }
    assert a.Abort(ONE) == FREE.(retired := ONE) by {
      assert seq(1, _ => []) == FREE.side;
    }
  }

  lemma {:induction false} RaceIsRun()
    ensures Run(RaceStates(), RaceActions())
  {
    RaceBegins();
    RaceSamples();
    RaceTakesAbort();
    RaceQueues();
    RaceRegisters();
    RaceBuffers();
    RaceReleases();
    forall k | 0 <= k < |RaceActions()|
      ensures Enabled(RaceStates()[k], RaceActions()[k])
      ensures RaceStates()[k + 1] == Next(RaceStates()[k], RaceActions()[k])
    {
      assert RaceStep(k);
    }
  }

  /** A run, from the initial state, at whose end the second record is about to overtake the first. */
  lemma {:induction false} AbortCanOvertakeQueue()
    ensures Run(RaceStates(), RaceActions())
    ensures RaceStates()[10].chain.pc == Replay([Record(0, 2)]) && RaceStates()[10].queue == [Record(0, 0)]
    ensures !InOrder(RaceStates()[10])
  {
    RaceIsRun();
    OvertakenAfter(RaceStates(), RaceActions());
  }

  lemma {:induction false} OvertakenAfter(states: seq<State>, actions: seq<Action>)
    requires Run(states, actions) && states == RaceStates() && actions == RaceActions()
    ensures !InOrder(states[10])
  {
    OrderUpTo(states, actions, 9);
    GoodAt(states, actions, 9);
    RaceIsUnclean();
    ReleaseKeepsOrderIffClean(states[9], actions[9]);
  }

  lemma RaceIsUnclean()
    ensures !Clean(RaceStates()[9], RaceActions()[9])
  {
    var s := RaceStates()[9];
    assert s.aligner.side[0] == [Record(0, 2)];
    assert Only(0, s.queue) == [Record(0, 0)];
    assert !QueueBehind(s);
  }
}
