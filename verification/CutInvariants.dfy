/** What every step of the interleaving keeps: the shape of the state and the order of identities. */
module CutInvariants {
  import opened Alignment
  import opened ConsistentCut

  // ---------------------------------------------------------------- invariant

  ghost predicate Tagged(side: seq<seq<Record>>) {
    forall j, r :: 0 <= j < |side| && r in side[j] ==> r.input == j
  }

  ghost predicate ReaderOk(s: State, i: nat) {
    && HasInput(s, i)
    && (s.readers[i].pc.Sending? ==>
          && s.readers[i].next > 0 && s.readers[i].pc.r == Record(i, s.readers[i].next - 1)
          && !s.aligner.Holds(i))
    && (s.readers[i].pc.Registering? ==>
          s.readers[i].next > 0 && s.cfg.streams[i][s.readers[i].next - 1] == Barrier(s.readers[i].pc.b))
  }

  /** An arrived input: its side buffer is exactly what it read after the registered barrier. */
  ghost predicate MarkOk(s: State, i: nat) {
    && HasInput(s, i)
    && i in s.marks && s.marks[i] < s.readers[i].next
    && s.cfg.streams[i][s.marks[i]] == Barrier(s.aligner.active)
    && DataIn(s.cfg.streams[i], i, s.readers[i].next) == DataIn(s.cfg.streams[i], i, s.marks[i]) + s.aligner.side[i]
  }

  ghost predicate InputsOk(s: State) {
    && |s.readers| == |s.cfg.streams| && s.aligner.Valid() && s.aligner.numInputs == |s.cfg.streams|
    && Tagged(s.aligner.side)
    && (forall i :: 0 <= i < |s.cfg.streams| ==> ReaderOk(s, i))
    && s.marks.Keys == s.aligner.arrived
    && (forall i :: i in s.aligner.arrived ==> MarkOk(s, i))
  }

  ghost predicate EveryInputArrived(a: Aligner<Record>) {
    forall i :: 0 <= i < a.numInputs ==> i in a.arrived
  }

  predicate AtBarrier(pc: ChainPc) {
    pc.BarrierDrain? || pc.Capturing? || pc.Forwarding? || pc.Finishing?
  }

  predicate ChainShape(h: Chain, transactional: bool) {
    && (h.deferred != [] ==> h.prepared)
    && (h.prepared ==> transactional && (h.pc.Idle? || h.pc.Forwarding? || h.pc.Finishing? || h.pc.Halted?))
    && (AtBarrier(h.pc) ==> h.pc.b.id != 0 && h.deferred == [])
    && (h.pc.Forwarding? || h.pc.Finishing? ==> h.prepared == transactional)
  }

  ghost predicate ChainOk(s: State) {
    && ChainShape(s.chain, s.cfg.transactional)
    && (AtBarrier(s.chain.pc) ==> s.aligner.active == s.chain.pc.b && EveryInputArrived(s.aligner))
    && (s.chain.pc.Capturing? || s.chain.pc.Forwarding? || s.chain.pc.Finishing? ==> s.queue == [])
    && (s.chain.pc.AbortDrain? ==> s.chain.pc.left <= |s.queue|)
    && (s.chain.prepared ==> s.chain.preparedAs.id > s.chain.lastCommitted)
  }

  // ---------------------------------------------------------------- reader steps

  lemma DataInStep(stream: seq<Msg>, i: int, k: nat)
    requires k < |stream|
    ensures DataIn(stream, i, k + 1) == DataIn(stream, i, k) + if stream[k].Data? then [Record(i, k)] else []
  {
  }

  lemma BufferKeepsTags(a: Aligner<Record>, i: nat, r: Record)
    requires a.Valid() && Tagged(a.side) && a.Decide(i) == Buffered && r.input == i
    ensures a.Buffer(i, r).Valid() && Tagged(a.Buffer(i, r).side)
    ensures a.Buffer(i, r).side[i] == a.side[i] + [r]
    ensures forall j :: 0 <= j < |a.side| && j != i ==> a.Buffer(i, r).side[j] == a.side[j]
  {
  }

  lemma MarkAfterRead(s: State, s': State, j: nat)
    requires MarkOk(s, j) && HasInput(s', j)
    requires s'.cfg == s.cfg && s'.marks == s.marks && s'.aligner.active == s.aligner.active
    requires
      || (s'.readers[j].next == s.readers[j].next && s'.aligner.side[j] == s.aligner.side[j])
      || (&& s'.readers[j].next == s.readers[j].next + 1
          && s'.aligner.side[j] == s.aligner.side[j]
             + if s.cfg.streams[j][s.readers[j].next].Data? then [Record(j, s.readers[j].next)] else [])
    ensures MarkOk(s', j)
  {
    if s'.readers[j].next == s.readers[j].next + 1 {
      DataInStep(s.cfg.streams[j], j, s.readers[j].next);
    }
  }

  lemma InputsReadData(s: State, i: nat)
    requires InputsOk(s) && CanReadData(s, i)
    ensures InputsOk(ReadDataStep(s, i))
  {
    var s' := ReadDataStep(s, i);
    if s.aligner.Decide(i) == Buffered {
      BufferKeepsTags(s.aligner, i, Record(i, s.readers[i].next));
    }
    forall j | j in s'.aligner.arrived
      ensures MarkOk(s', j)
    {
      MarkAfterRead(s, s', j);
    }
    forall j | 0 <= j < |s.cfg.streams|
      ensures ReaderOk(s', j)
    {
      assert ReaderOk(s, j);
    }
  }

  /** A reader passes over a message that is not data. */
  lemma InputsMove(s: State, i: nat, pc: ReaderPc)
    requires InputsOk(s) && AtMessage(s, i) && !Message(s, i).Data?
    requires !pc.Sending? && (pc.Registering? ==> Message(s, i) == Barrier(pc.b))
    ensures InputsOk(Move(s, i, pc))
  {
    var s' := Move(s, i, pc);
    forall j | j in s'.aligner.arrived
      ensures MarkOk(s', j)
    {
      MarkAfterRead(s, s', j);
    }
    forall j | 0 <= j < |s.cfg.streams|
      ensures ReaderOk(s', j)
    {
      assert ReaderOk(s, j);
    }
  }

  lemma InputsStay(s: State, i: nat, pc: ReaderPc)
    requires InputsOk(s) && HasInput(s, i) && !pc.Sending? && !pc.Registering?
    ensures InputsOk(Stay(s, i, pc))
  {
    var s' := Stay(s, i, pc);
    forall j | j in s'.aligner.arrived
      ensures MarkOk(s', j)
    {
      MarkAfterRead(s, s', j);
    }
    forall j | 0 <= j < |s.cfg.streams|
      ensures ReaderOk(s', j)
    {
      assert ReaderOk(s, j);
    }
  }

  lemma InputsRegister(s: State, i: nat)
    requires InputsOk(s) && CanRegister(s, i)
    ensures InputsOk(RegisterStep(s, i))
  {
    var s' := RegisterStep(s, i);
    assert ReaderOk(s, i);
    forall j | j in s'.aligner.arrived
      ensures MarkOk(s', j)
    {
      if j in s.aligner.arrived {
        assert MarkOk(s, j);
      } else {
        DataInStep(s.cfg.streams[i], i, s.readers[i].next - 1);
      }
    }
    forall j | 0 <= j < |s.cfg.streams|
      ensures ReaderOk(s', j)
    {
      assert ReaderOk(s, j);
    }
  }

  /** Readers, aligner and marks untouched. */
  lemma InputsFrame(s: State, s': State)
    requires InputsOk(s)
    requires s'.cfg == s.cfg && s'.readers == s.readers && s'.aligner == s.aligner && s'.marks == s.marks
    ensures InputsOk(s')
  {
    forall j | j in s'.aligner.arrived
      ensures MarkOk(s', j)
    {
      assert MarkOk(s, j);
    }
    forall j | 0 <= j < |s.cfg.streams|
      ensures ReaderOk(s', j)
    {
      assert ReaderOk(s, j);
    }
  }

  /** The alignment is released, or only the retirement mark moves. */
  lemma InputsReleased(s: State, s': State)
    requires InputsOk(s) && s'.cfg == s.cfg && s'.readers == s.readers
    requires
      || (s'.aligner == s.aligner.(retired := s'.aligner.retired) && s'.marks == s.marks)
      || (&& s'.aligner == s.aligner.(retired := s'.aligner.retired, draining := s'.aligner.draining).Cleared()
          && s'.marks == map[])
    ensures InputsOk(s')
  {
    forall j | j in s'.aligner.arrived
      ensures MarkOk(s', j)
    {
      assert MarkOk(s, j);
    }
    forall j | 0 <= j < |s.cfg.streams|
      ensures ReaderOk(s', j)
    {
      assert ReaderOk(s, j);
    }
  }

  lemma InputsStep(s: State, a: Action)
    requires InputsOk(s) && Enabled(s, a)
    ensures InputsOk(Next(s, a))
  {
    match a
    case ReadData(i) => InputsReadData(s, i);
    case SendData(i) =>
      InputsStay(s, i, Ready);
      InputsFrame(Stay(s, i, Ready), SendDataStep(s, i));
    case Post(i) =>
      InputsStay(s, i, PostStep(s, i).readers[i].pc);
      InputsFrame(Stay(s, i, PostStep(s, i).readers[i].pc), PostStep(s, i));
    case ReadBarrier(i) => InputsMove(s, i, ReadBarrierStep(s, i).readers[i].pc);
    case SkipBarrier(i) => InputsMove(s, i, Ready);
    case ReadEnd(i) => InputsMove(s, i, Posting(EndOfPartition));
    case Register(i) => InputsRegister(s, i);
    case Finish => InputsReleased(s, FinishStep(s));
    case AbortRelease => InputsReleased(s, AbortReleaseStep(s));
    case StopRelease => InputsReleased(s, StopReleaseStep(s));
    case _ => InputsFrame(s, Next(s, a));
  }

  // ---------------------------------------------------------------- the chain

  lemma ChainHandle(s: State, c: Ctrl)
    requires ChainOk(s) && s.chain.pc == Idle
    requires c.BarrierReceived? && s.aligner.AllAligned(c.b.id) ==> EveryInputArrived(s.aligner)
    ensures ChainOk(s.(chain := Handle(s.chain, s.cfg, s.aligner, |s.queue|, c)))
  {
  }

  lemma ChainTakeControl(s: State)
    requires ChainOk(s) && s.aligner.Valid() && s.chain.pc == Idle && s.controls != []
    ensures ChainOk(TakeControlStep(s))
  {
    var c := s.controls[0];
    if c.BarrierReceived? {
      AlignedMeansEveryInput(s.aligner, c.b.id);
    }
    ChainHandle(s, c);
  }

  /** A reader cannot reach the queue while every input is held. */
  lemma ChainSendData(s: State, i: nat)
    requires ChainOk(s) && CanSendData(s, i) && ReaderOk(s, i) && |s.aligner.side| == s.aligner.numInputs
    ensures ChainOk(SendDataStep(s, i))
  {
  }

  lemma ChainAlignerStep(s: State, a: Action)
    requires ChainOk(s) && (a.ReadData? || a.Register? || a.Finish? || a.AbortRelease? || a.StopRelease?)
    requires Enabled(s, a)
    ensures ChainOk(Next(s, a))
  {
    match a
    case ReadData(i) =>
    case Register(i) =>
    case Finish =>
    case AbortRelease =>
    case StopRelease =>
  }

  lemma ChainCapture(s: State)
    requires ChainOk(s) && s.chain.pc.Capturing? && s.chain.pc.b.id > s.chain.lastCommitted
    ensures ChainOk(CaptureStep(s))
  {
  }

  predicate Local(a: Action) {
    a.TakeEvent? || a.DrainOne? || a.DrainDone? || a.PutOff? || a.Forward? || a.ReplayOne? || a.ReplayDone? || a.Fail?
  }

  lemma ChainLocal(s: State, a: Action)
    requires ChainOk(s) && Local(a) && Enabled(s, a)
    ensures ChainOk(Next(s, a))
  {
    match a
    case TakeEvent =>
    case DrainOne =>
    case DrainDone =>
    case PutOff =>
    case Forward =>
    case ReplayOne =>
    case ReplayDone =>
    case Fail =>
  }

  lemma ChainRest(s: State, a: Action)
    requires ChainOk(s) && Enabled(s, a) && !a.TakeControl? && !a.SendData? && !a.Capture?
    ensures ChainOk(Next(s, a))
  {
    if Local(a) {
      ChainLocal(s, a);
    } else if a.ReadData? || a.Register? || a.Finish? || a.AbortRelease? || a.StopRelease? {
      ChainAlignerStep(s, a);
    }
  }

  lemma ChainStep(s: State, a: Action)
    requires ChainOk(s) && InputsOk(s) && Enabled(s, a)
    requires a.Capture? ==> s.chain.pc.b.id > s.chain.lastCommitted
    ensures ChainOk(Next(s, a))
  {
    match a
    case TakeControl => ChainTakeControl(s);
    case SendData(i) =>
      assert ReaderOk(s, i);
      ChainSendData(s, i);
    case Capture => ChainCapture(s);
    case _ => ChainRest(s, a);
  }

  // ---------------------------------------------------------------- identities only grow

  /** The newest snapshot is not yet retired until its alignment is finished. */
  function Unretired(pc: ChainPc): nat {
    if pc.Forwarding? || pc.Finishing? || pc.Halted? then 1 else 0
  }

  /** Snapshot identities only ever grow, and nothing already captured is aligned again. */
  ghost predicate FenceOk(s: State) {
    var taken := s.log.snapshots;
    && (s.aligner.active.id != 0 ==> IsBarrier(s.cfg.streams, s.aligner.active))
    && (forall k :: 0 <= k < |taken| ==> IsBarrier(s.cfg.streams, taken[k].b))
    && (forall j, k :: 0 <= j < k < |taken| ==> !AtMost(taken[k].b, taken[j].b))
    && (s.chain.pc.Forwarding? || s.chain.pc.Finishing? ==> taken != [] && taken[|taken| - 1].b == s.chain.pc.b)
    && (forall k :: 0 <= k < |taken| - Unretired(s.chain.pc) ==>
          && AtMost(taken[k].b, s.aligner.retired)
          && (s.aligner.active.id != 0 ==> !AtMost(s.aligner.active, taken[k].b)))
    && (s.chain.prepared ==> taken != [] && taken[|taken| - 1].b == s.chain.preparedAs)
    && s.chain.lastCommitted >= s.cfg.restored
    && (s.chain.lastCommitted > s.cfg.restored ==> taken != [] && s.chain.lastCommitted <= taken[|taken| - 1].b.id)
  }

  /** The fields that identities depend on, unchanged by most steps. */
  predicate SameIdentities(s: State, s': State) {
    && s'.cfg == s.cfg && s'.log.snapshots == s.log.snapshots
    && s'.aligner.retired == s.aligner.retired && s'.aligner.active == s.aligner.active
    && s'.chain.preparedAs == s.chain.preparedAs && (s'.chain.prepared ==> s.chain.prepared)
    && (|| s'.chain.lastCommitted == s.chain.lastCommitted
        || (s.chain.prepared && s'.chain.lastCommitted == s.chain.preparedAs.id > s.chain.lastCommitted))
    && Unretired(s.chain.pc) <= Unretired(s'.chain.pc)
    && (s'.chain.pc.Forwarding? || s'.chain.pc.Finishing? ==>
          (s.chain.pc.Forwarding? || s.chain.pc.Finishing?) && s'.chain.pc.b == s.chain.pc.b)
  }

  lemma FenceFrame(s: State, s': State)
    requires FenceOk(s) && SameIdentities(s, s')
    ensures FenceOk(s')
  {
  }

  lemma FenceRegister(s: State, i: nat)
    requires FenceOk(s) && CanRegister(s, i) && ReaderOk(s, i)
    ensures FenceOk(RegisterStep(s, i))
  {
    var b := s.readers[i].pc.b;
    assert s.cfg.streams[i][s.readers[i].next - 1] == Barrier(b);
    if s.aligner.Accepts(i, b) && s.aligner.active.id == 0 {
      forall k | 0 <= k < |s.log.snapshots| - Unretired(s.chain.pc)
        ensures !AtMost(b, s.log.snapshots[k].b)
      {
        assert AtMost(s.log.snapshots[k].b, s.aligner.retired);
      }
    }
  }

  /** A captured identity is newer than everything committed. */
  lemma CaptureIsNewer(s: State)
    requires FenceOk(s) && IdsGrow(s.cfg) && ChainOk(s) && s.chain.pc.Capturing?
    ensures s.chain.pc.b.id > s.chain.lastCommitted
  {
    if s.log.snapshots != [] {
      var last := s.log.snapshots[|s.log.snapshots| - 1].b;
      assert !AtMost(s.chain.pc.b, last);
    }
  }

  lemma FenceCapture(s: State)
    requires FenceOk(s) && ChainOk(s) && s.chain.pc.Capturing? && s.chain.pc.b.id > s.chain.lastCommitted
    ensures FenceOk(CaptureStep(s))
  {
  }

  lemma FenceReleased(s: State, s': State)
    requires FenceOk(s)
    requires s'.cfg == s.cfg && s'.log.snapshots == s.log.snapshots
    requires s'.chain.preparedAs == s.chain.preparedAs && s'.chain.prepared == s.chain.prepared
    requires s'.chain.lastCommitted == s.chain.lastCommitted
    requires s'.aligner.active == NONE || (s'.aligner.active == s.aligner.active && Unretired(s.chain.pc) == 0)
    requires forall c :: AtMost(c, s.aligner.retired) ==> AtMost(c, s'.aligner.retired)
    requires Unretired(s'.chain.pc) == 0 && !s.chain.pc.Halted?
    requires s.chain.pc.Forwarding? || s.chain.pc.Finishing? ==> AtMost(s.chain.pc.b, s'.aligner.retired)
    ensures FenceOk(s')
  {
  }

  predicate Releasing(a: Action) {
    a.Finish? || a.AbortRelease? || a.StopRelease?
  }

  lemma ReleaseFacts(s: State, a: Action)
    requires ChainOk(s) && Enabled(s, a) && Releasing(a)
    ensures var s' := Next(s, a);
            && s'.cfg == s.cfg && s'.log == s.log
            && s'.chain == s.chain.(pc := s'.chain.pc, deferred := s'.chain.deferred) && Unretired(s'.chain.pc) == 0
            && (forall c :: AtMost(c, s.aligner.retired) ==> AtMost(c, s'.aligner.retired))
            && (s'.aligner.active == NONE || (s'.aligner.active == s.aligner.active && a.AbortRelease?))
            && (a.Finish? ==> AtMost(s.chain.pc.b, s'.aligner.retired))
  {
    match a
    case Finish =>
    case AbortRelease =>
    case StopRelease =>
  }

  lemma SameAfter(s: State, a: Action)
    requires ChainOk(s) && Enabled(s, a) && !Releasing(a) && !a.Register? && !a.Capture?
    ensures SameIdentities(s, Next(s, a))
  {
    match a
    case TakeControl =>
    case TakeEvent =>
    case DrainOne =>
    case DrainDone =>
    case PutOff =>
    case Forward =>
    case ReplayOne =>
    case ReplayDone =>
    case Fail =>
    case _ => SameAfterReader(s, a);
  }

  lemma SameAfterReader(s: State, a: Action)
    requires Enabled(s, a)
    requires a.ReadData? || a.SendData? || a.ReadBarrier? || a.SkipBarrier? || a.ReadEnd? || a.Post? || a.Inject?
    ensures SameIdentities(s, Next(s, a))
  {
  }

  lemma FenceStep(s: State, a: Action)
    requires FenceOk(s) && InputsOk(s) && ChainOk(s) && Enabled(s, a)
    requires a.Capture? ==> s.chain.pc.b.id > s.chain.lastCommitted
    ensures FenceOk(Next(s, a))
  {
    if a.Register? {
      assert ReaderOk(s, a.i);
      FenceRegister(s, a.i);
    } else if a.Capture? {
      FenceCapture(s);
    } else if Releasing(a) {
      ReleaseFacts(s, a);
      FenceReleased(s, Next(s, a));
    } else {
      SameAfter(s, a);
      FenceFrame(s, Next(s, a));
    }
  }

  // ---------------------------------------------------------------- together

  ghost predicate Inv(s: State) {
    IdsGrow(s.cfg) && InputsOk(s) && ChainOk(s) && FenceOk(s)
  }

  lemma InvInit(s: State)
    requires Init(s)
    ensures Inv(s)
  {
    forall i | 0 <= i < |s.cfg.streams|
      ensures ReaderOk(s, i)
    {
      assert s.readers[i] == Reader(0, Ready);
    }
  }

  lemma InvStep(s: State, a: Action)
    requires Inv(s) && Enabled(s, a)
    ensures Inv(Next(s, a)) && Next(s, a).cfg == s.cfg
  {
    if a.Capture? {
      CaptureIsNewer(s);
    }
    InputsStep(s, a);
    ChainStep(s, a);
    FenceStep(s, a);
    CfgConstant(s, a);
  }

  lemma CfgConstant(s: State, a: Action)
    requires Enabled(s, a)
    ensures Next(s, a).cfg == s.cfg
  {
  }
}
