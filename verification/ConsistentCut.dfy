/**
  The checkpoint cut of one task: N input readers and one operator chain, interleaved at the
  granularity of lock sections and channel operations
  (internal/engine/input_reader.go, internal/engine/operator_chain.go).

  A reader takes messages off its stream in order.  A data record goes to the aligner's side
  buffer or, in a separate step, to the shared input queue; a barrier is registered with the
  aligner and announced in the control mailbox.  The chain takes control messages and queued
  records, drains the queue before a snapshot, forwards the barrier and replays what alignment
  held back.  A blocked channel send is a step that is not enabled.

  Records are named by their input and their position in that input's stream, so two records
  are equal only when they are the same record.
 */
module ConsistentCut {
  import opened Alignment

  datatype Msg = Data | Barrier(b: Ident) | End

  datatype Record = Record(input: int, pos: nat)

  datatype Ctrl =
    | BarrierReceived(b: Ident)
    | AbortCheckpoint(b: Ident)
    | CommitCheckpoint(b: Ident)
    | AbortTransaction(b: Ident)
    | EndOfPartition
    | DrainInputs
    | Shutdown

  datatype ReaderPc =
    | Ready
    | Sending(r: Record)        // the aligner declined the record; it is on its way to the queue
    | Registering(b: Ident)     // the gate let the barrier through; it is not yet registered
    | Posting(c: Ctrl)          // on its way to the control mailbox
    | Closed

  datatype Reader = Reader(next: nat, pc: ReaderPc)

  datatype ChainPc =
    | Idle
    | BarrierDrain(b: Ident)    // drainInputCh before the snapshot
    | Capturing(b: Ident)       // queue seen empty: prepare the sink, snapshot the operators
    | Forwarding(b: Ident)      // snapshot taken, barrier not yet forwarded
    | Finishing(b: Ident)       // barrier forwarded, alignment not yet released
    | Replay(rest: seq<Record>) // processing released or deferred records
    | AbortDrain(b: Ident, left: nat)
    | AbortReleasing(b: Ident)
    | StopDrain                 // drain for a stopping intake
    | StopReleasing
    | LastDrain(end: bool)      // final drain before end of partition or shutdown
    | Halted(lost: seq<Record>) // exited, with the records still in its hands

  /** What does not change: the streams, and the checkpoint the task was restored from (0 if none). */
  datatype Config = Config(streams: seq<seq<Msg>>, transactional: bool, capacity: nat, restored: nat)

  datatype Chain = Chain(
    pc: ChainPc,
    prepared: bool,
    preparedAs: Ident,
    lastCommitted: nat,
    draining: bool,
    deferred: seq<Record>,
    eofs: nat,
    deferredEofs: nat)

  datatype Snapshot = Snapshot(b: Ident, processed: seq<Record>, marks: map<int, nat>)

  datatype Out = OutRecord(r: Record) | OutBarrier(b: Ident)

  datatype Log = Log(processed: seq<Record>, out: seq<Out>, snapshots: seq<Snapshot>)

  datatype State = State(
    cfg: Config,
    readers: seq<Reader>,
    aligner: Aligner<Record>,
    marks: map<int, nat>,      // where in its stream each arrived input registered the barrier
    queue: seq<Record>,
    controls: seq<Ctrl>,
    chain: Chain,
    log: Log)

  datatype Action =
    | ReadData(i: nat)
    | SendData(i: nat)
    | ReadBarrier(i: nat)
    | SkipBarrier(i: nat)
    | Register(i: nat)
    | ReadEnd(i: nat)
    | Post(i: nat)
    | Inject(c: Ctrl)
    | TakeControl
    | TakeEvent
    | DrainOne
    | DrainDone
    | PutOff
    | Capture
    | Forward
    | Finish
    | ReplayOne
    | ReplayDone
    | AbortRelease
    | StopRelease
    | Fail

  // ---------------------------------------------------------------- what the streams hold

  /** The data records among the first `upto` messages of input `i`, in stream order. */
  function DataIn(stream: seq<Msg>, i: int, upto: nat): seq<Record>
    requires upto <= |stream|
  {
    if upto == 0 then []
    else DataIn(stream, i, upto - 1) + if stream[upto - 1].Data? then [Record(i, upto - 1)] else []
  }

  /** The records of input `i`, in the order they stand in `s`. */
  function Only(i: int, s: seq<Record>): seq<Record> {
    if s == [] then []
    else Only(i, s[..|s| - 1]) + if s[|s| - 1].input == i then [s[|s| - 1]] else []
  }

  /** The records in an output log, barriers left out. */
  function RecordsOf(out: seq<Out>): seq<Record> {
    if out == [] then []
    else RecordsOf(out[..|out| - 1]) + if out[|out| - 1].OutRecord? then [out[|out| - 1].r] else []
  }

  // ---------------------------------------------------------------- reader steps

  predicate HasInput(s: State, i: nat) {
    i < |s.cfg.streams| && i < |s.readers| && i < |s.aligner.side| && s.readers[i].next <= |s.cfg.streams[i]|
  }

  predicate AtMessage(s: State, i: nat) {
    HasInput(s, i) && s.readers[i].pc == Ready && s.readers[i].next < |s.cfg.streams[i]|
  }

  function Message(s: State, i: nat): Msg
    requires AtMessage(s, i)
  {
    s.cfg.streams[i][s.readers[i].next]
  }

  function Move(s: State, i: nat, pc: ReaderPc): State
    requires HasInput(s, i)
  {
    s.(readers := s.readers[i := Reader(s.readers[i].next + 1, pc)])
  }

  function Stay(s: State, i: nat, pc: ReaderPc): State
    requires HasInput(s, i)
  {
    s.(readers := s.readers[i := s.readers[i].(pc := pc)])
  }

  predicate CanReadData(s: State, i: nat) {
    AtMessage(s, i) && Message(s, i).Data? && s.aligner.Decide(i) != Full
  }

  function ReadDataStep(s: State, i: nat): State
    requires CanReadData(s, i)
  {
    var r := Record(i, s.readers[i].next);
    if s.aligner.Decide(i) == Buffered then Move(s, i, Ready).(aligner := s.aligner.Buffer(i, r))
    else Move(s, i, Sending(r))
  }

  predicate CanSendData(s: State, i: nat) {
    HasInput(s, i) && s.readers[i].pc.Sending? && |s.queue| < s.cfg.capacity
  }

  function SendDataStep(s: State, i: nat): State
    requires CanSendData(s, i)
  {
    Stay(s, i, Ready).(queue := s.queue + [s.readers[i].pc.r])
  }

  predicate CanReadBarrier(s: State, i: nat) {
    AtMessage(s, i) && Message(s, i).Barrier? && s.aligner.GateFor(i, Message(s, i).b.id) != Wait
  }

  function ReadBarrierStep(s: State, i: nat): State
    requires CanReadBarrier(s, i)
  {
    var b := Message(s, i).b;
    Move(s, i, if s.aligner.GateFor(i, b.id) == Proceed then Registering(b) else Closed)
  }

  predicate CanRegister(s: State, i: nat) {
    HasInput(s, i) && s.readers[i].pc.Registering? && s.readers[i].next > 0
  }

  function RegisterStep(s: State, i: nat): State
    requires CanRegister(s, i)
  {
    var b := s.readers[i].pc.b;
    Stay(s, i, Posting(BarrierReceived(b))).(
      aligner := s.aligner.OnBarrier(i, b),
      marks := if s.aligner.Accepts(i, b) && i !in s.aligner.arrived then s.marks[i := s.readers[i].next - 1]
               else s.marks)
  }

  predicate CanPost(s: State, i: nat) {
    HasInput(s, i) && s.readers[i].pc.Posting?
  }

  function PostStep(s: State, i: nat): State
    requires CanPost(s, i)
  {
    var c := s.readers[i].pc.c;
    Stay(s, i, if c.EndOfPartition? then Closed else Ready).(controls := s.controls + [c])
  }

  // ---------------------------------------------------------------- chain steps

  /**
    The message handler of the chain (handleControl), up to its first blocking operation.
    A returned error halts the chain.
   */
  function Handle(h: Chain, cfg: Config, aligner: Aligner<Record>, queued: nat, c: Ctrl): Chain {
    if h.prepared && (c.BarrierReceived? || c.CommitCheckpoint? || c.AbortCheckpoint? || c.AbortTransaction?)
       && c.b.epoch != h.preparedAs.epoch then h
    else match c
      case BarrierReceived(b) =>
        if h.draining then h
        else if h.prepared then (if b.id == h.preparedAs.id then h else h.(pc := Halted([])))
        else if aligner.AllAligned(b.id) && aligner.active.epoch == b.epoch then h.(pc := BarrierDrain(b))
        else h
      case CommitCheckpoint(b) =>
        if !cfg.transactional || b.id <= h.lastCommitted then h
        else if h.prepared && b.id == h.preparedAs.id then
          h.(prepared := false, lastCommitted := b.id, pc := Replay(h.deferred), deferred := [])
        else h.(pc := Halted([]))
      case AbortTransaction(b) =>
        if b.id != 0 && !h.prepared then h.(pc := AbortDrain(b, queued))
        else if !cfg.transactional || (b.id != 0 && b.id <= h.lastCommitted) then h
        else h.(pc := Halted([]))
      case AbortCheckpoint(b) =>
        if !h.prepared then h.(pc := AbortDrain(b, queued))
        else if b.id != h.preparedAs.id then h
        else if b.id <= h.lastCommitted then h.(pc := AbortDrain(b, queued))
        else h.(pc := Halted([]))
      case EndOfPartition =>
        if h.prepared then
          (if h.deferredEofs >= |cfg.streams| then h.(pc := Halted([])) else h.(deferredEofs := h.deferredEofs + 1))
        else if h.eofs + 1 >= |cfg.streams| then h.(eofs := h.eofs + 1, pc := LastDrain(true))
        else h.(eofs := h.eofs + 1)
      case DrainInputs =>
        h.(draining := true, pc := if h.prepared then Halted([]) else StopDrain)
      case Shutdown =>
        h.(pc := if h.draining && !h.prepared then LastDrain(false) else Halted([]))
  }

  function TakeControlStep(s: State): State
    requires s.controls != []
  {
    s.(controls := s.controls[1..], chain := Handle(s.chain, s.cfg, s.aligner, |s.queue|, s.controls[0]))
  }

  function Process(log: Log, r: Record): Log {
    log.(processed := log.processed + [r], out := log.out + [OutRecord(r)])
  }

  predicate Drains(pc: ChainPc) {
    pc.BarrierDrain? || (pc.AbortDrain? && pc.left > 0) || pc.StopDrain? || pc.LastDrain?
  }

  /** The main loop or a drain loop takes the head of the queue. */
  function TakeHead(s: State): State
    requires s.queue != []
  {
    s.(queue := s.queue[1..], log := Process(s.log, s.queue[0]))
  }

  function DrainOneStep(s: State): State
    requires Drains(s.chain.pc) && s.queue != []
  {
    var pc := s.chain.pc;
    if pc.AbortDrain? then TakeHead(s).(chain := s.chain.(pc := AbortDrain(pc.b, pc.left - 1))) else TakeHead(s)
  }

  predicate CanDrainDone(s: State) {
    (s.chain.pc.AbortDrain? && s.chain.pc.left == 0) || (Drains(s.chain.pc) && !s.chain.pc.AbortDrain? && s.queue == [])
  }

  function DrainDoneStep(s: State): State
    requires CanDrainDone(s)
  {
    match s.chain.pc
    case BarrierDrain(b) => s.(chain := s.chain.(pc := Capturing(b)))
    case AbortDrain(b, _) => s.(chain := s.chain.(pc := AbortReleasing(b)))
    case StopDrain => s.(chain := s.chain.(pc := StopReleasing))
    case LastDrain(end) => s.(chain := s.chain.(pc := Halted([])))
  }

  /** With uploads still pending, the end of partition is put off and the chain goes on. */
  function PutOffStep(s: State): State
    requires s.chain.pc == LastDrain(true)
  {
    s.(chain := s.chain.(pc := Idle))
  }

  function CaptureStep(s: State): State
    requires s.chain.pc.Capturing?
  {
    var b := s.chain.pc.b;
    if s.chain.prepared then s.(chain := s.chain.(pc := Halted([])))
    else
      s.(chain := s.chain.(prepared := s.cfg.transactional, preparedAs := b, pc := Forwarding(b)),
         log := s.log.(snapshots := s.log.snapshots + [Snapshot(b, s.log.processed, s.marks)]))
  }

  /** A transactional sink is terminal and does not forward. */
  function ForwardStep(s: State): State
    requires s.chain.pc.Forwarding?
  {
    var b := s.chain.pc.b;
    s.(chain := s.chain.(pc := Finishing(b)),
       log := if s.cfg.transactional then s.log else s.log.(out := s.log.out + [OutBarrier(b)]))
  }

  function FinishStep(s: State): State
    requires s.chain.pc.Finishing?
  {
    var id := s.chain.pc.b.id;
    var released := s.aligner.FinishReleases(id);
    s.(aligner := s.aligner.Finish(id),
       marks := if s.aligner.Finishes(id) then map[] else s.marks,
       chain := if s.cfg.transactional then s.chain.(deferred := released, pc := Idle)
                else s.chain.(pc := Replay(released)))
  }

  function ReplayOneStep(s: State): State
    requires s.chain.pc.Replay? && s.chain.pc.rest != []
  {
    s.(log := Process(s.log, s.chain.pc.rest[0]), chain := s.chain.(pc := Replay(s.chain.pc.rest[1..])))
  }

  function ReplayDoneStep(s: State): State
    requires s.chain.pc.Replay? && s.chain.pc.rest == []
  {
    var h := s.chain.(eofs := s.chain.eofs + s.chain.deferredEofs, deferredEofs := 0);
    s.(chain := h.(pc := if s.chain.deferredEofs > 0 && h.eofs >= |s.cfg.streams| then LastDrain(true) else Idle))
  }

  function AbortReleaseStep(s: State): State
    requires s.chain.pc.AbortReleasing?
  {
    var b := s.chain.pc.b;
    s.(aligner := s.aligner.Abort(b),
       marks := if s.aligner.active == b then map[] else s.marks,
       chain := s.chain.(pc := Replay(s.aligner.AbortReleases(b))))
  }

  function StopReleaseStep(s: State): State
    requires s.chain.pc.StopReleasing?
  {
    s.(aligner := s.aligner.BeginDrain(), marks := map[], chain := s.chain.(pc := Replay(Flatten(s.aligner.side))))
  }

  /** The chain may exit with an error at any point. */
  function FailStep(s: State): State {
    var pc := s.chain.pc;
    s.(chain := s.chain.(pc := Halted(if pc.Replay? then pc.rest else if pc.Halted? then pc.lost else [])))
  }

  // ---------------------------------------------------------------- runs

  predicate Enabled(s: State, a: Action) {
    match a
    case ReadData(i) => CanReadData(s, i)
    case SendData(i) => CanSendData(s, i)
    case ReadBarrier(i) => CanReadBarrier(s, i)
    case SkipBarrier(i) => AtMessage(s, i) && Message(s, i).Barrier?
    case Register(i) => CanRegister(s, i)
    case ReadEnd(i) => AtMessage(s, i) && Message(s, i).End?
    case Post(i) => CanPost(s, i)
    case Inject(c) => !c.BarrierReceived? && !c.EndOfPartition?
    case TakeControl => s.chain.pc == Idle && s.controls != []
    case TakeEvent => s.chain.pc == Idle && !s.chain.prepared && s.queue != []
    case DrainOne => Drains(s.chain.pc) && s.queue != []
    case DrainDone => CanDrainDone(s)
    case PutOff => s.chain.pc == LastDrain(true) && s.queue == []
    case Capture => s.chain.pc.Capturing?
    case Forward => s.chain.pc.Forwarding?
    case Finish => s.chain.pc.Finishing?
    case ReplayOne => s.chain.pc.Replay? && s.chain.pc.rest != []
    case ReplayDone => s.chain.pc.Replay? && s.chain.pc.rest == []
    case AbortRelease => s.chain.pc.AbortReleasing?
    case StopRelease => s.chain.pc.StopReleasing?
    case Fail => true
  }

  function Next(s: State, a: Action): State
    requires Enabled(s, a)
  {
    match a
    case ReadData(i) => ReadDataStep(s, i)
    case SendData(i) => SendDataStep(s, i)
    case ReadBarrier(i) => ReadBarrierStep(s, i)
    case SkipBarrier(i) => Move(s, i, Ready)
    case Register(i) => RegisterStep(s, i)
    case ReadEnd(i) => Move(s, i, Posting(EndOfPartition))
    case Post(i) => PostStep(s, i)
    case Inject(c) => s.(controls := s.controls + [c])
    case TakeControl => TakeControlStep(s)
    case TakeEvent => TakeHead(s)
    case DrainOne => DrainOneStep(s)
    case DrainDone => DrainDoneStep(s)
    case PutOff => PutOffStep(s)
    case Capture => CaptureStep(s)
    case Forward => ForwardStep(s)
    case Finish => FinishStep(s)
    case ReplayOne => ReplayOneStep(s)
    case ReplayDone => ReplayDoneStep(s)
    case AbortRelease => AbortReleaseStep(s)
    case StopRelease => StopReleaseStep(s)
    case Fail => FailStep(s)
  }

  ghost predicate IsBarrier(streams: seq<seq<Msg>>, b: Ident) {
    exists i, k :: 0 <= i < |streams| && 0 <= k < |streams[i]| && streams[i][k] == Barrier(b)
  }

  /** Checkpoint ids as the coordinator allocates them: above the restored one, growing with the epoch. */
  ghost predicate IdsGrow(cfg: Config) {
    && (forall b :: IsBarrier(cfg.streams, b) ==> b.id > cfg.restored)
    && (forall b, c :: IsBarrier(cfg.streams, b) && IsBarrier(cfg.streams, c) && b.epoch < c.epoch ==> b.id < c.id)
  }

  ghost predicate Init(s: State) {
    && IdsGrow(s.cfg)
    && |s.readers| == |s.cfg.streams|
    && (forall i :: 0 <= i < |s.readers| ==> s.readers[i] == Reader(0, Ready))
    && s.aligner == Aligner(|s.cfg.streams|, s.aligner.maxBuffer, NONE, false, NONE, {}, seq(|s.cfg.streams|, _ => []))
    && s.marks == map[] && s.queue == [] && s.controls == []
    && s.chain == Chain(Idle, false, NONE, s.cfg.restored, false, [], 0, 0)
    && s.log == Log([], [], [])
  }

  /** A run: states joined by enabled actions. */
  ghost predicate Run(states: seq<State>, actions: seq<Action>) {
    && |states| == |actions| + 1
    && Init(states[0])
    && forall k :: 0 <= k < |actions| ==> Enabled(states[k], actions[k]) && states[k + 1] == Next(states[k], actions[k])
  }
}
