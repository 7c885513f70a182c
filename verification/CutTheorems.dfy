/**
  The consistent cut: what the interleaving guarantees at every step, at every snapshot and
  over every run.
 */
module CutTheorems {
  import opened Alignment
  import opened ConsistentCut
  import opened CutInvariants

  // ---------------------------------------------------------------- sequences of records

  lemma {:induction false} OnlyConcat(i: int, a: seq<Record>, b: seq<Record>)
    ensures Only(i, a + b) == Only(i, a) + Only(i, b)
  {
    if b == [] {
      assert a + b == a;
    } else {
      assert (a + b)[..|a + b| - 1] == a + b[..|b| - 1];
      OnlyConcat(i, a, b[..|b| - 1]);
    }
  }

  lemma {:induction false} OnlyHead(i: int, s: seq<Record>)
    requires s != []
    ensures Only(i, s) == Only(i, [s[0]]) + Only(i, s[1..])
  {
    assert s == [s[0]] + s[1..];
    OnlyConcat(i, [s[0]], s[1..]);
  }

  /** A buffer holding records of input `j` only, seen from input `i`. */
  lemma {:induction false} OnlyTagged(i: int, j: int, s: seq<Record>)
    requires forall r :: r in s ==> r.input == j
    ensures Only(i, s) == if i == j then s else []
  {
    if s != [] {
      var front := s[..|s| - 1];
      assert forall r :: r in front ==> r in s;
      OnlyTagged(i, j, front);
      assert s == front + [s[|s| - 1]];
    }
  }

  /** Releasing all side buffers hands each input exactly its own buffer, in order. */
  lemma {:induction false} OnlyFlatten(i: int, side: seq<seq<Record>>)
    requires Tagged(side)
    ensures Only(i, Flatten(side)) == if 0 <= i < |side| then side[i] else []
  {
    if side != [] {
      var front, last := side[..|side| - 1], side[|side| - 1];
      OnlyFlatten(i, front);
      OnlyConcat(i, Flatten(front), last);
      OnlyTagged(i, |side| - 1, last);
    }
  }

  // ---------------------------------------------------------------- the trail of an input

  /** The records reader `i` has taken off its stream. */
  ghost function Read(s: State, i: nat): seq<Record>
    requires HasInput(s, i)
  {
    DataIn(s.cfg.streams[i], i, s.readers[i].next)
  }

  /** What the chain holds of released and deferred records. */
  ghost function Held(h: Chain): seq<Record> {
    (if h.pc.Replay? then h.pc.rest else if h.pc.Halted? then h.pc.lost else []) + h.deferred
  }

  ghost function InHand(s: State, i: nat): seq<Record>
    requires HasInput(s, i)
  {
    if s.readers[i].pc.Sending? then [s.readers[i].pc.r] else []
  }

  ghost function Places(i: nat, processed: seq<Record>, held: seq<Record>, queue: seq<Record>,
                        rest: seq<Record>): seq<Record> {
    Only(i, processed) + Only(i, held) + Only(i, queue) + rest
  }

  /** Every record of input `i` the task has processed or holds, oldest place first. */
  ghost function Trail(s: State, i: nat): seq<Record>
    requires HasInput(s, i)
  {
    Places(i, s.log.processed, Held(s.chain), s.queue, s.aligner.side[i] + InHand(s, i))
  }

  lemma {:induction false} HeadMoves(i: nat, p: seq<Record>, q: seq<Record>, rest: seq<Record>)
    requires q != []
    ensures Places(i, p + [q[0]], [], q[1..], rest) == Places(i, p, [], q, rest)
  {
    OnlyHead(i, q);
    OnlyConcat(i, p, [q[0]]);
  }

  lemma {:induction false} HeldMoves(i: nat, p: seq<Record>, held: seq<Record>, q: seq<Record>, rest: seq<Record>)
    requires held != []
    ensures Places(i, p + [held[0]], held[1..], q, rest) == Places(i, p, held, q, rest)
  {
    OnlyHead(i, held);
    OnlyConcat(i, p, [held[0]]);
  }

  lemma {:induction false} TailMoves(i: nat, p: seq<Record>, q: seq<Record>, held: seq<Record>, j: int, r: Record)
    requires r.input == j
    ensures Places(i, p, held, q + [r], []) == Places(i, p, held, q, if i == j then [r] else [])
    ensures i != j ==> forall rest :: Places(i, p, held, q + [r], rest) == Places(i, p, held, q, rest)
  {
    OnlyConcat(i, q, [r]);
    OnlyTagged(i, j, [r]);
  }

  predicate Releases(a: Action) {
    a.AbortRelease? || a.StopRelease?
  }

  /** The record a step takes off input `i`, if any. */
  ghost function Fresh(s: State, a: Action, i: nat): seq<Record>
    requires HasInput(s, i)
  {
    if a == ReadData(i) then [Record(i, s.readers[i].next)] else []
  }

  lemma {:induction false} TrailReadData(s: State, j: nat, i: nat)
    requires CanReadData(s, j) && HasInput(s, i)
    ensures HasInput(ReadDataStep(s, j), i)
    ensures Trail(ReadDataStep(s, j), i) == Trail(s, i) + Fresh(s, ReadData(j), i)
  {
    var s' := ReadDataStep(s, j);
    assert s'.aligner.side[i] + InHand(s', i) == s.aligner.side[i] + InHand(s, i) + Fresh(s, ReadData(j), i);
  }

  lemma {:induction false} TrailSendData(s: State, j: nat, i: nat)
    requires CanSendData(s, j) && HasInput(s, i)
    requires s.readers[j].pc.r.input == j && s.aligner.side[j] == []
    ensures HasInput(SendDataStep(s, j), i)
    ensures Trail(SendDataStep(s, j), i) == Trail(s, i)
  {
    TailMoves(i, s.log.processed, s.queue, Held(s.chain), j, s.readers[j].pc.r);
  }

  lemma {:induction false} TrailTakeHead(s: State, i: nat)
    requires s.queue != [] && HasInput(s, i) && Held(s.chain) == []
    ensures HasInput(TakeHead(s), i) && Trail(TakeHead(s), i) == Trail(s, i)
  {
    HeadMoves(i, s.log.processed, s.queue, s.aligner.side[i] + InHand(s, i));
  }

  lemma {:induction false} TrailDrainOne(s: State, i: nat)
    requires Drains(s.chain.pc) && s.queue != [] && HasInput(s, i) && s.chain.deferred == []
    ensures HasInput(DrainOneStep(s), i) && Trail(DrainOneStep(s), i) == Trail(s, i)
  {
    TrailTakeHead(s, i);
  }

  lemma {:induction false} TrailReplayOne(s: State, i: nat)
    requires s.chain.pc.Replay? && s.chain.pc.rest != [] && HasInput(s, i)
    ensures HasInput(ReplayOneStep(s), i) && Trail(ReplayOneStep(s), i) == Trail(s, i)
  {
    HeldMoves(i, s.log.processed, Held(s.chain), s.queue, s.aligner.side[i] + InHand(s, i));
    assert Held(ReplayOneStep(s).chain) == Held(s.chain)[1..];
  }

  lemma {:induction false} FinishFields(s: State, s': State, i: nat)
    requires s.chain.pc.Finishing? && s' == FinishStep(s) && HasInput(s, i) && s.aligner.numInputs == |s.aligner.side|
    requires s.chain.deferred == [] && s.aligner.active.id == s.chain.pc.b.id
    ensures HasInput(s', i) && InHand(s', i) == InHand(s, i) && s'.queue == s.queue
    ensures s'.log.processed == s.log.processed
    ensures Held(s.chain) == [] && Held(s'.chain) == Flatten(s.aligner.side) && s'.aligner.side[i] == []
  {
  }

  lemma {:induction false} FinishPlaces(i: nat, p: seq<Record>, held: seq<Record>, side: seq<Record>, hand: seq<Record>)
    requires Only(i, held) == side
    ensures Places(i, p, held, [], [] + hand) == Places(i, p, [], [], side + hand)
  {
    Regroup(i, p, held, [], side, hand);
  }

  lemma {:induction false} TrailFinish(s: State, i: nat)
    requires s.chain.pc.Finishing? && HasInput(s, i) && Tagged(s.aligner.side)
    requires s.aligner.numInputs == |s.aligner.side|
    requires s.queue == [] && s.chain.deferred == [] && s.aligner.active.id == s.chain.pc.b.id
    ensures HasInput(FinishStep(s), i) && Trail(FinishStep(s), i) == Trail(s, i)
  {
    FinishFields(s, FinishStep(s), i);
    OnlyFlatten(i, s.aligner.side);
    FinishPlaces(i, s.log.processed, Flatten(s.aligner.side), s.aligner.side[i], InHand(s, i));
  }

  /** Steps that move no record. */
  predicate Stationary(a: Action) {
    !a.ReadData? && !a.SendData? && !a.TakeEvent? && !a.DrainOne? && !a.ReplayOne? && !a.Finish? && !Releases(a)
  }

  lemma {:induction false} HandleHolds(h: Chain, cfg: Config, aligner: Aligner<Record>, queued: nat, c: Ctrl)
    requires h.pc == Idle
    ensures Held(Handle(h, cfg, aligner, queued, c)) == Held(h)
  {
  }

  lemma {:induction false} StationaryFields(s: State, a: Action, i: nat)
    requires Enabled(s, a) && HasInput(s, i) && Stationary(a) && ChainShape(s.chain, s.cfg.transactional)
    ensures SamePlaces(s, Next(s, a), i)
  {
    match a
    case TakeControl => HandleHolds(s.chain, s.cfg, s.aligner, |s.queue|, s.controls[0]);
    case DrainDone => ChainFields(s, a, i);
    case PutOff => ChainFields(s, a, i);
    case Capture => ChainFields(s, a, i);
    case Forward => ChainFields(s, a, i);
    case ReplayDone => ChainFields(s, a, i);
    case Fail => ChainFields(s, a, i);
    case _ => ReaderFields(s, a, i);
  }

  /** Nothing that counts as a place of records changes. */
  ghost predicate SamePlaces(s: State, s': State, i: nat)
    requires HasInput(s, i)
  {
    && HasInput(s', i) && InHand(s', i) == InHand(s, i)
    && s'.aligner.side == s.aligner.side && s'.queue == s.queue && s'.log.processed == s.log.processed
    && Held(s'.chain) == Held(s.chain)
  }

  lemma {:induction false} ChainFields(s: State, a: Action, i: nat)
    requires Enabled(s, a) && HasInput(s, i) && ChainShape(s.chain, s.cfg.transactional)
    requires a.DrainDone? || a.PutOff? || a.Capture? || a.Forward? || a.ReplayDone? || a.Fail?
    ensures SamePlaces(s, Next(s, a), i)
  {
  }

  lemma {:induction false} ReaderFields(s: State, a: Action, i: nat)
    requires Enabled(s, a) && HasInput(s, i)
    requires a.ReadBarrier? || a.SkipBarrier? || a.Register? || a.ReadEnd? || a.Post? || a.Inject?
    ensures SamePlaces(s, Next(s, a), i)
  {
  }

  lemma {:induction false} TrailChainMoves(s: State, a: Action, i: nat)
    requires InputsOk(s) && ChainOk(s) && Enabled(s, a) && HasInput(s, i)
    requires a.TakeEvent? || a.DrainOne? || a.ReplayOne? || a.Finish?
    ensures HasInput(Next(s, a), i) && Trail(Next(s, a), i) == Trail(s, i)
  {
    if a.TakeEvent? {
      TrailTakeHead(s, i);
    } else if a.DrainOne? {
      TrailDrainOne(s, i);
    } else if a.ReplayOne? {
      TrailReplayOne(s, i);
    } else {
      TrailFinish(s, i);
    }
  }

  lemma {:induction false} TrailMoves(s: State, a: Action, i: nat)
    requires InputsOk(s) && ChainOk(s) && Enabled(s, a) && HasInput(s, i) && !Releases(a) && !Stationary(a)
    ensures HasInput(Next(s, a), i)
    ensures Trail(Next(s, a), i) == Trail(s, i) + Fresh(s, a, i)
  {
    if a.ReadData? {
      TrailReadData(s, a.i, i);
    } else {
      if a.SendData? {
        assert ReaderOk(s, a.i);
        TrailSendData(s, a.i, i);
      } else {
        TrailChainMoves(s, a, i);
      }
      assert Trail(s, i) + [] == Trail(s, i);
    }
  }

  /** Outside the two racy releases, a step adds to an input's trail exactly what it reads. */
  lemma {:induction false} TrailStep(s: State, a: Action, i: nat)
    requires InputsOk(s) && ChainOk(s) && Enabled(s, a) && HasInput(s, i) && !Releases(a)
    ensures HasInput(Next(s, a), i)
    ensures Trail(Next(s, a), i) == Trail(s, i) + Fresh(s, a, i)
  {
    if Stationary(a) {
      StationaryFields(s, a, i);
      assert Trail(s, i) + [] == Trail(s, i);
    } else {
      TrailMoves(s, a, i);
    }
  }

  lemma {:induction false} ReadStep(s: State, a: Action, i: nat)
    requires Enabled(s, a) && HasInput(s, i) && HasInput(Next(s, a), i)
    ensures Read(Next(s, a), i) == Read(s, i) + Fresh(s, a, i)
  {
  }

  // ---------------------------------------------------------------- nothing lost, nothing twice

  /** Every record read sits in exactly one place, exactly once. */
  ghost predicate Conserved(s: State) {
    forall i :: 0 <= i < |s.cfg.streams| ==> HasInput(s, i) && multiset(Trail(s, i)) == multiset(Read(s, i))
  }

  /** ... and the places, oldest first, hold each input's records in stream order. */
  ghost predicate InOrder(s: State) {
    forall i :: 0 <= i < |s.cfg.streams| ==> HasInput(s, i) && Trail(s, i) == Read(s, i)
  }

  /** Does this release hand over the side buffers at all? */
  predicate Matches(s: State, a: Action) {
    a.StopRelease? || (a.AbortRelease? && s.chain.pc.AbortReleasing? && s.aligner.active == s.chain.pc.b)
  }

  /** No input with buffered records still has older ones waiting in the queue. */
  ghost predicate QueueBehind(s: State) {
    forall i :: 0 <= i < |s.aligner.side| ==> s.aligner.side[i] == [] || Only(i, s.queue) == []
  }

  ghost predicate Clean(s: State, a: Action) {
    Releases(a) && Matches(s, a) ==> QueueBehind(s)
  }

  lemma {:induction false} ReleaseFields(s: State, a: Action, i: nat)
    requires ChainOk(s) && Enabled(s, a) && HasInput(s, i) && Releases(a) && |s.aligner.side| == s.aligner.numInputs
    ensures var s' := Next(s, a);
            && HasInput(s', i) && InHand(s', i) == InHand(s, i)
            && s'.queue == s.queue && s'.log.processed == s.log.processed && Held(s.chain) == []
            && s'.aligner.side[i] == (if Matches(s, a) then [] else s.aligner.side[i])
            && Held(s'.chain) == if Matches(s, a) then Flatten(s.aligner.side) else []
  {
    match a
    case AbortRelease =>
    case StopRelease =>
  }

  lemma {:induction false} Regroup(i: nat, p: seq<Record>, held: seq<Record>, q: seq<Record>, side: seq<Record>,
                                   hand: seq<Record>)
    requires Only(i, held) == side
    ensures Places(i, p, [], q, side + hand) == Only(i, p) + (Only(i, q) + side) + hand
    ensures Places(i, p, held, q, [] + hand) == Only(i, p) + (side + Only(i, q)) + hand
  {
  }

  /** A release puts an input's side buffer ahead of its queued records. */
  lemma {:induction false} TrailRelease(s: State, a: Action, i: nat)
    requires ChainOk(s) && Enabled(s, a) && HasInput(s, i) && Releases(a)
    requires |s.aligner.side| == s.aligner.numInputs && Tagged(s.aligner.side)
    ensures HasInput(Next(s, a), i)
    ensures !Matches(s, a) ==> Trail(Next(s, a), i) == Trail(s, i)
    ensures Matches(s, a) ==>
              && Trail(s, i) == Only(i, s.log.processed) + (Only(i, s.queue) + s.aligner.side[i]) + InHand(s, i)
              && Trail(Next(s, a), i)
                == Only(i, s.log.processed) + (s.aligner.side[i] + Only(i, s.queue)) + InHand(s, i)
  {
    ReleaseFields(s, a, i);
    if Matches(s, a) {
      OnlyFlatten(i, s.aligner.side);
      Regroup(i, s.log.processed, Flatten(s.aligner.side), s.queue, s.aligner.side[i], InHand(s, i));
    }
  }

  /** Two runs of distinct records commute only if one is empty. */
  lemma {:induction false} SwapNeedsEmpty(p: seq<Record>, a: seq<Record>, b: seq<Record>, t: seq<Record>)
    requires forall j, k :: 0 <= j < k < |p + (a + b) + t| ==> (p + (a + b) + t)[j] != (p + (a + b) + t)[k]
    ensures a != [] && b != [] ==> p + (a + b) + t != p + (b + a) + t
  {
    if a != [] && b != [] {
      var w := p + (a + b) + t;
      assert w[|p|] == a[0] && w[|p| + |a|] == b[0];
      assert (p + (b + a) + t)[|p|] == b[0];
    }
  }

  lemma {:induction false} DataInBelow(stream: seq<Msg>, i: int, upto: nat)
    requires upto <= |stream|
    ensures forall k :: 0 <= k < |DataIn(stream, i, upto)| ==> DataIn(stream, i, upto)[k].pos < upto
    ensures forall j, k :: 0 <= j < k < |DataIn(stream, i, upto)| ==>
      DataIn(stream, i, upto)[j] != DataIn(stream, i, upto)[k]
  {
    if upto > 0 {
      DataInBelow(stream, i, upto - 1);
    }
  }

  lemma {:induction false} InputKeepsOrderIff(s: State, a: Action, i: nat)
    requires ChainOk(s) && Enabled(s, a) && Releases(a) && HasInput(s, i) && Trail(s, i) == Read(s, i)
    requires |s.aligner.side| == s.aligner.numInputs && Tagged(s.aligner.side)
    ensures HasInput(Next(s, a), i)
    ensures Trail(Next(s, a), i) == Read(Next(s, a), i) <==>
              (Matches(s, a) ==> s.aligner.side[i] == [] || Only(i, s.queue) == [])
  {
    TrailRelease(s, a, i);
    ReadStep(s, a, i);
    assert Read(s, i) + [] == Read(s, i);
    if Matches(s, a) {
      DataInBelow(s.cfg.streams[i], i, s.readers[i].next);
      SwapKeepsIff(Read(s, i), Only(i, s.log.processed), Only(i, s.queue), s.aligner.side[i], InHand(s, i));
    }
  }

  lemma {:induction false} SwapKeepsIff(read: seq<Record>, p: seq<Record>, a: seq<Record>, b: seq<Record>,
                                        t: seq<Record>)
    requires read == p + (a + b) + t && forall j, k :: 0 <= j < k < |read| ==> read[j] != read[k]
    ensures p + (b + a) + t == read <==> b == [] || a == []
  {
    SwapNeedsEmpty(p, a, b, t);
    assert a == [] || b == [] ==> a + b == b + a;
  }

  /**
    The exact condition for a release to keep stream order: no input whose buffer is handed
    over may have queued records.
   */
  lemma {:induction false} ReleaseKeepsOrderIffClean(s: State, a: Action)
    requires Inv(s) && Enabled(s, a) && Releases(a) && InOrder(s)
    ensures InOrder(Next(s, a)) <==> Clean(s, a)
  {
    forall i | 0 <= i < |s.cfg.streams|
      ensures HasInput(Next(s, a), i)
      ensures Trail(Next(s, a), i) == Read(Next(s, a), i) <==>
              (Matches(s, a) ==> s.aligner.side[i] == [] || Only(i, s.queue) == [])
    {
      InputKeepsOrderIff(s, a, i);
    }
    CfgConstant(s, a);
  }

  lemma {:induction false} OrderStep(s: State, a: Action)
    requires Inv(s) && Enabled(s, a) && !Releases(a) && InOrder(s)
    ensures InOrder(Next(s, a))
  {
    CfgConstant(s, a);
    forall i | 0 <= i < |s.cfg.streams|
      ensures HasInput(Next(s, a), i) && Trail(Next(s, a), i) == Read(Next(s, a), i)
    {
      TrailStep(s, a, i);
      ReadStep(s, a, i);
    }
  }

  lemma {:induction false} SwapSame(p: seq<Record>, a: seq<Record>, b: seq<Record>, t: seq<Record>)
    ensures multiset(p + (a + b) + t) == multiset(p + (b + a) + t)
  {
  }

  lemma {:induction false} ReleaseConserves(s: State, a: Action, i: nat)
    requires ChainOk(s) && Enabled(s, a) && HasInput(s, i) && Releases(a)
    requires |s.aligner.side| == s.aligner.numInputs && Tagged(s.aligner.side)
    ensures HasInput(Next(s, a), i) && multiset(Trail(Next(s, a), i)) == multiset(Trail(s, i))
  {
    TrailRelease(s, a, i);
    if Matches(s, a) {
      SwapSame(Only(i, s.log.processed), Only(i, s.queue), s.aligner.side[i], InHand(s, i));
    }
  }

  lemma {:induction false} InputConserved(s: State, a: Action, i: nat)
    requires InputsOk(s) && ChainOk(s) && Enabled(s, a) && HasInput(s, i)
    requires multiset(Trail(s, i)) == multiset(Read(s, i))
    ensures HasInput(Next(s, a), i) && multiset(Trail(Next(s, a), i)) == multiset(Read(Next(s, a), i))
  {
    if Releases(a) {
      ReleaseConserves(s, a, i);
    } else {
      TrailStep(s, a, i);
    }
    ReadStep(s, a, i);
  }

  lemma {:induction false} ConservedStep(s: State, a: Action)
    requires Inv(s) && Enabled(s, a) && Conserved(s)
    ensures Conserved(Next(s, a))
  {
    CfgConstant(s, a);
    forall i | 0 <= i < |s.cfg.streams|
      ensures HasInput(Next(s, a), i) && multiset(Trail(Next(s, a), i)) == multiset(Read(Next(s, a), i))
    {
      InputConserved(s, a, i);
    }
  }

  // ---------------------------------------------------------------- snapshots

  /** A snapshot holds, of every input, exactly the records before that input's barrier. */
  ghost predicate CutExact(cfg: Config, snap: Snapshot) {
    forall i :: 0 <= i < |cfg.streams| ==>
      && i in snap.marks && snap.marks[i] < |cfg.streams[i]| && cfg.streams[i][snap.marks[i]] == Barrier(snap.b)
      && multiset(Only(i, snap.processed)) == multiset(DataIn(cfg.streams[i], i, snap.marks[i]))
  }

  /** ... and processed them in stream order. */
  ghost predicate CutInOrder(cfg: Config, snap: Snapshot) {
    forall i :: 0 <= i < |cfg.streams| ==>
      && i in snap.marks && snap.marks[i] < |cfg.streams[i]|
      && Only(i, snap.processed) == DataIn(cfg.streams[i], i, snap.marks[i])
  }

  lemma {:induction false} CaptureInput(s: State, i: nat)
    requires InputsOk(s) && ChainOk(s) && s.chain.pc.Capturing? && i < |s.cfg.streams|
    ensures HasInput(s, i) && MarkOk(s, i)
    ensures Trail(s, i) == Only(i, s.log.processed) + s.aligner.side[i]
  {
    assert i in s.aligner.arrived;
    assert ReaderOk(s, i) && MarkOk(s, i);
    assert Held(s.chain) == [];
  }

  /** When the chain captures, the cut it captures is exact. */
  lemma {:induction false} CaptureIsExact(s: State)
    requires Inv(s) && Conserved(s) && s.chain.pc.Capturing?
    ensures CutExact(s.cfg, Snapshot(s.chain.pc.b, s.log.processed, s.marks))
  {
    forall i | 0 <= i < |s.cfg.streams|
      ensures i in s.marks && s.marks[i] < |s.cfg.streams[i]| && s.cfg.streams[i][s.marks[i]] == Barrier(s.chain.pc.b)
      ensures multiset(Only(i, s.log.processed)) == multiset(DataIn(s.cfg.streams[i], i, s.marks[i]))
    {
      CaptureInput(s, i);
      SameWithoutTail(Only(i, s.log.processed), DataIn(s.cfg.streams[i], i, s.marks[i]), s.aligner.side[i]);
    }
  }

  lemma {:induction false} SameWithoutTail(p: seq<Record>, before: seq<Record>, side: seq<Record>)
    ensures multiset(p + side) == multiset(before + side) ==> multiset(p) == multiset(before)
  {
    assert multiset(p) == multiset(p + side) - multiset(side);
    assert multiset(before) == multiset(before + side) - multiset(side);
  }

  lemma {:induction false} CaptureKeepsOrder(s: State)
    requires Inv(s) && InOrder(s) && s.chain.pc.Capturing?
    ensures CutInOrder(s.cfg, Snapshot(s.chain.pc.b, s.log.processed, s.marks))
  {
    forall i | 0 <= i < |s.cfg.streams|
      ensures i in s.marks && s.marks[i] < |s.cfg.streams[i]|
      ensures Only(i, s.log.processed) == DataIn(s.cfg.streams[i], i, s.marks[i])
    {
      CaptureInput(s, i);
      var p, side, before := Only(i, s.log.processed), s.aligner.side[i], DataIn(s.cfg.streams[i], i, s.marks[i]);
      assert p + side == before + side;
      assert |p| == |before|;
      assert p == (p + side)[..|p|] && before == (before + side)[..|p|];
    }
  }

  lemma SnapshotsGrow(s: State, a: Action)
    requires Enabled(s, a)
    ensures Next(s, a).log.snapshots ==
            if a.Capture? && !s.chain.prepared then s.log.snapshots + [Snapshot(s.chain.pc.b, s.log.processed, s.marks)]
            else s.log.snapshots
  {
  }

  // ---------------------------------------------------------------- the forwarded barrier

  ghost predicate SplitsAt(log: Log, k: nat)
    requires k < |log.out|
  {
    log.out[k].OutBarrier? ==>
      exists m :: 0 <= m < |log.snapshots| && log.snapshots[m].b == log.out[k].b
                  && log.snapshots[m].processed == RecordsOf(log.out[..k])
  }

  /** The output is the processed records, and each barrier in it stands exactly at its snapshot's cut. */
  ghost predicate OutputSplit(s: State) {
    && RecordsOf(s.log.out) == s.log.processed
    && (forall k :: 0 <= k < |s.log.out| ==> SplitsAt(s.log, k))
    && (s.chain.pc.Forwarding? ==>
          s.log.snapshots != [] && s.log.snapshots[|s.log.snapshots| - 1].processed == s.log.processed
          && s.log.snapshots[|s.log.snapshots| - 1].b == s.chain.pc.b)
  }

  lemma RecordsAppend(out: seq<Out>, o: Out)
    ensures RecordsOf(out + [o]) == RecordsOf(out) + if o.OutRecord? then [o.r] else []
  {
    assert (out + [o])[..|out|] == out;
  }

  /** Appending to the log leaves earlier barriers where they were. */
  lemma {:induction false} SplitGrows(log: Log, log': Log, k: nat)
    requires k < |log.out| && SplitsAt(log, k)
    requires log.out <= log'.out && log.snapshots <= log'.snapshots
    ensures SplitsAt(log', k)
  {
    assert log'.out[..k] == log.out[..k];
    if log.out[k].OutBarrier? {
      var m :| 0 <= m < |log.snapshots| && log.snapshots[m].b == log.out[k].b
               && log.snapshots[m].processed == RecordsOf(log.out[..k]);
      assert log'.snapshots[m] == log.snapshots[m];
    }
  }

  lemma {:induction false} SplitAfterAppend(s: State, s': State, o: Out)
    requires OutputSplit(s) && s'.log.out == s.log.out + [o] && s'.log.snapshots == s.log.snapshots
    requires o.OutRecord? ==> s'.log.processed == s.log.processed + [o.r]
    requires o.OutBarrier? ==> s'.log.processed == s.log.processed && s.chain.pc == Forwarding(o.b)
    requires !s'.chain.pc.Forwarding?
    ensures OutputSplit(s')
  {
    RecordsAppend(s.log.out, o);
    forall k | 0 <= k < |s'.log.out|
      ensures SplitsAt(s'.log, k)
    {
      if k < |s.log.out| {
        SplitGrows(s.log, s'.log, k);
      } else {
        assert s'.log.out[..k] == s.log.out;
        assert o.OutBarrier? ==> s'.log.snapshots[|s.log.snapshots| - 1].b == o.b;
      }
    }
  }

  lemma {:induction false} SplitKept(s: State, s': State)
    requires OutputSplit(s) && s'.log.out == s.log.out && s'.log.processed == s.log.processed
    requires s.log.snapshots <= s'.log.snapshots
    requires s'.chain.pc.Forwarding? ==>
               || (s'.log == s.log && s'.chain.pc == s.chain.pc)
               || (exists marks ::
                     s'.log.snapshots == s.log.snapshots + [Snapshot(s'.chain.pc.b, s.log.processed, marks)])
    ensures OutputSplit(s')
  {
    forall k | 0 <= k < |s'.log.out|
      ensures SplitsAt(s'.log, k)
    {
      SplitGrows(s.log, s'.log, k);
    }
  }

  lemma {:induction false} SplitQuiet(s: State, a: Action)
    requires OutputSplit(s) && Enabled(s, a)
    requires !a.TakeEvent? && !a.DrainOne? && !a.ReplayOne? && !a.Forward? && !a.Capture?
    ensures OutputSplit(Next(s, a))
  {
    assert Next(s, a).log == s.log;
    assert Next(s, a).chain.pc.Forwarding? ==> Next(s, a).chain.pc == s.chain.pc;
    SplitKept(s, Next(s, a));
  }

  lemma {:induction false} SplitStep(s: State, a: Action)
    requires OutputSplit(s) && Enabled(s, a)
    ensures OutputSplit(Next(s, a))
  {
    match a
    case TakeEvent => SplitAfterAppend(s, TakeHead(s), OutRecord(s.queue[0]));
    case DrainOne => SplitAfterAppend(s, DrainOneStep(s), OutRecord(s.queue[0]));
    case ReplayOne => SplitAfterAppend(s, ReplayOneStep(s), OutRecord(s.chain.pc.rest[0]));
    case Forward =>
      if s.cfg.transactional {
        SplitKept(s, ForwardStep(s));
      } else {
        SplitAfterAppend(s, ForwardStep(s), OutBarrier(s.chain.pc.b));
      }
    case Capture =>
      if !s.chain.prepared {
        assert CaptureStep(s).log.snapshots ==
               s.log.snapshots + [Snapshot(CaptureStep(s).chain.pc.b, s.log.processed, s.marks)];
      }
      SplitKept(s, CaptureStep(s));
    case _ => SplitQuiet(s, a);
  }
}
