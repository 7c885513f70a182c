/**
  Barrier alignment of one task (internal/engine/barrier.go).

  `Aligner` is the alignment state as a value, with one function for each call that the
  readers and the operator chain make under the aligner's lock.  The class `BarrierAligner`
  is the lock-protected object itself: lazily allocated side buffers, loops over the inputs
  and in-place resets, each method proved against the function of the same call.
 */
module Alignment {

  /** A checkpoint identity.  The coordinator allocates ids from 1; id 0 means "none". */
  datatype Ident = Ident(id: nat, epoch: nat)

  const NONE := Ident(0, 0)

  /** The order of the retirement mark: epoch first, then id. */
  predicate AtMost(a: Ident, b: Ident) {
    a.epoch < b.epoch || (a.epoch == b.epoch && a.id <= b.id)
  }

  /** What one pass over `BufferAlignedEvent` decides for an event. */
  datatype Verdict = NotAligning | Buffered | Full

  /** What one pass over `WaitForPriorAlignment` decides for a barrier. */
  datatype Gate = Proceed | Skipped | Wait

  /** All buffered events, input by input. */
  function Flatten<E>(side: seq<seq<E>>): seq<E> {
    if side == [] then [] else Flatten(side[..|side| - 1]) + side[|side| - 1]
  }

  predicate Within(inputs: set<int>, n: nat) {
    forall i :: i in inputs ==> 0 <= i < n
  }

  datatype Aligner<E> = Aligner(
    numInputs: nat,
    maxBuffer: nat,
    retired: Ident,
    draining: bool,
    active: Ident,
    arrived: set<int>,
    side: seq<seq<E>>)
  {
    ghost predicate Valid() {
      && |side| == numInputs
      && Within(arrived, numInputs)
      && (active.id == 0 ==> active == NONE && arrived == {})
      && (forall i :: 0 <= i < numInputs && i !in arrived ==> side[i] == [])
      && (forall i :: 0 <= i < numInputs ==> |side[i]| <= maxBuffer)
    }

    predicate Holds(input: int) {
      active.id != 0 && input in arrived
    }

    predicate Accepts(input: int, b: Ident) {
      && !AtMost(b, retired)
      && !draining
      && 0 <= input < numInputs
      && b.id != 0
      && (active.id == 0 || active == b)
    }

    predicate AllAligned(id: nat) {
      id != 0 && active.id == id && |arrived| >= numInputs
    }

    function OnBarrier(input: int, b: Ident): Aligner<E> {
      if Accepts(input, b) then this.(active := b, arrived := arrived + {input}) else this
    }

    function Decide(input: int): Verdict {
      if !Holds(input) then NotAligning
      else if 0 <= input < |side| && |side[input]| < maxBuffer then Buffered
      else Full
    }

    function Buffer(input: int, e: E): Aligner<E>
      requires Decide(input) == Buffered
    {
      this.(side := side[input := side[input] + [e]])
    }

    function GateFor(input: int, id: nat): Gate {
      if active.id == 0 || active.id >= id then Proceed
      else if input !in arrived then Skipped
      else Wait
    }

    function Retire(b: Ident): Aligner<E> {
      if b.id != 0 && !AtMost(b, retired) then this.(retired := b) else this
    }

    /** No alignment in progress and every side buffer empty. */
    function Cleared(): Aligner<E> {
      this.(active := NONE, arrived := {}, side := seq(numInputs, _ => []))
    }

    predicate Finishes(id: nat) {
      active.id == id
    }

    function Finish(id: nat): Aligner<E> {
      if Finishes(id) then Retire(active).Cleared() else this
    }

    function FinishReleases(id: nat): seq<E> {
      if Finishes(id) then Flatten(side) else []
    }

    function Abort(b: Ident): Aligner<E> {
      if active == b then Retire(b).Cleared() else Retire(b)
    }

    function AbortReleases(b: Ident): seq<E> {
      if active == b then Flatten(side) else []
    }

    function BeginDrain(): Aligner<E> {
      this.(draining := true).Cleared()
    }
  }

  lemma {:induction false} CountsEveryInput(arrived: set<int>, n: nat)
    requires Within(arrived, n)
    ensures |arrived| <= n
    ensures |arrived| == n <==> forall i :: 0 <= i < n ==> i in arrived
  {
    if n == 0 {
      assert forall i :: i !in arrived;
      assert arrived == {};
    } else {
      CountsEveryInput(arrived - {n - 1}, n - 1);
      if n - 1 in arrived {
        assert |arrived - {n - 1}| == |arrived| - 1;
      } else {
        assert arrived - {n - 1} == arrived;
      }
    }
  }

  /** `AllAligned` counts arrivals; the count stands for "every input has arrived". */
  lemma AlignedMeansEveryInput<E>(a: Aligner<E>, id: nat)
    requires a.Valid()
    ensures a.AllAligned(id) <==>
              id != 0 && a.active.id == id && forall i :: 0 <= i < a.numInputs ==> i in a.arrived
  {
    CountsEveryInput(a.arrived, a.numInputs);
  }

  /** Retirement only ever moves forward, whatever calls arrive and in whatever order. */
  lemma RetiredOnlyGrows<E>(a: Aligner<E>, b: Ident, c: Ident)
    requires AtMost(c, a.retired)
    ensures AtMost(c, a.Retire(b).retired) && AtMost(c, a.Abort(b).retired)
    ensures AtMost(c, a.Finish(b.id).retired) && AtMost(c, a.BeginDrain().retired)
  {
  }

  /** A retired identity can never start an alignment again: delayed barriers are fenced. */
  lemma AbortFencesBarrier<E>(a: Aligner<E>, b: Ident, input: int, later: Ident)
    requires b.id != 0
    ensures AtMost(b, a.Abort(b).retired)
    ensures AtMost(later, b) ==> !a.Abort(b).Accepts(input, later)
  {
  }

  /** An older alignment is in progress. */
  predicate OlderActive<E>(a: Aligner<E>, id: nat) {
    0 < a.active.id < id
  }

  /**
    An input is held back only by an alignment its barrier has reached: its records while there is
    room for them, and a newer barrier for as long as that alignment lasts.
   */
  lemma HoldsBackExactly<E>(a: Aligner<E>, input: int, id: nat)
    requires a.Valid() && 0 <= input < a.numInputs
    ensures a.GateFor(input, id) == Wait <==> OlderActive(a, id) && input in a.arrived
    ensures a.GateFor(input, id) == Skipped <==> OlderActive(a, id) && input !in a.arrived
    ensures a.Decide(input) == NotAligning <==> input !in a.arrived
    ensures a.Decide(input) == Full <==> input in a.arrived && |a.side[input]| == a.maxBuffer
  {
  }

  lemma AlignerStaysValid<E>(a: Aligner<E>, input: int, b: Ident, id: nat, e: E)
    requires a.Valid()
    ensures a.OnBarrier(input, b).Valid()
    ensures a.Decide(input) == Buffered ==> a.Buffer(input, e).Valid()
    ensures a.Finish(id).Valid() && a.Abort(b).Valid() && a.BeginDrain().Valid()
  {
  }

  /** The table of side buffers an allocation map stands for. */
  ghost function Table<E>(n: nat, buffers: map<int, seq<E>>): seq<seq<E>> {
    seq(n, i requires 0 <= i < n => if i in buffers then buffers[i] else [])
  }

  lemma FlattenNext<E>(side: seq<seq<E>>, k: nat)
    requires k < |side|
    ensures Flatten(side[..k + 1]) == Flatten(side[..k]) + side[k]
  {
    assert side[..k + 1][..k] == side[..k];
  }

  class BarrierAligner<E> {
    const numInputs: nat
    const maxBufferSize: nat
    var retiredID: nat
    var retiredEpoch: nat
    var draining: bool
    var activeID: nat
    var activeEpoch: nat
    var arrived: set<int>
    var sideBuffers: map<int, seq<E>>

    ghost function View(): Aligner<E>
      reads this
    {
      Aligner(numInputs, maxBufferSize, Ident(retiredID, retiredEpoch), draining,
              Ident(activeID, activeEpoch), arrived, Table(numInputs, sideBuffers))
    }

    ghost predicate Valid()
      reads this
    {
      && View().Valid()
      && Within(sideBuffers.Keys, numInputs)
      && arrived <= sideBuffers.Keys
    }

    constructor (numInputs: nat, maxBufferSize: nat)
      ensures Valid()
      ensures View() == Aligner(numInputs, maxBufferSize, NONE, false, NONE, {}, seq(numInputs, _ => []))
    {
      this.numInputs, this.maxBufferSize := numInputs, maxBufferSize;
      retiredID, retiredEpoch, draining := 0, 0, false;
      activeID, activeEpoch, arrived, sideBuffers := 0, 0, {}, map[];
    }

    method OnBarrier(input: int, checkpointID: nat, epochID: nat) returns (aligned: bool)
      requires Valid()
      modifies this
      ensures Valid()
      ensures View() == old(View().OnBarrier(input, Ident(checkpointID, epochID)))
      ensures aligned <==> old(View().Accepts(input, Ident(checkpointID, epochID))) && View().AllAligned(checkpointID)
    {
      if AtMost(Ident(checkpointID, epochID), Ident(retiredID, retiredEpoch)) || draining ||
         input < 0 || input >= numInputs || checkpointID == 0 {
        return false;
      }
      if activeID != 0 && (activeID != checkpointID || activeEpoch != epochID) {
        return false;
      }
      ghost var before := View();
      if activeID == 0 {
        activeID := checkpointID;
        activeEpoch := epochID;
      }
      arrived := arrived + {input};
      if input !in sideBuffers {
        sideBuffers := sideBuffers[input := []];
      }
      assert View().side == before.side;
      return |arrived| >= numInputs;
    }

    /** One pass of the wait loop; `Full` is the pass that goes back to waiting. */
    method BufferAlignedEvent(input: int, event: E) returns (verdict: Verdict)
      requires Valid()
      modifies this
      ensures Valid()
      ensures verdict == old(View().Decide(input))
      ensures View() == if verdict == Buffered then old(View().Buffer(input, event)) else old(View())
    {
      if activeID == 0 || input !in arrived {
        return NotAligning;
      }
      if |sideBuffers[input]| < maxBufferSize {
        ghost var before := View();
        sideBuffers := sideBuffers[input := sideBuffers[input] + [event]];
        assert View().side == before.side[input := before.side[input] + [event]];
        return Buffered;
      }
      return Full;
    }

    method WaitForPriorAlignment(input: int, checkpointID: nat) returns (gate: Gate)
      requires Valid()
      ensures gate == View().GateFor(input, checkpointID)
    {
      if activeID == 0 || activeID >= checkpointID {
        return Proceed;
      }
      if input !in arrived {
        return Skipped;
      }
      return Wait;
    }

    method RetireLocked(id: nat, epoch: nat)
      modifies this
      ensures View() == old(View().Retire(Ident(id, epoch)))
      ensures sideBuffers == old(sideBuffers)
    {
      if id != 0 && !AtMost(Ident(id, epoch), Ident(retiredID, retiredEpoch)) {
        retiredID, retiredEpoch := id, epoch;
      }
    }

    /** The loop shared by finish, abort and drain: collect the buffers in input order, empty them. */
    method TakeBuffers() returns (events: seq<E>)
      requires Valid()
      modifies this`sideBuffers
      ensures events == old(Flatten(View().side))
      ensures Table(numInputs, sideBuffers) == seq(numInputs, _ => [])
      ensures Within(sideBuffers.Keys, numInputs)
    {
      ghost var side := View().side;
      events := [];
      for i := 0 to numInputs
        invariant events == Flatten(side[..i])
        invariant Within(sideBuffers.Keys, numInputs)
        invariant forall k :: i <= k < numInputs ==> Table(numInputs, sideBuffers)[k] == side[k]
        invariant forall k :: 0 <= k < i ==> Table(numInputs, sideBuffers)[k] == []
      {
        FlattenNext(side, i);
        assert Table(numInputs, sideBuffers)[i] == side[i];
        if i in sideBuffers {
          events := events + sideBuffers[i];
        }
        ghost var before := Table(numInputs, sideBuffers);
        sideBuffers := sideBuffers[i := []];
        assert Table(numInputs, sideBuffers) == before[i := []];
      }
      assert side[..numInputs] == side;
    }

    method FinishAlignment(checkpointID: nat) returns (events: seq<E>)
      requires Valid()
      modifies this
      ensures Valid()
      ensures View() == old(View().Finish(checkpointID))
      ensures events == old(View().FinishReleases(checkpointID))
    {
      if activeID != checkpointID {
        return [];
      }
      RetireLocked(activeID, activeEpoch);
      events := TakeBuffers();
      activeID, activeEpoch, arrived := 0, 0, {};
    }

    method AbortAlignment(id: nat, epoch: nat) returns (events: seq<E>)
      requires Valid()
      modifies this
      ensures Valid()
      ensures View() == old(View().Abort(Ident(id, epoch)))
      ensures events == old(View().AbortReleases(Ident(id, epoch)))
    {
      RetireLocked(id, epoch);
      if activeID != id || activeEpoch != epoch {
        return [];
      }
      events := TakeBuffers();
      activeID, activeEpoch, arrived := 0, 0, {};
    }

    method BeginDrain() returns (events: seq<E>)
      requires Valid()
      modifies this
      ensures Valid()
      ensures View() == old(View().BeginDrain())
      ensures events == old(Flatten(View().side))
    {
      draining := true;
      events := TakeBuffers();
      activeID, activeEpoch, arrived := 0, 0, {};
    }
  }
}
