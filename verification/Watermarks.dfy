/**
  Source watermarks (internal/engine/watermark_strategy.go, source_watermark.go) and what they mean
  for windows: a source whose disorder stays within the configured bound never sends a late event.
 */
module Watermarks {
  import opened Basics
  import opened Windows
  import opened WindowShape
  import opened WindowEmission
  import opened WindowRuns

  const NANOS_PER_MILLI: nat := 1_000_000
  const DEFAULT_MAX_OOO: nat := 5000 * NANOS_PER_MILLI

  /** How many milliseconds an event may be behind. */
  type Bound = t: Time | t >= 0

  /** The strategy object; its field is shared, so an update retries when another one got in between. */
  class BoundedOutOfOrderness {
    const bound: Bound
    var observed: Time

    /** The bound is a duration in nanoseconds; without a positive one the default holds. */
    constructor (maxOOO: Time)
      ensures bound == (if maxOOO <= 0 then DEFAULT_MAX_OOO else maxOOO) / NANOS_PER_MILLI && observed == MIN_INT64
    {
      bound := (if maxOOO <= 0 then DEFAULT_MAX_OOO else maxOOO) / NANOS_PER_MILLI;
      observed := MIN_INT64;
    }

    /** Events are taken to be in order. */
    constructor Monotonic()
      ensures bound == 0 && observed == MIN_INT64
    {
      bound, observed := 0, MIN_INT64;
    }

    /** The latest time that no event within the bound can undercut. */
    method GenerateWatermark() returns (w: Time)
      ensures IsWatermark(bound, observed, w)
    {
      GeneratedIsWatermark(bound, observed, Generate(bound, observed));
      if observed < MIN_INT64 + bound {
        return MIN_INT64;
      }
      return observed - bound;
    }

    /** `rivals` are the values other observers install between the load and the swap. */
    method ObserveEventTime(t: Time, rivals: seq<Time>) returns (ghost met: nat)
      modifies this`observed
      ensures met <= |rivals| && observed == Observed(ObservedAll(old(observed), rivals[..met]), t)
    {
      met := 0;
      var i := 0;
      while true
        invariant i == met <= |rivals| && observed == ObservedAll(old(observed), rivals[..i])
        decreases |rivals| - i
      {
        var cur := observed;
        if t <= cur {
          return;
        }
        if i == |rivals| {
          observed := t;
          return;
        }
        observed := Observed(observed, rivals[i]);
        assert rivals[..i + 1][..i] == rivals[..i];
        i, met := i + 1, met + 1;
        if observed == cur {
          observed := t;
          return;
        }
      }
    }
  }

  function Generate(bound: Bound, observed: Time): Time {
    if observed < MIN_INT64 + bound then MIN_INT64 else observed - bound
  }

  /** An event at this time is at most `bound` older than the observed maximum. */
  predicate Timely(bound: Bound, observed: Time, t: Time) {
    observed - bound <= t
  }

  /** No timely event is before the watermark, and no later watermark would do. */
  ghost predicate IsWatermark(bound: Bound, observed: Time, w: Time) {
    && (forall t: Time :: Timely(bound, observed, t) ==> w <= t)
    && (forall v: Time {:trigger Undercut(bound, observed, v)} :: v > w ==> Undercut(bound, observed, v))
  }

  /** Some timely event is before `v`. */
  ghost predicate Undercut(bound: Bound, observed: Time, v: Time) {
    exists t: Time :: Timely(bound, observed, t) && t < v
  }

  /** The watermarks the source model generates are exactly these. */
  lemma GeneratedIsWatermark(bound: Bound, observed: Time, w: Time)
    ensures IsWatermark(bound, observed, w) <==> w == Generate(bound, observed)
  {
    var g := Generate(bound, observed);
    assert Timely(bound, observed, g);
    forall v: Time | v > g ensures Undercut(bound, observed, v) {
    }
    assert !Undercut(bound, observed, g);
  }

  function Observed(max: Time, t: Time): Time {
    if t > max then t else max
  }

  function ObservedAll(max: Time, ts: seq<Time>): Time {
    if ts == [] then max else Observed(ObservedAll(max, ts[..|ts| - 1]), ts[|ts| - 1])
  }

  // ---------------------------------------------------------------- the source's channel

  datatype Item = Rec(e: Event) | Mark(w: Time)

  /** The source either dispatches a record, then observes it, or a tick emits a boundary that advances. */
  datatype Act = Send(e: Event) | Tick

  datatype Source = Source(observed: Time, last: Time, sent: seq<Item>)

  function Produce(bound: Bound, acts: seq<Act>): Source {
    if acts == [] then Source(MIN_INT64, MIN_INT64, [])
    else
      var before := Produce(bound, acts[..|acts| - 1]);
      match acts[|acts| - 1]
      case Send(e) => Source(Observed(before.observed, e.time), before.last, before.sent + [Rec(e)])
      case Tick =>
        var next := Generate(bound, before.observed);
        if next <= before.last then before else Source(before.observed, next, before.sent + [Mark(next)])
  }

  /** No record is older than an earlier one by more than the bound. */
  predicate BoundedDisorder(bound: Bound, acts: seq<Act>) {
    forall i, j :: 0 <= i < j < |acts| && acts[i].Send? && acts[j].Send? ==> acts[j].e.time >= acts[i].e.time - bound
  }

  /** The observed maximum is some record's time, or nothing was sent. */
  lemma {:induction false} ObservedIsSent(bound: Bound, acts: seq<Act>) returns (i: nat)
    ensures Produce(bound, acts).observed == MIN_INT64
      || (i < |acts| && acts[i].Send? && acts[i].e.time == Produce(bound, acts).observed)
  {
    i := 0;
    if acts != [] {
      var n := |acts| - 1;
      i := ObservedIsSent(bound, acts[..n]);
      if acts[n].Send? && acts[n].e.time > Produce(bound, acts[..n]).observed {
        i := n;
      }
    }
  }

  /** Nothing sent is newer than the observed maximum. */
  lemma {:induction false} SentIsObserved(bound: Bound, acts: seq<Act>, i: nat)
    requires i < |acts| && acts[i].Send?
    ensures acts[i].e.time <= Produce(bound, acts).observed
  {
    var n := |acts| - 1;
    if i < n {
      SentIsObserved(bound, acts[..n], i);
    }
  }

  /** The newest boundary among the items; the smallest time when there is none. */
  function LastMark(sent: seq<Item>): Time {
    if sent == [] then MIN_INT64
    else if sent[|sent| - 1].Mark? then sent[|sent| - 1].w else LastMark(sent[..|sent| - 1])
  }

  lemma {:induction false} LastIsLastMark(bound: Bound, acts: seq<Act>)
    ensures LastMark(Produce(bound, acts).sent) == Produce(bound, acts).last
  {
    if acts != [] {
      var n := |acts| - 1;
      LastIsLastMark(bound, acts[..n]);
      var before, after := Produce(bound, acts[..n]).sent, Produce(bound, acts).sent;
      assert before < after ==> after[..|after| - 1] == before;
    }
  }

  /**
    A tick brings the boundary up to date: the newest boundary sent is then the watermark of
    everything sent, the latest time no event within the bound can undercut.
   */
  lemma TickIsUpToDate(bound: Bound, acts: seq<Act>)
    requires acts != [] && acts[|acts| - 1].Tick?
    ensures IsWatermark(bound, Produce(bound, acts).observed, LastMark(Produce(bound, acts).sent))
  {
    LastIsLastMark(bound, acts);
    LastBelow(bound, acts);
    GeneratedIsWatermark(bound, Produce(bound, acts).observed, Produce(bound, acts).last);
  }

  lemma {:induction false} MarksBelow(bound: Bound, acts: seq<Act>, k: nat)
    requires k < |Produce(bound, acts).sent| && Produce(bound, acts).sent[k].Mark?
    ensures Produce(bound, acts).sent[k].w <= Produce(bound, acts).last <= Generate(bound,
      Produce(bound, acts).observed)
  {
    var n := |acts| - 1;
    var before := Produce(bound, acts[..n]);
    LastBelow(bound, acts);
    if k < |before.sent| {
      MarksBelow(bound, acts[..n], k);
    }
  }

  lemma {:induction false} LastBelow(bound: Bound, acts: seq<Act>)
    ensures Produce(bound, acts).last <= Generate(bound, Produce(bound, acts).observed)
  {
    if acts != [] {
      LastBelow(bound, acts[..|acts| - 1]);
    }
  }

  /** Under bounded disorder every record is at or after every boundary sent before it. */
  lemma {:induction false} RecordsAreOnTime(bound: Bound, acts: seq<Act>, i: nat, j: nat)
    requires BoundedDisorder(bound, acts) && i < j < |Produce(bound, acts).sent|
    requires Produce(bound, acts).sent[i].Mark? && Produce(bound, acts).sent[j].Rec?
    ensures Produce(bound, acts).sent[i].w <= Produce(bound, acts).sent[j].e.time
  {
    var n := |acts| - 1;
    var prefix := acts[..n];
    var before := Produce(bound, prefix);
    if j < |before.sent| {
      assert BoundedDisorder(bound, prefix);
      RecordsAreOnTime(bound, prefix, i, j);
    } else {
      MarksBelow(bound, prefix, i);
      var sent := ObservedIsSent(bound, prefix);
      if before.observed != MIN_INT64 {
        assert acts[sent].e.time == before.observed;
      }
    }
  }

  // ---------------------------------------------------------------- the windows downstream

  /** Every event is delivered at or after the processor's watermark. */
  predicate OnTime(trace: seq<Trace>, inputs: seq<Input>)
    requires |trace| == |inputs| + 1
  {
    forall k :: 0 <= k < |inputs| && inputs[k].Deliver? ==> trace[k].s.watermark <= inputs[k].e.time
  }

  /** The processor consumes the channel in order. */
  predicate Consumes(inputs: seq<Input>, items: seq<Item>) {
    && |inputs| == |items|
    && forall k :: 0 <= k < |items| ==>
         match items[k]
         case Rec(e) => inputs[k] == Deliver(e)
         case Mark(w) => inputs[k].Advance? && inputs[k].wm == w
  }

  /** The watermark is the minimum value or a boundary already consumed. */
  lemma {:induction false} WatermarkIsConsumed(c: Config, trace: seq<Trace>, inputs: seq<Input>, items: seq<Item>,
                                               k: nat) returns (i: nat)
    requires c.Valid() && Run(c, trace, inputs) && Consumes(inputs, items) && k < |trace|
    ensures trace[k].s.watermark == MIN_INT64 || (i < k && items[i].Mark? && items[i].w == trace[k].s.watermark)
  {
    i := 0;
    if k > 0 {
      i := WatermarkIsConsumed(c, trace, inputs, items, k - 1);
      assert Step(c, trace[k - 1], inputs[k - 1], trace[k]);
      if trace[k].s.watermark != trace[k - 1].s.watermark {
        i := k - 1;
      }
    }
  }

  /** Whatever a source within the bound sends reaches the windows on time. */
  lemma BoundedSourceIsOnTime(c: Config, bound: Bound, acts: seq<Act>, trace: seq<Trace>, inputs: seq<Input>)
    requires c.Valid() && BoundedDisorder(bound, acts)
    requires Run(c, trace, inputs) && Consumes(inputs, Produce(bound, acts).sent)
    ensures OnTime(trace, inputs)
  {
    var items := Produce(bound, acts).sent;
    forall k | 0 <= k < |inputs| && inputs[k].Deliver? ensures trace[k].s.watermark <= inputs[k].e.time {
      var i := WatermarkIsConsumed(c, trace, inputs, items, k);
      if trace[k].s.watermark != MIN_INT64 {
        assert items[k].Rec?;
        RecordsAreOnTime(bound, acts, i, k);
      }
    }
  }

  // ---------------------------------------------------------------- on time means never late

  lemma {:induction false} AssignedEndsMax(c: Config, t: int, start: int, i: nat)
    requires c.kind != Session && c.Valid() && AssignFrom(c, t, start).Some? && i < |AssignFrom(c, t, start).value|
    ensures t < AssignFrom(c, t, start).value[i] + c.size <= MAX_INT64
    decreases Max(0, start + c.size - t)
  {
    if i > 0 {
      AssignedEndsMax(c, t, start - c.Step(), i - 1);
    }
  }

  lemma QuietOne(c: Config, wm: int, p: Placed, start: int, e: Event, r: Placed)
    requires c.lateness >= 0 && wm < start + c.size <= MAX_INT64 && r == PlaceOne(c, wm, p, start, start + c.size, e)
    ensures r.results == p.results && r.accepted == p.accepted + 1
  {
    assert p.results + [] == p.results;
  }

  lemma QuietNext(c: Config, wm: int, ws: seq<Window>, starts: seq<int>, k: nat, e: Event, p: Placed, r: Placed)
    requires c.lateness >= 0 && 0 < k <= |starts| && wm < starts[k - 1] + c.size <= MAX_INT64
    requires p == PlaceAll(c, wm, ws, starts, k - 1, e) && r == PlaceAll(c, wm, ws, starts, k, e)
    ensures r.results == p.results && r.accepted == p.accepted + 1
  {
    QuietOne(c, wm, p, starts[k - 1], e, r);
  }

  lemma {:induction false} QuietAll(c: Config, wm: int, ws: seq<Window>, starts: seq<int>, k: nat, e: Event, r: Placed)
    requires c.lateness >= 0 && k <= |starts| && r == PlaceAll(c, wm, ws, starts, k, e)
    requires forall i :: 0 <= i < |starts| ==> wm < starts[i] + c.size <= MAX_INT64
    ensures r.results == [] && r.accepted == k
    decreases k
  {
    if k > 0 {
      var p := PlaceAll(c, wm, ws, starts, k - 1, e);
      QuietAll(c, wm, ws, starts, k - 1, e, p);
      QuietNext(c, wm, ws, starts, k, e, p, r);
    }
  }

  lemma QuietSession(c: Config, wm: int, ws: seq<Window>, e: Event, p: Placed)
    requires c.kind == Session && c.Valid() && Spread(c, ws) && AllShaped(c, wm, ws) && wm <= e.time
    requires e.time + c.gap <= MAX_INT64
    requires p == PlaceSession(c, wm, ws, e, e.time + c.gap)
    ensures p.results == [] && p.accepted == 1
  {
    MergeKeeps(c, wm, ws, Window(e.time, e.time + c.gap, multiset{}, false, false));
  }

  /** An event at or after the watermark is accepted everywhere it is assigned, and reports nothing yet. */
  lemma OnTimeIsNeverLate(c: Config, s: State, e: Event)
    requires c.Valid() && StateOk(c, s) && s.watermark <= e.time && ProcessStep(c, s, e).Done?
    ensures !ProcessStep(c, s, e).tooLate && ProcessStep(c, s, e).results == []
  {
    var existing := Existing(s, e.key);
    if c.kind == Session {
      QuietSession(c, s.watermark, existing, e, ProcessKey(c, s.watermark, existing, e).value.p);
    } else {
      var starts := Assign(c, e.time).value;
      forall i | 0 <= i < |starts| ensures s.watermark < starts[i] + c.size <= MAX_INT64 {
        AssignedEndsMax(c, e.time, FloorStart(e.time, c.Step()).value, i);
      }
      QuietAll(c, s.watermark, existing, starts, |starts|, e, ProcessKey(c, s.watermark, existing, e).value.p);
    }
  }

  /** So no window ever reports an event of a bounded source too late. */
  lemma BoundedSourceIsNeverLate(c: Config, bound: Bound, acts: seq<Act>, trace: seq<Trace>, inputs: seq<Input>, k: nat)
    requires c.Valid() && BoundedDisorder(bound, acts)
    requires Run(c, trace, inputs) && Consumes(inputs, Produce(bound, acts).sent) && k < |inputs| && inputs[k].Deliver?
    requires ProcessStep(c, trace[k].s, inputs[k].e).Done?
    ensures !ProcessStep(c, trace[k].s, inputs[k].e).tooLate
  {
    BoundedSourceIsOnTime(c, bound, acts, trace, inputs);
    ShapeAt(c, trace, inputs, k);
    OnTimeIsNeverLate(c, trace[k].s, inputs[k].e);
  }

  // ---------------------------------------------------------------- one result per window

  predicate NoUpdates(log: seq<Result>) {
    forall i :: 0 <= i < |log| ==> !log[i].update
  }

  lemma {:induction false} FiredFirst(c: Config, key: Key, wm: int, ws: seq<Window>, k: nat, log: seq<Result>,
                                      taken: seq<Acceptance>)
    requires AllTold(c, key, ws, log, taken) && k <= |ws|
    ensures NoUpdates(Fired(key, wm, ws, k))
  {
    if k > 0 {
      FiredFirst(c, key, wm, ws, k - 1, log, taken);
      assert Told(c, key, ws[k - 1], log, taken);
    }
  }

  lemma {:induction false} AllFiredFirst(c: Config, t: Trace, wm: int, keys: seq<Key>)
    requires Accounted(c, t) && forall key :: key in keys ==> key in t.s.windows
    ensures NoUpdates(AllFired(wm, t.s.windows, keys))
  {
    if keys != [] {
      var last := keys[|keys| - 1];
      AllFiredFirst(c, t, wm, keys[..|keys| - 1]);
      assert KeyOk(c, t.s.watermark, last, Existing(t.s, last), t.log, t.taken);
      FiredFirst(c, last, wm, t.s.windows[last], |t.s.windows[last]|, t.log, t.taken);
    }
  }

  lemma QuietStep(c: Config, t: Trace, input: Input, after: Trace)
    requires c.Valid() && c.kind != Session && StateOk(c, t.s) && Accounted(c, t) && Step(c, t, input, after)
    requires NoUpdates(t.log) && (input.Deliver? ==> t.s.watermark <= input.e.time)
    ensures NoUpdates(after.log)
  {
    match input
    case Deliver(e) =>
      if ProcessStep(c, t.s, e).Done? {
        OnTimeIsNeverLate(c, t.s, e);
        assert t.log + [] == t.log;
      }
    case Advance(wm, keys) =>
      AllFiredFirst(c, t, wm, keys);
  }

  lemma {:induction false} OnTimeHasNoUpdates(c: Config, trace: seq<Trace>, inputs: seq<Input>, k: nat)
    requires c.Valid() && c.kind != Session && Run(c, trace, inputs) && OnTime(trace, inputs) && k < |trace|
    ensures NoUpdates(trace[k].log)
  {
    if k > 0 {
      OnTimeHasNoUpdates(c, trace, inputs, k - 1);
      NoUpdatesNext(c, trace, inputs, k);
    }
  }

  lemma NoUpdatesNext(c: Config, trace: seq<Trace>, inputs: seq<Input>, k: nat)
    requires c.Valid() && c.kind != Session && Run(c, trace, inputs) && OnTime(trace, inputs)
    requires 0 < k < |trace| && NoUpdates(trace[k - 1].log)
    ensures NoUpdates(trace[k].log)
  {
    ShapeAt(c, trace, inputs, k - 1);
    AccountedAt(c, trace, inputs, k - 1);
    QuietStep(c, trace[k - 1], inputs[k - 1], trace[k]);
  }

  lemma {:induction false} OfMember(log: seq<Result>, key: Key, start: int, end: int, i: nat)
    requires i < |Of(log, key, start, end)|
    ensures Of(log, key, start, end)[i] in log
  {
    var n := |log| - 1;
    if i < |Of(log[..n], key, start, end)| {
      OfMember(log[..n], key, start, end, i);
    }
  }

  /** With events on time, every purged aligned window has emitted exactly one result: all its events, no update. */
  lemma ExactlyOneResult(c: Config, trace: seq<Trace>, inputs: seq<Input>, k: nat, key: Key, start: int)
    requires c.Valid() && c.kind != Session && Run(c, trace, inputs) && OnTime(trace, inputs) && k < |trace|
    requires TakenBy(trace[k].taken, key, start) != multiset{} && !HasStart(Existing(trace[k].s, key), start)
    ensures Of(trace[k].log, key, start, start + c.size)
      == [Result(key, start, start + c.size, TakenBy(trace[k].taken, key, start), false)]
  {
    var rs := Of(trace[k].log, key, start, start + c.size);
    PurgedInFull(c, trace, inputs, k, key, start);
    FirstThenUpdates(c, trace, inputs, k, key, start);
    OnTimeHasNoUpdates(c, trace, inputs, k);
    if |rs| > 1 {
      OfMember(trace[k].log, key, start, start + c.size, 1);
    }
    OfBounds(trace[k].log, key, start, start + c.size, 0);
    assert rs == [rs[0]];
  }

  lemma {:induction false} OfBounds(log: seq<Result>, key: Key, start: int, end: int, i: nat)
    requires i < |Of(log, key, start, end)|
    ensures var r := Of(log, key, start, end)[i]; r.key == key && r.start == start && r.end == end
  {
    var n := |log| - 1;
    if i < |Of(log[..n], key, start, end)| {
      OfBounds(log[..n], key, start, end, i);
    }
  }
}
