/** The processor's counters: every late event is either allowed or dropped. */
module WindowStats {
  import opened Windows
  import opened WindowShape
  import opened WindowRuns
  import opened Watermarks

  /** No gaps between windows. */
  predicate Gapless(c: Config) {
    c.kind == Sliding ==> c.slide <= c.size
  }

  /** Without gaps an assignment is never empty: the window found by rounding down contains the time. */
  lemma AlwaysOffered(c: Config, t: int)
    requires c.Valid() && c.kind != Session && Gapless(c) && Assign(c, t).Some?
    ensures Assign(c, t).value != []
  {
    FloorIsAligned(t, c.Step());
    assert AssignFrom(c, t, t - t % c.Step()).Some?;
  }

  /** Allowed and dropped events are late ones; without gaps they are all of them. */
  predicate Balanced(c: Config, s: State) {
    && s.stats.allowed + s.stats.dropped <= s.stats.late
    && (Gapless(c) ==> s.stats.allowed + s.stats.dropped == s.stats.late)
  }

  lemma ProcessBalances(c: Config, s: State, e: Event)
    requires c.Valid() && StateOk(c, s) && Balanced(c, s) && ProcessStep(c, s, e).Done?
    ensures Balanced(c, ProcessStep(c, s, e).s)
  {
    if s.watermark <= e.time {
      OnTimeIsNeverLate(c, s, e);
    } else if c.kind != Session && Gapless(c) {
      AlwaysOffered(c, e.time);
    }
  }

  /**
    In every run: an event behind the watermark is counted as allowed when some window still takes
    it and as dropped when none of those it is assigned to does; no other event is counted as
    either.  Only gaps between sliding windows leave a late event in neither count.
   */
  lemma {:induction false} LateEventsAreAccounted(c: Config, trace: seq<Trace>, inputs: seq<Input>, k: nat)
    requires c.Valid() && Run(c, trace, inputs) && k < |trace|
    ensures Balanced(c, trace[k].s)
  {
    if k > 0 {
      LateEventsAreAccounted(c, trace, inputs, k - 1);
      ShapeAt(c, trace, inputs, k - 1);
      assert Step(c, trace[k - 1], inputs[k - 1], trace[k]);
      match inputs[k - 1]
      case Deliver(e) =>
        if ProcessStep(c, trace[k - 1].s, e).Done? {
          ProcessBalances(c, trace[k - 1].s, e);
        }
      case Advance(_, _) =>
    }
  }

  // ---------------------------------------------------------------- what each counter counts

  /** Input `k` delivers an event that is processed. */
  predicate Processed(c: Config, trace: seq<Trace>, inputs: seq<Input>, k: nat)
    requires c.Valid()
  {
    k < |inputs| && k < |trace| && inputs[k].Deliver? && ProcessStep(c, trace[k].s, inputs[k].e).Done?
  }

  predicate IsLate(c: Config, trace: seq<Trace>, inputs: seq<Input>, k: nat)
    requires c.Valid()
  {
    Processed(c, trace, inputs, k) && inputs[k].e.time < trace[k].s.watermark
  }

  predicate IsDropped(c: Config, trace: seq<Trace>, inputs: seq<Input>, k: nat)
    requires c.Valid()
  {
    Processed(c, trace, inputs, k) && ProcessStep(c, trace[k].s, inputs[k].e).tooLate
  }

  /** Late, and yet taken by some window: assigned to at least one and not answered as too late. */
  predicate IsAllowed(c: Config, trace: seq<Trace>, inputs: seq<Input>, k: nat)
    requires c.Valid()
  {
    && IsLate(c, trace, inputs, k) && !IsDropped(c, trace, inputs, k)
    && (c.kind == Session || Assign(c, inputs[k].e.time).value != [])
  }

  /** How many of the first `k` inputs are hits. */
  function Hits(hit: nat -> bool, k: nat): nat {
    if k == 0 then 0 else Hits(hit, k - 1) + if hit(k - 1) then 1 else 0
  }

  ghost predicate CountersExact(c: Config, trace: seq<Trace>, inputs: seq<Input>, k: nat)
    requires c.Valid() && k < |trace|
  {
    && trace[k].s.stats.late == Hits((j: nat) => IsLate(c, trace, inputs, j), k)
    && trace[k].s.stats.dropped == Hits((j: nat) => IsDropped(c, trace, inputs, j), k)
    && trace[k].s.stats.allowed == Hits((j: nat) => IsAllowed(c, trace, inputs, j), k)
  }

  lemma {:induction false} CountersStep(c: Config, trace: seq<Trace>, inputs: seq<Input>, k: nat)
    requires c.Valid() && Run(c, trace, inputs) && k < |inputs|
    ensures var a, b := trace[k].s.stats, trace[k + 1].s.stats;
      && b.late == a.late + (if IsLate(c, trace, inputs, k) then 1 else 0)
      && b.dropped == a.dropped + (if IsDropped(c, trace, inputs, k) then 1 else 0)
      && b.allowed == a.allowed + if IsAllowed(c, trace, inputs, k) then 1 else 0
  {
    assert Step(c, trace[k], inputs[k], trace[k + 1]);
  }

  /** In every run each counter is exactly the number of events of its kind. */
  lemma {:induction false} CountersAreExact(c: Config, trace: seq<Trace>, inputs: seq<Input>, k: nat)
    requires c.Valid() && Run(c, trace, inputs) && k < |trace|
    ensures CountersExact(c, trace, inputs, k)
  {
    if k > 0 {
      CountersAreExact(c, trace, inputs, k - 1);
      CountersNext(c, trace, inputs, k - 1);
    }
  }

  lemma {:induction false} CountersNext(c: Config, trace: seq<Trace>, inputs: seq<Input>, k: nat)
    requires c.Valid() && Run(c, trace, inputs) && k < |inputs|
    ensures CountersExact(c, trace, inputs, k) ==> CountersExact(c, trace, inputs, k + 1)
  {
    CountersStep(c, trace, inputs, k);
  }
}
