/** Runs of the window processor: emission, purging and what late events may change. */
module WindowRuns {
  import opened Basics
  import opened Windows
  import opened WindowShape
  import opened WindowEmission

  datatype Input = Deliver(e: Event) | Advance(wm: Time, keys: seq<Key>)

  /** The processor with everything it has emitted and accepted so far. */
  datatype Trace = Trace(s: State, log: seq<Result>, taken: seq<Acceptance>)

  function Accepted(c: Config, s: State, e: Event, taken: seq<Acceptance>): seq<Acceptance>
    requires c.Valid()
  {
    if c.kind == Session || Assign(c, e.time) == None then taken
    else TakenAll(c, s.watermark, taken, Assign(c, e.time).value, |Assign(c, e.time).value|, e)
  }

  ghost predicate Step(c: Config, t: Trace, input: Input, after: Trace)
    requires c.Valid()
  {
    match input
    case Deliver(e) =>
      (match ProcessStep(c, t.s, e)
       case Done(s, results, _) => after == Trace(s, t.log + results, Accepted(c, t.s, e, t.taken))
       case _ => after == t)
    case Advance(wm, keys) =>
      && InKeyOrder(t.s.windows, keys)
      && after == Trace(AdvanceStep(c, t.s, wm),
           if wm <= t.s.watermark then t.log else t.log + AllFired(wm, t.s.windows, keys), t.taken)
  }

  ghost predicate Run(c: Config, trace: seq<Trace>, inputs: seq<Input>)
    requires c.Valid()
  {
    && |trace| == |inputs| + 1 && trace[0] == Trace(Initial(), [], [])
    && forall k :: 0 <= k < |inputs| ==> Step(c, trace[k], inputs[k], trace[k + 1])
  }

  ghost predicate Accounted(c: Config, t: Trace) {
    forall key: Key :: KeyOk(c, t.s.watermark, key, Existing(t.s, key), t.log, t.taken)
  }

  // ---------------------------------------------------------------- deliveries

  lemma {:induction false} ForeignTaken(c: Config, wm: int, taken: seq<Acceptance>, starts: seq<int>, k: nat, e: Event,
                                        key: Key, start: int)
    requires k <= |starts| && key != e.key
    ensures TakenBy(TakenAll(c, wm, taken, starts, k, e), key, start) == TakenBy(taken, key, start)
  {
    if k > 0 {
      ForeignTaken(c, wm, taken, starts, k - 1, e, key, start);
      TakenSnoc(TakenAll(c, wm, taken, starts, k - 1, e), Acceptance(e.key, starts[k - 1], e), key, start);
    }
  }

  lemma ForeignJoin(wm: int, w: Window, e: Event, key: Key, start: int, end: int)
    requires key != e.key
    ensures Of(JoinResults(wm, w, e), key, start, end) == []
  {
    if wm >= w.end {
      OfSnoc([], Report(e.key, w.(acc := w.acc + multiset{e}), w.emitted), key, start, end);
      assert [] + [Report(e.key, w.(acc := w.acc + multiset{e}), w.emitted)] == JoinResults(wm, w, e);
    }
  }

  lemma ForeignOne(c: Config, wm: int, p: Placed, start: int, e: Event, r: Placed, key: Key, s: int, end: int)
    requires key != e.key && r == PlaceOne(c, wm, p, start, start + c.size, e) && Of(p.results, key, s, end) == []
    ensures Of(r.results, key, s, end) == []
  {
    if wm < c.Deadline(start + c.size) {
      var w := Target(c, p.ws, start);
      ForeignJoin(wm, w, e, key, s, end);
      OfConcat(p.results, JoinResults(wm, w, e), key, s, end);
    }
  }

  lemma {:induction false} ForeignResults(c: Config, wm: int, ws: seq<Window>, starts: seq<int>, k: nat, e: Event,
                                          p: Placed,
                                          key: Key, s: int, end: int)
    requires k <= |starts| && key != e.key && p == PlaceAll(c, wm, ws, starts, k, e)
    ensures Of(p.results, key, s, end) == []
    decreases k
  {
    if k > 0 {
      var before := PlaceAll(c, wm, ws, starts, k - 1, e);
      ForeignResults(c, wm, ws, starts, k - 1, e, before, key, s, end);
      ForeignOne(c, wm, before, starts[k - 1], e, p, key, s, end);
    }
  }

  lemma ForeignKey(c: Config, wm: int, key: Key, ws: seq<Window>, t: Trace, e: Event, starts: seq<int>,
                   existing: seq<Window>, p: Placed)
    requires key != e.key && KeyOk(c, wm, key, ws, t.log, t.taken)
    requires p == PlaceAll(c, wm, existing, starts, |starts|, e)
    ensures KeyOk(c, wm, key, ws, t.log + p.results, TakenAll(c, wm, t.taken, starts, |starts|, e))
  {
    forall start: int, end: int ensures Of(t.log + p.results, key, start, end) == Of(t.log, key, start, end) {
      ForeignResults(c, wm, existing, starts, |starts|, e, p, key, start, end);
      OfConcat(t.log, p.results, key, start, end);
    }
    forall start: int
      ensures TakenBy(TakenAll(c, wm, t.taken, starts, |starts|, e), key, start) == TakenBy(t.taken, key, start)
    {
      ForeignTaken(c, wm, t.taken, starts, |starts|, e, key, start);
    }
    SameAccount(c, wm, key, ws, t.log, t.taken, t.log + p.results, TakenAll(c, wm, t.taken, starts, |starts|, e));
  }

  lemma OwnKey(c: Config, t: Trace, e: Event, starts: seq<int>, existing: seq<Window>, p: Placed)
    requires c.size > 0 && c.kind != Session && Fitting(c, starts)
    requires Spread(c, existing) && AllShaped(c, t.s.watermark, existing)
    requires KeyOk(c, t.s.watermark, e.key, existing, t.log, t.taken)
    requires p == PlaceAll(c, t.s.watermark, existing, starts, |starts|, e)
    ensures KeyOk(c, t.s.watermark, e.key, SortByStart(p.ws), t.log + p.results,
              TakenAll(c, t.s.watermark, t.taken, starts, |starts|, e))
    ensures KeyOk(c, t.s.watermark, e.key, p.ws, t.log + p.results,
              TakenAll(c, t.s.watermark, t.taken, starts, |starts|, e))
  {
    PlaceAllTells(c, t.s.watermark, existing, starts, |starts|, e, t.log, t.taken, p);
    SortTells(c, t.s.watermark, e.key, p.ws, t.log + p.results,
      TakenAll(c, t.s.watermark, t.taken, starts, |starts|, e));
  }

  lemma DeliverAccounted(c: Config, t: Trace, e: Event, after: Trace)
    requires c.Valid() && c.kind != Session && StateOk(c, t.s) && Accounted(c, t) && Step(c, t, Deliver(e), after)
    ensures Accounted(c, after)
  {
    var existing := Existing(t.s, e.key);
    if ProcessStep(c, t.s, e).Done? {
      AssignAligned(c, e.time);
      var starts := Assign(c, e.time).value;
      var p := PlaceAll(c, t.s.watermark, existing, starts, |starts|, e);
      assert ProcessKey(c, t.s.watermark, existing, e).value.p == p;
      OwnKey(c, t, e, starts, existing, p);
      PlacedNotShorter(c, t.s.watermark, existing, starts, e, p);
      forall key: Key ensures KeyOk(c, after.s.watermark, key, Existing(after.s, key), after.log, after.taken) {
        if key != e.key {
          ForeignKey(c, t.s.watermark, key, Existing(t.s, key), t, e, starts, existing, p);
        }
      }
    }
  }

  lemma PlacedNotShorter(c: Config, wm: int, ws: seq<Window>, starts: seq<int>, e: Event, p: Placed)
    requires c.size > 0 && c.kind != Session && Spread(c, ws) && AllShaped(c, wm, ws) && Fitting(c, starts)
    requires p == PlaceAll(c, wm, ws, starts, |starts|, e)
    ensures |p.ws| >= |ws|
  {
    PlaceAllKeeps(c, wm, ws, starts, |starts|, e);
  }

  // ---------------------------------------------------------------- watermarks

  lemma {:induction false} OtherKeysFire(wm: int, windows: map<Key, seq<Window>>, keys: seq<Key>, key: Key, start: int,
                                         end: int)
    requires (forall k :: k in keys ==> k in windows) && key !in keys
    ensures Of(AllFired(wm, windows, keys), key, start, end) == []
  {
    if keys != [] {
      var n := |keys| - 1;
      OtherKeysFire(wm, windows, keys[..n], key, start, end);
      FiredElsewhere(keys[n], wm, windows[keys[n]], |windows[keys[n]]|, key, start, end);
      OfConcat(AllFired(wm, windows, keys[..n]), Fired(keys[n], wm, windows[keys[n]], |windows[keys[n]]|), key, start,
        end);
    }
  }

  lemma {:induction false} OneKeyFires(wm: int, windows: map<Key, seq<Window>>, keys: seq<Key>, key: Key, start: int,
                                       end: int)
    requires (forall k :: k in keys ==> k in windows) && (forall i, j :: 0 <= i < j < |keys| ==> keys[i] < keys[j])
    requires key in keys
    ensures Of(AllFired(wm, windows, keys), key, start, end)
      == Of(Fired(key, wm, windows[key], |windows[key]|), key, start, end)
  {
    var n := |keys| - 1;
    var last := keys[n];
    OfConcat(AllFired(wm, windows, keys[..n]), Fired(last, wm, windows[last], |windows[last]|), key, start, end);
    if key == last {
      OtherKeysFire(wm, windows, keys[..n], key, start, end);
    } else {
      FiredElsewhere(last, wm, windows[last], |windows[last]|, key, start, end);
      OneKeyFires(wm, windows, keys[..n], key, start, end);
    }
  }

  lemma KeyAdvances(c: Config, t: Trace, wm: int, keys: seq<Key>, key: Key, log: seq<Result>)
    requires c.kind != Session && c.lateness >= 0 && StateOk(c, t.s) && Accounted(c, t) && wm > t.s.watermark
    requires InKeyOrder(t.s.windows, keys) && log == t.log + AllFired(wm, t.s.windows, keys) && key in t.s.windows
    ensures KeyOk(c, wm, key, Left(c, wm, t.s.windows[key]), log, t.taken)
  {
    var ws := t.s.windows[key];
    var own := t.log + Fired(key, wm, ws, |ws|);
    assert KeyOk(c, t.s.watermark, key, Existing(t.s, key), t.log, t.taken);
    AdvanceTells(c, t.s.watermark, wm, key, ws, t.log, own, t.taken);
    forall start: int, end: int ensures Of(log, key, start, end) == Of(own, key, start, end) {
      OneKeyFires(wm, t.s.windows, keys, key, start, end);
      OfConcat(t.log, AllFired(wm, t.s.windows, keys), key, start, end);
      OfConcat(t.log, Fired(key, wm, ws, |ws|), key, start, end);
    }
    SameAccount(c, wm, key, Left(c, wm, ws), own, t.taken, log, t.taken);
  }

  lemma LaterClosed(c: Config, before: int, wm: int, key: Key, log: seq<Result>, taken: seq<Acceptance>)
    requires KeyOk(c, before, key, [], log, taken) && before <= wm
    ensures KeyOk(c, wm, key, [], log, taken)
  {
    forall start: int ensures HasStart([], start) || Closed(c, wm, key, start, log, taken) {
      assert HasStart([], start) || Closed(c, before, key, start, log, taken);
    }
  }

  lemma IdleKeyAdvances(c: Config, t: Trace, wm: int, keys: seq<Key>, key: Key, log: seq<Result>)
    requires Accounted(c, t) && wm > t.s.watermark && key !in t.s.windows
    requires InKeyOrder(t.s.windows, keys) && log == t.log + AllFired(wm, t.s.windows, keys)
    ensures KeyOk(c, wm, key, [], log, t.taken)
  {
    assert KeyOk(c, t.s.watermark, key, Existing(t.s, key), t.log, t.taken);
    LaterClosed(c, t.s.watermark, wm, key, t.log, t.taken);
    forall start: int, end: int ensures Of(log, key, start, end) == Of(t.log, key, start, end) {
      OtherKeysFire(wm, t.s.windows, keys, key, start, end);
      OfConcat(t.log, AllFired(wm, t.s.windows, keys), key, start, end);
    }
    SameAccount(c, wm, key, [], t.log, t.taken, log, t.taken);
  }

  lemma AdvanceAccounted(c: Config, t: Trace, wm: Time, keys: seq<Key>, after: Trace)
    requires c.Valid() && c.kind != Session && StateOk(c, t.s) && Accounted(c, t)
    requires Step(c, t, Advance(wm, keys), after)
    ensures Accounted(c, after)
  {
    if wm > t.s.watermark {
      forall key: Key ensures KeyOk(c, wm, key, Existing(after.s, key), after.log, after.taken) {
        if key in t.s.windows {
          KeyAdvances(c, t, wm, keys, key, after.log);
          assert Existing(after.s, key) == Left(c, wm, t.s.windows[key]);
        } else {
          IdleKeyAdvances(c, t, wm, keys, key, after.log);
        }
      }
    }
  }

  // ---------------------------------------------------------------- every run

  lemma InitialAccounted(c: Config)
    ensures Accounted(c, Trace(Initial(), [], [])) && (c.maxWindows >= 1 ==> StateOk(c, Initial()))
  {
    forall key: Key ensures KeyOk(c, MIN_INT64, key, [], [], []) {
      forall start: int ensures Closed(c, MIN_INT64, key, start, [], []) {
      }
    }
  }

  /** The shape holds in every state of every run. */
  lemma {:induction false} ShapeAt(c: Config, trace: seq<Trace>, inputs: seq<Input>, k: nat)
    requires c.Valid() && Run(c, trace, inputs) && k < |trace|
    ensures StateOk(c, trace[k].s)
  {
    if k == 0 {
      InitialAccounted(c);
    } else {
      ShapeAt(c, trace, inputs, k - 1);
      assert Step(c, trace[k - 1], inputs[k - 1], trace[k]);
      match inputs[k - 1]
      case Deliver(e) =>
        if ProcessStep(c, trace[k - 1].s, e).Done? {
          ProcessKeeps(c, trace[k - 1].s, e);
        }
      case Advance(wm, _) => AdvanceKeeps(c, trace[k - 1].s, wm);
    }
  }

  lemma StepAccounted(c: Config, t: Trace, input: Input, after: Trace)
    requires c.Valid() && c.kind != Session && StateOk(c, t.s) && Accounted(c, t) && Step(c, t, input, after)
    ensures Accounted(c, after)
  {
    match input
    case Deliver(e) => DeliverAccounted(c, t, e, after);
    case Advance(wm, keys) => AdvanceAccounted(c, t, wm, keys, after);
  }

  lemma {:induction false} AccountedAt(c: Config, trace: seq<Trace>, inputs: seq<Input>, k: nat)
    requires c.Valid() && c.kind != Session && Run(c, trace, inputs) && k < |trace|
    ensures Accounted(c, trace[k])
  {
    if k == 0 {
      InitialAccounted(c);
    } else {
      AccountedAt(c, trace, inputs, k - 1);
      AccountedNext(c, trace, inputs, k);
    }
  }

  lemma AccountedNext(c: Config, trace: seq<Trace>, inputs: seq<Input>, k: nat)
    requires c.Valid() && c.kind != Session && Run(c, trace, inputs) && 0 < k < |trace| && Accounted(c, trace[k - 1])
    ensures Accounted(c, trace[k])
  {
    ShapeAt(c, trace, inputs, k - 1);
    StepAccounted(c, trace[k - 1], inputs[k - 1], trace[k]);
  }

  /** An aligned window emits at most one non-update result, before all its updates. */
  lemma FirstThenUpdates(c: Config, trace: seq<Trace>, inputs: seq<Input>, k: nat, key: Key, start: int)
    requires c.Valid() && c.kind != Session && Run(c, trace, inputs) && k < |trace|
    ensures Proper(Of(trace[k].log, key, start, start + c.size))
  {
    AccountedAt(c, trace, inputs, k);
    assert KeyOk(c, trace[k].s.watermark, key, Existing(trace[k].s, key), trace[k].log, trace[k].taken);
    assert ProperAt(c, key, start, trace[k].log);
  }

  /** A window that accepted events and is gone has last reported exactly those events, and is past its deadline. */
  lemma PurgedInFull(c: Config, trace: seq<Trace>, inputs: seq<Input>, k: nat, key: Key, start: int)
    requires c.Valid() && c.kind != Session && Run(c, trace, inputs) && k < |trace|
    requires TakenBy(trace[k].taken, key, start) != multiset{} && !HasStart(Existing(trace[k].s, key), start)
    ensures Reported(trace[k].log, key, start, start + c.size, TakenBy(trace[k].taken, key, start))
    ensures trace[k].s.watermark >= c.Deadline(start + c.size)
  {
    AccountedAt(c, trace, inputs, k);
    assert KeyOk(c, trace[k].s.watermark, key, Existing(trace[k].s, key), trace[k].log, trace[k].taken);
    assert HasStart(Existing(trace[k].s, key), start) || Closed(c, trace[k].s.watermark, key, start, trace[k].log,
      trace[k].taken);
  }

  lemma {:induction false} WatermarksRise(c: Config, trace: seq<Trace>, inputs: seq<Input>, i: nat, j: nat)
    requires c.Valid() && Run(c, trace, inputs) && i <= j < |trace|
    ensures trace[i].s.watermark <= trace[j].s.watermark
    decreases j
  {
    if i < j {
      WatermarksRise(c, trace, inputs, i, j - 1);
      assert Step(c, trace[j - 1], inputs[j - 1], trace[j]);
    }
  }

  /** Once past its deadline a window is never retained again. */
  lemma NeverRecreated(c: Config, trace: seq<Trace>, inputs: seq<Input>, i: nat, j: nat, key: Key, start: int)
    requires c.Valid() && c.kind != Session && Run(c, trace, inputs) && i <= j < |trace|
    requires trace[i].s.watermark >= c.Deadline(start + c.size)
    ensures !HasStart(Existing(trace[j].s, key), start)
  {
    WatermarksRise(c, trace, inputs, i, j);
    ShapeAt(c, trace, inputs, j);
    var ws := Existing(trace[j].s, key);
    forall k | 0 <= k < |ws| ensures ws[k].start != start {
      assert key in trace[j].s.windows && Shaped(c, trace[j].s.watermark, ws[k]);
    }
  }
}
