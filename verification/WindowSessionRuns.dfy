/** Sessions over every run: grouping, conservation and the last report before a purge. */
module WindowSessionRuns {
  import opened Basics
  import opened Windows
  import opened WindowShape
  import opened WindowSessions
  import opened WindowEmission
  import opened WindowRuns

  /** A fired session last reported what it holds. */
  predicate Current(key: Key, w: Window, log: seq<Result>) {
    w.fired ==> Reported(log, key, w.start, w.end, w.acc)
  }

  predicate AllCurrent(key: Key, ws: seq<Window>, log: seq<Result>) {
    forall i :: 0 <= i < |ws| ==> Current(key, ws[i], log)
  }

  ghost predicate SessionsSound(c: Config, t: Trace) {
    forall key: Key :: KeySound(c, key, Existing(t.s, key), t.log)
  }

  ghost predicate KeySound(c: Config, key: Key, ws: seq<Window>, log: seq<Result>) {
    SessionsOk(c, key, ws) && AllCurrent(key, ws, log)
  }

  // ---------------------------------------------------------------- deliveries

  lemma {:induction false} MergeMember(next: seq<Window>, m: Window, i: nat) returns (j: nat)
    requires i < |MergeLoop(next, m).rest|
    ensures j < |next| && MergeLoop(next, m).rest[i] == next[j]
    decreases |next|
  {
    var p := Pass(next, |next|, m);
    if |p.rest| < |next| {
      var k := MergeMember(p.rest, p.w, i);
      j := PassMember(next, |next|, m, k);
    } else {
      j := i;
    }
  }

  lemma JoinedCurrent(wm: int, w: Window, e: Event, log: seq<Result>)
    requires !w.fired
    ensures Current(e.key, Joined(wm, w, e), log + JoinResults(wm, w, e))
  {
    if wm >= w.end {
      OfSnoc(log, Report(e.key, w.(acc := w.acc + multiset{e}), w.emitted), e.key, w.start, w.end);
    }
  }

  lemma ApartCurrent(c: Config, wm: int, w: Window, x: Window, e: Event, log: seq<Result>)
    requires c.kind == Session && Spaced(c, w, x) && x.start < x.end && w.start <= w.end && Current(e.key, x, log)
    ensures Current(e.key, x, log + JoinResults(wm, w, e))
  {
    JoinElsewhere(wm, w, e, log, [], e.key, x.start, x.end);
  }

  lemma RestCurrent(c: Config, wm: int, ws: seq<Window>, seed: Window, e: Event, log: seq<Result>, m: Merged, i: nat)
    requires c.kind == Session && Spread(c, ws) && AllShaped(c, wm, ws) && AllCurrent(e.key, ws, log)
    requires m == MergeLoop(ws, seed) && i < |m.rest| && seed.start <= seed.end <= MAX_INT64
    ensures Current(e.key, m.rest[i], log + JoinResults(wm, m.w, e))
  {
    MergeKeeps(c, wm, ws, seed);
    var j := MergeMember(ws, seed, i);
    assert Shaped(c, wm, ws[j]) && Spaced(c, m.w, m.rest[i]);
    ApartCurrent(c, wm, m.w, m.rest[i], e, log);
  }

  lemma SeedUnfired(c: Config, wm: int, ws: seq<Window>, seed: Window, m: Merged)
    requires c.kind == Session && Spread(c, ws) && AllShaped(c, wm, ws) && m == MergeLoop(ws, seed) && !seed.fired
    requires seed.end <= MAX_INT64
    ensures !m.w.fired
  {
    MergeKeeps(c, wm, ws, seed);
  }

  lemma PlacedCurrent(c: Config, wm: int, ws: seq<Window>, e: Event, log: seq<Result>, p: Placed)
    requires c.kind == Session && c.gap > 0 && Spread(c, ws) && AllShaped(c, wm, ws) && AllCurrent(e.key, ws, log)
    requires p == PlaceSession(c, wm, ws, e, e.time + c.gap) && e.time + c.gap <= MAX_INT64
    ensures AllCurrent(e.key, p.ws, log + p.results)
  {
    var seed := Window(e.time, e.time + c.gap, multiset{}, false, false);
    var m := MergeLoop(ws, seed);
    if wm >= c.Deadline(m.w.end) {
      assert log + [] == log;
    } else {
      SeedUnfired(c, wm, ws, seed, m);
      JoinedCurrent(wm, m.w, e, log);
      forall i | 0 <= i < |m.rest| ensures Current(e.key, m.rest[i], log + p.results) {
        RestCurrent(c, wm, ws, seed, e, log, m, i);
      }
    }
  }

  lemma SortCurrent(key: Key, ws: seq<Window>, log: seq<Result>)
    requires AllCurrent(key, ws, log)
    ensures AllCurrent(key, SortByStart(ws), log)
  {
    SortMembers(ws);
    forall i | 0 <= i < |ws| ensures Current(key, SortByStart(ws)[i], log) {
      var j := SameMembers(ws, SortByStart(ws), i);
    }
  }

  lemma OwnKeySound(c: Config, wm: int, ws: seq<Window>, e: Event, log: seq<Result>, p: Placed)
    requires c.kind == Session && c.gap > 0 && Spread(c, ws) && AllShaped(c, wm, ws) && KeySound(c, e.key, ws, log)
    requires p == PlaceSession(c, wm, ws, e, e.time + c.gap) && e.time + c.gap <= MAX_INT64
    ensures KeySound(c, e.key, SortByStart(p.ws), log + p.results) && KeySound(c, e.key, p.ws, log + p.results)
  {
    PlacedGroups(c, wm, ws, e, p);
    SortSessions(c, e.key, p.ws);
    PlacedCurrent(c, wm, ws, e, log, p);
    SortCurrent(e.key, p.ws, log + p.results);
  }

  lemma ForeignSession(c: Config, wm: int, ws: seq<Window>, e: Event, p: Placed, key: Key, start: int, end: int)
    requires key != e.key && p == PlaceSession(c, wm, ws, e, e.time + c.gap)
    ensures Of(p.results, key, start, end) == []
  {
    var m := MergeLoop(ws, Window(e.time, e.time + c.gap, multiset{}, false, false));
    ForeignJoin(wm, m.w, e, key, start, end);
  }

  lemma ForeignKeySound(c: Config, wm: int, ws: seq<Window>, e: Event, log: seq<Result>, p: Placed, key: Key,
                        own: seq<Window>)
    requires key != e.key && KeySound(c, key, own, log) && p == PlaceSession(c, wm, ws, e, e.time + c.gap)
    ensures KeySound(c, key, own, log + p.results)
  {
    forall i | 0 <= i < |own| ensures Current(key, own[i], log + p.results) {
      assert Current(key, own[i], log);
      ForeignSession(c, wm, ws, e, p, key, own[i].start, own[i].end);
      OfConcat(log, p.results, key, own[i].start, own[i].end);
    }
  }

  lemma DeliverSound(c: Config, t: Trace, e: Event, after: Trace)
    requires c.Valid() && c.kind == Session && StateOk(c, t.s) && SessionsSound(c, t) && Step(c, t, Deliver(e), after)
    ensures SessionsSound(c, after)
  {
    if ProcessStep(c, t.s, e).Done? {
      forall key: Key ensures KeySound(c, key, Existing(after.s, key), after.log) {
        DeliverKeySound(c, t, e, after, key);
      }
    }
  }

  lemma DeliverKeySound(c: Config, t: Trace, e: Event, after: Trace, key: Key)
    requires c.Valid() && c.kind == Session && StateOk(c, t.s) && SessionsSound(c, t) && Step(c, t, Deliver(e), after)
    requires ProcessStep(c, t.s, e).Done?
    ensures KeySound(c, key, Existing(after.s, key), after.log)
  {
    var existing, wm := Existing(t.s, e.key), t.s.watermark;
    var p := PlaceSession(c, wm, existing, e, e.time + c.gap);
    assert ProcessKey(c, wm, existing, e).value.p == p;
    if key == e.key {
      assert KeySound(c, e.key, existing, t.log);
      OwnKeySound(c, wm, existing, e, t.log, p);
      PlacedNotEmpty(c, wm, existing, e, p);
    } else {
      ForeignKeySound(c, wm, existing, e, t.log, p, key, Existing(t.s, key));
    }
  }

  lemma PlacedNotEmpty(c: Config, wm: int, ws: seq<Window>, e: Event, p: Placed)
    requires p == PlaceSession(c, wm, ws, e, e.time + c.gap)
    ensures p.ws == [] ==> ws == []
  {
  }

  // ---------------------------------------------------------------- watermarks

  lemma SweptCurrent(c: Config, key: Key, wm: int, ws: seq<Window>, j: nat, log: seq<Result>, after: seq<Result>)
    requires Ascending(ws) && j < |ws| && Current(key, ws[j], log)
    requires Of(after, key, ws[j].start, ws[j].end) == Of(log + Fired(key, wm, ws, |ws|), key, ws[j].start, ws[j].end)
    ensures Current(key, Swept(wm, ws[j]), after)
  {
    AfterOf(c, key, wm, ws, j, log, log + Fired(key, wm, ws, |ws|));
  }

  lemma KeyFires(t: Trace, wm: int, keys: seq<Key>, key: Key, log: seq<Result>, start: int, end: int)
    requires InKeyOrder(t.s.windows, keys) && key in t.s.windows && log == t.log + AllFired(wm, t.s.windows, keys)
    ensures Of(log, key, start, end)
      == Of(t.log + Fired(key, wm, t.s.windows[key], |t.s.windows[key]|), key, start, end)
  {
    OneKeyFires(wm, t.s.windows, keys, key, start, end);
    OfConcat(t.log, AllFired(wm, t.s.windows, keys), key, start, end);
    OfConcat(t.log, Fired(key, wm, t.s.windows[key], |t.s.windows[key]|), key, start, end);
  }

  lemma LeftSessions(c: Config, key: Key, wm: int, ws: seq<Window>)
    requires SessionsOk(c, key, ws)
    ensures SessionsOk(c, key, Left(c, wm, ws))
  {
    forall i | 0 <= i < |Left(c, wm, ws)| ensures SessionOk(c, key, Left(c, wm, ws)[i]) {
      var j := RemainingMember(c, wm, ws, |ws|, i);
    }
  }

  lemma KeyAdvancesSound(c: Config, t: Trace, wm: int, keys: seq<Key>, key: Key, log: seq<Result>)
    requires StateOk(c, t.s) && SessionsSound(c, t) && InKeyOrder(t.s.windows, keys) && key in t.s.windows
    requires log == t.log + AllFired(wm, t.s.windows, keys)
    ensures KeySound(c, key, Left(c, wm, t.s.windows[key]), log)
  {
    var ws := t.s.windows[key];
    assert KeySound(c, key, Existing(t.s, key), t.log);
    LeftSessions(c, key, wm, ws);
    forall i | 0 <= i < |Left(c, wm, ws)| ensures Current(key, Left(c, wm, ws)[i], log) {
      var j := RemainingMember(c, wm, ws, |ws|, i);
      KeyFires(t, wm, keys, key, log, ws[j].start, ws[j].end);
      SweptCurrent(c, key, wm, ws, j, t.log, log);
    }
  }

  lemma AdvanceSound(c: Config, t: Trace, wm: Time, keys: seq<Key>, after: Trace)
    requires c.Valid() && StateOk(c, t.s) && SessionsSound(c, t) && Step(c, t, Advance(wm, keys), after)
    ensures SessionsSound(c, after)
  {
    if wm > t.s.watermark {
      forall key: Key ensures KeySound(c, key, Existing(after.s, key), after.log) {
        if key in t.s.windows {
          KeyAdvancesSound(c, t, wm, keys, key, after.log);
          assert Existing(after.s, key) == Left(c, wm, t.s.windows[key]);
        }
      }
    }
  }

  lemma FiredBeforePurge(c: Config, t: Trace, wm: Time, keys: seq<Key>, after: Trace, key: Key, j: nat)
    requires c.Valid() && StateOk(c, t.s) && SessionsSound(c, t) && Step(c, t, Advance(wm, keys), after)
    requires wm > t.s.watermark && key in t.s.windows && j < |t.s.windows[key]|
    requires wm >= c.Deadline(t.s.windows[key][j].end)
    ensures var w := t.s.windows[key][j]; Reported(after.log, key, w.start, w.end, w.acc)
  {
    var ws := t.s.windows[key];
    assert KeySound(c, key, Existing(t.s, key), t.log) && Shaped(c, t.s.watermark, ws[j]);
    DeadlineNotEarlier(c, ws[j].end);
    KeyFires(t, wm, keys, key, after.log, ws[j].start, ws[j].end);
    SweptCurrent(c, key, wm, ws, j, t.log, after.log);
  }

  // ---------------------------------------------------------------- accepted and purged events

  /** The event this input adds to the key's sessions: one that was processed and not too late. */
  function Gained(c: Config, s: State, input: Input, key: Key): multiset<Event>
    requires c.Valid()
  {
    if input.Deliver? && input.e.key == key && ProcessStep(c, s, input.e).Done? && !ProcessStep(c, s, input.e).tooLate
    then multiset{input.e} else multiset{}
  }

  /** The events of the key accepted by the first `k` inputs of a run. */
  function AcceptedBy(c: Config, trace: seq<Trace>, inputs: seq<Input>, k: nat, key: Key): multiset<Event>
    requires c.Valid() && k <= |inputs| && k < |trace|
  {
    if k == 0 then multiset{}
    else AcceptedBy(c, trace, inputs, k - 1, key) + Gained(c, trace[k - 1].s, inputs[k - 1], key)
  }

  /** Those of the first `k` windows that a watermark expires. */
  function Expired(c: Config, wm: int, ws: seq<Window>, k: nat): seq<Window>
    requires k <= |ws|
  {
    if k == 0 then []
    else Expired(c, wm, ws, k - 1) + if wm >= c.Deadline(ws[k - 1].end) then [ws[k - 1]] else []
  }

  function Lost(c: Config, s: State, input: Input, key: Key): seq<Window> {
    if input.Advance? && input.wm > s.watermark
    then Expired(c, input.wm, Existing(s, key), |Existing(s, key)|) else []
  }

  /** The sessions of the key purged by the first `k` inputs, in the state they were purged in. */
  function PurgedBy(c: Config, trace: seq<Trace>, inputs: seq<Input>, k: nat, key: Key): seq<Window>
    requires k <= |inputs| && k < |trace|
  {
    if k == 0 then [] else PurgedBy(c, trace, inputs, k - 1, key) + Lost(c, trace[k - 1].s, inputs[k - 1], key)
  }

  lemma {:induction false} UnionConcat(ws: seq<Window>, vs: seq<Window>)
    ensures Union(ws + vs) == Union(ws) + Union(vs)
    decreases |vs|
  {
    if vs == [] {
      assert ws + vs == ws;
    } else {
      var n := |vs| - 1;
      UnionConcat(ws, vs[..n]);
      UnionOneMore(ws, vs[..n], vs[n], vs);
    }
  }

  lemma UnionOneMore(ws: seq<Window>, front: seq<Window>, w: Window, vs: seq<Window>)
    requires vs == front + [w] && Union(ws + front) == Union(ws) + Union(front)
    ensures Union(ws + vs) == Union(ws) + Union(vs)
  {
    UnionSnoc(ws + front, w);
    UnionSnoc(front, w);
    assert ws + vs == ws + front + [w];
    OneSide(Union(ws), Union(front), w.acc);
  }

  /** Sweeping splits the events between the windows that stay and those that go. */
  lemma {:induction false} SweepSplits(c: Config, wm: int, ws: seq<Window>, k: nat)
    requires k <= |ws|
    ensures Union(Remaining(c, wm, ws, k)) + Union(Expired(c, wm, ws, k)) == Union(ws[..k])
  {
    if k > 0 {
      SweepSplits(c, wm, ws, k - 1);
      UnionNext(ws, k - 1);
      UnionSnoc(Remaining(c, wm, ws, k - 1), Swept(wm, ws[k - 1]));
      UnionSnoc(Expired(c, wm, ws, k - 1), ws[k - 1]);
      OneSide(Union(Remaining(c, wm, ws, k - 1)), Union(Expired(c, wm, ws, k - 1)), ws[k - 1].acc);
      assert Remaining(c, wm, ws, k - 1) + [] == Remaining(c, wm, ws, k - 1);
      assert Expired(c, wm, ws, k - 1) + [] == Expired(c, wm, ws, k - 1);
    }
  }

  lemma OneSide(a: multiset<Event>, b: multiset<Event>, x: multiset<Event>)
    ensures a + x + b == a + b + x && a + (b + x) == a + b + x
  {
  }

  lemma DeliverHolds(c: Config, t: Trace, e: Event, after: Trace, key: Key)
    requires c.Valid() && c.kind == Session && Step(c, t, Deliver(e), after)
    ensures Union(Existing(after.s, key)) == Union(Existing(t.s, key)) + Gained(c, t.s, Deliver(e), key)
  {
    if ProcessStep(c, t.s, e).Done? && key == e.key {
      var existing := Existing(t.s, key);
      var p := PlaceSession(c, t.s.watermark, existing, e, e.time + c.gap);
      DoneSession(c, t.s, e, p);
      PlacedHolds(c, t.s.watermark, existing, e, p);
    }
    assert Union(Existing(t.s, key)) + multiset{} == Union(Existing(t.s, key));
  }

  lemma DoneSession(c: Config, s: State, e: Event, p: Placed)
    requires c.Valid() && c.kind == Session && ProcessStep(c, s, e).Done?
    requires p == PlaceSession(c, s.watermark, Existing(s, e.key), e, e.time + c.gap)
    ensures ProcessStep(c, s, e).tooLate <==> p.accepted == 0
    ensures Existing(ProcessStep(c, s, e).s, e.key) == if p.ws == [] then Existing(s, e.key) else SortByStart(p.ws)
  {
    assert ProcessKey(c, s.watermark, Existing(s, e.key), e) == Some(Effect(p, true));
  }

  lemma PlacedHolds(c: Config, wm: int, ws: seq<Window>, e: Event, p: Placed)
    requires p == PlaceSession(c, wm, ws, e, e.time + c.gap)
    ensures p.ws == [] ==> ws == [] && p.accepted == 0
    ensures Union(SortByStart(p.ws)) == if p.accepted == 0 then Union(ws) else Union(ws) + multiset{e}
  {
    SortUnion(p.ws);
    PlacedLength(c, wm, ws, e, p);
    if p.accepted == 0 {
      assert p.ws == ws;
    } else {
      PlacedUnion(c, wm, ws, e, p);
    }
  }

  lemma PlacedLength(c: Config, wm: int, ws: seq<Window>, e: Event, p: Placed)
    requires p == PlaceSession(c, wm, ws, e, e.time + c.gap)
    ensures if p.accepted == 0 then p.ws == ws else p.ws != []
  {
  }

  lemma AdvanceHolds(c: Config, t: Trace, wm: Time, keys: seq<Key>, after: Trace, key: Key)
    requires c.Valid() && Step(c, t, Advance(wm, keys), after)
    ensures Union(Existing(after.s, key)) + Union(Lost(c, t.s, Advance(wm, keys), key)) == Union(Existing(t.s, key))
  {
    var ws := Existing(t.s, key);
    if wm > t.s.watermark {
      SweepSplits(c, wm, ws, |ws|);
      assert ws[..|ws|] == ws;
      assert Existing(after.s, key) == Left(c, wm, ws);
    }
  }

  lemma StepHolds(c: Config, t: Trace, input: Input, after: Trace, key: Key)
    requires c.Valid() && c.kind == Session && Step(c, t, input, after)
    ensures Union(Existing(after.s, key)) + Union(Lost(c, t.s, input, key))
      == Union(Existing(t.s, key)) + Gained(c, t.s, input, key)
  {
    match input
    case Deliver(e) => DeliverHolds(c, t, e, after, key);
    case Advance(wm, keys) => AdvanceHolds(c, t, wm, keys, after, key);
  }

  lemma Balance(held: multiset<Event>, lost: multiset<Event>, before: multiset<Event>, gained: multiset<Event>,
                purged: multiset<Event>, accepted: multiset<Event>)
    requires held + lost == before + gained && before + purged == accepted
    ensures held + (purged + lost) == accepted + gained
  {
    assert held + (purged + lost) == held + lost + purged;
    assert before + gained + purged == before + purged + gained;
  }

  /** The retained and the purged sessions of the key together hold exactly the accepted events. */
  predicate HeldOnce(c: Config, trace: seq<Trace>, inputs: seq<Input>, k: nat, key: Key)
    requires c.Valid() && k <= |inputs| && k < |trace|
  {
    Union(Existing(trace[k].s, key)) + Union(PurgedBy(c, trace, inputs, k, key)) == AcceptedBy(c, trace, inputs, k, key)
  }

  /**
    In every run the retained and the purged sessions of a key together hold exactly the accepted
    events: none is lost and none is counted twice.
   */
  lemma AcceptedEventsAreHeldOnce(c: Config, trace: seq<Trace>, inputs: seq<Input>, k: nat, key: Key)
    requires c.Valid() && c.kind == Session && Run(c, trace, inputs) && k < |trace|
    ensures HeldOnce(c, trace, inputs, k, key)
  {
    HeldInitially(c, trace, inputs, key);
    var i := 0;
    while i < k
      invariant 0 <= i <= k && HeldOnce(c, trace, inputs, i, key)
    {
      HeldNext(c, trace, inputs, i + 1, key);
      i := i + 1;
    }
  }

  lemma HeldInitially(c: Config, trace: seq<Trace>, inputs: seq<Input>, key: Key)
    requires c.Valid() && |trace| > 0 && trace[0].s == Initial()
    ensures HeldOnce(c, trace, inputs, 0, key)
  {
    assert Existing(Initial(), key) == [];
  }

  lemma HeldNext(c: Config, trace: seq<Trace>, inputs: seq<Input>, k: nat, key: Key)
    requires c.Valid() && c.kind == Session && Run(c, trace, inputs) && 0 < k < |trace|
    ensures HeldOnce(c, trace, inputs, k - 1, key) ==> HeldOnce(c, trace, inputs, k, key)
  {
    if HeldOnce(c, trace, inputs, k - 1, key) {
      var t, input, after := trace[k - 1], inputs[k - 1], trace[k];
      StepHolds(c, t, input, after, key);
      var purged, lost := PurgedBy(c, trace, inputs, k - 1, key), Lost(c, t.s, input, key);
      UnionConcat(purged, lost);
      Balance(Union(Existing(after.s, key)), Union(lost), Union(Existing(t.s, key)), Gained(c, t.s, input, key),
              Union(purged), AcceptedBy(c, trace, inputs, k - 1, key));
    }
  }

  // ---------------------------------------------------------------- every run

  lemma StepSound(c: Config, t: Trace, input: Input, after: Trace)
    requires c.Valid() && c.kind == Session && StateOk(c, t.s) && SessionsSound(c, t) && Step(c, t, input, after)
    ensures SessionsSound(c, after)
  {
    match input
    case Deliver(e) => DeliverSound(c, t, e, after);
    case Advance(wm, keys) => AdvanceSound(c, t, wm, keys, after);
  }

  lemma {:induction false} SoundAt(c: Config, trace: seq<Trace>, inputs: seq<Input>, k: nat)
    requires c.Valid() && c.kind == Session && Run(c, trace, inputs) && k < |trace|
    ensures SessionsSound(c, trace[k])
  {
    if k > 0 {
      SoundAt(c, trace, inputs, k - 1);
      ShapeAt(c, trace, inputs, k - 1);
      StepSound(c, trace[k - 1], inputs[k - 1], trace[k]);
    }
  }

  /**
    In every reachable state the sessions of a key are strictly separated, each is the hull of a
    gap-connected set of events of that key, and its accumulator is that set.  Together with the
    purged sessions the accumulators hold exactly the accepted events.
   */
  lemma SessionsAreGroups(c: Config, trace: seq<Trace>, inputs: seq<Input>, k: nat, key: Key, i: nat)
    requires c.Valid() && c.kind == Session && Run(c, trace, inputs) && k < |trace|
    requires key in trace[k].s.windows && i < |trace[k].s.windows[key]|
    ensures SessionOk(c, key, trace[k].s.windows[key][i])
    ensures forall j :: i < j < |trace[k].s.windows[key]| ==>
      trace[k].s.windows[key][i].end < trace[k].s.windows[key][j].start
    ensures HeldOnce(c, trace, inputs, k, key)
  {
    SoundAt(c, trace, inputs, k);
    ShapeAt(c, trace, inputs, k);
    AcceptedEventsAreHeldOnce(c, trace, inputs, k, key);
    var ws := trace[k].s.windows[key];
    assert KeySound(c, key, Existing(trace[k].s, key), trace[k].log);
    assert SessionOk(c, key, ws[i]);
    forall j | i < j < |ws| ensures ws[i].end < ws[j].start {
      assert Spaced(c, ws[i], ws[j]) && Shaped(c, trace[k].s.watermark, ws[i]);
      assert Shaped(c, trace[k].s.watermark, ws[j]);
    }
  }

  lemma SessionsAt(c: Config, trace: seq<Trace>, inputs: seq<Input>, k: nat, key: Key)
    requires c.Valid() && c.kind == Session && Run(c, trace, inputs) && k < |trace|
    ensures Sessions(c, key, Existing(trace[k].s, key)) && AllShaped(c, trace[k].s.watermark, Existing(trace[k].s, key))
  {
    SoundAt(c, trace, inputs, k);
    ShapeAt(c, trace, inputs, k);
    assert KeySound(c, key, Existing(trace[k].s, key), trace[k].log);
  }

  lemma SameRest(a: multiset<Event>, b: multiset<Event>, purged: multiset<Event>)
    requires a + purged == b + purged
    ensures a == b
  {
    assert a == a + purged - purged && b == b + purged - purged;
  }

  /** Windows of the same place in two lists have fired alike. */
  predicate FiredAlike(ws: seq<Window>, vs: seq<Window>) {
    |ws| == |vs| && forall i :: 0 <= i < |ws| ==> ws[i].fired == vs[i].fired
  }

  /**
    Arrival order does not matter: two runs that accepted the same events of a key, and purged the
    same ones, retain the same sessions, however deliveries and watermarks were interleaved in
    each.  At the same watermark the same of them have fired.
   */
  lemma SameEventsSameSessions(c: Config, t1: seq<Trace>, in1: seq<Input>, k1: nat,
                               t2: seq<Trace>, in2: seq<Input>, k2: nat, key: Key)
    requires c.Valid() && c.kind == Session
    requires Run(c, t1, in1) && k1 < |t1| && Run(c, t2, in2) && k2 < |t2|
    requires AcceptedBy(c, t1, in1, k1, key) == AcceptedBy(c, t2, in2, k2, key)
    requires Union(PurgedBy(c, t1, in1, k1, key)) == Union(PurgedBy(c, t2, in2, k2, key))
    ensures SameGroups(Existing(t1[k1].s, key), Existing(t2[k2].s, key))
    ensures t1[k1].s.watermark == t2[k2].s.watermark ==>
      FiredAlike(Existing(t1[k1].s, key), Existing(t2[k2].s, key))
  {
    var ws, vs := Existing(t1[k1].s, key), Existing(t2[k2].s, key);
    SessionsAt(c, t1, in1, k1, key);
    SessionsAt(c, t2, in2, k2, key);
    AcceptedEventsAreHeldOnce(c, t1, in1, k1, key);
    AcceptedEventsAreHeldOnce(c, t2, in2, k2, key);
    SameRest(Union(ws), Union(vs), Union(PurgedBy(c, t1, in1, k1, key)));
    GroupingIsCanonical(c, key, ws, vs);
  }

  lemma {:induction false} ExpiredMember(c: Config, wm: int, ws: seq<Window>, k: nat, w: Window) returns (j: nat)
    requires k <= |ws| && w in Expired(c, wm, ws, k)
    ensures j < k && ws[j] == w && wm >= c.Deadline(w.end)
  {
    if w in Expired(c, wm, ws, k - 1) {
      j := ExpiredMember(c, wm, ws, k - 1, w);
    } else {
      j := k - 1;
    }
  }

  /**
    In every run, a session that input `k` purges is a gap-connected group of accepted events whose
    last report holds exactly its events.
   */
  lemma PurgedSessionWasReported(c: Config, trace: seq<Trace>, inputs: seq<Input>, k: nat, key: Key, w: Window)
    requires c.Valid() && c.kind == Session && Run(c, trace, inputs) && k < |inputs|
    requires w in Lost(c, trace[k].s, inputs[k], key)
    ensures SessionOk(c, key, w) && Reported(trace[k + 1].log, key, w.start, w.end, w.acc)
    ensures w.acc <= AcceptedBy(c, trace, inputs, k, key)
  {
    var t, ws := trace[k], Existing(trace[k].s, key);
    SoundAt(c, trace, inputs, k);
    ShapeAt(c, trace, inputs, k);
    var j := ExpiredMember(c, inputs[k].wm, ws, |ws|, w);
    assert KeySound(c, key, ws, t.log) && SessionOk(c, key, ws[j]);
    FiredBeforePurge(c, t, inputs[k].wm, inputs[k].keys, trace[k + 1], key, j);
    AcceptedEventsAreHeldOnce(c, trace, inputs, k, key);
    PartOfUnion(ws, j);
  }

  // ---------------------------------------------------------------- updates

  predicate Within(w: Window, m: Window) {
    m.start <= w.start && w.end <= m.end
  }

  /** Some session inside the hull has reported before. */
  predicate ReportedWithin(ws: seq<Window>, m: Window) {
    exists i :: 0 <= i < |ws| && ws[i].emitted && Within(ws[i], m)
  }

  lemma {:induction false} PassForgets(next: seq<Window>, k: nat, m: Window, i: nat)
    requires i < k <= |next| && next[i].emitted && !Pass(next, k, m).w.emitted
    ensures next[i] in Pass(next, k, m).rest
  {
    if i < k - 1 {
      PassForgets(next, k - 1, m, i);
    }
  }

  /** A merged session without a report has absorbed no session that had one. */
  lemma {:induction false} MergeForgets(next: seq<Window>, m: Window, i: nat)
    requires i < |next| && next[i].emitted && !MergeLoop(next, m).w.emitted
    ensures next[i] in MergeLoop(next, m).rest
    decreases |next|
  {
    var p := Pass(next, |next|, m);
    if |p.rest| < |next| {
      MergeRemembers(p.rest, p.w);
      PassForgets(next, |next|, m, i);
      var j :| 0 <= j < |p.rest| && p.rest[j] == next[i];
      MergeForgets(p.rest, p.w, j);
    }
  }

  lemma {:induction false} PassRemembers(next: seq<Window>, k: nat, m: Window)
    requires k <= |next|
    ensures m.emitted ==> Pass(next, k, m).w.emitted
  {
    if k > 0 {
      PassRemembers(next, k - 1, m);
    }
  }

  lemma {:induction false} MergeRemembers(next: seq<Window>, m: Window)
    ensures m.emitted ==> MergeLoop(next, m).w.emitted
    decreases |next|
  {
    var p := Pass(next, |next|, m);
    PassRemembers(next, |next|, m);
    if |p.rest| < |next| {
      MergeRemembers(p.rest, p.w);
    }
  }

  /** A merged session with a report has it from a session inside its hull. */
  lemma {:induction false} MergeInvents(all: seq<Window>, next: seq<Window>, m: Window)
    requires (forall i :: 0 <= i < |next| ==> next[i] in all) && (m.emitted ==> ReportedWithin(all, m))
    ensures MergeLoop(next, m).w.emitted ==> ReportedWithin(all, MergeLoop(next, m).w)
    decreases |next|
  {
    var p := Pass(next, |next|, m);
    if |p.rest| < |next| {
      var kept := (w: Window) => w.emitted ==> ReportedWithin(all, w);
      forall j, w | 0 <= j < |next| && kept(w) && Touches(next[j], w) ensures kept(Absorb(w, next[j])) {
        AbsorbInvents(all, w, next[j]);
      }
      PassKeeps(next, |next|, m, kept);
      forall i | 0 <= i < |p.rest| ensures p.rest[i] in all {
        var j := PassMember(next, |next|, m, i);
      }
      MergeInvents(all, p.rest, p.w);
    }
  }

  lemma AbsorbInvents(all: seq<Window>, m: Window, w: Window)
    requires w in all && (m.emitted ==> ReportedWithin(all, m))
    ensures Absorb(m, w).emitted ==> ReportedWithin(all, Absorb(m, w))
  {
    if w.emitted {
      var i :| 0 <= i < |all| && all[i] == w;
      assert Within(all[i], Absorb(m, w));
    } else if m.emitted {
      var i :| 0 <= i < |all| && all[i].emitted && Within(all[i], m);
      assert Within(all[i], Absorb(m, w));
    }
  }

  /** The merged session counts as reported exactly when a session it took in was. */
  lemma MergedReportsExactly(c: Config, wm: int, ws: seq<Window>, seed: Window)
    requires c.kind == Session && Spread(c, ws) && AllShaped(c, wm, ws) && seed.end <= MAX_INT64 && !seed.emitted
    requires seed.start <= seed.end
    ensures var m := MergeLoop(ws, seed).w; m.emitted <==> ReportedWithin(ws, m)
  {
    var m := MergeLoop(ws, seed);
    MergeInvents(ws, ws, seed);
    if !m.w.emitted {
      forall i | 0 <= i < |ws| && ws[i].emitted ensures !Within(ws[i], m.w) {
        MergeForgets(ws, seed, i);
        RestIsOutside(c, wm, ws, seed, ws[i]);
      }
    }
  }

  lemma RestIsOutside(c: Config, wm: int, ws: seq<Window>, seed: Window, w: Window)
    requires c.kind == Session && Spread(c, ws) && AllShaped(c, wm, ws) && seed.start <= seed.end <= MAX_INT64
    requires w in MergeLoop(ws, seed).rest
    ensures !Within(w, MergeLoop(ws, seed).w)
  {
    var m := MergeLoop(ws, seed);
    MergeKeeps(c, wm, ws, seed);
    var j :| 0 <= j < |m.rest| && m.rest[j] == w;
    assert Spaced(c, m.w, m.rest[j]) && Shaped(c, wm, m.rest[j]);
  }

  /** A late event's result is an update exactly when a session inside the merged one had reported before. */
  lemma SessionUpdatesExactly(c: Config, s: State, e: Event)
    requires c.Valid() && c.kind == Session && StateOk(c, s) && ProcessStep(c, s, e).Done?
    ensures var ws := Existing(s, e.key);
      var merged := MergeLoop(ws, Window(e.time, e.time + c.gap, multiset{}, false, false)).w;
      var whole := merged.acc + multiset{e};
      ProcessStep(c, s, e).results ==
        if ProcessStep(c, s, e).tooLate || s.watermark < merged.end then []
        else [Result(e.key, merged.start, merged.end, whole, ReportedWithin(ws, merged))]
  {
    var ws := Existing(s, e.key);
    var seed := Window(e.time, e.time + c.gap, multiset{}, false, false);
    MergedReportsExactly(c, s.watermark, ws, seed);
  }

  lemma {:induction false} PartOfUnion(ws: seq<Window>, j: nat)
    requires j < |ws|
    ensures ws[j].acc <= Union(ws)
  {
    if j < |ws| - 1 {
      PartOfUnion(ws[..|ws| - 1], j);
    }
  }
}
