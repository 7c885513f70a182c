/** The shape every step keeps: bounds, firing, expiry, separation and the window count. */
module WindowShape {
  import opened Basics
  import opened Windows

  /** Windows of one key never share a start; sessions do not even touch. */
  predicate Spaced(c: Config, a: Window, b: Window) {
    if c.kind == Session then a.end < b.start || b.end < a.start else a.start != b.start
  }

  predicate Spread(c: Config, ws: seq<Window>) {
    forall i, j :: 0 <= i < j < |ws| ==> Spaced(c, ws[i], ws[j])
  }

  /** Fired exactly when the watermark reached the end, and not yet due for purging. */
  predicate Shaped(c: Config, wm: int, w: Window) {
    && w.start < w.end <= MAX_INT64 && wm < c.Deadline(w.end) && (w.fired <==> wm >= w.end) && (w.fired ==> w.emitted)
    && (c.kind != Session ==> WindowEnd(w.start, c.size) == Some(w.end))
  }

  /** Tumbling and sliding windows start on a multiple of their step. */
  predicate OnGrid(c: Config, ws: seq<Window>) {
    c.kind != Session && c.Valid() ==> forall i :: 0 <= i < |ws| ==> ws[i].start % c.Step() == 0
  }

  predicate AllShaped(c: Config, wm: int, ws: seq<Window>) {
    forall i :: 0 <= i < |ws| ==> Shaped(c, wm, ws[i])
  }

  predicate Ascending(ws: seq<Window>) {
    forall i, j :: 0 <= i < j < |ws| ==> ws[i].start < ws[j].start
  }

  predicate ListOk(c: Config, wm: int, ws: seq<Window>) {
    ws != [] && Spread(c, ws) && AllShaped(c, wm, ws) && Ascending(ws) && OnGrid(c, ws)
  }

  ghost predicate StateOk(c: Config, s: State) {
    && (forall key :: key in s.windows ==> ListOk(c, s.watermark, s.windows[key]))
    && s.stats.retained == Count(s.windows) <= c.maxWindows
  }

  // ---------------------------------------------------------------- sorting

  predicate ApartFrom(c: Config, w: Window, ws: seq<Window>) {
    forall i :: 0 <= i < |ws| ==> Spaced(c, w, ws[i])
  }

  lemma {:induction false} InsertMembers(w: Window, ws: seq<Window>)
    ensures var r := InsertByStart(w, ws); multiset(r) == multiset(ws) + multiset{w} && |r| == |ws| + 1
  {
    if ws != [] && w.start > ws[0].start {
      InsertMembers(w, ws[1..]);
      assert ws == [ws[0]] + ws[1..];
    }
  }

  lemma {:induction false} SortMembers(ws: seq<Window>)
    ensures multiset(SortByStart(ws)) == multiset(ws) && |SortByStart(ws)| == |ws|
  {
    if ws != [] {
      SortMembers(ws[1..]);
      InsertMembers(ws[0], SortByStart(ws[1..]));
      assert ws == [ws[0]] + ws[1..];
    }
  }

  lemma SameMembers(a: seq<Window>, b: seq<Window>, i: nat) returns (j: nat)
    requires multiset(a) == multiset(b) && i < |b|
    ensures j < |a| && a[j] == b[i]
  {
    assert b[i] in multiset(b);
    j :| 0 <= j < |a| && a[j] == b[i];
  }

  lemma SpreadCons(c: Config, w: Window, ws: seq<Window>)
    ensures Spread(c, [w] + ws) <==> ApartFrom(c, w, ws) && Spread(c, ws)
  {
    var r := [w] + ws;
    if Spread(c, r) {
      forall i | 0 <= i < |ws| ensures Spaced(c, w, ws[i]) {
        assert Spaced(c, r[0], r[i + 1]);
      }
      forall i, j | 0 <= i < j < |ws| ensures Spaced(c, ws[i], ws[j]) {
        assert Spaced(c, r[i + 1], r[j + 1]);
      }
    }
  }

  lemma {:induction false} InsertSpread(c: Config, w: Window, ws: seq<Window>)
    requires Spread(c, ws) && ApartFrom(c, w, ws)
    ensures Spread(c, InsertByStart(w, ws))
  {
    if ws == [] || w.start <= ws[0].start {
      SpreadCons(c, w, ws);
    } else {
      var tail := ws[1..];
      assert ws == [ws[0]] + tail;
      SpreadCons(c, ws[0], tail);
      InsertSpread(c, w, tail);
      InsertMembers(w, tail);
      var inner := InsertByStart(w, tail);
      forall j | 0 <= j < |inner| ensures Spaced(c, ws[0], inner[j]) {
        var k := SameMembers(tail + [w], inner, j);
      }
      SpreadCons(c, ws[0], inner);
    }
  }

  /** Non-decreasing starts; with distinct starts, strictly ascending. */
  predicate Rising(ws: seq<Window>) {
    forall i :: 0 < i < |ws| ==> ws[i - 1].start <= ws[i].start
  }

  lemma {:induction false} InsertRises(w: Window, ws: seq<Window>)
    requires Rising(ws)
    ensures Rising(InsertByStart(w, ws))
    ensures ws != [] && w.start > ws[0].start ==> InsertByStart(w, ws)[0] == ws[0]
  {
    if ws != [] && w.start > ws[0].start {
      var tail := ws[1..];
      forall i | 0 < i < |tail| ensures tail[i - 1].start <= tail[i].start {
        assert ws[i].start <= ws[i + 1].start;
      }
      InsertRises(w, tail);
      if tail != [] {
        assert ws[0].start <= ws[1].start;
      }
    }
  }

  lemma {:induction false} SortRises(ws: seq<Window>)
    ensures Rising(SortByStart(ws))
  {
    if ws != [] {
      SortRises(ws[1..]);
      InsertRises(ws[0], SortByStart(ws[1..]));
    }
  }

  lemma {:induction false} SortSpread(c: Config, ws: seq<Window>)
    requires Spread(c, ws)
    ensures Spread(c, SortByStart(ws))
  {
    if ws != [] {
      var tail := ws[1..];
      assert ws == [ws[0]] + tail;
      SpreadCons(c, ws[0], tail);
      SortSpread(c, tail);
      SortMembers(tail);
      var sorted := SortByStart(tail);
      forall i | 0 <= i < |sorted| ensures Spaced(c, ws[0], sorted[i]) {
        var j := SameMembers(tail, sorted, i);
      }
      InsertSpread(c, ws[0], sorted);
    }
  }

  lemma {:induction false} RisingAt(ws: seq<Window>, i: nat, j: nat)
    requires Rising(ws) && i <= j < |ws|
    ensures ws[i].start <= ws[j].start
    decreases j
  {
    if i < j {
      RisingAt(ws, i, j - 1);
    }
  }

  lemma SortKeeps(c: Config, wm: int, ws: seq<Window>)
    requires Spread(c, ws) && AllShaped(c, wm, ws)
    ensures var r := SortByStart(ws);
      multiset(r) == multiset(ws) && |r| == |ws| && Spread(c, r) && AllShaped(c, wm, r) && Ascending(r)
  {
    var r := SortByStart(ws);
    SortMembers(ws);
    SortSpread(c, ws);
    SortRises(ws);
    forall i | 0 <= i < |r| ensures Shaped(c, wm, r[i]) {
      var j := SameMembers(ws, r, i);
    }
    forall i, j | 0 <= i < j < |r| ensures r[i].start < r[j].start {
      RisingAt(r, i, j);
      assert Spaced(c, r[i], r[j]) && Shaped(c, wm, r[i]);
    }
  }

  lemma SortKeepsGrid(c: Config, ws: seq<Window>)
    requires OnGrid(c, ws)
    ensures OnGrid(c, SortByStart(ws))
  {
    SortMembers(ws);
    forall i | 0 <= i < |ws| && c.kind != Session && c.Valid() ensures SortByStart(ws)[i].start % c.Step() == 0 {
      var j := SameMembers(ws, SortByStart(ws), i);
    }
  }

  // ---------------------------------------------------------------- placing in aligned windows

  lemma JoinKeepsShape(c: Config, wm: int, w: Window, e: Event)
    requires Shaped(c, wm, w)
    ensures Shaped(c, wm, Joined(wm, w, e))
  {
  }

  lemma FreshIsShaped(c: Config, wm: int, start: int, e: Event)
    requires c.size > 0 && c.kind != Session && start + c.size <= MAX_INT64 && wm < c.Deadline(start + c.size)
    ensures Shaped(c, wm, Joined(wm, Window(start, start + c.size, multiset{}, false, false), e))
  {
  }

  predicate Aligned(c: Config, starts: seq<int>)
    requires c.Valid() && c.kind != Session
  {
    forall i :: 0 <= i < |starts| ==> starts[i] % c.Step() == 0
  }

  predicate Fitting(c: Config, starts: seq<int>) {
    forall i :: 0 <= i < |starts| ==> starts[i] + c.size <= MAX_INT64
  }

  lemma NoSuchStart(c: Config, wm: int, ws: seq<Window>, start: int)
    requires c.kind != Session && AllShaped(c, wm, ws) && Find(ws, start, start + c.size, 0) == |ws|
    ensures forall k :: 0 <= k < |ws| ==> ws[k].start != start
  {
    forall k | 0 <= k < |ws| ensures ws[k].start != start {
      assert Shaped(c, wm, ws[k]);
    }
  }

  lemma PlaceOneGrid(c: Config, wm: int, p: Placed, start: int, end: int, e: Event)
    requires c.Valid() && c.kind != Session && OnGrid(c, p.ws) && start % c.Step() == 0
    ensures OnGrid(c, PlaceOne(c, wm, p, start, end, e).ws)
  {
  }

  lemma {:induction false} PlaceAllGrid(c: Config, wm: int, ws: seq<Window>, starts: seq<int>, k: nat, e: Event)
    requires c.Valid() && c.kind != Session && OnGrid(c, ws) && k <= |starts| && Aligned(c, starts)
    ensures OnGrid(c, PlaceAll(c, wm, ws, starts, k, e).ws)
  {
    if k > 0 {
      PlaceAllGrid(c, wm, ws, starts, k - 1, e);
      PlaceOneGrid(c, wm, PlaceAll(c, wm, ws, starts, k - 1, e), starts[k - 1], starts[k - 1] + c.size, e);
    }
  }

  lemma ReplacedKeeps(c: Config, wm: int, ws: seq<Window>, i: nat, e: Event)
    requires c.kind != Session && Spread(c, ws) && AllShaped(c, wm, ws) && i < |ws|
    ensures Spread(c, ws[i := Joined(wm, ws[i], e)]) && AllShaped(c, wm, ws[i := Joined(wm, ws[i], e)])
  {
    JoinKeepsShape(c, wm, ws[i], e);
  }

  lemma AppendedKeeps(c: Config, wm: int, ws: seq<Window>, w: Window)
    requires Spread(c, ws) && AllShaped(c, wm, ws) && Shaped(c, wm, w) && forall k :: 0 <= k < |ws| ==>
      Spaced(c, ws[k], w)
    ensures Spread(c, ws + [w]) && AllShaped(c, wm, ws + [w])
  {
  }

  lemma PlaceOneKeeps(c: Config, wm: int, p: Placed, start: int, e: Event, r: Placed)
    requires c.size > 0 && c.kind != Session && Spread(c, p.ws) && AllShaped(c, wm, p.ws) && start + c.size <= MAX_INT64
    requires r == PlaceOne(c, wm, p, start, start + c.size, e)
    ensures Spread(c, r.ws) && AllShaped(c, wm, r.ws) && |r.ws| >= |p.ws|
  {
    var end := start + c.size;
    if wm < c.Deadline(end) {
      var i := Find(p.ws, start, end, 0);
      if i < |p.ws| {
        ReplacedKeeps(c, wm, p.ws, i, e);
      } else {
        FreshIsShaped(c, wm, start, e);
        NoSuchStart(c, wm, p.ws, start);
        AppendedKeeps(c, wm, p.ws, Joined(wm, Window(start, end, multiset{}, false, false), e));
      }
    }
  }

  lemma {:induction false} PlaceAllKeeps(c: Config, wm: int, ws: seq<Window>, starts: seq<int>, k: nat, e: Event)
    requires c.size > 0 && c.kind != Session && Spread(c, ws) && AllShaped(c, wm, ws) && k <= |starts|
    requires Fitting(c, starts)
    ensures var r := PlaceAll(c, wm, ws, starts, k, e);
      Spread(c, r.ws) && AllShaped(c, wm, r.ws) && |r.ws| >= |ws|
  {
    PlaceFirstKeeps(c, wm, ws, starts, k, e, PlaceAll(c, wm, ws, starts, k, e));
  }

  lemma {:induction false} PlaceFirstKeeps(c: Config, wm: int, ws: seq<Window>, starts: seq<int>, k: nat, e: Event,
                                           r: Placed)
    requires c.size > 0 && c.kind != Session && Spread(c, ws) && AllShaped(c, wm, ws) && k <= |starts|
    requires Fitting(c, starts)
    requires r == PlaceAll(c, wm, ws, starts, k, e)
    ensures Spread(c, r.ws) && AllShaped(c, wm, r.ws) && |r.ws| >= |ws|
    decreases k
  {
    if k > 0 {
      var p := PlaceAll(c, wm, ws, starts, k - 1, e);
      PlaceFirstKeeps(c, wm, ws, starts, k - 1, e, p);
      PlaceNextKeeps(c, wm, ws, starts, k, e, p, r);
    }
  }

  lemma PlaceNextKeeps(c: Config, wm: int, ws: seq<Window>, starts: seq<int>, k: nat, e: Event, p: Placed, r: Placed)
    requires c.size > 0 && c.kind != Session && 0 < k <= |starts| && Fitting(c, starts)
    requires p == PlaceAll(c, wm, ws, starts, k - 1, e) && r == PlaceAll(c, wm, ws, starts, k, e)
    requires Spread(c, p.ws) && AllShaped(c, wm, p.ws)
    ensures Spread(c, r.ws) && AllShaped(c, wm, r.ws) && |r.ws| >= |p.ws|
  {
    PlaceOneKeeps(c, wm, p, starts[k - 1], e, r);
  }

  // ---------------------------------------------------------------- merging sessions

  lemma {:induction false} PassMember(next: seq<Window>, k: nat, m: Window, i: nat) returns (j: nat)
    requires k <= |next| && i < |Pass(next, k, m).rest|
    ensures j < k && Pass(next, k, m).rest[i] == next[j]
  {
    var before := Pass(next, k - 1, m);
    if i < |before.rest| {
      j := PassMember(next, k - 1, m, i);
    } else {
      j := k - 1;
    }
  }

  lemma {:induction false} PassSpread(c: Config, next: seq<Window>, k: nat, m: Window)
    requires Spread(c, next) && k <= |next|
    ensures Spread(c, Pass(next, k, m).rest)
  {
    if k > 0 {
      PassSpread(c, next, k - 1, m);
      var before := Pass(next, k - 1, m);
      forall i | 0 <= i < |before.rest| ensures Spaced(c, before.rest[i], next[k - 1]) {
        var j := PassMember(next, k - 1, m, i);
      }
    }
  }

  predicate EndsFit(ws: seq<Window>) {
    forall i :: 0 <= i < |ws| ==> ws[i].end <= MAX_INT64
  }

  lemma {:induction false} PassGrows(next: seq<Window>, k: nat, m: Window)
    requires k <= |next|
    ensures var p := Pass(next, k, m);
      |p.rest| <= k && p.w.start <= m.start && p.w.end >= m.end && p.w.fired == m.fired
    ensures EndsFit(next) && m.end <= MAX_INT64 ==> Pass(next, k, m).w.end <= MAX_INT64
  {
    if k > 0 {
      PassGrows(next, k - 1, m);
    }
  }

  /** A pass that merged nothing met no window touching the session. */
  lemma {:induction false} PassIdle(next: seq<Window>, k: nat, m: Window, i: nat)
    requires k <= |next| && |Pass(next, k, m).rest| == k
    ensures Pass(next, k, m).w == m && (i < k ==> !Touches(next[i], m))
  {
    if k > 0 {
      PassGrows(next, k - 1, m);
      PassIdle(next, k - 1, m, i);
    }
  }

  /** The merge loop stops at a session that touches none of the others. */
  lemma {:induction false} MergeKeeps(c: Config, wm: int, next: seq<Window>, m: Window)
    requires c.kind == Session && Spread(c, next) && AllShaped(c, wm, next) && m.end <= MAX_INT64
    ensures var r := MergeLoop(next, m);
      && Spread(c, r.rest) && AllShaped(c, wm, r.rest) && ApartFrom(c, r.w, r.rest)
      && r.w.start <= m.start && m.end <= r.w.end <= MAX_INT64 && r.w.fired == m.fired
    decreases |next|
  {
    var p := Pass(next, |next|, m);
    forall i | 0 <= i < |next| ensures next[i].end <= MAX_INT64 {
      assert Shaped(c, wm, next[i]);
    }
    PassGrows(next, |next|, m);
    if |p.rest| < |next| {
      PassSpread(c, next, |next|, m);
      forall i | 0 <= i < |p.rest| ensures Shaped(c, wm, p.rest[i]) {
        var j := PassMember(next, |next|, m, i);
      }
      MergeKeeps(c, wm, p.rest, p.w);
    } else {
      forall i | 0 <= i < |next| ensures Spaced(c, m, next[i]) {
        PassIdle(next, |next|, m, i);
      }
    }
  }

  lemma SessionKeeps(c: Config, wm: int, ws: seq<Window>, e: Event, end: int)
    requires c.gap > 0 && c.kind == Session && Spread(c, ws) && AllShaped(c, wm, ws)
    requires end == e.time + c.gap <= MAX_INT64
    ensures var p := PlaceSession(c, wm, ws, e, end);
      Spread(c, p.ws) && AllShaped(c, wm, p.ws) && (p.ws == [] ==> ws == [])
  {
    var seed := Window(e.time, end, multiset{}, false, false);
    MergeKeeps(c, wm, ws, seed);
    var m := MergeLoop(ws, seed);
    assert forall i :: 0 <= i < |m.rest| ==> Spaced(c, m.w, m.rest[i]);
  }

  // ---------------------------------------------------------------- assignment

  lemma FloorIsAligned(t: int, step: int)
    requires step > 0 && FloorStart(t, step).Some?
    ensures FloorStart(t, step).value == t - t % step && FloorStart(t, step).value % step == 0
  {
    RemainderIsFloor(t, step);
    ModOf(t - t % step, step, t / step, 0);
  }

  lemma RemainderIsFloor(t: int, step: int)
    requires step > 0
    ensures var r := Remainder(t, step); (if r < 0 then r + step else r) == t % step
  {
    if t < 0 {
      var q, r := -t / step, -t % step;
      assert t == step * (-q) - r;
      if r == 0 {
        ModOf(t, step, -q, 0);
      } else {
        assert t == step * (-q - 1) + (step - r);
        ModOf(t, step, -q - 1, step - r);
      }
    }
  }

  lemma StepDown(start: int, step: int)
    requires step > 0 && start % step == 0
    ensures (start - step) % step == 0
  {
    ModOf(start - step, step, start / step - 1, 0);
  }

  /** Assigned starts are aligned and their windows end within 64 bits. */
  lemma {:induction false} AssignFromAligned(c: Config, t: int, start: int)
    requires c.kind != Session && c.Valid() && start % c.Step() == 0 && AssignFrom(c, t, start).Some?
    ensures Aligned(c, AssignFrom(c, t, start).value) && Fitting(c, AssignFrom(c, t, start).value)
    decreases Max(0, start + c.size - t)
  {
    if t < start + c.size && c.kind != Tumbling && start >= MIN_INT64 + c.Step() {
      StepDown(start, c.Step());
      AssignFromAligned(c, t, start - c.Step());
    }
  }

  lemma AssignAligned(c: Config, t: int)
    requires c.kind != Session && c.Valid() && Assign(c, t).Some?
    ensures Aligned(c, Assign(c, t).value) && Fitting(c, Assign(c, t).value)
  {
    FloorIsAligned(t, c.Step());
    AssignFromAligned(c, t, FloorStart(t, c.Step()).value);
  }

  // ---------------------------------------------------------------- whole steps

  lemma ProcessKeyKeeps(c: Config, wm: int, ws: seq<Window>, e: Event)
    requires c.Valid() && Spread(c, ws) && AllShaped(c, wm, ws) && OnGrid(c, ws) && ProcessKey(c, wm, ws, e).Some?
    ensures var p := ProcessKey(c, wm, ws, e).value.p;
      Spread(c, p.ws) && AllShaped(c, wm, p.ws) && OnGrid(c, p.ws) && (p.ws == [] ==> ws == [])
  {
    if c.kind == Session {
      SessionKeeps(c, wm, ws, e, e.time + c.gap);
    } else {
      AssignAligned(c, e.time);
      var starts := Assign(c, e.time).value;
      PlaceAllKeeps(c, wm, ws, starts, |starts|, e);
      PlaceAllGrid(c, wm, ws, starts, |starts|, e);
    }
  }

  lemma ProcessKeeps(c: Config, s: State, e: Event)
    requires c.Valid() && StateOk(c, s) && ProcessStep(c, s, e).Done?
    ensures StateOk(c, ProcessStep(c, s, e).s)
  {
    var existing := Existing(s, e.key);
    ProcessKeyKeeps(c, s.watermark, existing, e);
    var p := ProcessKey(c, s.watermark, existing, e).value.p;
    if p.ws != [] {
      SortedListOk(c, s.watermark, p.ws, SortByStart(p.ws));
      CountPut(s.windows, e.key, SortByStart(p.ws));
    }
  }

  lemma SortedListOk(c: Config, wm: int, ws: seq<Window>, r: seq<Window>)
    requires ws != [] && Spread(c, ws) && AllShaped(c, wm, ws) && OnGrid(c, ws) && r == SortByStart(ws)
    ensures ListOk(c, wm, r) && |r| == |ws|
  {
    SortKeeps(c, wm, ws);
    SortKeepsGrid(c, ws);
  }

  lemma {:induction false} RemainingMember(c: Config, wm: int, ws: seq<Window>, k: nat, i: nat) returns (j: nat)
    requires k <= |ws| && i < |Remaining(c, wm, ws, k)|
    ensures i <= j < k && Remaining(c, wm, ws, k)[i] == Swept(wm, ws[j]) && wm < c.Deadline(ws[j].end)
  {
    if i < |Remaining(c, wm, ws, k - 1)| {
      j := RemainingMember(c, wm, ws, k - 1, i);
    } else {
      j := k - 1;
      RemainingLength(c, wm, ws, k - 1);
    }
  }

  lemma {:induction false} RemainingLength(c: Config, wm: int, ws: seq<Window>, k: nat)
    requires k <= |ws|
    ensures |Remaining(c, wm, ws, k)| <= k
  {
    if k > 0 {
      RemainingLength(c, wm, ws, k - 1);
    }
  }

  lemma SweptShape(c: Config, before: int, wm: int, w: Window)
    requires Shaped(c, before, w) && before <= wm < c.Deadline(w.end)
    ensures Shaped(c, wm, Swept(wm, w))
  {
  }

  lemma {:induction false} RemainingSpread(c: Config, wm: int, ws: seq<Window>, k: nat)
    requires Spread(c, ws) && Ascending(ws) && k <= |ws|
    ensures Spread(c, Remaining(c, wm, ws, k)) && Ascending(Remaining(c, wm, ws, k))
  {
    if k > 0 {
      RemainingSpread(c, wm, ws, k - 1);
      var before := Remaining(c, wm, ws, k - 1);
      forall i | 0 <= i < |before|
        ensures Spaced(c, before[i], Swept(wm, ws[k - 1])) && before[i].start < ws[k - 1].start
      {
        var j := RemainingMember(c, wm, ws, k - 1, i);
        assert Spaced(c, ws[j], ws[k - 1]);
      }
    }
  }

  lemma LeftKeeps(c: Config, before: int, wm: int, ws: seq<Window>)
    requires ListOk(c, before, ws) && before <= wm
    ensures |Left(c, wm, ws)| <= |ws| && (Left(c, wm, ws) != [] ==> ListOk(c, wm, Left(c, wm, ws)))
  {
    RemainingLength(c, wm, ws, |ws|);
    RemainingSpread(c, wm, ws, |ws|);
    forall i | 0 <= i < |Left(c, wm, ws)| ensures Shaped(c, wm, Left(c, wm, ws)[i]) {
      var j := RemainingMember(c, wm, ws, |ws|, i);
      SweptShape(c, before, wm, ws[j]);
    }
    LeftKeepsGrid(c, wm, ws);
  }

  lemma LeftKeepsGrid(c: Config, wm: int, ws: seq<Window>)
    requires OnGrid(c, ws)
    ensures OnGrid(c, Left(c, wm, ws))
  {
    forall i | 0 <= i < |Left(c, wm, ws)| && c.kind != Session && c.Valid()
      ensures Left(c, wm, ws)[i].start % c.Step() == 0
    {
      var j := RemainingMember(c, wm, ws, |ws|, i);
    }
  }

  lemma {:induction false} CountAtMost(few: map<Key, seq<Window>>, many: map<Key, seq<Window>>)
    requires forall key :: key in few ==> key in many && |few[key]| <= |many[key]|
    ensures Count(few) <= Count(many)
    decreases |few|
  {
    if few != map[] {
      var key :| key in few;
      CountWithout(few, key);
      CountWithout(many, key);
      CountAtMost(few - {key}, many - {key});
    }
  }

  lemma AdvanceKeeps(c: Config, s: State, wm: int)
    requires StateOk(c, s)
    ensures StateOk(c, AdvanceStep(c, s, wm))
  {
    if wm > s.watermark {
      var left := LeftOver(c, wm, s.windows);
      forall key | key in left ensures ListOk(c, wm, left[key]) && |left[key]| <= |s.windows[key]| {
        LeftKeeps(c, s.watermark, wm, s.windows[key]);
      }
      CountAtMost(left, s.windows);
    }
  }
}
