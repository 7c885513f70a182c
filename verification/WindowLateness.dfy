/**
  Allowed lateness as a time: which events a window still takes, which windows a watermark leaves,
  and what the counters count.
 */
module WindowLateness {
  import opened Basics
  import opened Windows
  import opened WindowShape
  import opened WindowEmission
  import opened WindowRuns
  import opened WindowSessions
  import opened WindowSessionRuns

  /** The watermark has not passed the window's end by the allowed lateness; times stop at the largest one. */
  predicate InTime(c: Config, wm: int, end: int) {
    wm < Min(end + c.lateness, MAX_INT64)
  }

  lemma InTimeIsBeforeDeadline(c: Config, wm: int, end: int)
    ensures InTime(c, wm, end) <==> wm < c.Deadline(end)
  {
  }

  // ---------------------------------------------------------------- aligned windows

  /** The events the window that starts at `start` holds. */
  function HeldAt(c: Config, ws: seq<Window>, start: int): multiset<Event> {
    Target(c, ws, start).acc
  }

  /** In a list of windows with different starts, the one that starts at `start` is found. */
  lemma FoundByStart(c: Config, wm: int, ws: seq<Window>, i: nat)
    requires c.kind != Session && Spread(c, ws) && AllShaped(c, wm, ws) && i < |ws|
    ensures Target(c, ws, ws[i].start) == ws[i]
  {
    assert Shaped(c, wm, ws[i]);
    forall k | 0 <= k < i ensures ws[k].start != ws[i].start {
      assert Spaced(c, ws[k], ws[i]);
    }
  }

  lemma NotFoundByStart(c: Config, ws: seq<Window>, start: int)
    requires !HasStart(ws, start)
    ensures HeldAt(c, ws, start) == multiset{}
  {
  }

  lemma PlaceOneHolds(c: Config, wm: int, p: Placed, start: int, e: Event, r: Placed, at: int)
    requires c.size > 0 && c.kind != Session && Spread(c, p.ws) && AllShaped(c, wm, p.ws) && start + c.size <= MAX_INT64
    requires r == PlaceOne(c, wm, p, start, start + c.size, e)
    ensures HeldAt(c, r.ws, at) ==
      if at == start && InTime(c, wm, start + c.size) then HeldAt(c, p.ws, at) + multiset{e} else HeldAt(c, p.ws, at)
    ensures r.accepted == if InTime(c, wm, start + c.size) then p.accepted + 1 else p.accepted
  {
    InTimeIsBeforeDeadline(c, wm, start + c.size);
    PlaceOneKeeps(c, wm, p, start, e, r);
    if InTime(c, wm, start + c.size) {
      var w := Target(c, p.ws, start);
      var i := PlacedAt(c, wm, p, start, e, r, w);
      FoundByStart(c, wm, r.ws, i);
      if at != start {
        ElsewhereHolds(c, wm, p.ws, i, Joined(wm, w, e), r.ws, at);
      }
    }
  }

  lemma ElsewhereHolds(c: Config, wm: int, ws: seq<Window>, i: nat, w: Window, after: seq<Window>, at: int)
    requires c.kind != Session && Spread(c, ws) && AllShaped(c, wm, ws) && Spread(c, after) && AllShaped(c, wm, after)
    requires PutAt(ws, i, w, after) && at != w.start && (i < |ws| ==> ws[i].start == w.start)
    ensures HeldAt(c, after, at) == HeldAt(c, ws, at)
  {
    if HasStart(ws, at) {
      var j :| 0 <= j < |ws| && ws[j].start == at;
      FoundByStart(c, wm, ws, j);
      FoundByStart(c, wm, after, j);
    } else {
      assert !HasStart(after, at);
      NotFoundByStart(c, ws, at);
      NotFoundByStart(c, after, at);
    }
  }

  /** `at` is among the first `k` starts and its window is in time. */
  predicate TakenAmong(c: Config, wm: int, starts: seq<int>, k: nat, at: int)
    requires k <= |starts|
  {
    at in starts[..k] && InTime(c, wm, at + c.size)
  }

  predicate Different(starts: seq<int>) {
    forall i, j :: 0 <= i < j < |starts| ==> starts[i] != starts[j]
  }

  lemma {:induction false} PlaceAllHolds(c: Config, wm: int, ws: seq<Window>, starts: seq<int>, k: nat, e: Event,
                                         r: Placed, at: int)
    requires c.size > 0 && c.kind != Session && Spread(c, ws) && AllShaped(c, wm, ws) && Fitting(c, starts)
    requires k <= |starts| && Different(starts) && r == PlaceAll(c, wm, ws, starts, k, e)
    ensures HeldAt(c, r.ws, at) ==
      if TakenAmong(c, wm, starts, k, at) then HeldAt(c, ws, at) + multiset{e} else HeldAt(c, ws, at)
    decreases k
  {
    if k > 0 {
      var p := PlaceAll(c, wm, ws, starts, k - 1, e);
      PlaceAllHolds(c, wm, ws, starts, k - 1, e, p, at);
      PlacedSoFar(c, wm, ws, starts, k - 1, e, p);
      PlaceOneHolds(c, wm, p, starts[k - 1], e, r, at);
      TakenOneMore(c, wm, starts, k, at);
    }
  }

  lemma TakenOneMore(c: Config, wm: int, starts: seq<int>, k: nat, at: int)
    requires 0 < k <= |starts| && Different(starts)
    ensures at == starts[k - 1] ==> !TakenAmong(c, wm, starts, k - 1, at)
    ensures at == starts[k - 1] ==> (TakenAmong(c, wm, starts, k, at) <==> InTime(c, wm, at + c.size))
    ensures at != starts[k - 1] ==> (TakenAmong(c, wm, starts, k, at) <==> TakenAmong(c, wm, starts, k - 1, at))
  {
    assert starts[..k] == starts[..k - 1] + [starts[k - 1]];
  }

  lemma {:induction false} PlaceAllAccepts(c: Config, wm: int, ws: seq<Window>, starts: seq<int>, k: nat, e: Event,
                                           r: Placed)
    requires c.size > 0 && c.kind != Session && Spread(c, ws) && AllShaped(c, wm, ws) && Fitting(c, starts)
    requires k <= |starts| && r == PlaceAll(c, wm, ws, starts, k, e)
    ensures r.accepted == 0 <==> forall i :: 0 <= i < k ==> !InTime(c, wm, starts[i] + c.size)
    decreases k
  {
    if k > 0 {
      var p := PlaceAll(c, wm, ws, starts, k - 1, e);
      PlaceAllAccepts(c, wm, ws, starts, k - 1, e, p);
      PlacedSoFar(c, wm, ws, starts, k - 1, e, p);
      PlaceOneHolds(c, wm, p, starts[k - 1], e, r, starts[k - 1]);
    }
  }

  lemma {:induction false} StartsDescend(c: Config, t: int, start: int)
    requires c.kind != Session && c.Valid() && AssignFrom(c, t, start).Some?
    ensures var starts := AssignFrom(c, t, start).value;
      Different(starts) && forall i :: 0 <= i < |starts| ==> starts[i] <= start
    decreases Max(0, start + c.size - t)
  {
    if t < start + c.size && c.kind != Tumbling && start >= MIN_INT64 + c.Step() {
      StartsDescend(c, t, start - c.Step());
    }
  }

  lemma SortHolds(c: Config, wm: int, ws: seq<Window>, at: int)
    requires c.kind != Session && Spread(c, ws) && AllShaped(c, wm, ws)
    ensures HeldAt(c, SortByStart(ws), at) == HeldAt(c, ws, at)
  {
    var sorted := SortByStart(ws);
    SortKeeps(c, wm, ws);
    if HasStart(ws, at) {
      var i :| 0 <= i < |ws| && ws[i].start == at;
      var j := SameMembers(sorted, ws, i);
      FoundByStart(c, wm, ws, i);
      FoundByStart(c, wm, sorted, j);
    } else {
      forall j | 0 <= j < |sorted| ensures sorted[j].start != at {
        var i := SameMembers(ws, sorted, j);
      }
      NotFoundByStart(c, ws, at);
      NotFoundByStart(c, sorted, at);
    }
  }

  lemma ExistingShaped(c: Config, s: State, key: Key)
    requires StateOk(c, s)
    ensures Spread(c, Existing(s, key)) && AllShaped(c, s.watermark, Existing(s, key)) && Ascending(Existing(s, key))
  {
  }

  /**
    An accepted event joins exactly the windows it is assigned to whose end, plus the allowed
    lateness, the watermark has not reached; every other window keeps what it holds.
   */
  lemma WindowsTakeEventsInTime(c: Config, s: State, e: Event, start: int)
    requires c.Valid() && c.kind != Session && StateOk(c, s) && ProcessStep(c, s, e).Done?
    ensures var before, after := Existing(s, e.key), Existing(ProcessStep(c, s, e).s, e.key);
      HeldAt(c, after, start) ==
        if start in Assign(c, e.time).value && InTime(c, s.watermark, start + c.size)
        then HeldAt(c, before, start) + multiset{e} else HeldAt(c, before, start)
  {
    var ws, wm, starts := Existing(s, e.key), s.watermark, Assign(c, e.time).value;
    var p := PlaceAll(c, wm, ws, starts, |starts|, e);
    ExistingShaped(c, s, e.key);
    AssignAligned(c, e.time);
    StartsDescend(c, e.time, FloorStart(e.time, c.Step()).value);
    PlaceAllHolds(c, wm, ws, starts, |starts|, e, p, start);
    PlacedSoFar(c, wm, ws, starts, |starts|, e, p);
    SortHolds(c, wm, p.ws, start);
    assert starts[..|starts|] == starts;
    PlacedNotShorter(c, wm, ws, starts, e, p);
  }

  /** And it is answered as too late exactly when none of the windows it is assigned to is in time. */
  lemma TooLateExactly(c: Config, s: State, e: Event)
    requires c.Valid() && c.kind != Session && StateOk(c, s) && ProcessStep(c, s, e).Done?
    ensures var starts := Assign(c, e.time).value;
      ProcessStep(c, s, e).tooLate <==>
        starts != [] && forall i :: 0 <= i < |starts| ==> !InTime(c, s.watermark, starts[i] + c.size)
  {
    var ws, starts := Existing(s, e.key), Assign(c, e.time).value;
    ExistingShaped(c, s, e.key);
    AssignAligned(c, e.time);
    PlaceAllAccepts(c, s.watermark, ws, starts, |starts|, e, PlaceAll(c, s.watermark, ws, starts, |starts|, e));
  }

  // ---------------------------------------------------------------- sessions

  /** A session takes an event exactly when the end of the merged session is in time. */
  lemma SessionsTakeEventsInTime(c: Config, s: State, e: Event)
    requires c.Valid() && c.kind == Session && StateOk(c, s) && ProcessStep(c, s, e).Done?
    ensures var before, after := Existing(s, e.key), Existing(ProcessStep(c, s, e).s, e.key);
      var merged := MergeLoop(before, Window(e.time, e.time + c.gap, multiset{}, false, false)).w;
      && (ProcessStep(c, s, e).tooLate <==> !InTime(c, s.watermark, merged.end))
      && Union(after) == if InTime(c, s.watermark, merged.end) then Union(before) + multiset{e} else Union(before)
  {
    var ws := Existing(s, e.key);
    var p := PlaceSession(c, s.watermark, ws, e, e.time + c.gap);
    var seed := Window(e.time, e.time + c.gap, multiset{}, false, false);
    InTimeIsBeforeDeadline(c, s.watermark, MergeLoop(ws, seed).w.end);
    DoneSession(c, s, e, p);
    PlacedHolds(c, s.watermark, ws, e, p);
  }

  // ---------------------------------------------------------------- purging

  /** The window is among them, perhaps fired meanwhile. */
  predicate Keeps(ws: seq<Window>, w: Window) {
    exists i :: 0 <= i < |ws| && ws[i].start == w.start && ws[i].end == w.end && ws[i].acc == w.acc
  }

  lemma {:induction false} RemainsInTime(c: Config, wm: int, ws: seq<Window>, k: nat, j: nat)
    requires j < k <= |ws| && InTime(c, wm, ws[j].end)
    ensures Keeps(Remaining(c, wm, ws, k), ws[j])
    decreases k
  {
    InTimeIsBeforeDeadline(c, wm, ws[j].end);
    var r := Remaining(c, wm, ws, k);
    if j == k - 1 {
      assert r[|r| - 1] == Swept(wm, ws[j]);
    } else {
      RemainsInTime(c, wm, ws, k - 1, j);
      var front := Remaining(c, wm, ws, k - 1);
      var i :| 0 <= i < |front| && front[i].start == ws[j].start && front[i].end == ws[j].end
        && front[i].acc == ws[j].acc;
      assert r[i] == front[i];
    }
  }

  /** A watermark keeps exactly the windows, of any kind, whose end plus the lateness it has not reached. */
  lemma WindowsStayInTime(c: Config, s: State, wm: int, key: Key, j: nat)
    requires c.Valid() && StateOk(c, s) && wm > s.watermark && key in s.windows && j < |s.windows[key]|
    ensures Keeps(Existing(AdvanceStep(c, s, wm), key), s.windows[key][j]) <==> InTime(c, wm, s.windows[key][j].end)
  {
    var ws := s.windows[key];
    assert Existing(AdvanceStep(c, s, wm), key) == Left(c, wm, ws);
    if InTime(c, wm, ws[j].end) {
      RemainsInTime(c, wm, ws, |ws|, j);
    } else if Keeps(Left(c, wm, ws), ws[j]) {
      var i :| 0 <= i < |Left(c, wm, ws)| && Left(c, wm, ws)[i].start == ws[j].start;
      var k := RemainingMember(c, wm, ws, |ws|, i);
      InTimeIsBeforeDeadline(c, wm, ws[j].end);
    }
  }

  /** Nothing appears by advancing: what is left was there before. */
  lemma NothingAppears(c: Config, s: State, wm: int, key: Key, i: nat) returns (j: nat)
    requires wm > s.watermark && i < |Existing(AdvanceStep(c, s, wm), key)|
    ensures j < |Existing(s, key)| && Existing(AdvanceStep(c, s, wm), key)[i] == Swept(wm, Existing(s, key)[j])
  {
    var ws := s.windows[key];
    j := RemainingMember(c, wm, ws, |ws|, i);
  }

  // ---------------------------------------------------------------- refusals

  /** Assignment fails exactly when the bounds of the newest window leave the range of times. */
  lemma AssignFailsExactly(c: Config, t: Time)
    requires c.Valid() && c.kind != Session
    ensures Assign(c, t).Some? <==>
      MIN_INT64 <= t - t % c.Step() && t - t % c.Step() + c.size <= MAX_INT64
  {
    RemainderIsFloor(t, c.Step());
    if FloorStart(t, c.Step()).Some? {
      AssignFromFits(c, t, t - t % c.Step());
    }
  }

  lemma {:induction false} AssignFromFits(c: Config, t: int, start: int)
    requires c.Valid() && c.kind != Session
    ensures AssignFrom(c, t, start).Some? <==> start + c.size <= MAX_INT64
    decreases Max(0, start + c.size - t)
  {
    if start + c.size <= MAX_INT64 && t < start + c.size && c.kind != Tumbling && start >= MIN_INT64 + c.Step() {
      AssignFromFits(c, t, start - c.Step());
    }
  }

  /** How many windows the event is assigned to. */
  function Assigned(c: Config, e: Event): nat
    requires c.Valid()
  {
    if c.kind == Session then 1 else if Assign(c, e.time).Some? then |Assign(c, e.time).value| else 0
  }

  lemma {:induction false} PlaceAllGrows(c: Config, wm: int, ws: seq<Window>, starts: seq<int>, k: nat, e: Event)
    requires k <= |starts|
    ensures |PlaceAll(c, wm, ws, starts, k, e).ws| <= |ws| + k
  {
    if k > 0 {
      PlaceAllGrows(c, wm, ws, starts, k - 1, e);
    }
  }

  lemma {:induction false} MergeShrinks(next: seq<Window>, m: Window)
    ensures |MergeLoop(next, m).rest| <= |next|
    decreases |next|
  {
    var p := Pass(next, |next|, m);
    if |p.rest| < |next| {
      MergeShrinks(p.rest, p.w);
    }
  }

  /**
    An event is rejected exactly when its windows' bounds leave the range of times, and turned away
    for want of room only when the limit would be passed; otherwise it is processed.
   */
  lemma RefusedExactly(c: Config, s: State, e: Event)
    requires c.Valid()
    ensures ProcessStep(c, s, e).Rejected? <==>
      if c.kind == Session then e.time + c.gap > MAX_INT64
      else e.time - e.time % c.Step() < MIN_INT64 || e.time - e.time % c.Step() + c.size > MAX_INT64
    ensures ProcessStep(c, s, e).Full? ==> s.stats.retained + Assigned(c, e) > c.maxWindows
  {
    var ws := Existing(s, e.key);
    if c.kind == Session {
      MergeShrinks(ws, Window(e.time, e.time + c.gap, multiset{}, false, false));
    } else {
      AssignFailsExactly(c, e.time);
      if Assign(c, e.time).Some? {
        var starts := Assign(c, e.time).value;
        PlaceAllGrows(c, s.watermark, ws, starts, |starts|, e);
      }
    }
  }

  /** And then the processor keeps to its limit. */
  lemma LimitIsKept(c: Config, s: State, e: Event)
    requires c.Valid() && ProcessStep(c, s, e).Done?
    ensures ProcessStep(c, s, e).s.stats.retained <= c.maxWindows
  {
  }
}
