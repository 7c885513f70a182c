/**
  Event-time windows (internal/engine/window_processor.go): tumbling, sliding and session
  assignment, late updates, firing and purging.

  Accumulators are multisets of events, the free commutative monoid: whatever holds of them holds
  of every commutative aggregator.  Times are 64-bit milliseconds with the source's overflow checks.
 */
module Windows {
  import opened Basics

  const MIN_INT64: int := -0x8000_0000_0000_0000
  const MAX_INT64: int := 0x7FFF_FFFF_FFFF_FFFF

  type Time = x: int | MIN_INT64 <= x <= MAX_INT64

  /** Keys in their byte order. */
  type Key = nat

  datatype Event = Event(key: Key, time: Time, id: nat)

  datatype Kind = Tumbling | Sliding | Session

  datatype Config = Config(kind: Kind, size: Time, slide: Time, gap: Time, lateness: Time, maxWindows: nat) {
    /** The constructor's checks (lines 62-92). */
    predicate Valid() {
      && lateness >= 0 && maxWindows >= 1
      && (kind == Tumbling ==> size > 0)
      && (kind == Sliding ==> size > 0 && slide > 0 && (size - 1) / slide + 1 <= maxWindows)
      && (kind == Session ==> gap > 0)
    }

    function Step(): int {
      if kind == Sliding then slide else size
    }

    /** Saturating end + lateness. */
    function Deadline(end: int): int {
      if end > MAX_INT64 - lateness then MAX_INT64 else end + lateness
    }
  }

  datatype Window = Window(start: int, end: int, acc: multiset<Event>, fired: bool, emitted: bool)

  datatype Result = Result(key: Key, start: int, end: int, value: multiset<Event>, update: bool)

  datatype Stats = Stats(late: nat, allowed: nat, dropped: nat, retained: int)

  datatype State = State(watermark: int, windows: map<Key, seq<Window>>, stats: Stats)

  function Initial(): State {
    State(MIN_INT64, map[], Stats(0, 0, 0, 0))
  }

  function Existing(s: State, key: Key): seq<Window> {
    if key in s.windows then s.windows[key] else []
  }

  // ---------------------------------------------------------------- bounds

  function WindowEnd(start: int, duration: int): Option<int> {
    if start > MAX_INT64 - duration then None else Some(start + duration)
  }

  /** The language's remainder takes the sign of the dividend. */
  function Remainder(a: int, b: int): int
    requires b > 0
  {
    if a >= 0 then a % b else -(-a % b)
  }

  function FloorStart(t: int, step: int): Option<int>
    requires step > 0
  {
    var r := Remainder(t, step);
    var r := if r < 0 then r + step else r;
    if t < MIN_INT64 + r then None else Some(t - r)
  }

  /** The starts assigned to time `t`, from `start` downward. */
  function AssignFrom(c: Config, t: int, start: int): Option<seq<int>>
    requires c.kind != Session && c.Valid()
    decreases Max(0, start + c.size - t)
  {
    if WindowEnd(start, c.size) == None then None
    else if t >= start + c.size then Some([])
    else if c.kind == Tumbling || start < MIN_INT64 + c.Step() then Some([start])
    else
      match AssignFrom(c, t, start - c.Step())
      case None => None
      case Some(rest) => Some([start] + rest)
  }

  function Assign(c: Config, t: int): Option<seq<int>>
    requires c.kind != Session && c.Valid()
  {
    match FloorStart(t, c.Step())
    case None => None
    case Some(start) => AssignFrom(c, t, start)
  }

  // ---------------------------------------------------------------- sessions

  predicate Touches(w: Window, m: Window) {
    w.start <= m.end && w.end >= m.start
  }

  function Absorb(m: Window, w: Window): Window {
    Window(Min(m.start, w.start), Max(m.end, w.end), m.acc + w.acc, m.fired, m.emitted || w.emitted)
  }

  datatype Merged = Merged(w: Window, rest: seq<Window>)

  /** One pass of the merge loop over the first `k` windows. */
  function Pass(next: seq<Window>, k: nat, m: Window): Merged
    requires k <= |next|
  {
    if k == 0 then Merged(m, [])
    else
      var before := Pass(next, k - 1, m);
      if Touches(next[k - 1], before.w) then Merged(Absorb(before.w, next[k - 1]), before.rest)
      else Merged(before.w, before.rest + [next[k - 1]])
  }

  /** Passes repeat until one merges nothing. */
  function MergeLoop(next: seq<Window>, m: Window): Merged
    decreases |next|
  {
    var p := Pass(next, |next|, m);
    if |p.rest| < |next| then MergeLoop(p.rest, p.w) else Merged(m, next)
  }

  // ---------------------------------------------------------------- processing an event

  /** The event joins the window; a window whose end has passed reports at once. */
  function Joined(wm: int, w: Window, e: Event): Window {
    var w1 := w.(acc := w.acc + multiset{e});
    if wm >= w.end then w1.(fired := true, emitted := true) else w1
  }

  function Report(key: Key, w: Window, update: bool): Result {
    Result(key, w.start, w.end, w.acc, update)
  }

  function JoinResults(wm: int, w: Window, e: Event): seq<Result> {
    if wm >= w.end then [Report(e.key, w.(acc := w.acc + multiset{e}), w.emitted)] else []
  }

  /** The first window with these bounds at or after `i`, or the length. */
  function Find(ws: seq<Window>, start: int, end: int, i: nat): (r: nat)
    requires i <= |ws|
    ensures i <= r <= |ws|
    ensures r < |ws| ==> ws[r].start == start && ws[r].end == end
    ensures forall k :: i <= k < r ==> ws[k].start != start || ws[k].end != end
    decreases |ws| - i
  {
    if i == |ws| || (ws[i].start == start && ws[i].end == end) then i else Find(ws, start, end, i + 1)
  }

  datatype Placed = Placed(ws: seq<Window>, results: seq<Result>, accepted: nat)

  function PlaceOne(c: Config, wm: int, p: Placed, start: int, end: int, e: Event): Placed {
    if wm >= c.Deadline(end) then p
    else
      var i := Find(p.ws, start, end, 0);
      var w := if i < |p.ws| then p.ws[i] else Window(start, end, multiset{}, false, false);
      Placed(if i < |p.ws| then p.ws[i := Joined(wm, w, e)] else p.ws + [Joined(wm, w, e)],
             p.results + JoinResults(wm, w, e), p.accepted + 1)
  }

  function PlaceAll(c: Config, wm: int, ws: seq<Window>, starts: seq<int>, k: nat, e: Event): Placed
    requires k <= |starts|
  {
    if k == 0 then Placed(ws, [], 0)
    else PlaceOne(c, wm, PlaceAll(c, wm, ws, starts, k - 1, e), starts[k - 1], starts[k - 1] + c.size, e)
  }

  function PlaceSession(c: Config, wm: int, ws: seq<Window>, e: Event, end: int): Placed {
    var m := MergeLoop(ws, Window(e.time, end, multiset{}, false, false));
    if wm >= c.Deadline(m.w.end) then Placed(ws, [], 0)
    else Placed(m.rest + [Joined(wm, m.w, e)], JoinResults(wm, m.w, e), 1)
  }

  /** The effect on one key's windows, and whether the event was assigned to any window at all. */
  datatype Effect = Effect(p: Placed, offered: bool)

  function ProcessKey(c: Config, wm: int, ws: seq<Window>, e: Event): Option<Effect>
    requires c.Valid()
  {
    if c.kind == Session then
      match WindowEnd(e.time, c.gap)
      case None => None
      case Some(end) => Some(Effect(PlaceSession(c, wm, ws, e, end), true))
    else
      match Assign(c, e.time)
      case None => None
      case Some(starts) => Some(Effect(PlaceAll(c, wm, ws, starts, |starts|, e), starts != []))
  }

  function InsertByStart(w: Window, ws: seq<Window>): seq<Window> {
    if ws == [] || w.start <= ws[0].start then [w] + ws else [ws[0]] + InsertByStart(w, ws[1..])
  }

  function SortByStart(ws: seq<Window>): seq<Window> {
    if ws == [] then [] else InsertByStart(ws[0], SortByStart(ws[1..]))
  }

  datatype Outcome = Rejected | Full | Done(s: State, results: seq<Result>, tooLate: bool)

  function Counted(c: Config, s: State, e: Event, retained: int, accepted: nat, offered: bool): Stats {
    var late := e.time < s.watermark;
    Stats(if late then s.stats.late + 1 else s.stats.late,
          if late && accepted > 0 then s.stats.allowed + 1 else s.stats.allowed,
          if offered && accepted == 0 then s.stats.dropped + 1 else s.stats.dropped,
          retained)
  }

  function ProcessStep(c: Config, s: State, e: Event): Outcome
    requires c.Valid()
  {
    var existing := Existing(s, e.key);
    match ProcessKey(c, s.watermark, existing, e)
    case None => Rejected
    case Some(Effect(p, offered)) =>
      var retained := s.stats.retained - |existing| + |p.ws|;
      if retained > c.maxWindows then Full
      else
        Done(State(s.watermark, if p.ws == [] then s.windows else s.windows[e.key := SortByStart(p.ws)],
               Counted(c, s, e, retained, p.accepted, offered)),
             p.results, offered && p.accepted == 0)
  }

  // ---------------------------------------------------------------- advancing the watermark

  function Fires(wm: int, w: Window): bool {
    !w.fired && wm >= w.end
  }

  function Swept(wm: int, w: Window): Window {
    if Fires(wm, w) then w.(fired := true, emitted := true) else w
  }

  /** What remains of the first `k` windows after firing and purging. */
  function Remaining(c: Config, wm: int, ws: seq<Window>, k: nat): seq<Window>
    requires k <= |ws|
  {
    if k == 0 then []
    else
      var w := Swept(wm, ws[k - 1]);
      Remaining(c, wm, ws, k - 1) + (if wm < c.Deadline(w.end) then [w] else [])
  }

  function Fired(key: Key, wm: int, ws: seq<Window>, k: nat): seq<Result>
    requires k <= |ws|
  {
    if k == 0 then []
    else Fired(key, wm, ws, k - 1) + (if Fires(wm, ws[k - 1]) then [Report(key, ws[k - 1], ws[k - 1].emitted)] else [])
  }

  function AllFired(wm: int, windows: map<Key, seq<Window>>, keys: seq<Key>): seq<Result>
    requires forall key :: key in keys ==> key in windows
  {
    if keys == [] then []
    else
      var last := keys[|keys| - 1];
      AllFired(wm, windows, keys[..|keys| - 1]) + Fired(last, wm, windows[last], |windows[last]|)
  }

  function Left(c: Config, wm: int, ws: seq<Window>): seq<Window> {
    Remaining(c, wm, ws, |ws|)
  }

  /** The windows after purging; a key without windows disappears. */
  function LeftOver(c: Config, wm: int, windows: map<Key, seq<Window>>): map<Key, seq<Window>> {
    map key | key in windows && Left(c, wm, windows[key]) != [] :: Left(c, wm, windows[key])
  }

  /** Strictly ascending keys, exactly those of the map. */
  ghost predicate InKeyOrder<V>(m: map<Key, V>, keys: seq<Key>) {
    (forall i, j :: 0 <= i < j < |keys| ==> keys[i] < keys[j]) && (forall key :: key in keys <==> key in m)
  }

  /** The number of windows under all keys. */
  ghost function Count(windows: map<Key, seq<Window>>): nat {
    if windows == map[] then 0
    else
      var key :| key in windows;
      |windows[key]| + Count(windows - {key})
  }

  ghost function AdvanceStep(c: Config, s: State, wm: int): State {
    if wm <= s.watermark then s
    else
      var left := LeftOver(c, wm, s.windows);
      State(wm, left, s.stats.(retained := s.stats.retained - Count(s.windows) + Count(left)))
  }

  // ---------------------------------------------------------------- counting

  lemma {:induction false} CountWithout(windows: map<Key, seq<Window>>, key: Key)
    requires key in windows
    ensures Count(windows) == |windows[key]| + Count(windows - {key})
    decreases |windows|
  {
    var first :| first in windows && Count(windows) == |windows[first]| + Count(windows - {first});
    if first != key {
      CountWithout(windows - {first}, key);
      CountWithout(windows - {key}, first);
      assert windows - {first} - {key} == windows - {key} - {first};
    }
  }

  lemma CountPut(windows: map<Key, seq<Window>>, key: Key, ws: seq<Window>)
    ensures Count(windows[key := ws]) == |ws| + Count(windows - {key})
    ensures Count(windows[key := ws]) == Count(windows) + |ws| - (if key in windows then |windows[key]| else 0)
  {
    CountWithout(windows[key := ws], key);
    assert windows[key := ws] - {key} == windows - {key};
    if key in windows {
      CountWithout(windows, key);
    } else {
      assert windows - {key} == windows;
    }
  }

  // ---------------------------------------------------------------- the processor

  class WindowProcessor {
    const config: Config
    var watermark: int
    var windows: map<Key, seq<Window>>
    var stats: Stats

    function View(): State
      reads this
    {
      State(watermark, windows, stats)
    }

    constructor (c: Config)
      requires c.Valid()
      ensures config == c && View() == Initial()
    {
      config, watermark, windows, stats := c, MIN_INT64, map[], Stats(0, 0, 0, 0);
    }

    /** Repeats passes over the retained sessions until the merged one touches none of them. */
    method MergeSessions(existing: seq<Window>, seed: Window) returns (merged: Window, next: seq<Window>)
      ensures Merged(merged, next) == MergeLoop(existing, seed)
    {
      merged, next := seed, existing;
      var changed := true;
      while changed
        invariant MergeLoop(existing, seed) == if changed then MergeLoop(next, merged) else Merged(merged, next)
        decreases |next|, changed
      {
        changed := false;
        var remaining: seq<Window> := [];
        ghost var from, start := next, merged;
        for i := 0 to |next|
          invariant Merged(merged, remaining) == Pass(from, i, start)
          invariant |remaining| <= i && (changed <==> |remaining| < i)
          invariant !changed ==> merged == start && remaining == next[..i]
        {
          var w := next[i];
          if w.start <= merged.end && w.end >= merged.start {
            merged := Window(Min(merged.start, w.start), Max(merged.end, w.end), merged.acc + w.acc,
              merged.fired, merged.emitted || w.emitted);
            changed := true;
          } else {
            remaining := remaining + [w];
          }
        }
        next := remaining;
      }
    }

    /** The loop over window starts, newest first. */
    method AssignStarts(t: int) returns (r: Option<seq<int>>)
      requires config.kind != Session && config.Valid()
      ensures r == Assign(config, t)
    {
      var step := if config.kind == Sliding then config.slide else config.size;
      var first := FloorStart(t, step);
      if first.None? {
        return None;
      }
      var start, starts := first.value, [];
      assert forall rest: seq<int> :: [] + rest == rest;
      while true
        invariant Assign(config, t)
          == match AssignFrom(config, t, start) case None => None case Some(rest) => Some(starts + rest)
        decreases Max(0, start + config.size - t)
      {
        var end := WindowEnd(start, config.size);
        if end.None? {
          return None;
        }
        if t >= end.value {
          assert starts + [] == starts;
          return Some(starts);
        }
        if config.kind == Tumbling || start < MIN_INT64 + step {
          return Some(starts + [start]);
        }
        assert forall rest: seq<int> :: starts + ([start] + rest) == starts + [start] + rest;
        starts := starts + [start];
        start := start - step;
      }
    }

    method PlaceStarts(starts: seq<int>, existing: seq<Window>, e: Event) returns (p: Placed)
      ensures p == PlaceAll(config, watermark, existing, starts, |starts|, e)
    {
      p := Placed(existing, [], 0);
      for i := 0 to |starts|
        invariant p == PlaceAll(config, watermark, existing, starts, i, e)
      {
        p := PlaceStart(p, starts[i], starts[i] + config.size, e);
      }
    }

    /** One assigned window: found or created, joined by the event, reported if it already fired. */
    method PlaceStart(p: Placed, start: int, end: int, e: Event) returns (r: Placed)
      ensures r == PlaceOne(config, watermark, p, start, end, e)
    {
      if watermark >= config.Deadline(end) {
        return p;
      }
      var found := Find(p.ws, start, end, 0);
      var w := if found < |p.ws| then p.ws[found] else Window(start, end, multiset{}, false, false);
      var results := p.results;
      if watermark >= w.end {
        results := results + [Report(e.key, w.(acc := w.acc + multiset{e}), w.emitted)];
      } else {
        assert results + [] == results;
      }
      w := Joined(watermark, w, e);
      return Placed(if found < |p.ws| then p.ws[found := w] else p.ws + [w], results, p.accepted + 1);
    }

    /** The event on its key's windows: merged into a session, or added to each assigned window. */
    method PlaceEvent(existing: seq<Window>, e: Event) returns (r: Option<Effect>)
      requires config.Valid()
      ensures r == ProcessKey(config, watermark, existing, e)
    {
      if config.kind == Session {
        var end := WindowEnd(e.time, config.gap);
        if end.None? {
          return None;
        }
        var merged, rest := MergeSessions(existing, Window(e.time, end.value, multiset{}, false, false));
        if watermark >= config.Deadline(merged.end) {
          return Some(Effect(Placed(existing, [], 0), true));
        }
        return Some(Effect(Placed(rest + [Joined(watermark, merged, e)], JoinResults(watermark, merged, e), 1), true));
      }
      var starts := AssignStarts(e.time);
      if starts.None? {
        return None;
      }
      var p := PlaceStarts(starts.value, existing, e);
      return Some(Effect(p, starts.value != []));
    }

    method Process(e: Event) returns (results: seq<Result>, tooLate: bool, ok: bool)
      requires config.Valid()
      modifies this
      ensures match ProcessStep(config, old(View()), e)
        case Done(after, rs, late) => ok && View() == after && results == rs && tooLate == late
        case _ => !ok && View() == old(View())
    {
      results, tooLate, ok := [], false, false;
      var existing := if e.key in windows then windows[e.key] else [];
      var effect := PlaceEvent(existing, e);
      if effect.None? {
        return;
      }
      var next, accepted, offered := effect.value.p.ws, effect.value.p.accepted, effect.value.offered;
      var retained := stats.retained - |existing| + |next|;
      if retained > config.maxWindows {
        return;
      }
      results := effect.value.p.results;
      if |next| > 0 {
        windows := windows[e.key := SortByStart(next)];
      }
      var late := e.time < watermark;
      stats := Stats(if late then stats.late + 1 else stats.late,
        if late && accepted > 0 then stats.allowed + 1 else stats.allowed,
        if offered && accepted == 0 then stats.dropped + 1 else stats.dropped, retained);
      tooLate, ok := offered && accepted == 0, true;
    }

    /** The keys in order, smallest first. */
    method SortedKeys() returns (keys: seq<Key>)
      ensures InKeyOrder(windows, keys)
    {
      keys := [];
      var rest := windows.Keys;
      while rest != {}
        invariant rest <= windows.Keys
        invariant forall key :: key in windows <==> key in keys || key in rest
        invariant forall i, key :: 0 <= i < |keys| && key in rest ==> keys[i] < key
        invariant forall i, j :: 0 <= i < j < |keys| ==> keys[i] < keys[j]
        decreases |rest|
      {
        var least := Least(rest);
        keys := keys + [least];
        rest := rest - {least};
      }
    }

    method Least(keys: set<Key>) returns (least: Key)
      requires keys != {}
      ensures least in keys && forall key :: key in keys ==> least <= key
    {
      least :| least in keys;
      var rest := keys - {least};
      while rest != {}
        invariant least in keys && rest <= keys
        invariant forall key :: key in keys && key !in rest ==> least <= key
        decreases |rest|
      {
        var key :| key in rest;
        if key < least {
          least := key;
        }
        rest := rest - {key};
      }
    }

    /** Fires and purges one key's windows. */
    method Sweep(key: Key, ws: seq<Window>) returns (remaining: seq<Window>, results: seq<Result>)
      ensures remaining == Left(config, watermark, ws) && results == Fired(key, watermark, ws, |ws|)
      ensures |remaining| <= |ws|
    {
      remaining, results := [], [];
      for i := 0 to |ws|
        invariant remaining == Remaining(config, watermark, ws, i) && results == Fired(key, watermark, ws, i)
        invariant |remaining| <= i
      {
        var w := ws[i];
        if !w.fired && watermark >= w.end {
          results := results + [Report(key, w, w.emitted)];
          w := w.(fired := true, emitted := true);
        }
        if watermark < config.Deadline(w.end) {
          remaining := remaining + [w];
        }
      }
    }

    /** Sweeps one key and forgets it when nothing is left. */
    method SweepKey(key: Key) returns (fired: seq<Result>)
      requires key in windows
      modifies this`windows, this`stats
      ensures fired == Fired(key, watermark, old(windows[key]), |old(windows[key])|)
      ensures windows == SweptOne(config, watermark, old(windows), key)
      ensures stats == old(stats).(retained := old(stats).retained - Count(old(windows)) + Count(windows))
    {
      var remaining;
      remaining, fired := Sweep(key, windows[key]);
      stats := stats.(retained := stats.retained - (|windows[key]| - |remaining|));
      CountWithout(windows, key);
      if remaining == [] {
        windows := windows - {key};
      } else {
        CountPut(windows, key, remaining);
        windows := windows[key := remaining];
      }
    }

    method AdvanceWatermark(wm: int) returns (results: seq<Result>, ghost keys: seq<Key>)
      modifies this
      ensures View() == AdvanceStep(config, old(View()), wm)
      ensures InKeyOrder(old(windows), keys)
      ensures results == if wm <= old(watermark) then [] else AllFired(wm, old(windows), keys)
    {
      var order := SortedKeys();
      keys, results := order, [];
      if wm <= watermark {
        return;
      }
      watermark := wm;
      results := SweepAll(order);
    }

    /** Sweeps the keys in order. */
    method SweepAll(order: seq<Key>) returns (results: seq<Result>)
      requires InKeyOrder(windows, order)
      modifies this`windows, this`stats
      ensures windows == LeftOver(config, watermark, old(windows))
      ensures results == AllFired(watermark, old(windows), order)
      ensures stats == old(stats).(retained := old(stats).retained - Count(old(windows)) + Count(windows))
    {
      results := [];
      ghost var before := windows;
      NoneSwept(config, watermark, before);
      assert order[..0] == [];
      for i := 0 to |order|
        invariant results == AllFired(watermark, before, order[..i])
        invariant windows == SweptKeys(config, watermark, before, order[..i])
        invariant stats == old(stats).(retained := old(stats).retained - Count(before) + Count(windows))
      {
        SweepOneMore(config, watermark, before, order, i);
        FiredOneMore(watermark, before, order, i);
        var fired := SweepKey(order[i]);
        results := results + fired;
      }
      assert order[..|order|] == order;
      AllSwept(config, watermark, before, order);
    }
  }

  function SweptOne(c: Config, wm: int, windows: map<Key, seq<Window>>, key: Key): map<Key, seq<Window>>
    requires key in windows
  {
    if Left(c, wm, windows[key]) == [] then windows - {key} else windows[key := Left(c, wm, windows[key])]
  }

  /** The windows once the given keys have been swept. */
  function SweptKeys(c: Config, wm: int, windows: map<Key, seq<Window>>, keys: seq<Key>): map<Key, seq<Window>> {
    map key | key in windows && (key !in keys || Left(c, wm, windows[key]) != [])
      :: if key in keys then Left(c, wm, windows[key]) else windows[key]
  }

  lemma NoneSwept(c: Config, wm: int, windows: map<Key, seq<Window>>)
    ensures SweptKeys(c, wm, windows, []) == windows
  {
  }

  lemma SweepOneMore(c: Config, wm: int, windows: map<Key, seq<Window>>, keys: seq<Key>, i: nat)
    requires InKeyOrder(windows, keys) && i < |keys|
    ensures var now, key := SweptKeys(c, wm, windows, keys[..i]), keys[i];
      && key in now && now[key] == windows[key]
      && SweptKeys(c, wm, windows, keys[..i + 1]) == SweptOne(c, wm, now, key)
  {
    assert keys[i] in keys;
    assert keys[..i + 1] == keys[..i] + [keys[i]];
  }

  lemma FiredOneMore(wm: int, windows: map<Key, seq<Window>>, keys: seq<Key>, i: nat)
    requires InKeyOrder(windows, keys) && i < |keys|
    ensures var key := keys[i];
      AllFired(wm, windows, keys[..i + 1])
        == AllFired(wm, windows, keys[..i]) + Fired(key, wm, windows[key], |windows[key]|)
  {
    assert keys[..i + 1][..i] == keys[..i];
  }

  lemma AllSwept(c: Config, wm: int, windows: map<Key, seq<Window>>, keys: seq<Key>)
    requires InKeyOrder(windows, keys)
    ensures SweptKeys(c, wm, windows, keys) == LeftOver(c, wm, windows)
  {
  }
}
