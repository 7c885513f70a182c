/**
  What the windows of one key have reported, against what they accepted.  `log` is every result
  emitted so far, `taken` every event accepted into an aligned window.
 */
module WindowEmission {
  import opened Windows
  import opened WindowShape

  /** The results for one window, in order. */
  function Of(log: seq<Result>, key: Key, start: int, end: int): seq<Result> {
    if log == [] then []
    else
      var n := |log| - 1;
      var before := Of(log[..n], key, start, end);
      if log[n].key == key && log[n].start == start && log[n].end == end then before + [log[n]] else before
  }

  lemma OfSnoc(log: seq<Result>, r: Result, key: Key, start: int, end: int)
    ensures Of(log + [r], key, start, end)
      == if r.key == key && r.start == start && r.end == end then Of(log, key, start, end) + [r]
        else Of(log, key, start, end)
  {
    assert (log + [r])[..|log|] == log;
  }

  /** One non-update, then updates only. */
  predicate Proper(rs: seq<Result>) {
    forall i :: 0 <= i < |rs| ==> (rs[i].update <==> i > 0)
  }

  predicate Reported(log: seq<Result>, key: Key, start: int, end: int, value: multiset<Event>) {
    var rs := Of(log, key, start, end);
    rs != [] && rs[|rs| - 1].value == value
  }

  datatype Acceptance = Acceptance(key: Key, start: int, e: Event)

  function TakenBy(taken: seq<Acceptance>, key: Key, start: int): multiset<Event> {
    if taken == [] then multiset{}
    else
      var n := |taken| - 1;
      var before := TakenBy(taken[..n], key, start);
      if taken[n].key == key && taken[n].start == start then before + multiset{taken[n].e} else before
  }

  lemma TakenSnoc(taken: seq<Acceptance>, a: Acceptance, key: Key, start: int)
    ensures TakenBy(taken + [a], key, start)
      == if a.key == key && a.start == start then TakenBy(taken, key, start) + multiset{a.e}
        else TakenBy(taken, key, start)
  {
    assert (taken + [a])[..|taken|] == taken;
  }

  // ---------------------------------------------------------------- the invariant of one window

  /** A retained aligned window: what it holds is what it accepted, what it last said is what it holds. */
  predicate Told(c: Config, key: Key, w: Window, log: seq<Result>, taken: seq<Acceptance>) {
    && (w.emitted <==> w.fired) && (w.emitted <==> Of(log, key, w.start, w.end) != [])
    && (w.fired ==> Reported(log, key, w.start, w.end, w.acc))
    && w.acc == TakenBy(taken, key, w.start)
  }

  /** A start without a retained window: nothing happened there, or it was purged after a full report. */
  predicate Closed(c: Config, wm: int, key: Key, start: int, log: seq<Result>, taken: seq<Acceptance>) {
    var end := start + c.size;
    || (TakenBy(taken, key, start) == multiset{} && Of(log, key, start, end) == [])
    || (wm >= c.Deadline(end) && Reported(log, key, start, end, TakenBy(taken, key, start)))
  }

  predicate HasStart(ws: seq<Window>, start: int) {
    exists i :: 0 <= i < |ws| && ws[i].start == start
  }

  ghost predicate KeyOk(c: Config, wm: int, key: Key, ws: seq<Window>, log: seq<Result>, taken: seq<Acceptance>) {
    && AllTold(c, key, ws, log, taken)
    && (forall start: int :: HasStart(ws, start) || Closed(c, wm, key, start, log, taken))
    && (forall start: int :: ProperAt(c, key, start, log))
  }

  predicate ProperAt(c: Config, key: Key, start: int, log: seq<Result>) {
    Proper(Of(log, key, start, start + c.size))
  }

  // ---------------------------------------------------------------- one event into one window

  function TakenOne(c: Config, wm: int, taken: seq<Acceptance>, start: int, e: Event): seq<Acceptance> {
    if wm >= c.Deadline(start + c.size) then taken else taken + [Acceptance(e.key, start, e)]
  }

  /** The window that receives the event, before it does. */
  function Target(c: Config, ws: seq<Window>, start: int): Window {
    var i := Find(ws, start, start + c.size, 0);
    if i < |ws| then ws[i] else Window(start, start + c.size, multiset{}, false, false)
  }

  lemma TargetTold(c: Config, wm: int, key: Key, ws: seq<Window>, start: int, log: seq<Result>, taken: seq<Acceptance>)
    requires c.kind != Session && AllShaped(c, wm, ws) && KeyOk(c, wm, key, ws, log, taken)
    requires wm < c.Deadline(start + c.size)
    ensures var w := Target(c, ws, start);
      Told(c, key, w, log, taken) && w.start == start && w.end == start + c.size
  {
    var i := Find(ws, start, start + c.size, 0);
    if i == |ws| {
      NoSuchStart(c, wm, ws, start);
      assert !HasStart(ws, start);
      assert Closed(c, wm, key, start, log, taken);
    }
  }

  /** Joining keeps the account of that window. */
  lemma JoinTold(c: Config, wm: int, w: Window, e: Event, log: seq<Result>, taken: seq<Acceptance>)
    requires Told(c, e.key, w, log, taken) && Proper(Of(log, e.key, w.start, w.end)) && (w.fired ==> wm >= w.end)
    ensures var log1, taken1 := log + JoinResults(wm, w, e), taken + [Acceptance(e.key, w.start, e)];
      Told(c, e.key, Joined(wm, w, e), log1, taken1) && Proper(Of(log1, e.key, w.start, w.end))
  {
    TakenSnoc(taken, Acceptance(e.key, w.start, e), e.key, w.start);
    if wm >= w.end {
      OfSnoc(log, Report(e.key, w.(acc := w.acc + multiset{e}), w.emitted), e.key, w.start, w.end);
    } else {
      assert log + [] == log;
    }
  }

  /** And leaves every other window's account alone. */
  lemma JoinElsewhere(wm: int, w: Window, e: Event, log: seq<Result>, taken: seq<Acceptance>, key: Key, start: int,
                      end: int)
    requires key != e.key || start != w.start
    ensures Of(log + JoinResults(wm, w, e), key, start, end) == Of(log, key, start, end)
    ensures TakenBy(taken + [Acceptance(e.key, w.start, e)], key, start) == TakenBy(taken, key, start)
  {
    TakenSnoc(taken, Acceptance(e.key, w.start, e), key, start);
    if wm >= w.end {
      OfSnoc(log, Report(e.key, w.(acc := w.acc + multiset{e}), w.emitted), key, start, end);
    } else {
      assert log + [] == log;
    }
  }

  /** The list after placing: the receiving window replaced or appended, the others as they were. */
  predicate PutAt(ws: seq<Window>, i: nat, w: Window, after: seq<Window>) {
    i <= |ws| && after == if i < |ws| then ws[i := w] else ws + [w]
  }

  lemma PlacedAt(c: Config, wm: int, p: Placed, start: int, e: Event, r: Placed, w: Window) returns (i: nat)
    requires c.kind != Session && Spread(c, p.ws) && AllShaped(c, wm, p.ws) && wm < c.Deadline(start + c.size)
    requires r == PlaceOne(c, wm, p, start, start + c.size, e) && w == Target(c, p.ws, start)
    ensures PutAt(p.ws, i, Joined(wm, w, e), r.ws) && r.results == p.results + JoinResults(wm, w, e)
    ensures forall k :: 0 <= k < |p.ws| && k != i ==> p.ws[k].start != start
    ensures w.fired ==> wm >= w.end
  {
    i := Find(p.ws, start, start + c.size, 0);
    if i == |p.ws| {
      NoSuchStart(c, wm, p.ws, start);
    } else {
      assert Shaped(c, wm, p.ws[i]);
      forall k | 0 <= k < |p.ws| && k != i ensures p.ws[k].start != start {
        assert if k < i then Spaced(c, p.ws[k], p.ws[i]) else Spaced(c, p.ws[i], p.ws[k]);
      }
    }
  }

  predicate AllTold(c: Config, key: Key, ws: seq<Window>, log: seq<Result>, taken: seq<Acceptance>) {
    forall k :: 0 <= k < |ws| ==> Told(c, key, ws[k], log, taken)
  }

  lemma PutTold(c: Config, wm: int, ws: seq<Window>, i: nat, w: Window, e: Event, after: seq<Window>,
                log: seq<Result>, taken: seq<Acceptance>)
    requires AllTold(c, e.key, ws, log, taken) && PutAt(ws, i, Joined(wm, w, e), after)
    requires forall k :: 0 <= k < |ws| && k != i ==> ws[k].start != w.start
    requires Told(c, e.key, Joined(wm, w, e), log + JoinResults(wm, w, e), taken + [Acceptance(e.key, w.start, e)])
    ensures AllTold(c, e.key, after, log + JoinResults(wm, w, e), taken + [Acceptance(e.key, w.start, e)])
  {
    forall k | 0 <= k < |after|
      ensures Told(c, e.key, after[k], log + JoinResults(wm, w, e), taken + [Acceptance(e.key, w.start, e)])
    {
      if k != i {
        JoinElsewhere(wm, w, e, log, taken, e.key, ws[k].start, ws[k].end);
      }
    }
  }

  lemma PutClosed(c: Config, wm: int, ws: seq<Window>, i: nat, w: Window, e: Event, after: seq<Window>,
                  log: seq<Result>, taken: seq<Acceptance>, start: int)
    requires PutAt(ws, i, Joined(wm, w, e), after) && (i < |ws| ==> ws[i].start == w.start)
    requires HasStart(ws, start) || Closed(c, wm, e.key, start, log, taken)
    ensures HasStart(after, start)
      || Closed(c, wm, e.key, start, log + JoinResults(wm, w, e), taken + [Acceptance(e.key, w.start, e)])
  {
    if start == w.start {
      assert after[i].start == start;
    } else if HasStart(ws, start) {
      var k :| 0 <= k < |ws| && ws[k].start == start;
      assert after[k].start == start;
    } else {
      ClosedElsewhere(c, wm, w, e, log, taken, start);
    }
  }

  lemma ClosedElsewhere(c: Config, wm: int, w: Window, e: Event, log: seq<Result>, taken: seq<Acceptance>, start: int)
    requires start != w.start && Closed(c, wm, e.key, start, log, taken)
    ensures Closed(c, wm, e.key, start, log + JoinResults(wm, w, e), taken + [Acceptance(e.key, w.start, e)])
  {
    JoinElsewhere(wm, w, e, log, taken, e.key, start, start + c.size);
  }

  lemma PutProper(c: Config, wm: int, w: Window, e: Event, log: seq<Result>, taken: seq<Acceptance>, start: int)
    requires Told(c, e.key, w, log, taken) && w.end == w.start + c.size && (w.fired ==> wm >= w.end)
    requires ProperAt(c, e.key, w.start, log) && ProperAt(c, e.key, start, log)
    ensures ProperAt(c, e.key, start, log + JoinResults(wm, w, e))
  {
    if start == w.start {
      JoinTold(c, wm, w, e, log, taken);
    } else {
      JoinElsewhere(wm, w, e, log, taken, e.key, start, start + c.size);
    }
  }

  /** Placing one event in one aligned window keeps the key's account. */
  lemma PlaceOneTells(c: Config, wm: int, p: Placed, start: int, e: Event, log: seq<Result>, taken: seq<Acceptance>,
                      r: Placed)
    returns (rs: seq<Result>)
    requires c.kind != Session && Spread(c, p.ws) && AllShaped(c, wm, p.ws)
    requires KeyOk(c, wm, e.key, p.ws, log, taken) && wm < c.Deadline(start + c.size)
    requires r == PlaceOne(c, wm, p, start, start + c.size, e)
    ensures r.results == p.results + rs && KeyOk(c, wm, e.key, r.ws, log + rs, taken + [Acceptance(e.key, start, e)])
  {
    var w := Target(c, p.ws, start);
    TargetTold(c, wm, e.key, p.ws, start, log, taken);
    var i := PlacedAt(c, wm, p, start, e, r, w);
    rs := JoinResults(wm, w, e);
    assert ProperAt(c, e.key, start, log);
    JoinTold(c, wm, w, e, log, taken);
    PutTold(c, wm, p.ws, i, w, e, r.ws, log, taken);
    forall s: int
      ensures HasStart(r.ws, s) || Closed(c, wm, e.key, s, log + rs, taken + [Acceptance(e.key, start, e)])
    {
      PutClosed(c, wm, p.ws, i, w, e, r.ws, log, taken, s);
    }
    forall s: int ensures ProperAt(c, e.key, s, log + rs) {
      assert ProperAt(c, e.key, s, log);
      PutProper(c, wm, w, e, log, taken, s);
    }
  }

  function TakenAll(c: Config, wm: int, taken: seq<Acceptance>, starts: seq<int>, k: nat, e: Event): seq<Acceptance>
    requires k <= |starts|
  {
    if k == 0 then taken else TakenOne(c, wm, TakenAll(c, wm, taken, starts, k - 1, e), starts[k - 1], e)
  }

  lemma NextTells(c: Config, wm: int, p: Placed, start: int, e: Event, log: seq<Result>, taken: seq<Acceptance>,
                  r: Placed)
    requires c.kind != Session && Spread(c, p.ws) && AllShaped(c, wm, p.ws)
    requires KeyOk(c, wm, e.key, p.ws, log + p.results, taken) && r == PlaceOne(c, wm, p, start, start + c.size, e)
    ensures KeyOk(c, wm, e.key, r.ws, log + r.results, TakenOne(c, wm, taken, start, e))
  {
    if wm < c.Deadline(start + c.size) {
      var rs := PlaceOneTells(c, wm, p, start, e, log + p.results, taken, r);
      Regroup(log, p.results, rs);
    }
  }

  lemma Regroup(a: seq<Result>, b: seq<Result>, c: seq<Result>)
    ensures a + b + c == a + (b + c)
  {
  }

  lemma PlacedSoFar(c: Config, wm: int, ws: seq<Window>, starts: seq<int>, k: nat, e: Event, p: Placed)
    requires c.size > 0 && c.kind != Session && Spread(c, ws) && AllShaped(c, wm, ws) && Fitting(c, starts)
    requires k <= |starts| && p == PlaceAll(c, wm, ws, starts, k, e)
    ensures Spread(c, p.ws) && AllShaped(c, wm, p.ws)
  {
    PlaceAllKeeps(c, wm, ws, starts, k, e);
  }

  /** A whole event keeps the account: its results extend the log, its acceptances the record. */
  lemma {:induction false} PlaceAllTells(c: Config, wm: int, ws: seq<Window>, starts: seq<int>, k: nat, e: Event,
                                         log: seq<Result>, taken: seq<Acceptance>, r: Placed)
    requires c.size > 0 && c.kind != Session && Spread(c, ws) && AllShaped(c, wm, ws) && Fitting(c, starts)
    requires k <= |starts| && KeyOk(c, wm, e.key, ws, log, taken) && r == PlaceAll(c, wm, ws, starts, k, e)
    ensures KeyOk(c, wm, e.key, r.ws, log + r.results, TakenAll(c, wm, taken, starts, k, e))
    decreases k
  {
    if k == 0 {
      assert log + [] == log;
    } else {
      var p := PlaceAll(c, wm, ws, starts, k - 1, e);
      PlaceAllTells(c, wm, ws, starts, k - 1, e, log, taken, p);
      PlacedSoFar(c, wm, ws, starts, k - 1, e, p);
      NextTells(c, wm, p, starts[k - 1], e, log, TakenAll(c, wm, taken, starts, k - 1, e), r);
    }
  }

  lemma SortTells(c: Config, wm: int, key: Key, ws: seq<Window>, log: seq<Result>, taken: seq<Acceptance>)
    requires KeyOk(c, wm, key, ws, log, taken)
    ensures KeyOk(c, wm, key, SortByStart(ws), log, taken)
  {
    var sorted := SortByStart(ws);
    SortMembers(ws);
    forall i | 0 <= i < |sorted| ensures Told(c, key, sorted[i], log, taken) {
      var j := SameMembers(ws, sorted, i);
    }
    forall s: int ensures HasStart(sorted, s) || Closed(c, wm, key, s, log, taken) {
      if HasStart(ws, s) {
        var i :| 0 <= i < |ws| && ws[i].start == s;
        var j := SameMembers(sorted, ws, i);
      }
    }
  }

  // ---------------------------------------------------------------- advancing the watermark

  lemma {:induction false} OfConcat(a: seq<Result>, b: seq<Result>, key: Key, start: int, end: int)
    ensures Of(a + b, key, start, end) == Of(a, key, start, end) + Of(b, key, start, end)
    decreases |b|
  {
    if b == [] {
      assert a + b == a;
    } else {
      var n := |b| - 1;
      OfConcat(a, b[..n], key, start, end);
      OfOneMore(a, b[..n], b[n], b, key, start, end);
    }
  }

  lemma OfOneMore(a: seq<Result>, front: seq<Result>, r: Result, b: seq<Result>, key: Key, start: int, end: int)
    requires b == front + [r] && Of(a + front, key, start, end) == Of(a, key, start, end) + Of(front, key, start, end)
    ensures Of(a + b, key, start, end) == Of(a, key, start, end) + Of(b, key, start, end)
  {
    OfSnoc(a + front, r, key, start, end);
    OfSnoc(front, r, key, start, end);
    Regroup(a, front, [r]);
    Regroup(Of(a, key, start, end), Of(front, key, start, end), [r]);
  }

  /** Firing reports each due window once, and nothing else. */
  lemma {:induction false} FiredElsewhere(key: Key, wm: int, ws: seq<Window>, k: nat, other: Key, start: int, end: int)
    requires k <= |ws| && (key != other || forall j :: 0 <= j < k ==> ws[j].start != start)
    ensures Of(Fired(key, wm, ws, k), other, start, end) == []
  {
    if k > 0 {
      FiredElsewhere(key, wm, ws, k - 1, other, start, end);
      if Fires(wm, ws[k - 1]) {
        OfSnoc(Fired(key, wm, ws, k - 1), Report(key, ws[k - 1], ws[k - 1].emitted), other, start, end);
      } else {
        assert Fired(key, wm, ws, k) == Fired(key, wm, ws, k - 1);
      }
    }
  }

  lemma {:induction false} FiredOf(key: Key, wm: int, ws: seq<Window>, k: nat, j: nat)
    requires Ascending(ws) && j < k <= |ws|
    ensures Of(Fired(key, wm, ws, k), key, ws[j].start, ws[j].end)
      == if Fires(wm, ws[j]) then [Report(key, ws[j], ws[j].emitted)] else []
    decreases k
  {
    var w := ws[k - 1];
    if j < k - 1 {
      FiredOf(key, wm, ws, k - 1, j);
    } else {
      FiredElsewhere(key, wm, ws, k - 1, key, w.start, w.end);
    }
    if Fires(wm, w) {
      OfSnoc(Fired(key, wm, ws, k - 1), Report(key, w, w.emitted), key, ws[j].start, ws[j].end);
    } else {
      assert Fired(key, wm, ws, k) == Fired(key, wm, ws, k - 1);
    }
  }

  lemma SweptTold(c: Config, key: Key, wm: int, w: Window, log: seq<Result>, after: seq<Result>, taken: seq<Acceptance>)
    requires Told(c, key, w, log, taken) && Proper(Of(log, key, w.start, w.end))
    requires Of(after, key, w.start, w.end)
      == Of(log, key, w.start, w.end) + if Fires(wm, w) then [Report(key, w, w.emitted)] else []
    ensures Told(c, key, Swept(wm, w), after, taken) && Proper(Of(after, key, w.start, w.end))
  {
  }

  lemma AfterOf(c: Config, key: Key, wm: int, ws: seq<Window>, j: nat, log: seq<Result>, after: seq<Result>)
    requires Ascending(ws) && j < |ws| && after == log + Fired(key, wm, ws, |ws|)
    ensures Of(after, key, ws[j].start, ws[j].end)
      == Of(log, key, ws[j].start, ws[j].end) + if Fires(wm, ws[j]) then [Report(key, ws[j], ws[j].emitted)] else []
  {
    FiredOf(key, wm, ws, |ws|, j);
    OfConcat(log, Fired(key, wm, ws, |ws|), key, ws[j].start, ws[j].end);
  }

  lemma SweptToldAt(c: Config, before: int, wm: int, key: Key, ws: seq<Window>, j: nat,
                    log: seq<Result>, after: seq<Result>, taken: seq<Acceptance>)
    requires c.kind != Session && ListOk(c, before, ws) && KeyOk(c, before, key, ws, log, taken) && j < |ws|
    requires after == log + Fired(key, wm, ws, |ws|)
    ensures Told(c, key, Swept(wm, ws[j]), after, taken) && ProperAt(c, key, ws[j].start, after)
  {
    assert Shaped(c, before, ws[j]) && ProperAt(c, key, ws[j].start, log);
    AfterOf(c, key, wm, ws, j, log, after);
    SweptTold(c, key, wm, ws[j], log, after, taken);
  }

  lemma DeadlineNotEarlier(c: Config, end: int)
    requires c.lateness >= 0 && end <= MAX_INT64
    ensures end <= c.Deadline(end)
  {
  }

  /** A purged window was reported in full. */
  lemma SweptClosed(c: Config, before: int, wm: int, key: Key, ws: seq<Window>, j: nat,
                    log: seq<Result>, after: seq<Result>, taken: seq<Acceptance>)
    requires c.kind != Session && c.lateness >= 0 && ListOk(c, before, ws) && KeyOk(c, before, key, ws, log, taken)
    requires j < |ws|
    requires after == log + Fired(key, wm, ws, |ws|) && before <= wm && wm >= c.Deadline(ws[j].end)
    ensures Closed(c, wm, key, ws[j].start, after, taken)
  {
    assert Shaped(c, before, ws[j]);
    DeadlineNotEarlier(c, ws[j].end);
    SweptToldAt(c, before, wm, key, ws, j, log, after, taken);
  }

  lemma UntouchedClosed(c: Config, before: int, wm: int, key: Key, ws: seq<Window>, start: int,
                        log: seq<Result>, after: seq<Result>, taken: seq<Acceptance>)
    requires !HasStart(ws, start) && Closed(c, before, key, start, log, taken) && before <= wm
    requires after == log + Fired(key, wm, ws, |ws|)
    ensures Closed(c, wm, key, start, after, taken)
    ensures Of(after, key, start, start + c.size) == Of(log, key, start, start + c.size)
  {
    assert forall j :: 0 <= j < |ws| ==> ws[j].start != start;
    FiredElsewhere(key, wm, ws, |ws|, key, start, start + c.size);
    OfConcat(log, Fired(key, wm, ws, |ws|), key, start, start + c.size);
  }

  lemma {:induction false} RemainingHas(c: Config, wm: int, ws: seq<Window>, k: nat, j: nat)
    requires j < k <= |ws| && wm < c.Deadline(ws[j].end)
    ensures HasStart(Remaining(c, wm, ws, k), ws[j].start)
    decreases k
  {
    var r := Remaining(c, wm, ws, k);
    if j == k - 1 {
      assert r[|r| - 1].start == ws[j].start;
    } else {
      RemainingHas(c, wm, ws, k - 1, j);
      var i :| 0 <= i < |Remaining(c, wm, ws, k - 1)| && Remaining(c, wm, ws, k - 1)[i].start == ws[j].start;
      assert r[i].start == ws[j].start;
    }
  }

  lemma AdvanceClosed(c: Config, before: int, wm: int, key: Key, ws: seq<Window>, start: int,
                      log: seq<Result>, after: seq<Result>, taken: seq<Acceptance>)
    requires c.kind != Session && c.lateness >= 0 && ListOk(c, before, ws) && KeyOk(c, before, key, ws, log, taken)
    requires before <= wm
    requires after == log + Fired(key, wm, ws, |ws|)
    ensures HasStart(Left(c, wm, ws), start) || Closed(c, wm, key, start, after, taken)
    ensures ProperAt(c, key, start, after)
  {
    if HasStart(ws, start) {
      var j :| 0 <= j < |ws| && ws[j].start == start;
      SweptToldAt(c, before, wm, key, ws, j, log, after, taken);
      if wm < c.Deadline(ws[j].end) {
        RemainingHas(c, wm, ws, |ws|, j);
      } else {
        SweptClosed(c, before, wm, key, ws, j, log, after, taken);
      }
    } else {
      assert Closed(c, before, key, start, log, taken) && ProperAt(c, key, start, log);
      UntouchedClosed(c, before, wm, key, ws, start, log, after, taken);
    }
  }

  /** Advancing the watermark keeps the account of a key. */
  lemma AdvanceTells(c: Config, before: int, wm: int, key: Key, ws: seq<Window>,
                     log: seq<Result>, after: seq<Result>, taken: seq<Acceptance>)
    requires c.kind != Session && c.lateness >= 0 && ListOk(c, before, ws) && KeyOk(c, before, key, ws, log, taken)
    requires before <= wm
    requires after == log + Fired(key, wm, ws, |ws|)
    ensures KeyOk(c, wm, key, Left(c, wm, ws), after, taken)
  {
    forall i | 0 <= i < |Left(c, wm, ws)| ensures Told(c, key, Left(c, wm, ws)[i], after, taken) {
      var j := RemainingMember(c, wm, ws, |ws|, i);
      SweptToldAt(c, before, wm, key, ws, j, log, after, taken);
    }
    forall start: int
      ensures HasStart(Left(c, wm, ws), start) || Closed(c, wm, key, start, after, taken)
    {
      AdvanceClosed(c, before, wm, key, ws, start, log, after, taken);
    }
    forall start: int ensures ProperAt(c, key, start, after) {
      AdvanceClosed(c, before, wm, key, ws, start, log, after, taken);
    }
  }

  /** The account depends only on the key's own results and acceptances. */
  lemma SameAccount(c: Config, wm: int, key: Key, ws: seq<Window>, log: seq<Result>, taken: seq<Acceptance>,
                    log2: seq<Result>, taken2: seq<Acceptance>)
    requires KeyOk(c, wm, key, ws, log, taken)
    requires forall start: int, end: int :: Of(log2, key, start, end) == Of(log, key, start, end)
    requires forall start: int :: TakenBy(taken2, key, start) == TakenBy(taken, key, start)
    ensures KeyOk(c, wm, key, ws, log2, taken2)
  {
    forall i | 0 <= i < |ws| ensures Told(c, key, ws[i], log2, taken2) {
      assert Told(c, key, ws[i], log, taken);
    }
    forall start: int ensures HasStart(ws, start) || Closed(c, wm, key, start, log2, taken2) {
      assert HasStart(ws, start) || Closed(c, wm, key, start, log, taken);
    }
    forall start: int ensures ProperAt(c, key, start, log2) {
      assert ProperAt(c, key, start, log);
    }
  }
}
