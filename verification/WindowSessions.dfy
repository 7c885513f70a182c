/**
  Session grouping: each retained session is the hull of a gap-connected set of accepted events
  and holds exactly those events, so grouping does not depend on the order of arrival.
 */
module WindowSessions {
  import opened Basics
  import opened Windows
  import opened WindowShape

  /**
    `acc` is gap-connected and [start, end] is its hull: the earliest event is at `start`, the
    latest ends at `end`, and every event but the latest has a later one within the gap.
   */
  ghost predicate Group(gap: int, acc: multiset<Event>, start: int, end: int) {
    && (forall e :: e in acc ==> start <= e.time && e.time + gap <= end)
    && (exists e :: e in acc && e.time == start)
    && (exists e :: e in acc && e.time + gap == end)
    && (forall e {:trigger Continued(gap, acc, end, e)} :: e in acc ==> Continued(gap, acc, end, e))
  }

  ghost predicate Continued(gap: int, acc: multiset<Event>, end: int, e: Event) {
    e.time + gap == end || exists f :: f in acc && Follows(gap, e, f)
  }

  predicate Follows(gap: int, e: Event, f: Event) {
    e.time < f.time <= e.time + gap
  }

  ghost predicate SessionOk(c: Config, key: Key, w: Window) {
    Group(c.gap, w.acc, w.start, w.end) && forall e :: e in w.acc ==> e.key == key
  }

  ghost predicate SessionsOk(c: Config, key: Key, ws: seq<Window>) {
    forall i :: 0 <= i < |ws| ==> SessionOk(c, key, ws[i])
  }

  // ---------------------------------------------------------------- joining groups

  lemma OneIsAGroup(gap: int, e: Event)
    ensures Group(gap, multiset{e}, e.time, e.time + gap)
  {
    assert e in multiset{e};
  }

  /** The latest event of `acc` at or before `x`. */
  lemma {:induction false} LatestUpTo(acc: multiset<Event>, x: int) returns (g: Event)
    requires exists e :: e in acc && e.time <= x
    ensures g in acc && g.time <= x && forall e :: e in acc && e.time <= x ==> e.time <= g.time
    decreases |acc|
  {
    var e :| e in acc && e.time <= x;
    var rest := acc[e := 0];
    if exists f :: f in rest && f.time <= x {
      CardDrops(acc, e);
      g := LatestUpTo(rest, x);
      if e.time > g.time {
        g := e;
      }
    } else {
      g := e;
    }
    forall f | f in acc && f.time <= x ensures f.time <= g.time {
      assert f == e || f in rest;
    }
  }

  lemma CardDrops(acc: multiset<Event>, e: Event)
    requires e in acc
    ensures |acc[e := 0]| < |acc|
  {
    assert acc == acc[e := 0] + multiset{e}[e := acc[e]];
  }

  /** The latest event of one group has a follower in a group that reaches further. */
  lemma NextAcross(gap: int, b: multiset<Event>, start: int, end: int, e: Event)
    requires gap > 0 && Group(gap, b, start, end) && start <= e.time + gap < end
    ensures exists f :: f in b && Follows(gap, e, f)
  {
    var first :| first in b && first.time == start;
    if start > e.time {
      assert Follows(gap, e, first);
    } else {
      var g := LatestUpTo(b, e.time);
      assert Continued(gap, b, end, g) && g.time + gap < end;
      var f :| f in b && Follows(gap, g, f);
      assert Follows(gap, e, f);
    }
  }

  lemma HullOfBoth(gap: int, a: multiset<Event>, s1: int, e1: int, b: multiset<Event>, s2: int, e2: int)
    requires Group(gap, a, s1, e1) && Group(gap, b, s2, e2)
    ensures exists e :: e in a + b && e.time == Min(s1, s2)
    ensures exists e :: e in a + b && e.time + gap == Max(e1, e2)
    ensures forall e :: e in a + b ==> Min(s1, s2) <= e.time && e.time + gap <= Max(e1, e2)
  {
    var x :| x in a && x.time == s1;
    var y :| y in b && y.time == s2;
    assert x in a + b && y in a + b;
    var u :| u in a && u.time + gap == e1;
    var v :| v in b && v.time + gap == e2;
    assert u in a + b && v in a + b;
  }

  lemma Onward(gap: int, a: multiset<Event>, s1: int, e1: int, b: multiset<Event>, s2: int, e2: int, e: Event)
    requires gap > 0 && Group(gap, a, s1, e1) && Group(gap, b, s2, e2) && s2 <= e1 && e in a
    ensures Continued(gap, a + b, Max(e1, e2), e)
  {
    assert Continued(gap, a, e1, e);
    if e.time + gap == e1 {
      if e1 < e2 {
        NextAcross(gap, b, s2, e2, e);
        var f :| f in b && Follows(gap, e, f);
        assert f in a + b;
      }
    } else {
      var f :| f in a && Follows(gap, e, f);
      assert f in a + b;
    }
  }

  /** Two groups whose hulls touch form one group. */
  lemma TouchingGroupsJoin(gap: int, a: multiset<Event>, s1: int, e1: int, b: multiset<Event>, s2: int, e2: int)
    requires gap > 0 && Group(gap, a, s1, e1) && Group(gap, b, s2, e2) && s1 <= e2 && s2 <= e1
    ensures Group(gap, a + b, Min(s1, s2), Max(e1, e2))
  {
    HullOfBoth(gap, a, s1, e1, b, s2, e2);
    forall e | e in a + b ensures Continued(gap, a + b, Max(e1, e2), e) {
      if e in a {
        Onward(gap, a, s1, e1, b, s2, e2, e);
      } else {
        Onward(gap, b, s2, e2, a, s1, e1, e);
        assert b + a == a + b;
      }
    }
  }

  // ---------------------------------------------------------------- what merging keeps

  /** All events of the windows. */
  function Union(ws: seq<Window>): multiset<Event> {
    if ws == [] then multiset{} else Union(ws[..|ws| - 1]) + ws[|ws| - 1].acc
  }

  lemma UnionNext(ws: seq<Window>, k: nat)
    requires k < |ws|
    ensures Union(ws[..k + 1]) == Union(ws[..k]) + ws[k].acc
  {
    assert ws[..k + 1][..k] == ws[..k];
  }

  lemma UnionSnoc(ws: seq<Window>, w: Window)
    ensures Union(ws + [w]) == Union(ws) + w.acc
  {
    assert (ws + [w])[..|ws|] == ws;
  }

  /** With the arriving event counted in, the growing session stays a group and loses nothing. */
  ghost predicate Growing(c: Config, key: Key, m: Window, e: Event) {
    Group(c.gap, m.acc + multiset{e}, m.start, m.end) && forall x :: x in m.acc ==> x.key == key
  }

  lemma AbsorbGrows(c: Config, key: Key, m: Window, w: Window, e: Event)
    requires c.gap > 0 && Growing(c, key, m, e) && SessionOk(c, key, w) && Touches(w, m)
    ensures Growing(c, key, Absorb(m, w), e)
  {
    TouchingGroupsJoin(c.gap, m.acc + multiset{e}, m.start, m.end, w.acc, w.start, w.end);
    assert m.acc + multiset{e} + w.acc == m.acc + w.acc + multiset{e};
  }

  lemma {:induction false} PassKeepsUnion(next: seq<Window>, k: nat, m: Window)
    requires k <= |next|
    ensures Pass(next, k, m).w.acc + Union(Pass(next, k, m).rest) == m.acc + Union(next[..k])
  {
    if k > 0 {
      PassKeepsUnion(next, k - 1, m);
      UnionNext(next, k - 1);
      var before, x := Pass(next, k - 1, m), next[k - 1].acc;
      UnionSnoc(before.rest, next[k - 1]);
      assert before.w.acc + x + Union(before.rest) == before.w.acc + Union(before.rest) + x;
      assert before.w.acc + (Union(before.rest) + x) == before.w.acc + Union(before.rest) + x;
      assert m.acc + (Union(next[..k - 1]) + x) == m.acc + Union(next[..k - 1]) + x;
    }
  }

  lemma {:induction false} MergeKeepsUnion(next: seq<Window>, m: Window)
    ensures MergeLoop(next, m).w.acc + Union(MergeLoop(next, m).rest) == m.acc + Union(next)
    decreases |next|
  {
    var p := Pass(next, |next|, m);
    PassKeepsUnion(next, |next|, m);
    assert next[..|next|] == next;
    if |p.rest| < |next| {
      MergeKeepsUnion(p.rest, p.w);
    }
  }

  lemma {:induction false} PassGrowsGroup(c: Config, key: Key, next: seq<Window>, k: nat, m: Window, e: Event)
    requires c.gap > 0 && SessionsOk(c, key, next) && Growing(c, key, m, e) && k <= |next|
    ensures Growing(c, key, Pass(next, k, m).w, e)
  {
    var grows := (w: Window) => Growing(c, key, w, e);
    forall j, w | 0 <= j < |next| && grows(w) && Touches(next[j], w) ensures grows(Absorb(w, next[j])) {
      AbsorbGrows(c, key, w, next[j], e);
    }
    PassKeeps(next, k, m, grows);
  }

  /** What every absorbed session keeps, a whole pass keeps. */
  lemma {:induction false} PassKeeps(next: seq<Window>, k: nat, m: Window, kept: Window -> bool)
    requires k <= |next| && kept(m)
    requires forall j, w :: 0 <= j < |next| && kept(w) && Touches(next[j], w) ==> kept(Absorb(w, next[j]))
    ensures kept(Pass(next, k, m).w)
  {
    if k > 0 {
      PassKeeps(next, k - 1, m, kept);
    }
  }

  lemma PassKeepsSessions(c: Config, key: Key, next: seq<Window>, m: Window)
    requires SessionsOk(c, key, next)
    ensures SessionsOk(c, key, Pass(next, |next|, m).rest)
  {
    forall i | 0 <= i < |Pass(next, |next|, m).rest| ensures SessionOk(c, key, Pass(next, |next|, m).rest[i]) {
      var j := PassMember(next, |next|, m, i);
    }
  }

  lemma {:induction false} MergeGrowsGroup(c: Config, key: Key, next: seq<Window>, m: Window, e: Event)
    requires c.gap > 0 && SessionsOk(c, key, next) && Growing(c, key, m, e)
    ensures Growing(c, key, MergeLoop(next, m).w, e) && SessionsOk(c, key, MergeLoop(next, m).rest)
    decreases |next|
  {
    PassGrowsGroup(c, key, next, |next|, m, e);
    PassKeepsSessions(c, key, next, m);
    var p := Pass(next, |next|, m);
    if |p.rest| < |next| {
      MergeGrowsGroup(c, key, p.rest, p.w, e);
    }
  }

  // ---------------------------------------------------------------- steps

  lemma SeedGrows(c: Config, e: Event)
    ensures Growing(c, e.key, Window(e.time, e.time + c.gap, multiset{}, false, false), e)
  {
    OneIsAGroup(c.gap, e);
    assert multiset{} + multiset{e} == multiset{e};
  }

  lemma GrownIsSession(c: Config, wm: int, m: Window, e: Event)
    requires Growing(c, e.key, m, e)
    ensures SessionOk(c, e.key, Joined(wm, m, e))
  {
  }

  lemma SessionsSnoc(c: Config, key: Key, ws: seq<Window>, w: Window)
    requires SessionsOk(c, key, ws) && SessionOk(c, key, w)
    ensures SessionsOk(c, key, ws + [w])
  {
  }

  lemma SessionAccepts(c: Config, wm: int, ws: seq<Window>, e: Event, end: int)
    requires c.gap > 0 && SessionsOk(c, e.key, ws) && end == e.time + c.gap
    ensures SessionsOk(c, e.key, PlaceSession(c, wm, ws, e, end).ws)
  {
    var seed := Window(e.time, end, multiset{}, false, false);
    SeedGrows(c, e);
    MergeGrowsGroup(c, e.key, ws, seed, e);
    var m := MergeLoop(ws, seed);
    GrownIsSession(c, wm, m.w, e);
    SessionsSnoc(c, e.key, m.rest, Joined(wm, m.w, e));
  }

  /** An accepted event joins exactly one session and every earlier event stays. */
  lemma SessionConserves(c: Config, wm: int, ws: seq<Window>, e: Event, end: int)
    ensures var p := PlaceSession(c, wm, ws, e, end);
      p.accepted <= 1 && Union(p.ws) == if p.accepted == 1 then Union(ws) + multiset{e} else Union(ws)
  {
    var seed := Window(e.time, end, multiset{}, false, false);
    MergeKeepsUnion(ws, seed);
    var m := MergeLoop(ws, seed);
    UnionSnoc(m.rest, Joined(wm, m.w, e));
    assert m.w.acc + Union(m.rest) == Union(ws);
  }

  lemma {:induction false} InsertUnion(w: Window, ws: seq<Window>)
    ensures Union(InsertByStart(w, ws)) == Union(ws) + w.acc
  {
    if ws == [] || w.start <= ws[0].start {
      UnionCons(w, ws);
    } else {
      InsertUnion(w, ws[1..]);
      UnionCons(ws[0], InsertByStart(w, ws[1..]));
      UnionCons(ws[0], ws[1..]);
      assert ws == [ws[0]] + ws[1..];
    }
  }

  lemma {:induction false} UnionCons(w: Window, ws: seq<Window>)
    ensures Union([w] + ws) == w.acc + Union(ws)
  {
    if ws == [] {
      assert [w] + ws == [w] && [w][..0] == [];
    } else {
      var n := |ws| - 1;
      UnionCons(w, ws[..n]);
      assert ([w] + ws)[..n + 1] == [w] + ws[..n];
    }
  }

  lemma {:induction false} SortUnion(ws: seq<Window>)
    ensures Union(SortByStart(ws)) == Union(ws)
  {
    if ws != [] {
      SortUnion(ws[1..]);
      InsertUnion(ws[0], SortByStart(ws[1..]));
      UnionCons(ws[0], ws[1..]);
      assert ws == [ws[0]] + ws[1..];
    }
  }

  lemma SortSessions(c: Config, key: Key, ws: seq<Window>)
    requires SessionsOk(c, key, ws)
    ensures SessionsOk(c, key, SortByStart(ws))
  {
    SortMembers(ws);
    forall i | 0 <= i < |ws| ensures SessionOk(c, key, SortByStart(ws)[i]) {
      var j := SameMembers(ws, SortByStart(ws), i);
    }
  }

  // ---------------------------------------------------------------- grouping is canonical

  ghost predicate Sessions(c: Config, key: Key, ws: seq<Window>) {
    SessionsOk(c, key, ws) && Spread(c, ws) && Ascending(ws)
  }

  /** Same hulls and same events, window by window. */
  predicate SameGroups(ws: seq<Window>, vs: seq<Window>) {
    |ws| == |vs| && forall i :: 0 <= i < |ws| ==>
      ws[i].start == vs[i].start && ws[i].end == vs[i].end && ws[i].acc == vs[i].acc
  }

  lemma GroupNotEmpty(gap: int, acc: multiset<Event>, start: int, end: int)
    requires Group(gap, acc, start, end)
    ensures acc != multiset{} && start + gap <= end
  {
    var e :| e in acc && e.time == start;
  }

  lemma {:induction false} UnionMember(ws: seq<Window>, e: Event) returns (i: nat)
    requires e in Union(ws)
    ensures i < |ws| && e in ws[i].acc
  {
    var n := |ws| - 1;
    if e in ws[n].acc {
      i := n;
    } else {
      i := UnionMember(ws[..n], e);
    }
  }

  lemma {:induction false} MemberUnion(ws: seq<Window>, i: nat, e: Event)
    requires i < |ws| && e in ws[i].acc
    ensures e in Union(ws)
  {
    var n := |ws| - 1;
    if i < n {
      MemberUnion(ws[..n], i, e);
    }
  }

  /** Events of the last session start after every other session has ended. */
  lemma LastIsMax(c: Config, key: Key, ws: seq<Window>, e: Event)
    requires c.kind == Session && c.gap > 0 && Sessions(c, key, ws) && ws != [] && e in Union(ws[..|ws| - 1])
    ensures e.time + c.gap < ws[|ws| - 1].start
  {
    var n := |ws| - 1;
    var i := UnionMember(ws[..n], e);
    assert Spaced(c, ws[i], ws[n]) && SessionOk(c, key, ws[i]) && SessionOk(c, key, ws[n]);
    GroupNotEmpty(c.gap, ws[i].acc, ws[i].start, ws[i].end);
    GroupNotEmpty(c.gap, ws[n].acc, ws[n].start, ws[n].end);
  }

  lemma EarlierSessions(c: Config, key: Key, ws: seq<Window>)
    requires Sessions(c, key, ws) && ws != []
    ensures Sessions(c, key, ws[..|ws| - 1])
  {
  }

  lemma LastEndIsMax(c: Config, key: Key, ws: seq<Window>, e: Event)
    requires c.kind == Session && c.gap > 0 && Sessions(c, key, ws) && ws != [] && e in Union(ws)
    ensures e.time + c.gap <= ws[|ws| - 1].end
  {
    var n := |ws| - 1;
    assert SessionOk(c, key, ws[n]);
    if e !in ws[n].acc {
      LastIsMax(c, key, ws, e);
      GroupNotEmpty(c.gap, ws[n].acc, ws[n].start, ws[n].end);
    }
  }

  lemma LastEndsAgree(c: Config, key: Key, ws: seq<Window>, vs: seq<Window>)
    requires c.kind == Session && c.gap > 0 && Sessions(c, key, ws) && Sessions(c, key, vs)
    requires ws != [] && vs != [] && Union(ws) == Union(vs)
    ensures ws[|ws| - 1].end <= vs[|vs| - 1].end
  {
    var n := |ws| - 1;
    assert SessionOk(c, key, ws[n]);
    var e :| e in ws[n].acc && e.time + c.gap == ws[n].end;
    MemberUnion(ws, n, e);
    LastEndIsMax(c, key, vs, e);
  }

  lemma LastStartsAgree(c: Config, key: Key, ws: seq<Window>, vs: seq<Window>)
    requires c.kind == Session && c.gap > 0 && Sessions(c, key, ws) && Sessions(c, key, vs)
    requires ws != [] && vs != [] && Union(ws) == Union(vs) && ws[|ws| - 1].end == vs[|vs| - 1].end
    ensures vs[|vs| - 1].start <= ws[|ws| - 1].start
  {
    var w, v := ws[|ws| - 1], vs[|vs| - 1];
    assert SessionOk(c, key, w) && SessionOk(c, key, v);
    if w.start < v.start {
      var first :| first in w.acc && first.time == w.start;
      var x := LatestUpTo(w.acc, v.start - 1);
      GroupNotEmpty(c.gap, v.acc, v.start, v.end);
      assert Continued(c.gap, w.acc, w.end, x);
      var f :| f in w.acc && Follows(c.gap, x, f);
      MemberUnion(ws, |ws| - 1, x);
      LastIsMax(c, key, vs, x);
    }
  }

  lemma LastEventsAgree(c: Config, key: Key, ws: seq<Window>, vs: seq<Window>)
    requires c.kind == Session && c.gap > 0 && Sessions(c, key, ws) && Sessions(c, key, vs)
    requires ws != [] && vs != [] && Union(ws) == Union(vs)
    requires ws[|ws| - 1].start == vs[|vs| - 1].start
    ensures ws[|ws| - 1].acc == vs[|vs| - 1].acc && Union(ws[..|ws| - 1]) == Union(vs[..|vs| - 1])
  {
    var w, v := ws[|ws| - 1], vs[|vs| - 1];
    forall e ensures w.acc[e] == v.acc[e] {
      LastShare(c, key, ws, e);
      LastShare(c, key, vs, e);
    }
    assert w.acc == v.acc;
    assert Union(ws[..|ws| - 1]) == Union(ws) - w.acc;
    assert Union(vs[..|vs| - 1]) == Union(vs) - v.acc;
  }

  /** The last session holds every occurrence of an event from its start on, and none before. */
  lemma LastShare(c: Config, key: Key, ws: seq<Window>, e: Event)
    requires c.kind == Session && c.gap > 0 && Sessions(c, key, ws) && ws != []
    ensures ws[|ws| - 1].acc[e] == if e.time >= ws[|ws| - 1].start then Union(ws)[e] else 0
  {
    var n := |ws| - 1;
    assert SessionOk(c, key, ws[n]);
    if e in Union(ws[..n]) {
      LastIsMax(c, key, ws, e);
    }
  }

  /** Strictly separated groups of the same events are the same groups. */
  lemma {:induction false} GroupingIsCanonical(c: Config, key: Key, ws: seq<Window>, vs: seq<Window>)
    requires c.kind == Session && c.gap > 0 && Sessions(c, key, ws) && Sessions(c, key, vs) && Union(ws) == Union(vs)
    ensures SameGroups(ws, vs)
    decreases |ws|
  {
    if ws == [] || vs == [] {
      NoEventsNoSessions(c, key, ws);
      NoEventsNoSessions(c, key, vs);
    } else {
      LastEndsAgree(c, key, ws, vs);
      LastEndsAgree(c, key, vs, ws);
      LastStartsAgree(c, key, ws, vs);
      LastStartsAgree(c, key, vs, ws);
      LastEventsAgree(c, key, ws, vs);
      EarlierSessions(c, key, ws);
      EarlierSessions(c, key, vs);
      GroupingIsCanonical(c, key, ws[..|ws| - 1], vs[..|vs| - 1]);
      SameGroupsSnoc(ws, vs);
    }
  }

  lemma SameGroupsSnoc(ws: seq<Window>, vs: seq<Window>)
    requires ws != [] && vs != [] && SameGroups(ws[..|ws| - 1], vs[..|vs| - 1])
    requires SameGroups([ws[|ws| - 1]], [vs[|vs| - 1]])
    ensures SameGroups(ws, vs)
  {
    var n := |ws| - 1;
    assert [ws[n]][0].start == [vs[n]][0].start;
    forall i | 0 <= i < |ws| ensures ws[i].start == vs[i].start && ws[i].end == vs[i].end && ws[i].acc == vs[i].acc {
      if i < n {
        assert ws[..n][i].start == vs[..n][i].start;
      }
    }
  }

  lemma NoEventsNoSessions(c: Config, key: Key, ws: seq<Window>)
    requires Sessions(c, key, ws)
    ensures Union(ws) == multiset{} <==> ws == []
  {
    if ws != [] {
      var n := |ws| - 1;
      assert SessionOk(c, key, ws[n]);
      GroupNotEmpty(c.gap, ws[n].acc, ws[n].start, ws[n].end);
      var e :| e in ws[n].acc;
      MemberUnion(ws, n, e);
    }
  }

  // ---------------------------------------------------------------- order of arrival

  /** The windows after the events, provided each of them was accepted. */
  function AcceptAll(c: Config, wm: int, ws: seq<Window>, es: seq<Event>): Option<seq<Window>> {
    if es == [] then Some(ws)
    else
      var n := |es| - 1;
      match AcceptAll(c, wm, ws, es[..n])
      case None => None
      case Some(before) => AcceptOne(c, wm, before, es[n])
  }

  function AcceptOne(c: Config, wm: int, before: seq<Window>, e: Event): Option<seq<Window>> {
    if WindowEnd(e.time, c.gap) == None then None
    else
      var p := PlaceSession(c, wm, before, e, e.time + c.gap);
      if p.accepted == 0 then None else Some(SortByStart(p.ws))
  }

  /** Accepting an event is processing it, for one key's sessions. */
  lemma AcceptOneIsProcess(c: Config, wm: int, before: seq<Window>, e: Event)
    requires c.Valid() && c.kind == Session
    ensures AcceptOne(c, wm, before, e) ==
      match ProcessKey(c, wm, before, e)
      case None => None
      case Some(effect) => if effect.p.accepted == 0 then None else Some(SortByStart(effect.p.ws))
  {
  }

  lemma PlacedShape(c: Config, wm: int, before: seq<Window>, e: Event, p: Placed)
    requires c.kind == Session && c.gap > 0 && Spread(c, before) && AllShaped(c, wm, before)
    requires p == PlaceSession(c, wm, before, e, e.time + c.gap) && e.time + c.gap <= MAX_INT64
    ensures Spread(c, p.ws) && AllShaped(c, wm, p.ws)
  {
    SessionKeeps(c, wm, before, e, e.time + c.gap);
  }

  lemma PlacedGroups(c: Config, wm: int, before: seq<Window>, e: Event, p: Placed)
    requires c.gap > 0 && SessionsOk(c, e.key, before) && p == PlaceSession(c, wm, before, e, e.time + c.gap)
    ensures SessionsOk(c, e.key, p.ws)
  {
    SessionAccepts(c, wm, before, e, e.time + c.gap);
  }

  lemma PlacedUnion(c: Config, wm: int, before: seq<Window>, e: Event, p: Placed)
    requires p == PlaceSession(c, wm, before, e, e.time + c.gap) && p.accepted != 0
    ensures Union(p.ws) == Union(before) + multiset{e}
  {
    SessionConserves(c, wm, before, e, e.time + c.gap);
  }

  ghost predicate Retained(c: Config, wm: int, key: Key, ws: seq<Window>, events: multiset<Event>) {
    Sessions(c, key, ws) && AllShaped(c, wm, ws) && Union(ws) == events
  }

  lemma SortRetains(c: Config, wm: int, key: Key, ws: seq<Window>, events: multiset<Event>)
    requires SessionsOk(c, key, ws) && Spread(c, ws) && AllShaped(c, wm, ws) && Union(ws) == events
    ensures Retained(c, wm, key, SortByStart(ws), events)
  {
    SortKeeps(c, wm, ws);
    SortSessions(c, key, ws);
    SortUnion(ws);
  }

  lemma RetainedAfter(c: Config, wm: int, before: seq<Window>, e: Event, events: multiset<Event>, p: Placed)
    requires c.kind == Session && c.gap > 0 && Retained(c, wm, e.key, before, events)
    requires p == PlaceSession(c, wm, before, e, e.time + c.gap) && p.accepted != 0 && e.time + c.gap <= MAX_INT64
    ensures Retained(c, wm, e.key, SortByStart(p.ws), events + multiset{e})
  {
    PlacedShape(c, wm, before, e, p);
    PlacedGroups(c, wm, before, e, p);
    PlacedUnion(c, wm, before, e, p);
    SortRetains(c, wm, e.key, p.ws, events + multiset{e});
  }

  lemma RetainedOne(c: Config, wm: int, before: seq<Window>, e: Event, events: multiset<Event>, after: seq<Window>)
    requires c.kind == Session && c.gap > 0 && Retained(c, wm, e.key, before, events)
    requires AcceptOne(c, wm, before, e) == Some(after)
    ensures Retained(c, wm, e.key, after, events + multiset{e})
  {
    RetainedAfter(c, wm, before, e, events, PlaceSession(c, wm, before, e, e.time + c.gap));
  }

  lemma AcceptSplit(c: Config, wm: int, ws: seq<Window>, es: seq<Event>, after: seq<Window>)
    returns (before: seq<Window>)
    requires es != [] && AcceptAll(c, wm, ws, es) == Some(after)
    ensures AcceptAll(c, wm, ws, es[..|es| - 1]) == Some(before)
    ensures AcceptOne(c, wm, before, es[|es| - 1]) == Some(after)
  {
    before := AcceptAll(c, wm, ws, es[..|es| - 1]).value;
  }

  lemma OneMoreEvent(events: multiset<Event>, es: seq<Event>)
    requires es != []
    ensures var n := |es| - 1; events + multiset(es[..n]) + multiset{es[n]} == events + multiset(es)
  {
    var n := |es| - 1;
    assert es == es[..n] + [es[n]];
  }

  lemma {:induction false} AcceptAllSessions(c: Config, wm: int, key: Key, ws: seq<Window>, es: seq<Event>,
                                             events: multiset<Event>, after: seq<Window>)
    requires c.kind == Session && c.gap > 0 && Retained(c, wm, key, ws, events)
    requires (forall i :: 0 <= i < |es| ==> es[i].key == key) && AcceptAll(c, wm, ws, es) == Some(after)
    ensures Retained(c, wm, key, after, events + multiset(es))
    decreases |es|
  {
    if es == [] {
      assert events + multiset(es) == events;
    } else {
      var n := |es| - 1;
      var before := AcceptSplit(c, wm, ws, es, after);
      AcceptAllSessions(c, wm, key, ws, es[..n], events, before);
      OneMoreEvent(events, es);
      RetainedOne(c, wm, before, es[n], events + multiset(es[..n]), after);
    }
  }

  /** From any sessions and at one watermark, the same accepted events make the same sessions in any order. */
  lemma ArrivalOrderIsIrrelevant(c: Config, wm: int, key: Key, ws: seq<Window>, es: seq<Event>, fs: seq<Event>,
                                 one: seq<Window>, other: seq<Window>)
    requires c.kind == Session && c.gap > 0 && Sessions(c, key, ws) && AllShaped(c, wm, ws)
    requires multiset(es) == multiset(fs) && forall i :: 0 <= i < |es| ==> es[i].key == key
    requires AcceptAll(c, wm, ws, es) == Some(one) && AcceptAll(c, wm, ws, fs) == Some(other)
    ensures SameGroups(one, other)
  {
    forall i | 0 <= i < |fs| ensures fs[i].key == key {
      assert fs[i] in multiset(fs);
      var j :| 0 <= j < |es| && es[j] == fs[i];
    }
    AcceptAllSessions(c, wm, key, ws, es, Union(ws), one);
    AcceptAllSessions(c, wm, key, ws, fs, Union(ws), other);
    GroupingIsCanonical(c, key, one, other);
  }
}
