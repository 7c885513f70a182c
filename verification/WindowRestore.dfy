/** Restoring a checkpoint reproduces the state, and whatever restores is a state the processor keeps. */
module WindowRestore {
  import opened Windows
  import opened WindowShape
  import opened WindowSnapshot
  import opened WindowRuns

  // ---------------------------------------------------------------- accepted snapshots are well shaped

  function GroupAt(entries: seq<Entry>, k: nat, key: Key): seq<Window>
    requires k <= |entries|
  {
    if key in Grouped(entries, k) then Grouped(entries, k)[key] else []
  }

  /** A window of a group is an entry of that key; later windows are later entries. */
  lemma {:induction false} GroupPair(entries: seq<Entry>, k: nat, key: Key, a: nat, b: nat) returns (i: nat, j: nat)
    requires k <= |entries| && a < b < |GroupAt(entries, k, key)|
    ensures i < j < k && entries[i] == Entry(key, GroupAt(entries, k, key)[a])
    ensures entries[j] == Entry(key, GroupAt(entries, k, key)[b])
  {
    var before := GroupAt(entries, k - 1, key);
    if b < |before| {
      i, j := GroupPair(entries, k - 1, key, a, b);
    } else {
      i := GroupMember(entries, k - 1, key, a);
      j := k - 1;
    }
  }

  lemma {:induction false} GroupMember(entries: seq<Entry>, k: nat, key: Key, a: nat) returns (i: nat)
    requires k <= |entries| && a < |GroupAt(entries, k, key)|
    ensures i < k && entries[i] == Entry(key, GroupAt(entries, k, key)[a])
  {
    var before := GroupAt(entries, k - 1, key);
    if a < |before| {
      i := GroupMember(entries, k - 1, key, a);
    } else {
      i := k - 1;
    }
  }

  lemma EntryShaped(c: Config, wm: int, w: Window)
    requires c.Valid() && EntryOk(c, wm, w) && w.end <= MAX_INT64
    ensures Shaped(c, wm, w)
  {
  }

  lemma GroupShaped(c: Config, snapshot: Snapshot, key: Key)
    requires c.Valid() && Representable(snapshot) && EntriesOk(c, snapshot.watermark, snapshot.entries)
    ensures AllShaped(c, snapshot.watermark, GroupAt(snapshot.entries, |snapshot.entries|, key))
  {
    var group := GroupAt(snapshot.entries, |snapshot.entries|, key);
    forall a | 0 <= a < |group| ensures Shaped(c, snapshot.watermark, group[a]) {
      var i := GroupMember(snapshot.entries, |snapshot.entries|, key, a);
      EntryShaped(c, snapshot.watermark, snapshot.entries[i].w);
    }
  }

  lemma EntryOnGrid(c: Config, wm: int, w: Window)
    requires c.Valid() && c.kind != Session && EntryOk(c, wm, w)
    ensures w.start % c.Step() == 0
  {
    RemainderIsFloor(w.start, c.Step());
  }

  lemma GroupOnGrid(c: Config, snapshot: Snapshot, key: Key)
    requires c.Valid() && EntriesOk(c, snapshot.watermark, snapshot.entries)
    ensures OnGrid(c, GroupAt(snapshot.entries, |snapshot.entries|, key))
  {
    var group := GroupAt(snapshot.entries, |snapshot.entries|, key);
    forall a | 0 <= a < |group| && c.kind != Session ensures group[a].start % c.Step() == 0 {
      var i := GroupMember(snapshot.entries, |snapshot.entries|, key, a);
      EntryOnGrid(c, snapshot.watermark, snapshot.entries[i].w);
    }
  }

  lemma GroupSpread(c: Config, snapshot: Snapshot, key: Key)
    requires c.Valid() && c.kind != Session && Distinct(snapshot.entries)
    requires EntriesOk(c, snapshot.watermark, snapshot.entries)
    ensures Spread(c, GroupAt(snapshot.entries, |snapshot.entries|, key))
  {
    var group := GroupAt(snapshot.entries, |snapshot.entries|, key);
    forall a, b | 0 <= a < b < |group| ensures Spaced(c, group[a], group[b]) {
      var i, j := GroupPair(snapshot.entries, |snapshot.entries|, key, a, b);
      assert Bounds(snapshot.entries[i]) != Bounds(snapshot.entries[j]);
      assert EntryOk(c, snapshot.watermark, snapshot.entries[i].w);
      assert EntryOk(c, snapshot.watermark, snapshot.entries[j].w);
    }
  }

  lemma {:induction false} SeparateAt(c: Config, wm: int, ws: seq<Window>, i: nat, j: nat)
    requires Separate(ws) && AllShaped(c, wm, ws) && i < j < |ws|
    ensures ws[i].end < ws[j].start && ws[i].start < ws[j].start
    decreases j
  {
    assert Shaped(c, wm, ws[i]) && Shaped(c, wm, ws[j - 1]);
    if i < j - 1 {
      SeparateAt(c, wm, ws, i, j - 1);
    }
  }

  lemma SortedSession(c: Config, wm: int, ws: seq<Window>)
    requires c.kind == Session && AllShaped(c, wm, ws) && Separate(SortByStart(ws))
    ensures var r := SortByStart(ws); Spread(c, r) && Ascending(r) && AllShaped(c, wm, r) && |r| == |ws|
  {
    var r := SortByStart(ws);
    SortMembers(ws);
    forall i | 0 <= i < |r| ensures Shaped(c, wm, r[i]) {
      var j := SameMembers(ws, r, i);
    }
    forall i, j | 0 <= i < j < |r| ensures Spaced(c, r[i], r[j]) && r[i].start < r[j].start {
      SeparateAt(c, wm, r, i, j);
    }
  }

  lemma {:induction false} GroupsNotEmpty(entries: seq<Entry>, k: nat, key: Key)
    requires k <= |entries| && key in Grouped(entries, k)
    ensures Grouped(entries, k)[key] != []
  {
    if key in Grouped(entries, k - 1) && key != entries[k - 1].key {
      GroupsNotEmpty(entries, k - 1, key);
    }
  }

  lemma RestoredList(c: Config, snapshot: Snapshot, key: Key)
    requires c.Valid() && Representable(snapshot) && Acceptable(c, snapshot)
    requires key in Grouped(snapshot.entries, |snapshot.entries|)
    ensures ListOk(c, snapshot.watermark, Restored(snapshot).windows[key])
  {
    var group := GroupAt(snapshot.entries, |snapshot.entries|, key);
    GroupShaped(c, snapshot, key);
    GroupOnGrid(c, snapshot, key);
    SortKeepsGrid(c, group);
    GroupsNotEmpty(snapshot.entries, |snapshot.entries|, key);
    SortMembers(group);
    if c.kind == Session {
      assert key in SortedAll(Grouped(snapshot.entries, |snapshot.entries|));
      SortedSession(c, snapshot.watermark, group);
    } else {
      GroupSpread(c, snapshot, key);
      SortKeeps(c, snapshot.watermark, group);
    }
  }

  lemma {:induction false} CountGrouped(entries: seq<Entry>, k: nat)
    requires k <= |entries|
    ensures Count(Grouped(entries, k)) == k
  {
    if k > 0 {
      CountGrouped(entries, k - 1);
      var before, e := Grouped(entries, k - 1), entries[k - 1];
      CountPut(before, e.key, (if e.key in before then before[e.key] else []) + [e.w]);
    }
  }

  lemma CountSorted(m: map<Key, seq<Window>>)
    ensures Count(SortedAll(m)) == Count(m)
  {
    forall key | key in m ensures |SortByStart(m[key])| == |m[key]| {
      SortMembers(m[key]);
    }
    CountAtMost(SortedAll(m), m);
    CountAtMost(m, SortedAll(m));
  }

  /** Every snapshot that restores yields a state with the invariant that processing keeps. */
  lemma AcceptedIsWellShaped(c: Config, snapshot: Snapshot)
    requires c.Valid() && Representable(snapshot) && Acceptable(c, snapshot)
    ensures StateOk(c, Restored(snapshot))
  {
    var groups := Grouped(snapshot.entries, |snapshot.entries|);
    forall key | key in Restored(snapshot).windows
      ensures ListOk(c, snapshot.watermark, Restored(snapshot).windows[key])
    {
      RestoredList(c, snapshot, key);
    }
    CountGrouped(snapshot.entries, |snapshot.entries|);
    CountSorted(groups);
  }

  // ---------------------------------------------------------------- round trip

  lemma {:induction false} AscendingIsSorted(ws: seq<Window>)
    requires Ascending(ws)
    ensures SortByStart(ws) == ws
  {
    if ws != [] {
      var tail := ws[1..];
      forall i, j | 0 <= i < j < |tail| ensures tail[i].start < tail[j].start {
        assert ws[i + 1].start < ws[j + 1].start;
      }
      AscendingIsSorted(tail);
      if tail != [] {
        assert ws[0].start < ws[1].start;
      }
    }
  }

  lemma {:induction false} GroupedPrefix(a: seq<Entry>, b: seq<Entry>, k: nat)
    requires k <= |a|
    ensures Grouped(a + b, k) == Grouped(a, k)
  {
    if k > 0 {
      GroupedPrefix(a, b, k - 1);
    }
  }

  /** A run of entries of one new key forms that key's group. */
  lemma {:induction false} GroupedTag(a: seq<Entry>, key: Key, ws: seq<Window>, k: nat, all: seq<Entry>)
    requires key !in Grouped(a, |a|) && k <= |ws| && all == a + Tag(key, ws)
    ensures Grouped(all, |a| + k) == if k == 0 then Grouped(a, |a|) else Grouped(a, |a|)[key := ws[..k]]
  {
    if k == 0 {
      GroupedPrefix(a, Tag(key, ws), |a|);
    } else {
      GroupedTag(a, key, ws, k - 1, all);
      assert all[|a| + k - 1] == Entry(key, ws[k - 1]);
      assert ws[..k] == ws[..k - 1] + [ws[k - 1]];
    }
  }

  function Only(windows: map<Key, seq<Window>>, keys: seq<Key>): map<Key, seq<Window>> {
    map key | key in windows && key in keys :: windows[key]
  }

  lemma {:induction false} GroupedFlat(windows: map<Key, seq<Window>>, keys: seq<Key>)
    requires forall key :: key in keys ==> key in windows && windows[key] != []
    requires forall i, j :: 0 <= i < j < |keys| ==> keys[i] < keys[j]
    ensures Grouped(Flat(windows, keys), |Flat(windows, keys)|) == Only(windows, keys)
  {
    if keys != [] {
      var n := |keys| - 1;
      var a, ws := Flat(windows, keys[..n]), windows[keys[n]];
      GroupedFlat(windows, keys[..n]);
      assert keys[n] !in keys[..n];
      GroupedWhole(a, keys[n], ws, Flat(windows, keys));
      OnlyNext(windows, keys);
    }
  }

  lemma GroupedWhole(a: seq<Entry>, key: Key, ws: seq<Window>, all: seq<Entry>)
    requires key !in Grouped(a, |a|) && ws != [] && all == a + Tag(key, ws)
    ensures Grouped(all, |all|) == Grouped(a, |a|)[key := ws]
  {
    GroupedTag(a, key, ws, |ws|, all);
    assert ws[..|ws|] == ws;
  }

  lemma OnlyNext(windows: map<Key, seq<Window>>, keys: seq<Key>)
    requires keys != [] && keys[|keys| - 1] in windows
    ensures var n := |keys| - 1; Only(windows, keys) == Only(windows, keys[..n])[keys[n] := windows[keys[n]]]
  {
    var n := |keys| - 1;
    assert keys == keys[..n] + [keys[n]];
  }

  lemma {:induction false} FlatEntry(windows: map<Key, seq<Window>>, keys: seq<Key>, i: nat) returns (j: nat)
    requires (forall key :: key in keys ==> key in windows) && i < |Flat(windows, keys)|
    ensures Flat(windows, keys)[i].key in keys && j < |windows[Flat(windows, keys)[i].key]|
    ensures Flat(windows, keys)[i].w == windows[Flat(windows, keys)[i].key][j]
  {
    var n := |keys| - 1;
    var a := Flat(windows, keys[..n]);
    if i < |a| {
      j := FlatEntry(windows, keys[..n], i);
    } else {
      j := i - |a|;
    }
  }

  lemma {:induction false} FlatDistinct(c: Config, wm: int, windows: map<Key, seq<Window>>, keys: seq<Key>)
    requires forall key :: key in keys ==> key in windows && ListOk(c, wm, windows[key])
    requires forall i, j :: 0 <= i < j < |keys| ==> keys[i] < keys[j]
    ensures Distinct(Flat(windows, keys))
  {
    if keys != [] {
      var n := |keys| - 1;
      var a, b := Flat(windows, keys[..n]), Tag(keys[n], windows[keys[n]]);
      FlatDistinct(c, wm, windows, keys[..n]);
      forall i, j | 0 <= i < j < |a + b| ensures Bounds((a + b)[i]) != Bounds((a + b)[j]) {
        if j >= |a| && i < |a| {
          var at := FlatEntry(windows, keys[..n], i);
          assert keys[n] !in keys[..n];
        }
      }
    }
  }

  lemma ShapedEntry(c: Config, wm: int, ws: seq<Window>, j: nat)
    requires c.Valid() && ListOk(c, wm, ws) && j < |ws|
    ensures EntryOk(c, wm, ws[j])
  {
    assert Shaped(c, wm, ws[j]);
    if c.kind != Session {
      RemainderIsFloor(ws[j].start, c.Step());
    }
  }

  lemma SpreadIsSeparate(c: Config, wm: int, ws: seq<Window>)
    requires c.kind == Session && ListOk(c, wm, ws)
    ensures Separate(ws)
  {
    forall i | 0 < i < |ws| ensures ws[i - 1].end < ws[i].start {
      assert Spaced(c, ws[i - 1], ws[i]) && Shaped(c, wm, ws[i]) && Shaped(c, wm, ws[i - 1]);
    }
  }

  /** Restoring a checkpoint succeeds and gives back the checkpointed state. */
  lemma RestoreUndoesCheckpoint(c: Config, s: State, snapshot: Snapshot)
    requires c.Valid() && StateOk(c, s) && Describes(snapshot, c, s)
    ensures Acceptable(c, snapshot) && Restored(snapshot) == s
  {
    var keys :| InKeyOrder(s.windows, keys) && snapshot == Snapshot(1, c, s.watermark, Flat(s.windows, keys), s.stats);
    ListedRestores(c, s, keys, snapshot);
  }

  lemma ListedRestores(c: Config, s: State, keys: seq<Key>, snapshot: Snapshot)
    requires c.Valid() && StateOk(c, s) && InKeyOrder(s.windows, keys)
    requires snapshot == Snapshot(1, c, s.watermark, Flat(s.windows, keys), s.stats)
    ensures Acceptable(c, snapshot) && Restored(snapshot) == s
  {
    var entries := snapshot.entries;
    GroupedFlat(s.windows, keys);
    assert Only(s.windows, keys) == s.windows;
    CountGrouped(entries, |entries|);
    FlatDistinct(c, s.watermark, s.windows, keys);
    forall i | 0 <= i < |entries| ensures EntryOk(c, s.watermark, entries[i].w) {
      var j := FlatEntry(s.windows, keys, i);
      ShapedEntry(c, s.watermark, s.windows[entries[i].key], j);
    }
    SortedUnchanged(c, s);
  }

  lemma SortedUnchanged(c: Config, s: State)
    requires StateOk(c, s)
    ensures SortedAll(s.windows) == s.windows && AllSeparate(c, s.windows)
  {
    forall key | key in s.windows ensures SortByStart(s.windows[key]) == s.windows[key] {
      AscendingIsSorted(s.windows[key]);
    }
    forall key | key in s.windows && c.kind == Session ensures Separate(s.windows[key]) {
      SpreadIsSeparate(c, s.watermark, s.windows[key]);
    }
  }

  /** In particular for every state any run reaches. */
  lemma EveryReachableStateRestores(c: Config, trace: seq<Trace>, inputs: seq<Input>, k: nat, snapshot: Snapshot)
    requires c.Valid() && Run(c, trace, inputs) && k < |trace| && Describes(snapshot, c, trace[k].s)
    ensures Acceptable(c, snapshot) && Restored(snapshot) == trace[k].s
  {
    ShapeAt(c, trace, inputs, k);
    RestoreUndoesCheckpoint(c, trace[k].s, snapshot);
  }
}
