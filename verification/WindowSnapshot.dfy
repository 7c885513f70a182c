/**
  Window snapshots (internal/engine/window_snapshot.go).  The JSON body and its checksum are taken
  as a faithful encoding, so a snapshot is the value they carry.
 */
module WindowSnapshot {
  import opened Basics
  import opened Windows

  datatype Entry = Entry(key: Key, w: Window)

  datatype Snapshot = Snapshot(version: nat, config: Config, watermark: int, entries: seq<Entry>, stats: Stats)

  // ---------------------------------------------------------------- writing

  function Tag(key: Key, ws: seq<Window>): seq<Entry> {
    seq(|ws|, i requires 0 <= i < |ws| => Entry(key, ws[i]))
  }

  /** The windows of the keys, one key after the other. */
  function Flat(windows: map<Key, seq<Window>>, keys: seq<Key>): seq<Entry>
    requires forall key :: key in keys ==> key in windows
  {
    if keys == [] then []
    else
      var n := |keys| - 1;
      Flat(windows, keys[..n]) + Tag(keys[n], windows[keys[n]])
  }

  /** The snapshot lists the whole state, key after key in ascending order. */
  ghost predicate Describes(snapshot: Snapshot, c: Config, s: State) {
    exists keys :: InKeyOrder(s.windows, keys) && snapshot
      == Snapshot(1, c, s.watermark, Flat(s.windows, keys), s.stats)
  }

  method Checkpoint(p: WindowProcessor) returns (snapshot: Snapshot)
    ensures Describes(snapshot, p.config, p.View())
  {
    var order := p.SortedKeys();
    var entries: seq<Entry> := [];
    for i := 0 to |order|
      invariant entries == Flat(p.windows, order[..i])
    {
      assert order[..i + 1][..i] == order[..i];
      entries := entries + Tag(order[i], p.windows[order[i]]);
    }
    assert order[..|order|] == order;
    snapshot := Snapshot(1, p.config, p.watermark, entries, p.stats);
  }

  // ---------------------------------------------------------------- reading

  predicate EntryOk(c: Config, wm: int, w: Window)
    requires c.Valid()
  {
    && w.end > w.start && wm < c.Deadline(w.end) && (w.fired ==> w.emitted) && w.fired == (wm >= w.end)
    && (c.kind != Session ==> WindowEnd(w.start, c.size) == Some(w.end) && Remainder(w.start, c.Step()) == 0)
  }

  predicate EntriesOk(c: Config, wm: int, entries: seq<Entry>)
    requires c.Valid()
  {
    forall i :: 0 <= i < |entries| ==> EntryOk(c, wm, entries[i].w)
  }

  function Bounds(e: Entry): (Key, int, int) {
    (e.key, e.w.start, e.w.end)
  }

  /** No key has two windows with the same bounds. */
  predicate Distinct(entries: seq<Entry>) {
    forall i, j :: 0 <= i < j < |entries| ==> Bounds(entries[i]) != Bounds(entries[j])
  }

  function Grouped(entries: seq<Entry>, k: nat): map<Key, seq<Window>>
    requires k <= |entries|
  {
    if k == 0 then map[]
    else
      var before, e := Grouped(entries, k - 1), entries[k - 1];
      before[e.key := (if e.key in before then before[e.key] else []) + [e.w]]
  }

  predicate Separate(ws: seq<Window>) {
    forall i :: 0 < i < |ws| ==> ws[i - 1].end < ws[i].start
  }

  function SortedAll(m: map<Key, seq<Window>>): map<Key, seq<Window>> {
    map key | key in m :: SortByStart(m[key])
  }

  /** Bounds are 64-bit integers. */
  predicate Representable(snapshot: Snapshot) {
    forall i :: 0 <= i < |snapshot.entries| ==> snapshot.entries[i].w.end <= MAX_INT64
  }

  predicate AllSeparate(c: Config, m: map<Key, seq<Window>>) {
    c.kind == Session ==> forall key :: key in m ==> Separate(m[key])
  }

  predicate Acceptable(c: Config, snapshot: Snapshot)
    requires c.Valid()
  {
    && snapshot.version == 1 && snapshot.config == c && |snapshot.entries| <= c.maxWindows
    && snapshot.stats.retained == |snapshot.entries|
    && EntriesOk(c, snapshot.watermark, snapshot.entries) && Distinct(snapshot.entries)
    && AllSeparate(c, SortedAll(Grouped(snapshot.entries, |snapshot.entries|)))
  }

  function Restored(snapshot: Snapshot): State {
    State(snapshot.watermark, SortedAll(Grouped(snapshot.entries, |snapshot.entries|)), snapshot.stats)
  }

  method CheckSeparate(ws: seq<Window>) returns (ok: bool)
    ensures ok <==> Separate(ws)
  {
    var i := 1;
    while i < |ws|
      invariant forall j :: 0 < j < i && j < |ws| ==> ws[j - 1].end < ws[j].start
    {
      if ws[i - 1].end >= ws[i].start {
        return false;
      }
      i := i + 1;
    }
    return true;
  }

  /** Sorts each key's windows and looks for sessions that should have been merged. */
  method SortGroups(c: Config, groups: map<Key, seq<Window>>) returns (sorted: map<Key, seq<Window>>, ok: bool)
    ensures ok <==> AllSeparate(c, SortedAll(groups))
    ensures ok ==> sorted == SortedAll(groups)
  {
    sorted := map[];
    var rest := groups.Keys;
    while rest != {}
      invariant rest <= groups.Keys && sorted.Keys == groups.Keys - rest
      invariant forall key :: key in sorted ==> sorted[key] == SortedAll(groups)[key]
      invariant AllSeparate(c, sorted)
      decreases |rest|
    {
      var key :| key in rest;
      var ws := SortByStart(groups[key]);
      if c.kind == Session {
        var separate := CheckSeparate(ws);
        if !separate {
          assert key in SortedAll(groups) && SortedAll(groups)[key] == ws;
          return sorted, false;
        }
      }
      sorted := sorted[key := ws];
      rest := rest - {key};
    }
    assert sorted == SortedAll(groups);
    ok := true;
  }

  /** Checks the entries one by one while regrouping them by key. */
  method GroupEntries(c: Config, wm: int, entries: seq<Entry>) returns (groups: map<Key, seq<Window>>, ok: bool)
    requires c.Valid()
    ensures ok <==> EntriesOk(c, wm, entries) && Distinct(entries)
    ensures ok ==> groups == Grouped(entries, |entries|)
  {
    groups := map[];
    var seen: set<(Key, int, int)> := {};
    for i := 0 to |entries|
      invariant groups == Grouped(entries, i) && EntriesOk(c, wm, entries[..i])
      invariant seen == set j | 0 <= j < i :: Bounds(entries[j])
      invariant Distinct(entries[..i])
    {
      var key, w := entries[i].key, entries[i].w;
      if !EntryOk(c, wm, w) {
        return groups, false;
      }
      if Bounds(entries[i]) in seen {
        ghost var j :| 0 <= j < i && Bounds(entries[j]) == Bounds(entries[i]);
        assert !Distinct(entries);
        return groups, false;
      }
      seen := seen + {Bounds(entries[i])};
      groups := groups[key := (if key in groups then groups[key] else []) + [w]];
      assert entries[..i + 1] == entries[..i] + [entries[i]];
    }
    assert entries[..|entries|] == entries;
    ok := true;
  }

  method Restore(p: WindowProcessor, snapshot: Snapshot) returns (ok: bool)
    requires p.config.Valid()
    modifies p
    ensures ok <==> Acceptable(p.config, snapshot)
    ensures ok ==> p.View() == Restored(snapshot)
    ensures !ok ==> p.View() == old(p.View())
  {
    var c, entries := p.config, snapshot.entries;
    if snapshot.version != 1 || snapshot.config != c {
      return false;
    }
    if |entries| > c.maxWindows || snapshot.stats.retained != |entries| {
      return false;
    }
    var groups;
    groups, ok := GroupEntries(c, snapshot.watermark, entries);
    if !ok {
      return;
    }
    var sorted;
    sorted, ok := SortGroups(c, groups);
    if !ok {
      return;
    }
    p.windows, p.watermark, p.stats := sorted, snapshot.watermark, snapshot.stats;
  }
}
