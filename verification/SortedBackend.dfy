/**
  The in-memory state backend (internal/engine/state_backend_hashmap.go): a slice of entries kept
  sorted by key, with a byte counter and a limit, that behaves as a finite map.
 */
module SortedBackend {
  import opened Basics
  import opened StateKeys
  import opened SnapshotCodec

  // ---------------------------------------------------------------- the byte order

  lemma {:induction false} LessIrreflexive(a: Bytes)
    ensures !Less(a, a)
  {
    if a != [] {
      LessIrreflexive(a[1..]);
    }
  }

  lemma {:induction false} LessTransitive(a: Bytes, b: Bytes, c: Bytes)
    requires Less(a, b) && Less(b, c)
    ensures Less(a, c)
  {
    if a != [] && a[0] == b[0] && b[0] == c[0] {
      LessTransitive(a[1..], b[1..], c[1..]);
    }
  }

  lemma {:induction false} LessTotal(a: Bytes, b: Bytes)
    ensures Less(a, b) || a == b || Less(b, a)
  {
    if a != [] && b != [] && a[0] == b[0] {
      LessTotal(a[1..], b[1..]);
      assert a == [a[0]] + a[1..] && b == [b[0]] + b[1..];
    }
  }

  predicate HasPrefix(key: Bytes, prefix: Bytes) {
    |prefix| <= |key| && key[..|prefix|] == prefix
  }

  /** A key with the prefix does not come before the prefix. */
  lemma {:induction false} PrefixNotAfter(key: Bytes, prefix: Bytes)
    requires HasPrefix(key, prefix)
    ensures !Less(key, prefix)
  {
    if prefix != [] {
      assert key[0] == key[..|prefix|][0];
      assert key[1..][..|prefix| - 1] == key[..|prefix|][1..];
      PrefixNotAfter(key[1..], prefix[1..]);
    }
  }

  lemma PrefixOfTail(key: Bytes, prefix: Bytes)
    requires key != [] && prefix != [] && key[0] == prefix[0]
    ensures HasPrefix(key[1..], prefix[1..]) ==> HasPrefix(key, prefix)
  {
    if HasPrefix(key[1..], prefix[1..]) {
      assert key[..|prefix|] == [key[0]] + key[1..][..|prefix| - 1];
    }
  }

  /** Past the prefix, a key without it is followed only by keys without it. */
  lemma {:induction false} PrefixIsABlock(a: Bytes, b: Bytes, prefix: Bytes)
    requires !Less(a, prefix) && !HasPrefix(a, prefix) && Less(a, b)
    ensures !HasPrefix(b, prefix)
    decreases |prefix|
  {
    if HasPrefix(b, prefix) && prefix != [] {
      assert b[0] == b[..|prefix|][0];
      if a[0] == prefix[0] {
        assert b[1..][..|prefix| - 1] == b[..|prefix|][1..];
        PrefixOfTail(a, prefix);
        PrefixIsABlock(a[1..], b[1..], prefix[1..]);
      }
    }
  }

  // ---------------------------------------------------------------- sorted entries as a map

  predicate Sorted(es: seq<Entry>) {
    forall i, j :: 0 <= i < j < |es| ==> Less(es[i].key, es[j].key)
  }

  function Contents(es: seq<Entry>): map<Bytes, Bytes> {
    if es == [] then map[] else Contents(es[..|es| - 1])[es[|es| - 1].key := es[|es| - 1].value]
  }

  predicate Has(es: seq<Entry>, key: Bytes) {
    exists i :: 0 <= i < |es| && es[i].key == key
  }

  lemma {:induction false} ContentsKeys(es: seq<Entry>, key: Bytes)
    ensures key in Contents(es) <==> Has(es, key)
  {
    if es != [] {
      var n := |es| - 1;
      ContentsKeys(es[..n], key);
      HasLast(es, key);
    }
  }

  lemma HasLast(es: seq<Entry>, key: Bytes)
    requires es != []
    ensures Has(es, key) <==> Has(es[..|es| - 1], key) || es[|es| - 1].key == key
  {
    var n := |es| - 1;
    if Has(es[..n], key) {
      var i :| 0 <= i < n && es[..n][i].key == key;
      assert es[i].key == key;
    }
    if Has(es, key) {
      var i :| 0 <= i < |es| && es[i].key == key;
      assert i < n ==> es[..n][i].key == key;
    }
  }

  lemma {:induction false} ContentsAt(es: seq<Entry>, i: nat)
    requires Sorted(es) && i < |es|
    ensures es[i].key in Contents(es) && Contents(es)[es[i].key] == es[i].value
  {
    var n := |es| - 1;
    if i < n {
      ContentsAt(es[..n], i);
      LessIrreflexive(es[i].key);
      assert Less(es[i].key, es[n].key);
    }
  }

  /** The entry for a key, if any, sits exactly where the search stops. */
  predicate IsPlace(es: seq<Entry>, key: Bytes, at: nat) {
    && at <= |es|
    && (forall i :: 0 <= i < at ==> Less(es[i].key, key))
    && (forall i :: at <= i < |es| ==> !Less(es[i].key, key))
  }

  lemma PlaceDecides(es: seq<Entry>, key: Bytes, at: nat)
    requires Sorted(es) && IsPlace(es, key, at)
    ensures key in Contents(es) <==> at < |es| && es[at].key == key
    ensures at < |es| && es[at].key == key ==> Contents(es)[key] == es[at].value
  {
    ContentsKeys(es, key);
    LessIrreflexive(key);
    if at < |es| && es[at].key == key {
      ContentsAt(es, at);
    }
    if Has(es, key) {
      var i :| 0 <= i < |es| && es[i].key == key;
      OnlyPlace(es, key, at, i);
    }
  }

  lemma OnlyPlace(es: seq<Entry>, key: Bytes, at: nat, i: nat)
    requires Sorted(es) && IsPlace(es, key, at) && i < |es| && es[i].key == key
    ensures i == at
  {
    LessIrreflexive(key);
    assert at <= i && !Less(es[at].key, key);
  }

  // ---------------------------------------------------------------- binary search

  /** Where the search for a key stops, whatever the order of the entries. */
  function Find(es: seq<Entry>, key: Bytes, lo: nat, hi: nat): (at: nat)
    requires lo <= hi <= |es|
    ensures lo <= at <= hi
    decreases hi - lo
  {
    if lo == hi then lo
    else
      var mid := (lo + hi) / 2;
      if Less(es[mid].key, key) then Find(es, key, mid + 1, hi) else Find(es, key, lo, mid)
  }

  function Lookup(es: seq<Entry>, key: Bytes): Option<Bytes> {
    var at := Find(es, key, 0, |es|);
    if at < |es| && es[at].key == key then Some(es[at].value) else None
  }

  lemma {:induction false} FindIsPlace(es: seq<Entry>, key: Bytes, lo: nat, hi: nat)
    requires Sorted(es) && lo <= hi <= |es|
    requires forall i :: 0 <= i < lo ==> Less(es[i].key, key)
    requires forall i :: hi <= i < |es| ==> !Less(es[i].key, key)
    ensures IsPlace(es, key, Find(es, key, lo, hi))
    decreases hi - lo
  {
    if lo < hi {
      var mid := (lo + hi) / 2;
      if Less(es[mid].key, key) {
        forall i | 0 <= i <= mid ensures Less(es[i].key, key) {
          if i < mid {
            LessTransitive(es[i].key, es[mid].key, key);
          }
        }
        FindIsPlace(es, key, mid + 1, hi);
      } else {
        forall i | mid <= i < |es| ensures !Less(es[i].key, key) {
          if i > mid && Less(es[i].key, key) {
            LessTransitive(es[mid].key, es[i].key, key);
          }
        }
        FindIsPlace(es, key, lo, mid);
      }
    }
  }

  /** The entry is found at its own place. */
  predicate Found(es: seq<Entry>, i: nat, lo: nat, hi: nat)
    requires lo <= i < hi <= |es|
  {
    Find(es, es[i].key, lo, hi) == i
  }

  predicate AllFound(es: seq<Entry>, lo: nat, hi: nat)
    requires lo <= hi <= |es|
  {
    forall i :: lo <= i < hi ==> Found(es, i, lo, hi)
  }

  predicate Rising(es: seq<Entry>, lo: nat, hi: nat)
    requires lo <= hi <= |es|
  {
    forall i, j :: lo <= i < j < hi ==> Less(es[i].key, es[j].key)
  }

  /** A found entry lies on the side of the middle the search turns to. */
  lemma FoundBeside(es: seq<Entry>, lo: nat, hi: nat, i: nat)
    requires lo <= i < hi <= |es| && Found(es, i, lo, hi)
    ensures var mid := (lo + hi) / 2; Less(es[mid].key, es[i].key) <==> i > mid
  {
  }

  lemma FoundWithin(es: seq<Entry>, lo: nat, hi: nat)
    requires lo < hi <= |es| && AllFound(es, lo, hi)
    ensures var mid := (lo + hi) / 2; AllFound(es, lo, mid) && AllFound(es, mid + 1, hi)
  {
    var mid := (lo + hi) / 2;
    var right := mid + 1;
    forall i | lo <= i < mid ensures Found(es, i, lo, mid) {
      assert Found(es, i, lo, hi);
      FoundBeside(es, lo, hi, i);
    }
    forall i | right <= i < hi ensures Found(es, i, right, hi) {
      assert Found(es, i, lo, hi);
      FoundBeside(es, lo, hi, i);
    }
  }

  lemma FoundBelow(es: seq<Entry>, lo: nat, hi: nat, i: nat)
    requires lo <= hi <= |es| && AllFound(es, lo, hi) && lo <= i < (lo + hi) / 2
    ensures Less(es[i].key, es[(lo + hi) / 2].key)
  {
    var mid := (lo + hi) / 2;
    assert Found(es, i, lo, hi) && Found(es, mid, lo, hi);
    FoundBeside(es, lo, hi, i);
    LessTotal(es[i].key, es[mid].key);
  }

  lemma {:induction false} FoundIsRising(es: seq<Entry>, lo: nat, hi: nat)
    requires lo <= hi <= |es| && AllFound(es, lo, hi)
    ensures Rising(es, lo, hi)
    decreases hi - lo
  {
    if lo < hi {
      var mid := (lo + hi) / 2;
      FoundWithin(es, lo, hi);
      FoundIsRising(es, lo, mid);
      FoundIsRising(es, mid + 1, hi);
      forall i, j | lo <= i < j < hi && i <= mid <= j ensures Less(es[i].key, es[j].key) {
        FoundAcross(es, lo, hi, i, j);
      }
    }
  }

  lemma FoundAcross(es: seq<Entry>, lo: nat, hi: nat, i: nat, j: nat)
    requires lo <= hi <= |es| && AllFound(es, lo, hi) && lo <= i < j < hi && i <= (lo + hi) / 2 <= j
    ensures Less(es[i].key, es[j].key)
  {
    var mid := (lo + hi) / 2;
    if i < mid {
      FoundBelow(es, lo, hi, i);
    }
    if mid < j {
      assert Found(es, j, lo, hi);
      FoundBeside(es, lo, hi, j);
      if i < mid {
        LessTransitive(es[i].key, es[mid].key, es[j].key);
      }
    }
  }

  /** The search finds every entry at its own place exactly when the keys are strictly ascending. */
  lemma FoundExactlyWhenSorted(es: seq<Entry>)
    ensures AllFound(es, 0, |es|) <==> Sorted(es)
  {
    if AllFound(es, 0, |es|) {
      FoundIsRising(es, 0, |es|);
    }
    if Sorted(es) {
      forall i | 0 <= i < |es| ensures Found(es, i, 0, |es|) {
        FindIsPlace(es, es[i].key, 0, |es|);
        OnlyPlace(es, es[i].key, Find(es, es[i].key, 0, |es|), i);
      }
    }
  }

  /** On sorted entries the search is the map's lookup. */
  lemma LookupIsContents(es: seq<Entry>, key: Bytes)
    requires Sorted(es)
    ensures Lookup(es, key) == if key in Contents(es) then Some(Contents(es)[key]) else None
  {
    FindIsPlace(es, key, 0, |es|);
    PlaceDecides(es, key, Find(es, key, 0, |es|));
  }

  predicate DistinctKeys(es: seq<Entry>) {
    forall i, j :: 0 <= i < j < |es| ==> es[i].key != es[j].key
  }

  /** Looking up any key gives what the entries bind it to. */
  ghost predicate Answers(es: seq<Entry>) {
    forall key :: Lookup(es, key) == if key in Contents(es) then Some(Contents(es)[key]) else None
  }

  /** When no key occurs twice, lookups answer as the map does exactly when the keys ascend. */
  lemma AnswersExactlyWhenSorted(es: seq<Entry>)
    requires DistinctKeys(es)
    ensures Answers(es) <==> Sorted(es)
  {
    if Sorted(es) {
      forall key ensures Lookup(es, key) == if key in Contents(es) then Some(Contents(es)[key]) else None {
        LookupIsContents(es, key);
      }
    }
    if Answers(es) {
      forall i | 0 <= i < |es| ensures Found(es, i, 0, |es|) {
        ContentsKeys(es, es[i].key);
        assert Lookup(es, es[i].key).Some?;
      }
      FoundExactlyWhenSorted(es);
    }
  }

  // ---------------------------------------------------------------- updates

  function Inserted(es: seq<Entry>, at: nat, e: Entry): seq<Entry>
    requires at <= |es|
  {
    es[..at] + [e] + es[at..]
  }

  function Removed(es: seq<Entry>, at: nat): seq<Entry>
    requires at < |es|
  {
    es[..at] + es[at + 1..]
  }

  lemma InsertSorted(es: seq<Entry>, at: nat, e: Entry)
    requires Sorted(es) && IsPlace(es, e.key, at) && (at < |es| ==> es[at].key != e.key)
    ensures Sorted(Inserted(es, at, e))
  {
    var r := Inserted(es, at, e);
    forall i, j | 0 <= i < j < |r| ensures Less(r[i].key, r[j].key) {
      if i == at {
        AfterPlace(es, e.key, at, j - 1);
      } else if j == at {
        assert r[i] == es[i];
      }
    }
  }

  lemma AfterPlace(es: seq<Entry>, key: Bytes, at: nat, i: nat)
    requires Sorted(es) && IsPlace(es, key, at) && at <= i < |es| && es[at].key != key
    ensures Less(key, es[i].key)
  {
    LessTotal(es[at].key, key);
    if i > at {
      LessTransitive(key, es[at].key, es[i].key);
    }
  }

  lemma UpdateSorted(es: seq<Entry>, at: nat, value: Bytes)
    requires Sorted(es) && at < |es|
    ensures Sorted(es[at := Entry(es[at].key, value)])
  {
  }

  lemma RemoveSorted(es: seq<Entry>, at: nat)
    requires Sorted(es) && at < |es|
    ensures Sorted(Removed(es, at))
  {
    var r := Removed(es, at);
    forall i, j | 0 <= i < j < |r| ensures Less(r[i].key, r[j].key) {
      var i0, j0 := if i < at then i else i + 1, if j < at then j else j + 1;
      assert r[i] == es[i0] && r[j] == es[j0] && Less(es[i0].key, es[j0].key);
    }
  }

  /** The entries and the map agree key by key. */
  ghost predicate Represents(es: seq<Entry>, m: map<Bytes, Bytes>) {
    && (forall i :: 0 <= i < |es| ==> Binds(m, es[i]))
    && (forall key :: key in m ==> Has(es, key))
  }

  predicate Binds(m: map<Bytes, Bytes>, e: Entry) {
    e.key in m && m[e.key] == e.value
  }

  lemma RepresentedKey(es: seq<Entry>, m: map<Bytes, Bytes>, key: Bytes)
    requires Sorted(es) && Represents(es, m)
    ensures key in Contents(es) <==> key in m
    ensures key in m ==> Contents(es)[key] == m[key]
  {
    ContentsKeys(es, key);
    if Has(es, key) {
      var i :| 0 <= i < |es| && es[i].key == key;
      assert Binds(m, es[i]);
      ContentsAt(es, i);
    }
  }

  lemma RepresentedOnce(es: seq<Entry>, m: map<Bytes, Bytes>)
    requires Sorted(es) && Represents(es, m)
    ensures Contents(es) == m
  {
    forall key ensures key in Contents(es) <==> key in m {
      RepresentedKey(es, m, key);
    }
    forall key | key in m ensures Contents(es)[key] == m[key] {
      RepresentedKey(es, m, key);
    }
  }

  lemma ContentsRepresent(es: seq<Entry>)
    requires Sorted(es)
    ensures Represents(es, Contents(es))
  {
    forall i | 0 <= i < |es| ensures Binds(Contents(es), es[i]) {
      ContentsAt(es, i);
    }
    forall key | key in Contents(es) ensures Has(es, key) {
      ContentsKeys(es, key);
    }
  }

  lemma InsertContents(es: seq<Entry>, at: nat, e: Entry)
    requires Sorted(es) && at <= |es| && Sorted(Inserted(es, at, e)) && e.key !in Contents(es)
    ensures Contents(Inserted(es, at, e)) == Contents(es)[e.key := e.value]
  {
    ContentsRepresent(es);
    InsertRepresents(es, Contents(es), at, e);
    RepresentedOnce(Inserted(es, at, e), Contents(es)[e.key := e.value]);
  }

  lemma InsertRepresents(es: seq<Entry>, m: map<Bytes, Bytes>, at: nat, e: Entry)
    requires Represents(es, m) && at <= |es| && e.key !in m
    ensures Represents(Inserted(es, at, e), m[e.key := e.value])
  {
    var r := Inserted(es, at, e);
    forall i | 0 <= i < |r| ensures Binds(m[e.key := e.value], r[i]) {
      assert i != at ==> Binds(m, es[if i < at then i else i - 1]);
    }
    forall key | key in m[e.key := e.value] ensures Has(r, key) {
      if key == e.key {
        assert r[at].key == key;
      } else {
        var i :| 0 <= i < |es| && es[i].key == key;
        assert r[if i < at then i else i + 1].key == key;
      }
    }
  }

  lemma UpdateContents(es: seq<Entry>, at: nat, value: Bytes)
    requires Sorted(es) && at < |es|
    ensures Contents(es[at := Entry(es[at].key, value)]) == Contents(es)[es[at].key := value]
  {
    UpdateSorted(es, at, value);
    ContentsRepresent(es);
    UpdateRepresents(es, Contents(es), at, value);
    RepresentedOnce(es[at := Entry(es[at].key, value)], Contents(es)[es[at].key := value]);
  }

  lemma UpdateRepresents(es: seq<Entry>, m: map<Bytes, Bytes>, at: nat, value: Bytes)
    requires Sorted(es) && Represents(es, m) && at < |es|
    ensures Represents(es[at := Entry(es[at].key, value)], m[es[at].key := value])
  {
    var r := es[at := Entry(es[at].key, value)];
    forall i | 0 <= i < |r| ensures Binds(m[es[at].key := value], r[i]) {
      assert Binds(m, es[i]);
      DifferentKeys(es, i, at);
    }
    forall key | key in m[es[at].key := value] ensures Has(r, key) {
      if key == es[at].key {
        assert r[at].key == key;
      } else {
        var i :| 0 <= i < |es| && es[i].key == key;
        assert r[i].key == key;
      }
    }
  }

  lemma DifferentKeys(es: seq<Entry>, i: nat, j: nat)
    requires Sorted(es) && i < |es| && j < |es|
    ensures es[i].key == es[j].key <==> i == j
  {
    LessIrreflexive(es[i].key);
    assert i < j ==> Less(es[i].key, es[j].key);
    assert j < i ==> Less(es[j].key, es[i].key);
  }

  lemma RemoveContents(es: seq<Entry>, at: nat)
    requires Sorted(es) && at < |es|
    ensures Contents(Removed(es, at)) == Contents(es) - {es[at].key}
  {
    RemoveSorted(es, at);
    ContentsRepresent(es);
    RemoveRepresents(es, Contents(es), at);
    RepresentedOnce(Removed(es, at), Contents(es) - {es[at].key});
  }

  lemma RemoveRepresents(es: seq<Entry>, m: map<Bytes, Bytes>, at: nat)
    requires Sorted(es) && Represents(es, m) && at < |es|
    ensures Represents(Removed(es, at), m - {es[at].key})
  {
    var r := Removed(es, at);
    forall i | 0 <= i < |r| ensures Binds(m - {es[at].key}, r[i]) {
      var i0 := if i < at then i else i + 1;
      assert r[i] == es[i0] && Binds(m, es[i0]);
      DifferentKeys(es, i0, at);
    }
    forall key | key in m - {es[at].key} ensures Has(r, key) {
      var i :| 0 <= i < |es| && es[i].key == key;
      assert r[if i < at then i else i - 1].key == key;
    }
  }

  // ---------------------------------------------------------------- bytes

  function Size(es: seq<Entry>): nat {
    if es == [] then 0 else Size(es[..|es| - 1]) + |es[|es| - 1].key| + |es[|es| - 1].value|
  }

  lemma {:induction false} SizeConcat(a: seq<Entry>, b: seq<Entry>)
    ensures Size(a + b) == Size(a) + Size(b)
    decreases |b|
  {
    if b == [] {
      assert a + b == a;
    } else {
      var n := |b| - 1;
      SizeConcat(a, b[..n]);
      assert (a + b)[..|a| + n] == a + b[..n];
    }
  }

  lemma SizeOne(e: Entry)
    ensures Size([e]) == |e.key| + |e.value|
  {
    assert [e][..0] == [];
  }

  lemma SizeSplit(es: seq<Entry>, at: nat)
    requires at < |es|
    ensures Size(es) == Size(es[..at]) + |es[at].key| + |es[at].value| + Size(es[at + 1..])
  {
    assert es == es[..at] + ([es[at]] + es[at + 1..]);
    SizeConcat(es[..at], [es[at]] + es[at + 1..]);
    SizeConcat([es[at]], es[at + 1..]);
    SizeOne(es[at]);
  }

  lemma InsertSize(es: seq<Entry>, at: nat, e: Entry)
    requires at <= |es|
    ensures Size(Inserted(es, at, e)) == Size(es) + |e.key| + |e.value|
  {
    assert es == es[..at] + es[at..];
    SizeConcat(es[..at], es[at..]);
    SizeConcat(es[..at] + [e], es[at..]);
    SizeConcat(es[..at], [e]);
    SizeOne(e);
  }

  lemma UpdateSize(es: seq<Entry>, at: nat, value: Bytes)
    requires at < |es|
    ensures Size(es[at := Entry(es[at].key, value)]) == Size(es) - |es[at].value| + |value|
  {
    var r := es[at := Entry(es[at].key, value)];
    SizeSplit(es, at);
    SizeSplit(r, at);
    assert r[..at] == es[..at] && r[at + 1..] == es[at + 1..];
  }

  lemma RemoveSize(es: seq<Entry>, at: nat)
    requires at < |es|
    ensures Size(Removed(es, at)) == Size(es) - |es[at].key| - |es[at].value|
  {
    SizeSplit(es, at);
    SizeConcat(es[..at], es[at + 1..]);
  }

  lemma Shrinks(es: seq<Entry>, at: nat, r: seq<Entry>)
    requires Sorted(es) && at < |es| && r == Removed(es, at)
    ensures Sorted(r) && Contents(r) == Contents(es) - {es[at].key}
    ensures Size(r) == Size(es) - |es[at].key| - |es[at].value|
  {
    RemoveSorted(es, at);
    RemoveContents(es, at);
    RemoveSize(es, at);
  }

  lemma Grows(es: seq<Entry>, at: nat, e: Entry, r: seq<Entry>)
    requires Sorted(es) && IsPlace(es, e.key, at) && e.key !in Contents(es) && r == Inserted(es, at, e)
    ensures Sorted(r) && Contents(r) == Contents(es)[e.key := e.value] && Size(r) == Size(es) + |e.key| + |e.value|
  {
    PlaceDecides(es, e.key, at);
    InsertSorted(es, at, e);
    InsertContents(es, at, e);
    InsertSize(es, at, e);
  }

  // ---------------------------------------------------------------- prefix iteration

  function WithPrefix(es: seq<Entry>, prefix: Bytes): seq<Entry> {
    if es == [] then []
    else
      var n := |es| - 1;
      WithPrefix(es[..n], prefix) + (if HasPrefix(es[n].key, prefix) then [es[n]] else [])
  }

  lemma {:induction false} NoneWithPrefix(es: seq<Entry>, k: nat, prefix: Bytes)
    requires k <= |es| && forall i :: k <= i < |es| ==> !HasPrefix(es[i].key, prefix)
    ensures WithPrefix(es, prefix) == WithPrefix(es[..k], prefix)
    decreases |es|
  {
    if k < |es| {
      var n := |es| - 1;
      NoneWithPrefix(es[..n], k, prefix);
      assert es[..n][..k] == es[..k];
    } else {
      assert es[..k] == es;
    }
  }

  lemma WithPrefixNext(es: seq<Entry>, k: nat, prefix: Bytes)
    requires k < |es|
    ensures WithPrefix(es[..k + 1], prefix)
      == WithPrefix(es[..k], prefix) + (if HasPrefix(es[k].key, prefix) then [es[k]] else [])
  {
    assert es[..k + 1][..k] == es[..k];
  }

  /** The snapshot decodes and its entries fit the limit. */
  predicate Restorable(crc: Checksum, data: Bytes, limit: nat) {
    DecodeSnapshot(crc, data).Some? && (limit > 0 ==> Size(DecodeSnapshot(crc, data).value) <= limit)
  }

  datatype Outcome = Done | Closed | NotFound | LimitExceeded | Corrupt

  class HashMapStateBackend {
    var entries: seq<Entry>
    var bytes: int
    var closed: bool
    const limit: nat

    /** Sorted entries, an exact byte count, and the limit respected; 0 means no limit. */
    ghost predicate Valid()
      reads this
    {
      Sorted(entries) && bytes == Size(entries) && (limit > 0 ==> bytes <= limit)
    }

    ghost function State(): map<Bytes, Bytes>
      reads this
    {
      Contents(entries)
    }

    constructor (limit: nat)
      ensures Valid() && !closed && State() == map[] && this.limit == limit
    {
      this.limit := limit;
      entries, bytes, closed := [], 0, false;
    }

    /** The library's binary search for the first entry not before the key. */
    method Search(key: Bytes) returns (at: nat)
      ensures at == Find(entries, key, 0, |entries|)
      ensures Sorted(entries) ==> IsPlace(entries, key, at)
    {
      var lo, hi := 0, |entries|;
      while lo < hi
        invariant 0 <= lo <= hi <= |entries|
        invariant Find(entries, key, lo, hi) == Find(entries, key, 0, |entries|)
      {
        var mid := (lo + hi) / 2;
        if Less(entries[mid].key, key) {
          lo := mid + 1;
        } else {
          hi := mid;
        }
      }
      at := lo;
      if Sorted(entries) {
        FindIsPlace(entries, key, 0, |entries|);
      }
    }

    method Put(key: Bytes, value: Bytes) returns (r: Outcome)
      requires Valid()
      modifies this
      ensures Valid() && closed == old(closed)
      ensures r == Closed <==> closed
      ensures r == Done ==> State() == old(State())[key := value]
      ensures r != Done ==> State() == old(State()) && entries == old(entries) && bytes == old(bytes)
      ensures !closed ==> (r == LimitExceeded <==>
        limit > 0 && old(bytes) + |value| + (if key in old(State()) then -|old(State())[key]| else |key|) > limit)
      ensures r in {Done, Closed, LimitExceeded}
    {
      if closed {
        return Closed;
      }
      var at := Search(key);
      PlaceDecides(entries, key, at);
      if at < |entries| && entries[at].key == key {
        var delta := |value| - |entries[at].value|;
        if limit > 0 && bytes + delta > limit {
          return LimitExceeded;
        }
        UpdateSorted(entries, at, value);
        UpdateContents(entries, at, value);
        UpdateSize(entries, at, value);
        entries := entries[at := Entry(entries[at].key, value)];
        bytes := bytes + delta;
        return Done;
      }
      var size := |key| + |value|;
      if limit > 0 && bytes + size > limit {
        return LimitExceeded;
      }
      Grows(entries, at, Entry(key, value), entries[..at] + [Entry(key, value)] + entries[at..]);
      entries := entries[..at] + [Entry(key, value)] + entries[at..];
      bytes := bytes + size;
      return Done;
    }

    /** What the search finds; on a valid backend that is the map's lookup. */
    method Get(key: Bytes) returns (r: Outcome, value: Bytes)
      ensures r == Closed <==> closed
      ensures !closed ==> r == if Lookup(entries, key).Some? then Done else NotFound
      ensures r == Done ==> Lookup(entries, key) == Some(value)
      ensures Valid() && !closed ==> (r == Done <==> key in State()) && (r == Done ==> value == State()[key])
    {
      if Sorted(entries) {
        LookupIsContents(entries, key);
      }
      value := [];
      if closed {
        return Closed, value;
      }
      var at := Search(key);
      if at < |entries| && entries[at].key == key {
        return Done, entries[at].value;
      }
      return NotFound, value;
    }

    method Delete(key: Bytes) returns (r: Outcome)
      requires Valid()
      modifies this
      ensures Valid() && closed == old(closed)
      ensures r == Closed <==> closed
      ensures !closed ==> (r == Done <==> key in old(State())) && (r == NotFound <==> key !in old(State()))
      ensures r == Done ==> State() == old(State()) - {key}
      ensures r != Done ==> entries == old(entries) && bytes == old(bytes)
    {
      if closed {
        return Closed;
      }
      var at := Search(key);
      PlaceDecides(entries, key, at);
      if at >= |entries| || entries[at].key != key {
        return NotFound;
      }
      var shorter := entries[..at] + entries[at + 1..];
      Shrinks(entries, at, shorter);
      bytes := bytes - (|entries[at].key| + |entries[at].value|);
      entries := shorter;
      return Done;
    }

    /** Exactly the entries whose key has the prefix, in key order. */
    method NewIterator(prefix: Bytes) returns (found: seq<Entry>)
      requires Valid()
      ensures found == if closed then [] else WithPrefix(entries, prefix)
    {
      found := [];
      if closed {
        return;
      }
      var start := Search(prefix);
      forall i | 0 <= i < start ensures !HasPrefix(entries[i].key, prefix) {
        if HasPrefix(entries[i].key, prefix) {
          PrefixNotAfter(entries[i].key, prefix);
        }
      }
      NoneBefore(entries, start, prefix);
      var i := start;
      while i < |entries|
        invariant start <= i <= |entries| && found == WithPrefix(entries[..i], prefix)
      {
        WithPrefixNext(entries, i, prefix);
        if !HasPrefix(entries[i].key, prefix) {
          forall k | i <= k < |entries| ensures !HasPrefix(entries[k].key, prefix) {
            if k > i {
              PrefixIsABlock(entries[i].key, entries[k].key, prefix);
            }
          }
          NoneWithPrefix(entries, i, prefix);
          return;
        }
        found := found + [entries[i]];
        i := i + 1;
      }
      assert entries[..i] == entries;
    }

    method Checkpoint(crc: Checksum) returns (data: Option<Bytes>)
      ensures data == if closed then None else Some(EncodeSnapshot(crc, entries))
    {
      if closed {
        return None;
      }
      var encoded := SerializeSnapshot(crc, entries);
      return Some(encoded);
    }

    /**
      Replaces the state. Nothing here looks at the order of the decoded entries, so the search finds
      every entry at its own place exactly when the snapshot was sorted, as every snapshot that
      Checkpoint wrote is.
     */
    method Restore(crc: Checksum, ours: bool, data: Bytes) returns (r: Outcome)
      modifies this
      ensures closed == old(closed)
      ensures r == Corrupt <==> !ours || DecodeSnapshot(crc, data).None?
      ensures r == Closed ==> closed
      ensures r == Done <==> ours && !closed && Restorable(crc, data, limit)
      ensures r == Done ==> entries == DecodeSnapshot(crc, data).value && bytes == Size(entries)
      ensures r == Done ==> (Valid() <==> AllFound(entries, 0, |entries|))
      ensures r != Done ==> entries == old(entries) && bytes == old(bytes)
    {
      if !ours {
        return Corrupt;
      }
      var decoded := DeserializeSnapshot(crc, data);
      if decoded.None? {
        return Corrupt;
      }
      if closed {
        return Closed;
      }
      var size := 0;
      for i := 0 to |decoded.value|
        invariant size == Size(decoded.value[..i])
      {
        assert decoded.value[..i + 1][..i] == decoded.value[..i];
        size := size + |decoded.value[i].key| + |decoded.value[i].value|;
      }
      assert decoded.value[..|decoded.value|] == decoded.value;
      if limit > 0 && size > limit {
        return LimitExceeded;
      }
      entries, bytes := decoded.value, size;
      FoundExactlyWhenSorted(entries);
      return Done;
    }

    method Close() returns (r: Outcome)
      modifies this
      ensures closed
      ensures r == if old(closed) then Closed else Done
      ensures if old(closed) then entries == old(entries) && bytes == old(bytes) else Valid() && State() == map[]
    {
      if closed {
        return Closed;
      }
      closed, entries, bytes := true, [], 0;
      return Done;
    }
  }

  lemma NoneBefore(es: seq<Entry>, k: nat, prefix: Bytes)
    requires k <= |es| && forall i :: 0 <= i < k ==> !HasPrefix(es[i].key, prefix)
    ensures WithPrefix(es[..k], prefix) == []
  {
    NoneWithPrefix(es[..k], 0, prefix);
  }

  /**
    A checkpoint restores to the very same entries exactly when the format can carry them, and then
    wherever they fit.
   */
  lemma CheckpointRestores(crc: Checksum, es: seq<Entry>, limit: nat)
    ensures DecodeSnapshot(crc, EncodeSnapshot(crc, es)) == Some(es) <==> Carried(es)
    ensures Carried(es) ==> (Restorable(crc, EncodeSnapshot(crc, es), limit) <==> (limit > 0 ==> Size(es) <= limit))
  {
    DecodeEncodedSnapshot(crc, es);
  }

  /**
    A snapshot with a proper checksum that Restore accepts and in which a stored key is not found:
    two entries in the wrong order.
   */
  lemma UnsortedSnapshotLosesKey(crc: Checksum)
    ensures var es := [Entry([2], [20]), Entry([1], [10])];
      && Carried(es) && Restorable(crc, EncodeSnapshot(crc, es), 0)
      && DecodeSnapshot(crc, EncodeSnapshot(crc, es)) == Some(es)
      && [1] in Contents(es) && Lookup(es, [1]) == None
  {
    var es := [Entry([2], [20]), Entry([1], [10])];
    SmallIsCarried(es);
    DecodeEncodedSnapshot(crc, es);
    assert es[..1] == [Entry([2], [20])];
    assert !Less([1], [1]) && !Less([2], [1]);
    assert Find(es, [1], 0, 2) == Find(es, [1], 0, 1) == Find(es, [1], 0, 0) == 0;
  }

  /** Iteration lists a key exactly when the map has it with the prefix. */
  lemma {:induction false} IterationIsExact(es: seq<Entry>, prefix: Bytes, e: Entry)
    ensures e in WithPrefix(es, prefix) <==> e in es && HasPrefix(e.key, prefix)
  {
    if es != [] {
      var n := |es| - 1;
      IterationIsExact(es[..n], prefix, e);
      assert e in es <==> e in es[..n] || e == es[n];
    }
  }

  /** And in ascending key order. */
  lemma {:induction false} IterationIsSorted(es: seq<Entry>, prefix: Bytes)
    requires Sorted(es)
    ensures Sorted(WithPrefix(es, prefix))
  {
    if es != [] {
      var n := |es| - 1;
      IterationIsSorted(es[..n], prefix);
      forall i | 0 <= i < |WithPrefix(es[..n], prefix)| ensures Less(WithPrefix(es[..n], prefix)[i].key, es[n].key) {
        IterationIsExact(es[..n], prefix, WithPrefix(es[..n], prefix)[i]);
        var k :| 0 <= k < n && es[k] == WithPrefix(es[..n], prefix)[i];
      }
    }
  }
}
