/**
  Key groups: the unit of state ownership and routing (internal/keygroup/assignment.go,
  config.go).  Task `t` of `p` owns the groups from floor(t*n/p) up to floor((t+1)*n/p).
 */
module KeyGroups {
  import opened Basics

  const MAX_KEY_GROUPS: nat := 32768

  predicate PowerOfTwo(n: nat) {
    n == 1 || (n > 1 && n % 2 == 0 && PowerOfTwo(n / 2))
  }

  /** The configuration check: a power of two of groups, and a task for at least one group each. */
  predicate Valid(n: nat, p: nat) {
    1 <= p <= n <= MAX_KEY_GROUPS && PowerOfTwo(n)
  }

  /** A half-open range of key groups. */
  datatype Range = Range(start: nat, end: nat) {
    predicate Contains(g: nat) {
      start <= g < end
    }
  }

  function RangeStart(t: nat, n: nat, p: nat): nat
    requires p > 0
  {
    t * n / p
  }

  function TaskRange(t: nat, n: nat, p: nat): Range
    requires p > 0
  {
    Range(RangeStart(t, n, p), RangeStart(t + 1, n, p))
  }

  /** The owner of a group: an estimate, corrected upward once at a boundary. */
  function AssignedTask(g: nat, n: nat, p: nat): nat
    requires n > 0 && p > 0
  {
    var t := g * p / n;
    if t + 1 < p && RangeStart(t + 1, n, p) <= g then t + 1 else t
  }

  // ---------------------------------------------------------------- arithmetic

  lemma DivAtMost(x: nat, d: nat, q: nat)
    requires d > 0
    ensures x / d <= q <==> x < (q + 1) * d
  {
    assert x == d * (x / d) + x % d;
    if x / d <= q {
      assert d * (x / d) <= d * q;
    } else {
      assert d * (x / d) >= d * (q + 1);
    }
  }

  lemma Bracket(x: nat, d: nat)
    requires d > 0
    ensures x / d * d <= x < (x / d + 1) * d
  {
    DivAtMost(x, d, x / d);
    assert x == d * (x / d) + x % d;
  }

  lemma StartBelow(t: nat, n: nat, p: nat, g: nat)
    requires p > 0
    ensures RangeStart(t, n, p) <= g <==> t * n < (g + 1) * p
  {
    DivAtMost(t * n, p, g);
  }

  lemma Ends(n: nat, p: nat)
    requires p > 0
    ensures RangeStart(0, n, p) == 0 && RangeStart(p, n, p) == n
  {
    StartBelow(p, n, p, n);
    assert p * n < (n + 1) * p;
    if n > 0 {
      StartBelow(p, n, p, n - 1);
    }
  }

  /** Every task owns at least one group. */
  lemma StartRises(t: nat, n: nat, p: nat)
    requires 1 <= p <= n
    ensures RangeStart(t, n, p) < RangeStart(t + 1, n, p)
  {
    var g := RangeStart(t, n, p);
    StartBelow(t + 1, n, p, g);
    Bracket(t * n, p);
    assert (t + 1) * n == t * n + n;
    assert g * p <= t * n;
    assert (g + 1) * p == g * p + p;
  }

  lemma {:induction false} StartsRise(i: nat, j: nat, n: nat, p: nat)
    requires 1 <= p <= n && i <= j
    ensures RangeStart(i, n, p) <= RangeStart(j, n, p)
    decreases j
  {
    if i < j {
      StartsRise(i, j - 1, n, p);
      StartRises(j - 1, n, p);
    }
  }

  lemma EstimateInRange(g: nat, n: nat, p: nat)
    requires 1 <= p <= n && g < n
    ensures g * p / n < p
  {
    DivAtMost(g * p, n, p - 1);
    assert g * p < n * p;
  }

  lemma EstimateNotAbove(g: nat, n: nat, p: nat, t: nat)
    requires 1 <= p <= n && t == g * p / n
    ensures RangeStart(t, n, p) <= g
  {
    Bracket(g * p, n);
    StartBelow(t, n, p, g);
    assert (g + 1) * p == g * p + p;
  }

  lemma EstimateNotFarBelow(g: nat, n: nat, p: nat, t: nat)
    requires 1 <= p <= n && t == g * p / n
    ensures g < RangeStart(t + 2, n, p)
  {
    Bracket(g * p, n);
    StartBelow(t + 2, n, p, g);
    assert (g + 1) * p == g * p + p;
    assert (t + 2) * n == (t + 1) * n + n;
  }

  // ---------------------------------------------------------------- ownership

  /** The assigned task's range holds the group, and no other task's does. */
  lemma AssignedTaskOwns(g: nat, n: nat, p: nat)
    requires 1 <= p <= n && g < n
    ensures AssignedTask(g, n, p) < p && TaskRange(AssignedTask(g, n, p), n, p).Contains(g)
    ensures forall t :: 0 <= t < p && TaskRange(t, n, p).Contains(g) ==> t == AssignedTask(g, n, p)
  {
    EstimateInRange(g, n, p);
    EstimateNotAbove(g, n, p, g * p / n);
    EstimateNotFarBelow(g, n, p, g * p / n);
    Ends(n, p);
    var owner := AssignedTask(g, n, p);
    forall t | 0 <= t < p && TaskRange(t, n, p).Contains(g) ensures t == owner {
      OneOwner(g, n, p, t, owner);
    }
  }

  lemma OneOwner(g: nat, n: nat, p: nat, s: nat, t: nat)
    requires 1 <= p <= n && TaskRange(s, n, p).Contains(g) && TaskRange(t, n, p).Contains(g)
    ensures s == t
  {
    if s < t {
      StartsRise(s + 1, t, n, p);
    } else if t < s {
      StartsRise(t + 1, s, n, p);
    }
  }

  /** Contiguous non-empty ranges from 0 to `n`. */
  predicate Partition(rs: seq<Range>, n: nat) {
    && |rs| > 0 && rs[0].start == 0 && rs[|rs| - 1].end == n
    && (forall i :: 0 <= i < |rs| ==> rs[i].start < rs[i].end)
    && (forall i :: 0 < i < |rs| ==> rs[i].start == rs[i - 1].end)
  }

  method AllTaskRanges(n: nat, p: nat) returns (r: Option<seq<Range>>)
    ensures r.Some? <==> Valid(n, p)
    ensures r.Some? ==> |r.value| == p && Partition(r.value, n)
    ensures r.Some? ==> forall t :: 0 <= t < p ==> r.value[t] == TaskRange(t, n, p)
  {
    if !Valid(n, p) {
      return None;
    }
    var ranges: seq<Range> := [];
    for i := 0 to p
      invariant |ranges| == i
      invariant forall t :: 0 <= t < i ==> ranges[t] == TaskRange(t, n, p) && ranges[t].start < ranges[t].end
    {
      StartRises(i, n, p);
      ranges := ranges + [TaskRange(i, n, p)];
    }
    Ends(n, p);
    return Some(ranges);
  }

  // ---------------------------------------------------------------- rescale mapping

  function Overlap(a: Range, b: Range): Range {
    Range(Max(a.start, b.start), Min(a.end, b.end))
  }

  /** The non-empty intersections of `r` with the first `k` ranges, in their order. */
  function Cuts(rs: seq<Range>, k: nat, r: Range): seq<Range>
    requires k <= |rs|
  {
    if k == 0 then []
    else
      var last := Overlap(rs[k - 1], r);
      if last.start < last.end then Cuts(rs, k - 1, r) + [last] else Cuts(rs, k - 1, r)
  }

  /** Ranges that end before `r` starts, or start after it ends, contribute nothing. */
  lemma {:induction false} CutsNone(rs: seq<Range>, k: nat, j: nat, r: Range)
    requires k <= j <= |rs|
    requires forall i :: k <= i < j ==> rs[i].end <= r.start || r.end <= rs[i].start
    ensures Cuts(rs, j, r) == Cuts(rs, k, r)
    decreases j
  {
    if k < j {
      CutsNone(rs, k, j - 1, r);
    }
  }

  lemma {:induction false} EndsRise(rs: seq<Range>, n: nat, i: nat, j: nat)
    requires Partition(rs, n) && i <= j < |rs|
    ensures rs[i].end <= rs[j].end && rs[i].start <= rs[j].start
    ensures i < j ==> rs[i].end <= rs[j].start && rs[i].end < rs[j].end
    decreases j
  {
    if i < j {
      EndsRise(rs, n, i, j - 1);
    }
  }

  lemma LastAlone(rs: seq<Range>, n: nat, i: nat)
    requires Partition(rs, n) && i < |rs|
    ensures rs[i].end <= n && (rs[i].end == n <==> i == |rs| - 1)
  {
    EndsRise(rs, n, i, |rs| - 1);
  }

  /** What the walk has produced when it stands at old range `i` and new range `j`. */
  ghost predicate Walked(result: map<nat, seq<Range>>, from: seq<Range>, to: seq<Range>, i: nat, j: nat) {
    && i <= |from| && j <= |to|
    && (forall k :: 0 <= k < j ==> Listed(result, k) == Cuts(from, |from|, to[k]))
    && (j < |to| ==> Listed(result, j) == Cuts(from, i, to[j]))
    && (forall k :: k in result ==> k <= j && k < |to|)
  }

  function Listed(result: map<nat, seq<Range>>, k: nat): seq<Range> {
    if k in result then result[k] else []
  }

  lemma NothingMax(from: seq<Range>, n: nat, i: nat, r: Range)
    requires Partition(from, n) && i < |from| && r.end <= from[i].end
    ensures Cuts(from, i + 1, r) == Cuts(from, |from|, r)
  {
    forall k | i + 1 <= k < |from| ensures r.end <= from[k].start {
      EndsRise(from, n, i, k);
    }
    CutsNone(from, i + 1, |from|, r);
  }

  lemma NothingEarlier(from: seq<Range>, n: nat, i: nat, r: Range)
    requires Partition(from, n) && i <= |from| && (i > 0 ==> from[i - 1].end <= r.start)
    ensures Cuts(from, i, r) == []
  {
    forall k | 0 <= k < i ensures from[k].end <= r.start {
      EndsRise(from, n, k, i - 1);
    }
    CutsNone(from, 0, i, r);
  }

  /** Closing new range `j`: its list is final and the next one's is still empty. */
  lemma CloseRange(result: map<nat, seq<Range>>, from: seq<Range>, to: seq<Range>, n: nat, i: nat, j: nat, next: nat)
    requires Partition(from, n) && Partition(to, n) && i < |from| && j < |to| && to[j].end <= from[i].end
    requires next == (if from[i].end <= to[j].end then i + 1 else i)
    requires i > 0 ==> from[i - 1].end <= to[j].end
    requires forall k :: 0 <= k < j ==> Listed(result, k) == Cuts(from, |from|, to[k])
    requires Listed(result, j) == Cuts(from, i + 1, to[j])
    requires forall k :: k in result ==> k <= j
    ensures Walked(result, from, to, next, j + 1)
  {
    NothingMax(from, n, i, to[j]);
    if j + 1 < |to| {
      NothingEarlier(from, n, next, to[j + 1]);
    }
  }

  /** One walk over two partitions of the same groups yields exactly the pairwise intersections. */
  method Walk(from: seq<Range>, to: seq<Range>, n: nat) returns (result: map<nat, seq<Range>>)
    requires Partition(from, n) && Partition(to, n)
    ensures forall t :: t in result ==> t < |to|
    ensures forall t :: 0 <= t < |to| ==> Listed(result, t) == Cuts(from, |from|, to[t])
  {
    result := map[];
    var i, j := 0, 0;
    while i < |from| && j < |to|
      invariant Walked(result, from, to, i, j)
      invariant i == |from| <==> j == |to|
      invariant 0 < i <= |from| && j < |to| ==> from[i - 1].end <= to[j].end
      decreases |from| - i + |to| - j
    {
      var a, b := from[i], to[j];
      var cut := Overlap(a, b);
      if cut.start < cut.end {
        result := result[j := Listed(result, j) + [cut]];
      }
      LastAlone(from, n, i);
      LastAlone(to, n, j);
      var next := if a.end <= b.end then i + 1 else i;
      if b.end <= a.end {
        CloseRange(result, from, to, n, i, j, next);
        if j + 1 < |to| {
          EndsRise(to, n, j, j + 1);
        }
        j := j + 1;
      }
      i := next;
    }
  }

  method RescaleMapping(n: nat, oldP: nat, newP: nat) returns (r: Option<map<nat, seq<Range>>>)
    ensures r.Some? <==> Valid(n, oldP) && Valid(n, newP)
    ensures r.Some? ==> forall t :: t in r.value ==> t < newP
    ensures r.Some? ==> forall t :: 0 <= t < newP ==>
      Listed(r.value, t) == Cuts(TaskRanges(n, oldP), oldP, TaskRange(t, n, newP))
  {
    var olds := AllTaskRanges(n, oldP);
    if olds.None? {
      return None;
    }
    var news := AllTaskRanges(n, newP);
    if news.None? {
      return None;
    }
    var result := Walk(olds.value, news.value, n);
    assert olds.value == TaskRanges(n, oldP);
    return Some(result);
  }

  function TaskRanges(n: nat, p: nat): seq<Range>
    requires p > 0
  {
    seq(p, t requires 0 <= t < p => TaskRange(t, n, p))
  }
}
