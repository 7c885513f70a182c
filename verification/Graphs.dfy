/** Directed graphs as edge lists: paths, cycles and what ordering them means. */
module Graphs {

  datatype Edge<T> = Edge(src: T, dst: T)

  /** The targets of `id`, in edge order, from the first `k` edges. */
  function Targets<T(==)>(edges: seq<Edge<T>>, k: nat, id: T): seq<T>
    requires k <= |edges|
  {
    if k == 0 then []
    else
      var before := Targets(edges, k - 1, id);
      if edges[k - 1].src == id then before + [edges[k - 1].dst] else before
  }

  function Adjacent<T(==)>(edges: seq<Edge<T>>, id: T): seq<T> {
    Targets(edges, |edges|, id)
  }

  lemma {:induction false} TargetsAre<T>(edges: seq<Edge<T>>, k: nat, id: T, v: T)
    requires k <= |edges|
    ensures v in Targets(edges, k, id) <==> Edge(id, v) in edges[..k]
  {
    if k > 0 {
      TargetsAre(edges, k - 1, id, v);
      assert edges[..k] == edges[..k - 1] + [edges[k - 1]];
    }
  }

  lemma AdjacentAre<T>(edges: seq<Edge<T>>, id: T, v: T)
    ensures v in Adjacent(edges, id) <==> Edge(id, v) in edges
  {
    TargetsAre(edges, |edges|, id, v);
    assert edges[..|edges|] == edges;
  }

  predicate Path<T(==)>(edges: seq<Edge<T>>, p: seq<T>) {
    |p| >= 1 && forall i {:trigger Linked(edges, p, i)} :: 0 < i < |p| ==> Linked(edges, p, i)
  }

  predicate Linked<T(==)>(edges: seq<Edge<T>>, p: seq<T>, i: nat)
    requires 0 < i < |p|
  {
    Edge(p[i - 1], p[i]) in edges
  }

  predicate Cycle<T(==)>(edges: seq<Edge<T>>, p: seq<T>) {
    |p| >= 2 && Path(edges, p) && p[0] == p[|p| - 1]
  }

  ghost predicate Cyclic<T(!new)>(edges: seq<Edge<T>>) {
    exists p: seq<T> :: Cycle(edges, p)
  }

  predicate Closed<T(==)>(nodes: set<T>, edges: seq<Edge<T>>) {
    forall i :: 0 <= i < |edges| ==> edges[i].src in nodes && edges[i].dst in nodes
  }

  predicate Distinct<T(==)>(s: seq<T>) {
    forall i, j :: 0 <= i < j < |s| ==> s[i] != s[j]
  }

  /** Every edge into a listed node comes from a node listed before it. */
  predicate SourcesFirst<T(==)>(edges: seq<Edge<T>>, order: seq<T>) {
    forall i, k :: 0 <= i < |order| && 0 <= k < |edges| && edges[k].dst == order[i] ==> edges[k].src in order[..i]
  }

  // ---------------------------------------------------------------- finite sequences

  lemma {:induction false} DistinctFits<T>(s: seq<T>, nodes: set<T>)
    requires Distinct(s) && forall i :: 0 <= i < |s| ==> s[i] in nodes
    ensures |s| <= |nodes|
    decreases |s|
  {
    if s != [] {
      var n := |s| - 1;
      DistinctFits(s[..n], nodes - {s[n]});
    }
  }

  lemma DistinctFills<T>(s: seq<T>, nodes: set<T>, v: T)
    requires Distinct(s) && (forall i :: 0 <= i < |s| ==> s[i] in nodes) && |s| == |nodes| && v in nodes
    ensures v in s
  {
    if v !in s {
      DistinctFits(s, nodes - {v});
    }
  }

  lemma Repeats<T>(s: seq<T>, nodes: set<T>) returns (i: nat, j: nat)
    requires (forall k :: 0 <= k < |s| ==> s[k] in nodes) && |s| > |nodes|
    ensures i < j < |s| && s[i] == s[j]
  {
    if Distinct(s) {
      DistinctFits(s, nodes);
    }
    i, j :| 0 <= i < j < |s| && s[i] == s[j];
  }

  // ---------------------------------------------------------------- ordering excludes cycles

  lemma PathPrefix<T>(edges: seq<Edge<T>>, p: seq<T>, n: nat)
    requires Path(edges, p) && 1 <= n <= |p|
    ensures Path(edges, p[..n])
  {
    forall i | 0 < i < n ensures Linked(edges, p[..n], i) {
      assert Linked(edges, p, i);
    }
  }

  lemma PathSlice<T>(edges: seq<Edge<T>>, p: seq<T>, i: nat, j: nat)
    requires Path(edges, p) && i < j <= |p|
    ensures Path(edges, p[i..j])
  {
    forall k | 0 < k < j - i ensures Linked(edges, p[i..j], k) {
      assert Linked(edges, p, i + k);
    }
  }

  lemma PathCons<T>(edges: seq<Edge<T>>, u: T, p: seq<T>)
    requires Path(edges, p) && Edge(u, p[0]) in edges
    ensures Path(edges, [u] + p)
  {
    forall i | 0 < i < |p| + 1 ensures Linked(edges, [u] + p, i) {
      if i > 1 {
        assert Linked(edges, p, i - 1);
      }
    }
  }

  lemma PathSnoc<T>(edges: seq<Edge<T>>, p: seq<T>, v: T)
    requires Path(edges, p) && Edge(p[|p| - 1], v) in edges
    ensures Path(edges, p + [v])
  {
    forall i | 0 < i < |p| + 1 ensures Linked(edges, p + [v], i) {
      if i < |p| {
        assert Linked(edges, p, i);
      }
    }
  }

  lemma {:induction false} OrderAlong<T>(edges: seq<Edge<T>>, order: seq<T>, p: seq<T>, at: nat) returns (last: nat)
    requires SourcesFirst(edges, order) && Distinct(order) && Path(edges, p) && at < |order| && order[at] == p[|p| - 1]
    ensures last <= at && order[last] == p[0] && (|p| >= 2 ==> last < at)
    decreases |p|
  {
    if |p| == 1 {
      last := at;
    } else {
      var n := |p| - 1;
      assert Linked(edges, p, n);
      var k :| 0 <= k < |edges| && edges[k] == Edge(p[n - 1], p[n]);
      assert edges[k].src in order[..at];
      var before :| 0 <= before < at && order[before] == p[n - 1];
      PathPrefix(edges, p, n);
      last := OrderAlong(edges, order, p[..n], before);
    }
  }

  /** No cycle passes through a node of such an ordering. */
  lemma OrderedIsAcyclic<T>(edges: seq<Edge<T>>, order: seq<T>, p: seq<T>)
    requires SourcesFirst(edges, order) && Distinct(order) && Path(edges, p) && |p| >= 2 && p[|p| - 1] in order
    ensures p[0] != p[|p| - 1]
  {
    var at :| 0 <= at < |order| && order[at] == p[|p| - 1];
    var first := OrderAlong(edges, order, p, at);
  }

  // ---------------------------------------------------------------- a node set without a first node

  predicate Stuck<T(==)>(edges: seq<Edge<T>>, rest: set<T>) {
    forall v {:trigger HasSourceIn(edges, rest, v)} :: v in rest ==> HasSourceIn(edges, rest, v)
  }

  predicate HasSourceIn<T(==)>(edges: seq<Edge<T>>, rest: set<T>, v: T) {
    exists k :: 0 <= k < |edges| && edges[k].dst == v && edges[k].src in rest
  }

  /** A walk against the edges, of any length, that never leaves the set. */
  lemma {:induction false} WalkBack<T>(edges: seq<Edge<T>>, rest: set<T>, v: T, n: nat) returns (p: seq<T>)
    requires Stuck(edges, rest) && v in rest
    ensures |p| == n + 1 && Path(edges, p) && forall i :: 0 <= i < |p| ==> p[i] in rest
  {
    if n == 0 {
      p := [v];
    } else {
      var q := WalkBack(edges, rest, v, n - 1);
      assert HasSourceIn(edges, rest, q[0]);
      var k :| 0 <= k < |edges| && edges[k].dst == q[0] && edges[k].src in rest;
      assert edges[k] == Edge(edges[k].src, q[0]);
      PathCons(edges, edges[k].src, q);
      p := [edges[k].src] + q;
    }
  }

  lemma StuckHasCycle<T(!new)>(edges: seq<Edge<T>>, rest: set<T>)
    requires Stuck(edges, rest) && rest != {}
    ensures Cyclic(edges)
  {
    var v :| v in rest;
    var p := WalkBack(edges, rest, v, |rest|);
    var i, j := Repeats(p, rest);
    PathSlice(edges, p, i, j + 1);
    assert Cycle(edges, p[i..j + 1]);
  }

  // ---------------------------------------------------------------- in-degrees

  /** Edges into `v`, among the first `k`, whose source is not yet done. */
  function Open<T(==)>(edges: seq<Edge<T>>, k: nat, v: T, done: set<T>): nat
    requires k <= |edges|
  {
    if k == 0 then 0
    else Open(edges, k - 1, v, done) + (if edges[k - 1].dst == v && edges[k - 1].src !in done then 1 else 0)
  }

  lemma {:induction false} OpenZero<T>(edges: seq<Edge<T>>, k: nat, v: T, done: set<T>)
    requires k <= |edges|
    ensures Open(edges, k, v, done) == 0 <==> forall i :: 0 <= i < k && edges[i].dst == v ==> edges[i].src in done
  {
    if k > 0 {
      OpenZero(edges, k - 1, v, done);
    }
  }

  lemma {:induction false} OpenLess<T>(edges: seq<Edge<T>>, k: nat, v: T, done: set<T>, id: T)
    requires k <= |edges| && id !in done
    ensures Open(edges, k, v, done) == Open(edges, k, v, done + {id}) + multiset(Targets(edges, k, id))[v]
  {
    if k > 0 {
      OpenLess(edges, k - 1, v, done, id);
    }
  }
}
