/**
  Kahn's algorithm, as the pipeline builder (sdk/stream_graph.go) and the coordinator
  (internal/coordinator/scheduler.go) run it.
 */
module TopologicalSort {
  import opened Basics
  import opened Graphs

  /** The queue and the result so far, without repetition, are exactly the nodes of in-degree zero. */
  ghost predicate Balanced<T(!new)>(nodes: set<T>, degree: map<T, int>, result: seq<T>, queue: seq<T>) {
    && degree.Keys == nodes && Distinct(result + queue)
    && (forall i :: 0 <= i < |result + queue| ==> (result + queue)[i] in nodes)
    && (forall v :: v in nodes ==> (degree[v] == 0 <==> v in result + queue))
  }

  ghost predicate Counted<T(!new)>(nodes: set<T>, edges: seq<Edge<T>>, degree: map<T,
                            int>, done: set<T>, pending: seq<T>) {
    degree.Keys == nodes && forall v :: v in nodes ==> degree[v] == Open(edges, |edges|, v, done) + multiset(pending)[v]
  }

  function Elements<T(==)>(s: seq<T>): set<T> {
    set x | x in s
  }

  lemma ElementsSnoc<T>(s: seq<T>, x: T)
    ensures Elements(s + [x]) == Elements(s) + {x}
  {
  }

  /** Taking a node off the queue leaves its outgoing edges still to be discounted. */
  lemma TakeCounts<T(!new)>(nodes: set<T>, edges: seq<Edge<T>>, degree: map<T, int>, result: seq<T>, id: T)
    requires Counted(nodes, edges, degree, Elements(result), []) && id !in result
    ensures Counted(nodes, edges, degree, Elements(result + [id]), Adjacent(edges, id))
  {
    ElementsSnoc(result, id);
    forall v | v in nodes
      ensures degree[v] == Open(edges, |edges|, v, Elements(result + [id])) + multiset(Adjacent(edges, id))[v]
    {
      OpenLess(edges, |edges|, v, Elements(result), id);
    }
  }

  lemma TakeFirst<T>(edges: seq<Edge<T>>, result: seq<T>, id: T)
    requires SourcesFirst(edges, result) && Open(edges, |edges|, id, Elements(result)) == 0
    ensures SourcesFirst(edges, result + [id])
  {
    OpenZero(edges, |edges|, id, Elements(result));
    var after := result + [id];
    forall i, k | 0 <= i < |after| && 0 <= k < |edges| && edges[k].dst == after[i] ensures edges[k].src in after[..i] {
      if i < |result| {
        assert after[..i] == result[..i];
      } else {
        assert after[..i] == result;
      }
    }
  }

  lemma DiscountOne<T(!new)>(nodes: set<T>, edges: seq<Edge<T>>, degree: map<T, int>, done: set<T>, pending: seq<T>)
    requires Counted(nodes, edges, degree, done, pending) && pending != [] && pending[0] in nodes
    ensures degree[pending[0]] >= 1
    ensures Counted(nodes, edges, degree[pending[0] := degree[pending[0]] - 1], done, pending[1..])
  {
    assert pending == [pending[0]] + pending[1..];
  }

  /** The inner loop: discounts the edges of the node just taken and queues what becomes ready. */
  method Discount<T(==, !new)>(nodes: set<T>, edges: seq<Edge<T>>, degree0: map<T,
                    int>, result: seq<T>, queue0: seq<T>, targets: seq<T>)
    returns (degree: map<T, int>, queue: seq<T>)
    requires Balanced(nodes, degree0, result, queue0) && Counted(nodes, edges, degree0, Elements(result), targets)
    requires forall i :: 0 <= i < |targets| ==> targets[i] in nodes
    ensures Balanced(nodes, degree, result, queue) && Counted(nodes, edges, degree, Elements(result), [])
  {
    degree, queue := degree0, queue0;
    for i := 0 to |targets|
      invariant Balanced(nodes, degree, result, queue)
      invariant Counted(nodes, edges, degree, Elements(result), targets[i..])
    {
      var next := targets[i];
      DiscountOne(nodes, edges, degree, Elements(result), targets[i..]);
      assert targets[i..][1..] == targets[i + 1..];
      ghost var before := degree;
      degree := degree[next := degree[next] - 1];
      if degree[next] == 0 {
        ReadyOne(nodes, before, result, queue, next);
        queue := queue + [next];
      } else {
        assert Balanced(nodes, degree, result, queue);
      }
    }
    assert targets[|targets|..] == [];
  }

  lemma ReadyOne<T(!new)>(nodes: set<T>, degree: map<T, int>, result: seq<T>, queue: seq<T>, v: T)
    requires Balanced(nodes, degree, result, queue) && v in nodes && degree[v] == 1
    ensures Balanced(nodes, degree[v := 0], result, queue + [v])
  {
    assert result + (queue + [v]) == result + queue + [v];
  }

  /** Nothing is left to take: every remaining node has a remaining source. */
  lemma LeftoverIsStuck<T(!new)>(nodes: set<T>, edges: seq<Edge<T>>, degree: map<T, int>, result: seq<T>)
    requires Closed(nodes, edges) && Balanced(nodes, degree, result, [])
    requires Counted(nodes, edges, degree, Elements(result), [])
    ensures Stuck(edges, nodes - Elements(result))
  {
    assert result + [] == result;
    forall v | v in nodes - Elements(result) ensures HasSourceIn(edges, nodes - Elements(result), v) {
      OpenZero(edges, |edges|, v, Elements(result));
      var k :| 0 <= k < |edges| && edges[k].dst == v && edges[k].src !in Elements(result);
    }
  }

  /** The main loop from the ready nodes. */
  method Drain<T(==, !new)>(nodes: set<T>, edges: seq<Edge<T>>, degree0: map<T, int>, ready: seq<T>)
    returns (result: seq<T>)
    requires Closed(nodes, edges) && Balanced(nodes, degree0, [], ready) && Counted(nodes, edges, degree0, {}, [])
    ensures Distinct(result) && SourcesFirst(edges, result) && forall i :: 0 <= i < |result| ==> result[i] in nodes
    ensures Stuck(edges, nodes - Elements(result))
  {
    result := [];
    var degree, queue := degree0, ready;
    assert Elements<T>([]) == {};
    while queue != []
      invariant Balanced(nodes, degree, result, queue) && Counted(nodes, edges, degree, Elements(result), [])
      invariant SourcesFirst(edges, result)
      decreases |nodes| - |result|
    {
      var id := queue[0];
      assert result + queue == result + [id] + queue[1..];
      assert (result + queue)[|result|] == id;
      RestFits(nodes, degree, result, queue);
      forall i | 0 <= i < |result| ensures result[i] != id {
        assert (result + queue)[i] == result[i];
      }
      TakeFirst(edges, result, id);
      TakeCounts(nodes, edges, degree, result, id);
      var targets := Adjacent(edges, id);
      forall i | 0 <= i < |targets| ensures targets[i] in nodes {
        AdjacentAre(edges, id, targets[i]);
      }
      result, queue := result + [id], queue[1..];
      degree, queue := Discount(nodes, edges, degree, result, queue, targets);
    }
    LeftoverIsStuck(nodes, edges, degree, result);
    assert result + [] == result;
  }

  lemma RestFits<T(!new)>(nodes: set<T>, degree: map<T, int>, result: seq<T>, queue: seq<T>)
    requires Balanced(nodes, degree, result, queue)
    ensures |result| + |queue| <= |nodes|
  {
    DistinctFits(result + queue, nodes);
  }

  // ---------------------------------------------------------------- in-degrees

  method InDegrees<T(==, !new)>(nodes: set<T>, edges: seq<Edge<T>>) returns (degree: map<T, int>)
    requires Closed(nodes, edges)
    ensures Counted(nodes, edges, degree, {}, [])
  {
    degree := map v | v in nodes :: 0;
    for i := 0 to |edges|
      invariant degree.Keys == nodes && forall v :: v in nodes ==> degree[v] == Open(edges, i, v, {})
    {
      degree := degree[edges[i].dst := degree[edges[i].dst] + 1];
    }
  }

  // ---------------------------------------------------------------- the pipeline builder's sort

  /** Nodes come from a map, so the ready ones are found in no particular order. */
  method TopoSort<T(==, !new)>(nodes: set<T>, edges: seq<Edge<T>>) returns (result: seq<T>)
    requires Closed(nodes, edges)
    ensures Distinct(result) && SourcesFirst(edges, result) && forall i :: 0 <= i < |result| ==> result[i] in nodes
    ensures Elements(result) == nodes <==> !Cyclic(edges)
  {
    var degree := InDegrees(nodes, edges);
    var ready: seq<T> := [];
    var rest := nodes;
    while rest != {}
      invariant rest <= nodes && Distinct(ready)
      invariant forall v :: v in ready <==> v in nodes && v !in rest && degree[v] == 0
      decreases |rest|
    {
      var v :| v in rest;
      if degree[v] == 0 {
        ready := ready + [v];
      }
      rest := rest - {v};
    }
    assert [] + ready == ready;
    result := Drain(nodes, edges, degree, ready);
    CompleteExactlyWhenAcyclic(nodes, edges, result);
  }

  lemma NothingLeft<T>(some: set<T>, all: set<T>)
    requires some <= all
    ensures all - some == {} ==> some == all
  {
    if all - some == {} {
      forall v | v in all ensures v in some {
        assert v !in all - some;
      }
    }
  }

  /** All nodes were emitted exactly when the graph has no cycle. */
  lemma CompleteExactlyWhenAcyclic<T(!new)>(nodes: set<T>, edges: seq<Edge<T>>, result: seq<T>)
    requires Closed(nodes, edges) && Distinct(result) && SourcesFirst(edges, result)
    requires (forall i :: 0 <= i < |result| ==> result[i] in nodes) && Stuck(edges, nodes - Elements(result))
    ensures Elements(result) == nodes <==> !Cyclic(edges)
  {
    if Elements(result) == nodes {
      forall p: seq<T> | Cycle(edges, p) ensures false {
        assert Linked(edges, p, |p| - 1);
        OrderedIsAcyclic(edges, result, p);
      }
    } else {
      NothingLeft(Elements(result), nodes);
      StuckHasCycle(edges, nodes - Elements(result));
    }
  }

  // ---------------------------------------------------------------- the coordinator's sort

  /** Operators in listed order with unique ids; unknown endpoints and cycles are errors, and nothing else is. */
  method TopoSortOperators<T(==, !new)>(ids: seq<T>, edges: seq<Edge<T>>) returns (r: Option<seq<T>>)
    requires Distinct(ids)
    ensures r.Some? <==> Closed(Elements(ids), edges) && !Cyclic(edges)
    ensures r.Some? ==> Distinct(r.value) && Elements(r.value) == Elements(ids) && SourcesFirst(edges, r.value)
  {
    var nodes := Elements(ids);
    for i := 0 to |edges|
      invariant forall k :: 0 <= k < i ==> edges[k].src in nodes && edges[k].dst in nodes
    {
      if edges[i].src !in nodes || edges[i].dst !in nodes {
        return None;
      }
    }
    var degree := InDegrees(nodes, edges);
    var ready: seq<T> := [];
    for i := 0 to |ids|
      invariant Distinct(ready) && forall v :: v in ready <==> v in ids[..i] && degree[v] == 0
    {
      assert ids[..i + 1] == ids[..i] + [ids[i]];
      if degree[ids[i]] == 0 {
        assert ids[i] !in ids[..i];
        ready := ready + [ids[i]];
      }
    }
    assert ids[..|ids|] == ids && [] + ready == ready;
    var result := Drain(nodes, edges, degree, ready);
    CompleteExactlyWhenAcyclic(nodes, edges, result);
    SameLengthSameElements(ids, result);
    if |result| != |ids| {
      return None;
    }
    return Some(result);
  }

  lemma SameLengthSameElements<T>(ids: seq<T>, result: seq<T>)
    requires Distinct(ids) && Distinct(result) && forall i :: 0 <= i < |result| ==> result[i] in ids
    ensures |result| == |ids| <==> Elements(result) == Elements(ids)
  {
    DistinctSize(ids);
    DistinctSize(result);
    if |result| == |ids| {
      forall v | v in Elements(ids) ensures v in result {
        DistinctFills(result, Elements(ids), v);
      }
    }
  }

  lemma {:induction false} DistinctSize<T>(s: seq<T>)
    requires Distinct(s)
    ensures |Elements(s)| == |s|
  {
    if s != [] {
      var n := |s| - 1;
      DistinctSize(s[..n]);
      assert s == s[..n] + [s[n]];
      ElementsSnoc(s[..n], s[n]);
    }
  }
}
