/** Depth-first cycle detection with three colours (sdk/stream_graph.go). */
module CycleDetection {
  import opened Graphs

  datatype Colour = White | Gray | Black

  /** Some walk from a node of the graph runs into a cycle. */
  ghost predicate ReachesCycle<T(!new)>(nodes: set<T>, edges: seq<Edge<T>>) {
    exists p: seq<T>, i :: Walk(nodes, edges, p) && 0 <= i < |p| - 1 && p[i] == p[|p| - 1]
  }

  predicate Walk<T(==)>(nodes: set<T>, edges: seq<Edge<T>>, p: seq<T>) {
    Path(edges, p) && p[0] in nodes
  }

  /** Nodes in the order they were finished: each one's targets were finished before it. */
  predicate Finished<T(==)>(edges: seq<Edge<T>>, order: seq<T>) {
    forall i, k :: 0 <= i < |order| && 0 <= k < |edges| && edges[k].src == order[i] ==> edges[k].dst in order[..i]
  }

  class CycleSearch<T(==, !new)> {
    const nodes: set<T>
    const edges: seq<Edge<T>>
    var colour: map<T, Colour>
    ghost var order: seq<T>

    constructor (nodes: set<T>, edges: seq<Edge<T>>)
      ensures this.nodes == nodes && this.edges == edges && Valid([])
      ensures forall v :: v in nodes ==> v in colour && colour[v] == White
    {
      this.nodes, this.edges := nodes, edges;
      colour := map v | v in nodes :: White;
      order := [];
    }

    /** A node never coloured counts as white. */
    function Of(v: T): Colour
      reads this
    {
      if v in colour then colour[v] else White
    }

    /** Gray nodes are the current path, black ones are finished. */
    ghost predicate Valid(stack: seq<T>)
      reads this
    {
      && (forall v :: Of(v) == Gray <==> v in stack)
      && (forall v :: Of(v) == Black <==> v in order)
      && Finished(edges, order) && Distinct(order)
      && (stack != [] ==> Walk(nodes, edges, stack))
    }

    /** Everything the search can meet. */
    ghost function Universe(): set<T> {
      nodes + (set k | 0 <= k < |edges| :: edges[k].dst)
    }

    ghost function Unseen(): set<T>
      reads this
    {
      set v | v in Universe() && Of(v) == White
    }

    /**
      Visits a white node at the end of the current path and reports exactly whether the node reaches
      a cycle.  If not, it ends up black, the path is as before, and finished nodes stay finished.
     */
    method Visit(id: T, ghost stack: seq<T>) returns (cyclic: bool)
      requires Valid(stack) && Of(id) == White && Walk(nodes, edges, stack + [id]) && id in Universe()
      modifies this
      ensures cyclic <==> ReachesCycle({id}, edges)
      ensures !cyclic ==> Valid(stack) && Of(id) == Black && Unseen() < old(Unseen())
      ensures !cyclic ==> |old(order)| <= |order| && order[..|old(order)|] == old(order)
      decreases Unseen(), 1
    {
      ghost var before := Unseen();
      assert id !in stack;
      colour := colour[id := Gray];
      ghost var path := stack + [id];
      assert id in before;
      assert Valid(path) && Unseen() == before - {id};
      var targets := Adjacent(edges, id);
      for i := 0 to |targets|
        invariant Valid(path) && Unseen() <= before - {id}
        invariant |old(order)| <= |order| && order[..|old(order)|] == old(order)
        invariant forall k :: 0 <= k < i ==> Of(targets[k]) == Black
      {
        var next := targets[i];
        AdjacentAre(edges, id, next);
        PathSnoc(edges, path, next);
        if Of(next) == Gray {
          ClosesCycle(edges, path, next);
          return true;
        }
        if Of(next) == White {
          assert next in Universe();
          cyclic := Visit(next, path);
          if cyclic {
            ReachesThrough(edges, id, next);
            return true;
          }
        }
      }
      Blacken(id, stack, targets);
      return false;
    }

    /** A node all of whose successors are black is finished, and leads to no cycle. */
    method Blacken(id: T, ghost stack: seq<T>, ghost targets: seq<T>)
      requires Valid(stack + [id]) && targets == Adjacent(edges, id)
      requires (stack == [] || Walk(nodes, edges, stack)) && id !in stack
      requires forall k :: 0 <= k < |targets| ==> Of(targets[k]) == Black
      modifies this
      ensures Valid(stack) && Of(id) == Black && Unseen() == old(Unseen()) && order == old(order) + [id]
      ensures !ReachesCycle({id}, edges)
    {
      Finish(id, stack, targets);
      assert forall v :: v in stack + [id] <==> v in stack || v == id;
      colour, order := colour[id := Black], order + [id];
      assert order[|order| - 1] == id;
      FinishedReachesNoCycle({id}, edges, order);
    }

    /** With every target finished, the node may be finished too. */
    lemma Finish(id: T, stack: seq<T>, targets: seq<T>)
      requires Valid(stack + [id]) && targets == Adjacent(edges, id)
      requires forall k :: 0 <= k < |targets| ==> Of(targets[k]) == Black
      ensures Finished(edges, order + [id]) && Distinct(order + [id])
    {
      var after := order + [id];
      assert (stack + [id])[|stack|] == id && Of(id) == Gray;
      assert id !in order;
      forall i, k | 0 <= i < |after| && 0 <= k < |edges| && edges[k].src == after[i]
        ensures edges[k].dst in after[..i]
      {
        if i < |order| {
          assert after[..i] == order[..i];
        } else {
          assert after[..i] == order;
          assert Edge(id, edges[k].dst) == edges[k];
          AdjacentAre(edges, id, edges[k].dst);
          assert Of(edges[k].dst) == Black;
        }
      }
    }

    /** Starts a search from every node still white. */
    method HasCycle() returns (cyclic: bool)
      requires Valid([]) && forall v :: v in nodes ==> Of(v) == White
      modifies this
      ensures cyclic <==> ReachesCycle(nodes, edges)
    {
      var rest := nodes;
      while rest != {}
        invariant rest <= nodes && Valid([]) && forall v :: v in nodes && v !in rest ==> Of(v) == Black
        decreases |rest|
      {
        var id :| id in rest;
        if Of(id) == White {
          assert [] + [id] == [id];
          ghost var before := order;
          cyclic := Visit(id, []);
          if cyclic {
            ReachedFrom(nodes, edges, id);
            return true;
          }
          StillFinished(before);
        }
        rest := rest - {id};
        assert Of(id) != Gray;
      }
      FinishedReachesNoCycle(nodes, edges, order);
      return false;
    }

    lemma StillFinished(before: seq<T>)
      requires Valid([]) && |before| <= |order| && order[..|before|] == before
      ensures forall v :: v in before ==> Of(v) == Black
    {
    }
  }

  lemma {:induction false} FinishedAlong<T>(edges: seq<Edge<T>>, order: seq<T>, p: seq<T>, i: nat, j: nat, at: nat)
    returns (later: nat)
    requires Finished(edges, order) && Path(edges, p) && i <= j < |p| && at < |order| && order[at] == p[i]
    ensures later <= at && order[later] == p[j] && (i < j ==> later < at)
    decreases j
  {
    if i == j {
      later := at;
    } else {
      var before := FinishedAlong(edges, order, p, i, j - 1, at);
      assert Linked(edges, p, j);
      var k :| 0 <= k < |edges| && edges[k] == Edge(p[j - 1], p[j]);
      assert edges[k].dst in order[..before];
      later :| 0 <= later < before && order[later] == p[j];
    }
  }

  lemma FinishedReachesNoCycle<T(!new)>(nodes: set<T>, edges: seq<Edge<T>>, order: seq<T>)
    requires Finished(edges, order) && Distinct(order) && forall v :: v in nodes ==> v in order
    ensures !ReachesCycle(nodes, edges)
  {
    forall p: seq<T>, i | Walk(nodes, edges, p) && 0 <= i < |p| - 1 ensures p[i] != p[|p| - 1] {
      var start :| 0 <= start < |order| && order[start] == p[0];
      var at := FinishedAlong(edges, order, p, 0, i, start);
      var last := FinishedAlong(edges, order, p, i, |p| - 1, at);
    }
  }

  /** An edge back into the path closes a cycle through the path's end. */
  lemma ClosesCycle<T(!new)>(edges: seq<Edge<T>>, path: seq<T>, next: T)
    requires Path(edges, path) && next in path && Edge(path[|path| - 1], next) in edges
    ensures ReachesCycle({path[|path| - 1]}, edges)
  {
    var last := path[|path| - 1];
    var i :| 0 <= i < |path| && path[i] == next;
    PathSlice(edges, path, i, |path|);
    assert path[i..|path|] == path[i..];
    PathCons(edges, last, path[i..]);
    var p := [last] + path[i..];
    assert Walk({last}, edges, p) && p[0] == p[|p| - 1];
  }

  lemma ReachesThrough<T(!new)>(edges: seq<Edge<T>>, u: T, v: T)
    requires Edge(u, v) in edges && ReachesCycle({v}, edges)
    ensures ReachesCycle({u}, edges)
  {
    var p: seq<T>, i :| Walk({v}, edges, p) && 0 <= i < |p| - 1 && p[i] == p[|p| - 1];
    PathCons(edges, u, p);
    var q := [u] + p;
    assert Walk({u}, edges, q) && q[i + 1] == q[|q| - 1];
  }

  lemma ReachedFrom<T(!new)>(nodes: set<T>, edges: seq<Edge<T>>, v: T)
    requires v in nodes && ReachesCycle({v}, edges)
    ensures ReachesCycle(nodes, edges)
  {
    var p: seq<T>, i :| Walk({v}, edges, p) && 0 <= i < |p| - 1 && p[i] == p[|p| - 1];
    assert Walk(nodes, edges, p);
  }

  /** When all endpoints are nodes of the graph, the search finds a cycle exactly when there is one. */
  lemma ReachesCycleIffCyclic<T(!new)>(nodes: set<T>, edges: seq<Edge<T>>)
    requires Closed(nodes, edges)
    ensures ReachesCycle(nodes, edges) <==> Cyclic(edges)
  {
    if ReachesCycle(nodes, edges) {
      var p: seq<T>, i :| Walk(nodes, edges, p) && 0 <= i < |p| - 1 && p[i] == p[|p| - 1];
      PathSlice(edges, p, i, |p|);
      assert Cycle(edges, p[i..|p|]);
    }
    if Cyclic(edges) {
      var p: seq<T> :| Cycle(edges, p);
      assert Linked(edges, p, 1);
      assert Walk(nodes, edges, p) && p[0] == p[|p| - 1];
    }
  }
}
