/**
  Fusing operators into physical chains (internal/coordinator/chain_plan.go): only a one-to-one
  forward path at equal parallelism is fused.
 */
module PhysicalPlan {
  import opened Basics
  import opened Graphs
  import opened TopologicalSort

  datatype Shuffle = Unknown | Forward | Hash | Rebalance | Broadcast

  datatype Link = Link(src: string, dst: string, shuffle: Shuffle, selector: bool) {
    /** An omitted strategy means forward. */
    predicate IsForward() {
      shuffle == Forward || shuffle == Unknown
    }
  }

  datatype Operator = Operator(id: string, parallelism: int)

  datatype Chain = Chain(ops: seq<Operator>, parallelism: int)

  datatype Plan = Plan(chains: seq<Chain>, member: map<string, nat>)

  /** The indices of the links into and out of an operator. */
  function Incoming(links: seq<Link>, k: nat, id: string): seq<nat>
    requires k <= |links|
  {
    if k == 0 then []
    else if links[k - 1].dst == id then Incoming(links, k - 1, id) + [k - 1]
    else Incoming(links, k - 1, id)
  }

  function Outgoing(links: seq<Link>, k: nat, id: string): seq<nat>
    requires k <= |links|
  {
    if k == 0 then []
    else if links[k - 1].src == id then Outgoing(links, k - 1, id) + [k - 1]
    else Outgoing(links, k - 1, id)
  }

  lemma {:induction false} IncomingAre(links: seq<Link>, k: nat, id: string, i: nat)
    requires k <= |links|
    ensures i in Incoming(links, k, id) <==> i < k && links[i].dst == id
  {
    if k > 0 {
      IncomingAre(links, k - 1, id, i);
    }
  }

  lemma {:induction false} OutgoingAre(links: seq<Link>, k: nat, id: string, i: nat)
    requires k <= |links|
    ensures i in Outgoing(links, k, id) <==> i < k && links[i].src == id
  {
    if k > 0 {
      OutgoingAre(links, k - 1, id, i);
    }
  }

  function Effective(op: Operator, fallback: int): int {
    if op.parallelism == 0 then fallback else op.parallelism
  }

  /** Link `k` is the only one out of its source and the only one into its target, and forwards. */
  predicate Fuses(links: seq<Link>, k: nat)
    requires k < |links|
  {
    && Incoming(links, |links|, links[k].dst) == [k] && |Outgoing(links, |links|, links[k].src)| == 1
    && links[k].IsForward()
  }

  predicate FusedPair(links: seq<Link>, a: string, b: string) {
    exists k :: 0 <= k < |links| && links[k].src == a && links[k].dst == b && Fuses(links, k)
  }

  predicate ChainOk(links: seq<Link>, fallback: int, c: Chain) {
    && c.ops != [] && c.parallelism >= 1
    && (forall j :: 0 <= j < |c.ops| ==> Effective(c.ops[j], fallback) == c.parallelism)
    && (forall j :: 0 < j < |c.ops| ==> FusedPair(links, c.ops[j - 1].id, c.ops[j].id))
  }

  predicate UniqueIds(ops: seq<Operator>) {
    forall i, j :: 0 <= i < j < |ops| ==> ops[i].id != ops[j].id
  }

  /** Sources come before targets, and every link's endpoints are known. */
  predicate Topological(sorted: seq<Operator>, links: seq<Link>) {
    && UniqueIds(sorted)
    && (forall k :: 0 <= k < |links| ==> Known(sorted, links[k].src) && Known(sorted, links[k].dst))
    && (forall i, k :: 0 <= i < |sorted| && 0 <= k < |links| && links[k].dst == sorted[i].id ==>
      Known(sorted[..i], links[k].src))
  }

  predicate Known(ops: seq<Operator>, id: string) {
    exists i :: 0 <= i < |ops| && ops[i].id == id
  }

  /** `pos[c][j]` is the place in the sorted list of the operator at position `j` of chain `c`. */
  predicate Slot(plan: Plan, pos: seq<seq<nat>>, sorted: seq<Operator>, n: nat, c: nat, j: nat)
    requires |pos| == |plan.chains| && c < |pos| && |pos[c]| == |plan.chains[c].ops| && j < |pos[c]| && n <= |sorted|
  {
    && pos[c][j] < n && plan.chains[c].ops[j] == sorted[pos[c][j]]
    && sorted[pos[c][j]].id in plan.member && plan.member[sorted[pos[c][j]].id] == c
    && (j > 0 ==> pos[c][j - 1] < pos[c][j])
  }

  /** The chains hold exactly the first `n` operators, each in one chain and once, in sorted order. */
  predicate Holds(plan: Plan, pos: seq<seq<nat>>, sorted: seq<Operator>, n: nat) {
    && n <= |sorted| && |pos| == |plan.chains|
    && (forall c :: 0 <= c < |pos| ==> |pos[c]| == |plan.chains[c].ops|)
    && (forall c, j {:trigger Slot(plan, pos, sorted, n, c, j)} ::
          0 <= c < |pos| && 0 <= j < |pos[c]| ==> Slot(plan, pos, sorted, n, c, j))
    && (forall at :: 0 <= at < n ==> Filed(plan, pos, sorted, at))
    && (forall at :: n <= at < |sorted| ==> sorted[at].id !in plan.member)
  }

  predicate Filed(plan: Plan, pos: seq<seq<nat>>, sorted: seq<Operator>, at: nat)
    requires at < |sorted|
  {
    sorted[at].id in plan.member && plan.member[sorted[at].id] < |pos| && at in pos[plan.member[sorted[at].id]]
  }

  predicate ChainsOk(plan: Plan, links: seq<Link>, fallback: int) {
    forall c :: 0 <= c < |plan.chains| ==> ChainOk(links, fallback, plan.chains[c])
  }

  /** A link whose ends are placed lies inside one chain exactly when it fuses at equal parallelism. */
  predicate Places(plan: Plan, sorted: seq<Operator>, links: seq<Link>, fallback: int, k: nat, u: nat, v: nat)
    requires k < |links| && u < |sorted| && v < |sorted|
  {
    && sorted[u].id in plan.member && sorted[v].id in plan.member
    && (plan.member[sorted[u].id] == plan.member[sorted[v].id] <==>
          Fuses(links, k) && Effective(sorted[u], fallback) == Effective(sorted[v], fallback))
  }

  predicate FusedExactly(plan: Plan, sorted: seq<Operator>, n: nat, links: seq<Link>, fallback: int)
    requires n <= |sorted|
  {
    forall k, u, v {:trigger Places(plan, sorted, links, fallback, k, u, v)} ::
      0 <= k < |links| && 0 <= u < n && 0 <= v < n && links[k].src == sorted[u].id && links[k].dst == sorted[v].id ==>
        Places(plan, sorted, links, fallback, k, u, v)
  }

  /** Every operator runs at its own parallelism, or at the job's when it has none of its own. */
  predicate RightParallelism(plan: Plan, fallback: int) {
    forall c, j :: 0 <= c < |plan.chains| && 0 <= j < |plan.chains[c].ops| ==>
      var op, p := plan.chains[c].ops[j], plan.chains[c].parallelism;
      (op.parallelism != 0 ==> p == op.parallelism) && (op.parallelism == 0 ==> p == fallback)
  }

  lemma ChainsRunRight(plan: Plan, links: seq<Link>, fallback: int)
    requires ChainsOk(plan, links, fallback)
    ensures RightParallelism(plan, fallback)
  {
    forall c, j | 0 <= c < |plan.chains| && 0 <= j < |plan.chains[c].ops|
      ensures Effective(plan.chains[c].ops[j], fallback) == plan.chains[c].parallelism
    {
      assert ChainOk(links, fallback, plan.chains[c]);
    }
  }

  // ---------------------------------------------------------------- placing one operator

  function NewChain(plan: Plan, op: Operator, p: int): Plan {
    Plan(plan.chains + [Chain([op], p)], plan.member[op.id := |plan.chains|])
  }

  function Extended(plan: Plan, op: Operator, c: nat): Plan
    requires c < |plan.chains|
  {
    Plan(plan.chains[c := plan.chains[c].(ops := plan.chains[c].ops + [op])], plan.member[op.id := c])
  }

  lemma NewChainHolds(plan: Plan, pos: seq<seq<nat>>, sorted: seq<Operator>, n: nat, p: int)
    requires Holds(plan, pos, sorted, n) && UniqueIds(sorted) && n < |sorted|
    ensures Holds(NewChain(plan, sorted[n], p), pos + [[n]], sorted, n + 1)
  {
    var after, pos1, m := NewChain(plan, sorted[n], p), pos + [[n]], n + 1;
    forall c, j | 0 <= c < |pos1| && 0 <= j < |pos1[c]| ensures Slot(after, pos1, sorted, m, c, j) {
      if c < |pos| {
        assert Slot(plan, pos, sorted, n, c, j);
      }
    }
    forall at | 0 <= at < n + 1 ensures Filed(after, pos1, sorted, at) {
      if at < n {
        assert Filed(plan, pos, sorted, at);
      }
    }
  }

  lemma ExtendedHolds(plan: Plan, pos: seq<seq<nat>>, sorted: seq<Operator>, n: nat, c: nat)
    requires Holds(plan, pos, sorted, n) && UniqueIds(sorted) && n < |sorted| && c < |pos|
    ensures Holds(Extended(plan, sorted[n], c), pos[c := pos[c] + [n]], sorted, n + 1)
  {
    var after, pos1, m := Extended(plan, sorted[n], c), pos[c := pos[c] + [n]], n + 1;
    forall d, j | 0 <= d < |pos1| && 0 <= j < |pos1[d]| ensures Slot(after, pos1, sorted, m, d, j) {
      if j < |pos[d]| {
        assert Slot(plan, pos, sorted, n, d, j);
      } else if j > 0 {
        assert Slot(plan, pos, sorted, n, d, j - 1);
      }
    }
    forall at | 0 <= at < n + 1 ensures Filed(after, pos1, sorted, at) {
      if at < n {
        assert Filed(plan, pos, sorted, at);
      } else {
        assert pos1[c][|pos[c]|] == n;
      }
    }
  }

  lemma OnlyOutgoing(links: seq<Link>, a: nat, b: nat)
    requires a < |links| && b < |links| && links[a].src == links[b].src && |Outgoing(links, |links|, links[a].src)| == 1
    ensures a == b
  {
    OutgoingAre(links, |links|, links[a].src, a);
    OutgoingAre(links, |links|, links[a].src, b);
  }

  lemma OnlyIncoming(links: seq<Link>, a: nat, b: nat)
    requires a < |links| && b < |links| && links[a].dst == links[b].dst && |Incoming(links, |links|, links[a].dst)| == 1
    ensures a == b
  {
    IncomingAre(links, |links|, links[a].dst, a);
    IncomingAre(links, |links|, links[a].dst, b);
  }

  /** The source of a single-output link to an unplaced operator is the last of its chain. */
  lemma SourceIsLast(plan: Plan, pos: seq<seq<nat>>, sorted: seq<Operator>, n: nat, links: seq<Link>, fallback: int,
                     k: nat, c: nat)
    requires Holds(plan, pos, sorted, n) && ChainsOk(plan, links, fallback) && UniqueIds(sorted) && n < |sorted|
    requires k < |links| && links[k].dst == sorted[n].id && |Outgoing(links, |links|, links[k].src)| == 1
    requires links[k].src in plan.member && plan.member[links[k].src] == c < |plan.chains|
    requires Known(sorted[..n], links[k].src)
    ensures plan.chains[c].ops[|plan.chains[c].ops| - 1].id == links[k].src
  {
    var m :| 0 <= m < n && sorted[..n][m].id == links[k].src;
    assert Filed(plan, pos, sorted, m);
    var j :| 0 <= j < |pos[c]| && pos[c][j] == m;
    assert Slot(plan, pos, sorted, n, c, j);
    if j + 1 < |pos[c]| {
      assert Slot(plan, pos, sorted, n, c, j + 1);
      assert ChainOk(links, fallback, plan.chains[c]);
      assert FusedPair(links, plan.chains[c].ops[j].id, plan.chains[c].ops[j + 1].id);
      var k2 :| 0 <= k2 < |links| && links[k2].src == plan.chains[c].ops[j].id
        && links[k2].dst == plan.chains[c].ops[j + 1].id && Fuses(links, k2);
      OnlyOutgoing(links, k, k2);
    }
  }

  lemma ExtendedOk(plan: Plan, links: seq<Link>, fallback: int, op: Operator, c: nat, k: nat)
    requires ChainsOk(plan, links, fallback) && c < |plan.chains| && k < |links|
    requires Effective(op, fallback) == plan.chains[c].parallelism && links[k].dst == op.id && Fuses(links, k)
    requires plan.chains[c].ops != [] && plan.chains[c].ops[|plan.chains[c].ops| - 1].id == links[k].src
    ensures ChainsOk(Extended(plan, op, c), links, fallback)
  {
    var before, after := plan.chains[c], Extended(plan, op, c).chains[c];
    assert ChainOk(links, fallback, before);
    forall j | 0 < j < |after.ops| ensures FusedPair(links, after.ops[j - 1].id, after.ops[j].id) {
      if j < |before.ops| {
        assert FusedPair(links, before.ops[j - 1].id, before.ops[j].id);
      }
    }
  }

  /** The chain an operator joins, if its only input is a forward link that fuses. */
  function Joins(plan: Plan, links: seq<Link>, op: Operator, p: int): Option<nat>
  {
    var incoming := Incoming(links, |links|, op.id);
    if |incoming| != 1 || incoming[0] >= |links| then None
    else
      var edge := links[incoming[0]];
      if edge.src in plan.member && edge.IsForward() && |Outgoing(links, |links|, edge.src)| == 1
         && plan.member[edge.src] < |plan.chains| && plan.chains[plan.member[edge.src]].parallelism == p
      then Some(plan.member[edge.src]) else None
  }

  lemma JoinsLast(plan: Plan, pos: seq<seq<nat>>, sorted: seq<Operator>, n: nat, links: seq<Link>, fallback: int,
                  c: nat)
    requires Holds(plan, pos, sorted, n) && ChainsOk(plan, links, fallback) && Topological(sorted, links)
    requires n < |sorted|
    requires Joins(plan, links, sorted[n], Effective(sorted[n], fallback)) == Some(c)
    ensures c < |plan.chains| && ChainsOk(Extended(plan, sorted[n], c), links, fallback)
  {
    var k := Incoming(links, |links|, sorted[n].id)[0];
    IncomingAre(links, |links|, sorted[n].id, k);
    SourceIsLast(plan, pos, sorted, n, links, fallback, k, c);
    assert Incoming(links, |links|, sorted[n].id) == [k];
    assert ChainOk(links, fallback, plan.chains[c]);
    ExtendedOk(plan, links, fallback, sorted[n], c, k);
  }

  /** The chain that already holds the source of a link. */
  lemma SourceChain(plan: Plan, pos: seq<seq<nat>>, sorted: seq<Operator>, n: nat, links: seq<Link>, fallback: int,
                    u: nat)
    requires Holds(plan, pos, sorted, n) && ChainsOk(plan, links, fallback) && u < n
    ensures sorted[u].id in plan.member && plan.member[sorted[u].id] < |plan.chains|
    ensures plan.chains[plan.member[sorted[u].id]].parallelism == Effective(sorted[u], fallback)
  {
    assert Filed(plan, pos, sorted, u);
    var c := plan.member[sorted[u].id];
    var j :| 0 <= j < |pos[c]| && pos[c][j] == u;
    assert Slot(plan, pos, sorted, n, c, j) && ChainOk(links, fallback, plan.chains[c]);
  }

  /** The next operator joins the chain of a link's source exactly when the link fuses at equal parallelism. */
  lemma JoinsExactly(plan: Plan, pos: seq<seq<nat>>, sorted: seq<Operator>, n: nat, links: seq<Link>, fallback: int,
                     k: nat, u: nat)
    requires Holds(plan, pos, sorted, n) && ChainsOk(plan, links, fallback) && n < |sorted| && k < |links| && u < n
    requires links[k].src == sorted[u].id && links[k].dst == sorted[n].id
    ensures sorted[u].id in plan.member
    ensures Joins(plan, links, sorted[n], Effective(sorted[n], fallback)).Some? <==>
      Fuses(links, k) && Effective(sorted[u], fallback) == Effective(sorted[n], fallback)
    ensures Fuses(links, k) && Effective(sorted[u], fallback) == Effective(sorted[n], fallback) ==>
      Joins(plan, links, sorted[n], Effective(sorted[n], fallback)) == Some(plan.member[sorted[u].id])
  {
    SourceChain(plan, pos, sorted, n, links, fallback, u);
    IncomingAre(links, |links|, sorted[n].id, k);
    var incoming := Incoming(links, |links|, sorted[n].id);
    if |incoming| == 1 {
      assert incoming == [k];
    }
  }

  lemma FusesOneMore(plan: Plan, pos: seq<seq<nat>>, sorted: seq<Operator>, n: nat, links: seq<Link>, fallback: int,
                     after: Plan, at: nat)
    requires Holds(plan, pos, sorted, n) && ChainsOk(plan, links, fallback) && Topological(sorted, links)
    requires n < |sorted| && FusedExactly(plan, sorted, n, links, fallback)
    requires after.member == plan.member[sorted[n].id := at]
    requires var joined := Joins(plan, links, sorted[n], Effective(sorted[n], fallback));
      at == if joined.Some? then joined.value else |plan.chains|
    ensures FusedExactly(after, sorted, n + 1, links, fallback)
  {
    forall k, u, v | 0 <= k < |links| && 0 <= u < n + 1 && 0 <= v < n + 1
        && links[k].src == sorted[u].id && links[k].dst == sorted[v].id
      ensures Places(after, sorted, links, fallback, k, u, v)
    {
      SourceEarlier(sorted, links, k, u, v);
      if v < n {
        assert Places(plan, sorted, links, fallback, k, u, v);
      } else {
        JoinsExactly(plan, pos, sorted, n, links, fallback, k, u);
        SourceChain(plan, pos, sorted, n, links, fallback, u);
      }
    }
  }

  method PlanChains(sorted: seq<Operator>, links: seq<Link>, fallback: int)
    returns (r: Option<Plan>, ghost pos: seq<seq<nat>>)
    requires Topological(sorted, links)
    ensures r.Some? <==> forall i :: 0 <= i < |sorted| ==> Effective(sorted[i], fallback) >= 1
    ensures r.Some? ==> Holds(r.value, pos, sorted, |sorted|) && ChainsOk(r.value, links, fallback)
    ensures r.Some? ==> FusedExactly(r.value, sorted, |sorted|, links, fallback) && RightParallelism(r.value, fallback)
  {
    var plan := Plan([], map[]);
    pos := [];
    for i := 0 to |sorted|
      invariant Holds(plan, pos, sorted, i) && ChainsOk(plan, links, fallback)
      invariant FusedExactly(plan, sorted, i, links, fallback)
      invariant forall k :: 0 <= k < i ==> Effective(sorted[k], fallback) >= 1
    {
      var op := sorted[i];
      var p := Effective(op, fallback);
      if p < 1 {
        return None, pos;
      }
      var joined := Joins(plan, links, op, p);
      if joined.Some? {
        JoinsLast(plan, pos, sorted, i, links, fallback, joined.value);
        ExtendedHolds(plan, pos, sorted, i, joined.value);
        FusesOneMore(plan, pos, sorted, i, links, fallback, Extended(plan, op, joined.value), joined.value);
        plan, pos := Extended(plan, op, joined.value), pos[joined.value := pos[joined.value] + [i]];
      } else {
        NewChainHolds(plan, pos, sorted, i, p);
        FusesOneMore(plan, pos, sorted, i, links, fallback, NewChain(plan, op, p), |plan.chains|);
        plan, pos := NewChain(plan, op, p), pos + [[i]];
      }
    }
    ChainsRunRight(plan, links, fallback);
    return Some(plan), pos;
  }

  // ---------------------------------------------------------------- what the plan means

  /** Every operator is in exactly one chain, at exactly one place. */
  lemma ExactlyOneChain(plan: Plan, pos: seq<seq<nat>>, sorted: seq<Operator>, at: nat, c: nat, j: nat, d: nat, k: nat)
    requires Holds(plan, pos, sorted, |sorted|) && UniqueIds(sorted) && at < |sorted|
    requires c < |plan.chains| && j < |plan.chains[c].ops| && plan.chains[c].ops[j].id == sorted[at].id
    requires d < |plan.chains| && k < |plan.chains[d].ops| && plan.chains[d].ops[k].id == sorted[at].id
    ensures c == d && j == k
  {
    assert Slot(plan, pos, sorted, |sorted|, c, j) && Slot(plan, pos, sorted, |sorted|, d, k);
    if j < k {
      Increasing(plan, pos, sorted, c, j, k);
    } else if k < j {
      Increasing(plan, pos, sorted, c, k, j);
    }
  }

  lemma {:induction false} Increasing(plan: Plan, pos: seq<seq<nat>>, sorted: seq<Operator>, c: nat, i: nat, j: nat)
    requires Holds(plan, pos, sorted, |sorted|) && c < |pos| && i < j < |pos[c]|
    ensures pos[c][i] < pos[c][j]
    decreases j
  {
    assert Slot(plan, pos, sorted, |sorted|, c, j);
    if i < j - 1 {
      Increasing(plan, pos, sorted, c, i, j - 1);
    }
  }

  /** Where an operator sits. */
  predicate At(plan: Plan, id: string, c: nat, j: nat) {
    c < |plan.chains| && j < |plan.chains[c].ops| && plan.chains[c].ops[j].id == id
  }

  lemma Sits(plan: Plan, pos: seq<seq<nat>>, sorted: seq<Operator>, id: string) returns (c: nat, j: nat)
    requires Holds(plan, pos, sorted, |sorted|) && Known(sorted, id)
    ensures At(plan, id, c, j) && id in plan.member && plan.member[id] == c
    ensures c < |pos| && j < |pos[c]| && pos[c][j] < |sorted| && sorted[pos[c][j]].id == id
  {
    var at :| 0 <= at < |sorted| && sorted[at].id == id;
    assert Filed(plan, pos, sorted, at);
    c := plan.member[id];
    j :| 0 <= j < |pos[c]| && pos[c][j] == at;
    assert Slot(plan, pos, sorted, |sorted|, c, j);
  }

  /** A link either joins neighbours of one chain or runs from the end of a chain to the start of one. */
  lemma LinkFusesOrBounds(plan: Plan, links: seq<Link>, fallback: int, k: nat, c: nat, j: nat, d: nat, i: nat)
    requires ChainsOk(plan, links, fallback) && k < |links| && At(plan, links[k].src, c, j)
    requires At(plan, links[k].dst, d, i)
    ensures (j + 1 < |plan.chains[c].ops| && plan.chains[c].ops[j + 1].id == links[k].dst)
      || (i > 0 && plan.chains[d].ops[i - 1].id == links[k].src)
      || (j == |plan.chains[c].ops| - 1 && i == 0)
  {
    var a, b := plan.chains[c], plan.chains[d];
    assert ChainOk(links, fallback, a) && ChainOk(links, fallback, b);
    if j + 1 < |a.ops| {
      assert FusedPair(links, a.ops[j].id, a.ops[j + 1].id);
      var k2 :| 0 <= k2 < |links| && links[k2].src == a.ops[j].id && links[k2].dst == a.ops[j + 1].id
        && Fuses(links, k2);
      OnlyOutgoing(links, k, k2);
    } else if i > 0 {
      assert FusedPair(links, b.ops[i - 1].id, b.ops[i].id);
      var k2 :| 0 <= k2 < |links| && links[k2].src == b.ops[i - 1].id && links[k2].dst == b.ops[i].id
        && Fuses(links, k2);
      OnlyIncoming(links, k, k2);
    }
  }

  /**
    Fusion preserves the graph: a link between different chains runs from the last operator of one
    to the first of the other; a link inside a chain joins neighbours.
   */
  lemma FusionPreservesGraph(plan: Plan, pos: seq<seq<nat>>, sorted: seq<Operator>, links: seq<Link>, fallback: int,
                             k: nat)
    returns (c: nat, j: nat, d: nat, i: nat)
    requires Topological(sorted, links) && Holds(plan, pos, sorted, |sorted|) && ChainsOk(plan, links, fallback)
    requires k < |links|
    ensures At(plan, links[k].src, c, j) && At(plan, links[k].dst, d, i)
    ensures links[k].src in plan.member && plan.member[links[k].src] == c
    ensures links[k].dst in plan.member && plan.member[links[k].dst] == d
    ensures if c == d then i == j + 1 else j == |plan.chains[c].ops| - 1 && i == 0
  {
    c, j := Sits(plan, pos, sorted, links[k].src);
    d, i := Sits(plan, pos, sorted, links[k].dst);
    LinkFusesOrBounds(plan, links, fallback, k, c, j, d, i);
    var u, v := pos[c][j], pos[d][i];
    SourceEarlier(sorted, links, k, u, v);
    if j + 1 < |plan.chains[c].ops| && plan.chains[c].ops[j + 1].id == links[k].dst {
      ExactlyOneChain(plan, pos, sorted, v, d, i, c, j + 1);
    } else if i > 0 && plan.chains[d].ops[i - 1].id == links[k].src {
      ExactlyOneChain(plan, pos, sorted, u, c, j, d, i - 1);
    } else if c == d && j > 0 {
      Increasing(plan, pos, sorted, c, 0, j);
    }
  }

  lemma SourceEarlier(sorted: seq<Operator>, links: seq<Link>, k: nat, u: nat, v: nat)
    requires Topological(sorted, links) && k < |links| && u < |sorted| && v < |sorted|
    requires sorted[u].id == links[k].src && sorted[v].id == links[k].dst
    ensures u < v
  {
    assert Known(sorted[..v], links[k].src);
    var m :| 0 <= m < v && sorted[..v][m].id == links[k].src;
    if m != u {
      assert sorted[m].id == sorted[u].id;
    }
  }

  // ---------------------------------------------------------------- from the job graph

  function Edges(links: seq<Link>): seq<Edge<string>> {
    seq(|links|, k requires 0 <= k < |links| => Edge(links[k].src, links[k].dst))
  }

  function Ids(ops: seq<Operator>): seq<string> {
    seq(|ops|, i requires 0 <= i < |ops| => ops[i].id)
  }

  /** The operators in the order of the sorted ids. */
  predicate Reordered(ops: seq<Operator>, ids: seq<string>, sorted: seq<Operator>) {
    |sorted| == |ids| && forall i :: 0 <= i < |ids| ==> sorted[i].id == ids[i] && sorted[i] in ops
  }

  method ById(ops: seq<Operator>) returns (table: map<string, Operator>)
    requires UniqueIds(ops)
    ensures forall op :: op in ops ==> op.id in table && table[op.id] == op
    ensures forall id :: id in table ==> table[id] in ops && table[id].id == id
  {
    table := map[];
    for i := 0 to |ops|
      invariant forall k :: 0 <= k < i ==> ops[k].id in table && table[ops[k].id] == ops[k]
      invariant forall id :: id in table ==> table[id] in ops && table[id].id == id
    {
      table := table[ops[i].id := ops[i]];
    }
  }

  lemma SortedIsTopological(ops: seq<Operator>, links: seq<Link>, ids: seq<string>, sorted: seq<Operator>)
    requires Graphs.Distinct(ids) && SourcesFirst(Edges(links), ids) && Elements(ids) == Elements(Ids(ops))
    requires Closed(Elements(Ids(ops)), Edges(links)) && Reordered(ops, ids, sorted)
    ensures Topological(sorted, links)
  {
    forall id | id in ids ensures Known(sorted, id) {
      var i :| 0 <= i < |ids| && ids[i] == id;
      assert sorted[i].id == id;
    }
    forall k | 0 <= k < |links| ensures Known(sorted, links[k].src) && Known(sorted, links[k].dst) {
      assert Edges(links)[k].src in Elements(ids) && Edges(links)[k].dst in Elements(ids);
    }
    forall i, k | 0 <= i < |sorted| && 0 <= k < |links| && links[k].dst == sorted[i].id
      ensures Known(sorted[..i], links[k].src)
    {
      assert Edges(links)[k].dst == ids[i] && Edges(links)[k].src in ids[..i];
      var m :| 0 <= m < i && ids[m] == links[k].src;
      assert sorted[..i][m].id == links[k].src;
    }
  }

  /** Known endpoints, no cycle, and a positive parallelism for every operator. */
  ghost predicate Plannable(ops: seq<Operator>, links: seq<Link>, fallback: int) {
    && Closed(Elements(Ids(ops)), Edges(links)) && !Cyclic(Edges(links))
    && forall i :: 0 <= i < |ops| ==> Effective(ops[i], fallback) >= 1
  }

  lemma SameOperators(ops: seq<Operator>, sorted: seq<Operator>)
    requires UniqueIds(ops) && Elements(Ids(sorted)) == Elements(Ids(ops)) && forall i :: 0 <= i < |sorted| ==>
      sorted[i] in ops
    ensures forall i :: 0 <= i < |ops| ==> ops[i] in sorted
  {
    forall i | 0 <= i < |ops| ensures ops[i] in sorted {
      assert Ids(ops)[i] in Elements(Ids(sorted));
      var j :| 0 <= j < |sorted| && Ids(sorted)[j] == ops[i].id;
      var k :| 0 <= k < |ops| && ops[k] == sorted[j];
    }
  }

  method PlanPhysicalChains(ops: seq<Operator>, links: seq<Link>, fallback: int)
    returns (r: Option<Plan>, ghost sorted: seq<Operator>, ghost pos: seq<seq<nat>>)
    requires UniqueIds(ops)
    ensures r.Some? ==>
      Topological(sorted, links) && Holds(r.value, pos, sorted, |sorted|) && ChainsOk(r.value, links, fallback)
    ensures r.Some? ==> Elements(Ids(sorted)) == Elements(Ids(ops))
    ensures r.Some? ==> FusedExactly(r.value, sorted, |sorted|, links, fallback) && RightParallelism(r.value, fallback)
    ensures r.Some? <==> Plannable(ops, links, fallback)
  {
    sorted, pos := [], [];
    var ids := TopoSortOperators(Ids(ops), Edges(links));
    if ids.None? {
      return None, sorted, pos;
    }
    var table := ById(ops);
    var order: seq<Operator> := [];
    for i := 0 to |ids.value|
      invariant Reordered(ops, ids.value[..i], order)
    {
      assert ids.value[i] in Elements(Ids(ops));
      var k :| 0 <= k < |ops| && ops[k].id == ids.value[i];
      order := order + [table[ids.value[i]]];
    }
    assert ids.value[..|ids.value|] == ids.value;
    assert Ids(order) == ids.value;
    sorted := order;
    SortedIsTopological(ops, links, ids.value, order);
    SameOperators(ops, order);
    r, pos := PlanChains(order, links, fallback);
  }
}
