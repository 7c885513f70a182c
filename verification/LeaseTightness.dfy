/**
  The constructor's demand that the lease exceed the renewal deadline is what makes the protocol
  safe: with a longer renewal deadline some run has two leaders.  The run is also an ordinary
  takeover, so the safety theorem does not hold for want of leaders.
 */
module LeaseTightness {
  import opened Basics
  import opened LeaseElection
  import opened LeaseSafety

  ghost predicate Path(states: seq<State>, actions: seq<Action>, from: State, to: State) {
    && |states| == |actions| + 1 && states[0] == from && states[|actions|] == to
    && forall k :: 0 <= k < |actions| ==> Enabled(states[k], actions[k]) && states[k + 1] == Next(states[k], actions[k])
  }

  ghost predicate Reachable(from: State, to: State) {
    exists states, actions :: Path(states, actions, from, to)
  }

  lemma Here(s: State)
    ensures Reachable(s, s)
  {
    assert Path([s], [], s, s);
  }

  lemma Onward(from: State, s: State, a: Action)
    requires Reachable(from, s) && Enabled(s, a)
    ensures Reachable(from, Next(s, a))
  {
    var states, actions :| Path(states, actions, from, s);
    assert Path(states + [Next(s, a)], actions + [a], from, Next(s, a));
  }

  function Newcomer(cfg: Config): Node {
    Node(cfg, VACANT, None, None, Idle)
  }

  /** All nodes are newcomers except `i`, in state `a`, and `j`, in state `b`. */
  function Pair(cfgs: seq<Config>, w: World, i: nat, a: Node, j: nat, b: Node): State
    requires i < |cfgs| && j < |cfgs|
  {
    State(w, seq(|cfgs|, k requires 0 <= k < |cfgs| => if k == i then a else if k == j then b else Newcomer(cfgs[k])))
  }

  function Blank(): World {
    World(0, Record(0, VACANT, 0, 0), 0, [], {}, {}, 1)
  }

  function FreshNodes(cfgs: seq<Config>): State {
    State(Blank(), seq(|cfgs|, k requires 0 <= k < |cfgs| => Newcomer(cfgs[k])))
  }

  lemma ByFirst(from: State, cfgs: seq<Config>, w: World, i: nat, a: Node, j: nat, b: Node, act: Action)
    requires i < |cfgs| && j < |cfgs| && i != j && !act.Tick? && !act.Apply? && act.i == i
    requires Reachable(from, Pair(cfgs, w, i, a, j, b)) && Enabled(Pair(cfgs, w, i, a, j, b), act)
    ensures Reachable(from, Pair(cfgs, NextWorld(Pair(cfgs, w, i, a, j, b), act), i, NextNode(w, a, act), j, b))
  {
    var s := Pair(cfgs, w, i, a, j, b);
    Onward(from, s, act);
    assert Next(s, act).nodes == Pair(cfgs, w, i, NextNode(w, a, act), j, b).nodes;
  }

  lemma BySecond(from: State, cfgs: seq<Config>, w: World, i: nat, a: Node, j: nat, b: Node, act: Action)
    requires i < |cfgs| && j < |cfgs| && i != j && !act.Tick? && !act.Apply? && act.i == j
    requires Reachable(from, Pair(cfgs, w, i, a, j, b)) && Enabled(Pair(cfgs, w, i, a, j, b), act)
    ensures Reachable(from, Pair(cfgs, NextWorld(Pair(cfgs, w, i, a, j, b), act), i, a, j, NextNode(w, b, act)))
  {
    var s := Pair(cfgs, w, i, a, j, b);
    Onward(from, s, act);
    assert Next(s, act).nodes == Pair(cfgs, w, i, a, j, NextNode(w, b, act)).nodes;
  }

  lemma ByServer(from: State, cfgs: seq<Config>, w: World, i: nat, a: Node, j: nat, b: Node, act: Action)
    requires i < |cfgs| && j < |cfgs| && i != j && (act.Tick? || act.Apply?)
    requires Reachable(from, Pair(cfgs, w, i, a, j, b)) && Enabled(Pair(cfgs, w, i, a, j, b), act)
    ensures Reachable(from, Pair(cfgs, NextWorld(Pair(cfgs, w, i, a, j, b), act), i, a, j, b))
  {
    Onward(from, Pair(cfgs, w, i, a, j, b), act);
  }

  /** A lease of at least a second, in whole seconds. */
  predicate Usable(cfg: Config) {
    cfg.lease % SECOND == 0 && cfg.lease >= SECOND && cfg.renew > 0
  }

  function FirstWrite(c: Config): Write {
    Write(Campaign, 1, 0, 1, c.Seconds(), 1)
  }

  function Won(c: Config): Node {
    Node(c, 1, Some(Term(c.renew, false)), Some(Observation(0, 0)), Idle)
  }

  /** The first node has acquired the missing Lease at time 0. */
  function Held(c: Config): World {
    World(0, Record(1, 1, c.Seconds(), 1), 0, [FirstWrite(c)], {0}, {}, 2)
  }

  lemma FirstWins(cfgs: seq<Config>, i: nat, j: nat)
    requires i < |cfgs| && j < |cfgs| && i != j && Usable(cfgs[i])
    ensures Reachable(FreshNodes(cfgs), Pair(cfgs, Held(cfgs[i]), i, Won(cfgs[i]), j, Newcomer(cfgs[j])))
  {
    var c, b, from := cfgs[i], Newcomer(cfgs[j]), FreshNodes(cfgs);
    Here(from);
    assert from == Pair(cfgs, Blank(), i, Newcomer(c), j, b);
    ByFirst(from, cfgs, Blank(), i, Newcomer(c), j, b, Start(i, Campaign));
    var w := Blank().(identities := 2);
    var a := Node(c, 1, None, None, Get(Campaign, 0, None));
    ByFirst(from, cfgs, w, i, a, j, b, ServerRead(i));
    a := a.(op := Get(Campaign, 0, Some(w.reg)));
    ByFirst(from, cfgs, w, i, a, j, b, Receive(i));
    assert [] + [FirstWrite(c)] == [FirstWrite(c)];
    w := w.(net := [FirstWrite(c)]);
    a := Node(c, 1, None, Some(Observation(0, 0)), Put(Campaign, 0, 0));
    ByServer(from, cfgs, w, i, a, j, b, Apply(0));
    assert ApplyStep(w, 0) == Held(c);
    ByFirst(from, cfgs, Held(c), i, a, j, b, Ack(i));
  }

  /** The second node has seen the first one's specification and waits. */
  function Waiting(c: Config): Node {
    Node(c, 2, None, Some(Observation(1, 0)), Pause)
  }

  lemma SecondWaits(cfgs: seq<Config>, i: nat, j: nat)
    requires i < |cfgs| && j < |cfgs| && i != j && Usable(cfgs[i])
    ensures Reachable(FreshNodes(cfgs),
              Pair(cfgs, Held(cfgs[i]).(identities := 3, now := cfgs[i].lease), i, Won(cfgs[i]), j, Waiting(cfgs[j])))
  {
    FirstWins(cfgs, i, j);
    var from, a, c := FreshNodes(cfgs), Won(cfgs[i]), cfgs[j];
    BySecond(from, cfgs, Held(cfgs[i]), i, a, j, Newcomer(c), Start(j, Campaign));
    var w := Held(cfgs[i]).(identities := 3);
    var b := Node(c, 2, None, None, Get(Campaign, 0, None));
    BySecond(from, cfgs, w, i, a, j, b, ServerRead(j));
    b := b.(op := Get(Campaign, 0, Some(w.reg)));
    BySecond(from, cfgs, w, i, a, j, b, Receive(j));
    ByServer(from, cfgs, w, i, a, j, Waiting(c), Tick(cfgs[i].lease));
  }

  /** Takeover after one full lease: both grants are uncancelled, the first until its own deadline. */
  lemma SecondTakesOver(cfgs: seq<Config>, i: nat, j: nat) returns (s: State)
    requires i < |cfgs| && j < |cfgs| && i != j && Usable(cfgs[i]) && cfgs[j].renew > 0
    ensures Reachable(FreshNodes(cfgs), s) && |s.nodes| == |cfgs|
    ensures Leads(s.w, s.nodes[j]) && s.w.now == cfgs[i].lease && s.nodes[i].term == Some(Term(cfgs[i].renew, false))
  {
    SecondWaits(cfgs, i, j);
    var from, a, c := FreshNodes(cfgs), Won(cfgs[i]), cfgs[j];
    var w := Held(cfgs[i]).(identities := 3, now := cfgs[i].lease);
    BySecond(from, cfgs, w, i, a, j, Waiting(c), Start(j, Campaign));
    var b := Waiting(c).(op := Get(Campaign, w.now, None));
    BySecond(from, cfgs, w, i, a, j, b, ServerRead(j));
    b := b.(op := Get(Campaign, w.now, Some(w.reg)));
    BySecond(from, cfgs, w, i, a, j, b, Receive(j));
    w := w.(net := w.net + [Write(Campaign, 2, 1, 2, c.Seconds(), 2)]);
    b := Waiting(c).(op := Put(Campaign, w.now, 1));
    ByServer(from, cfgs, w, i, a, j, b, Apply(1));
    w := ApplyStep(w, 1);
    BySecond(from, cfgs, w, i, a, j, b, Ack(j));
    s := Pair(cfgs, w, i, a, j, AckNode(w, b));
  }

  predicate BothLead(s: State, i: int, j: int) {
    0 <= i < |s.nodes| && 0 <= j < |s.nodes| && Leads(s.w, s.nodes[i]) && Leads(s.w, s.nodes[j])
  }

  ghost predicate AlwaysExclusive(cfgs: seq<Config>) {
    forall s, i, j :: Reachable(FreshNodes(cfgs), s) && BothLead(s, i, j) ==> i == j
  }

  lemma SafeWhenOutlasting(cfgs: seq<Config>)
    requires forall i :: 0 <= i < |cfgs| ==> cfgs[i].Outlasts()
    ensures AlwaysExclusive(cfgs)
  {
    forall s, i, j | Reachable(FreshNodes(cfgs), s) && BothLead(s, i, j) ensures i == j {
      var states, actions :| Path(states, actions, FreshNodes(cfgs), s);
      AtMostOneLeader(states, actions, |actions|, i, j);
    }
  }

  /** Every set of configurations the constructor accepts is safe. */
  lemma AcceptedConfigsAreSafe(cfgs: seq<Config>)
    requires forall i :: 0 <= i < |cfgs| ==> cfgs[i].Valid()
    ensures AlwaysExclusive(cfgs)
  {
    SafeWhenOutlasting(cfgs);
  }

  lemma UnsafeWhenShort(cfgs: seq<Config>, i: nat, j: nat)
    requires i < |cfgs| && j < |cfgs| && i != j && Usable(cfgs[i]) && cfgs[j].renew > 0
    requires cfgs[i].renew > cfgs[i].lease
    ensures !AlwaysExclusive(cfgs)
  {
    var s := SecondTakesOver(cfgs, i, j);
    assert BothLead(s, i, j);
  }

  /** With two or more nodes, exclusion in every run is exactly the demand on the two durations. */
  lemma ExclusiveExactlyWhenOutlasting(cfgs: seq<Config>)
    requires |cfgs| >= 2 && forall i :: 0 <= i < |cfgs| ==> Usable(cfgs[i])
    ensures AlwaysExclusive(cfgs) <==> forall i :: 0 <= i < |cfgs| ==> cfgs[i].renew <= cfgs[i].lease
  {
    if forall i :: 0 <= i < |cfgs| ==> cfgs[i].renew <= cfgs[i].lease {
      SafeWhenOutlasting(cfgs);
    } else {
      var i :| 0 <= i < |cfgs| && cfgs[i].renew > cfgs[i].lease;
      UnsafeWhenShort(cfgs, i, if i == 0 then 1 else 0);
    }
  }
}
