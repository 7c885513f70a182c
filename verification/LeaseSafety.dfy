/** At most one node leads: the invariant of the lease protocol and the theorem over every run. */
module LeaseSafety {
  import opened Basics
  import opened LeaseElection

  /** A specification that has been in the register. */
  predicate Seen(w: World, stamp: nat) {
    stamp == 0 || stamp - 1 in w.applied
  }

  /** The register backs `n` with a lease that outlasts any deadline counted from `since`. */
  predicate Backs(w: World, n: Node, since: nat) {
    w.reg.holder == n.identity && w.reg.seconds == n.cfg.Seconds() && since <= w.writtenAt
  }

  predicate TermOk(w: World, n: Node) {
    Leads(w, n) ==> n.term.value.deadline >= n.cfg.renew && Backs(w, n, n.term.value.deadline - n.cfg.renew)
  }

  predicate ObservationOk(w: World, n: Node) {
    n.observed.Some? ==>
      Seen(w, n.observed.value.stamp) && (n.observed.value.stamp == w.reg.stamp ==> w.writtenAt <= n.observed.value.at)
  }

  predicate ReadOk(w: World, n: Node) {
    n.op.Get? && n.op.read.Some? ==>
      && n.op.read.value.version <= w.reg.version && Seen(w, n.op.read.value.stamp)
      && (n.op.read.value.version == w.reg.version ==> n.op.read.value == w.reg)
  }

  predicate PutOk(w: World, n: Node) {
    n.op.Put? ==>
      && n.op.index < |w.net|
      && w.net[n.op.index].kind == n.op.kind
      && (n.op.kind in {Campaign, Renew} ==>
            && w.net[n.op.index].holder == n.identity && w.net[n.op.index].seconds == n.cfg.Seconds()
            && (n.op.index in w.applied && w.now < n.op.started + n.cfg.renew ==> Backs(w, n, n.op.started)))
  }

  predicate LifeOk(w: World, n: Node) {
    && n.cfg.Outlasts() && n.identity < w.identities
    && (n.identity == VACANT ==> n.term == None && n.op.Idle?)
    && (n.op.Get? || n.op.Put? ==> n.op.started <= w.now)
    && (n.op.Pause? ==> n.term == None)
    && ((n.op.Get? || n.op.Put?) && n.op.kind == Campaign ==> n.term == None)
    && ((n.op.Get? || n.op.Put?) && n.op.kind == Resign ==> n.term.Some? && n.term.value.cancelled)
    && (n.identity in w.resigned ==>
          && (n.term.Some? ==> n.term.value.cancelled)
          && (n.op.Idle? || (n.op.Put? && n.op.kind == Resign)))
    && (n.op.Idle? && n.identity in w.resigned ==> n.term == None)
  }

  predicate NodeOk(w: World, n: Node) {
    TermOk(w, n) && ObservationOk(w, n) && ReadOk(w, n) && PutOk(w, n) && LifeOk(w, n)
  }

  /** What a write that can still take effect knows about the register. */
  predicate WriteOk(w: World, k: nat)
    requires k < |w.net|
  {
    var m := w.net[k];
    && m.expected <= w.reg.version && (k in w.applied ==> m.expected < w.reg.version)
    && (m.kind == Publish ==> Seen(w, m.stamp)) && (m.kind != Publish ==> m.stamp == k + 1)
    && m.identity < w.identities && m.holder == (if m.kind == Resign then VACANT else m.identity)
    && (m.kind == Resign ==> m.identity in w.resigned)
    && (m.expected == w.reg.version ==>
          if m.kind == Campaign then w.reg.holder == VACANT || w.now >= w.writtenAt + w.reg.seconds * SECOND
          else
            && m.identity == w.reg.holder && m.seconds == w.reg.seconds
            && (m.kind == Publish ==> m.stamp == w.reg.stamp))
  }

  predicate WorldOk(w: World) {
    && w.writtenAt <= w.now && Seen(w, w.reg.stamp) && w.reg.holder < w.identities
    && (forall k :: 0 <= k < |w.net| ==> WriteOk(w, k))
    && (forall k :: k in w.applied ==> k < |w.net|)
    && (forall x :: x in w.resigned ==> 0 < x < w.identities)
  }

  predicate Distinct(nodes: seq<Node>) {
    forall i, j :: 0 <= i < j < |nodes| && nodes[i].identity == nodes[j].identity ==> nodes[i].identity == VACANT
  }

  predicate Inv(s: State) {
    WorldOk(s.w) && Distinct(s.nodes) && forall i :: 0 <= i < |s.nodes| ==> NodeOk(s.w, s.nodes[i])
  }

  /** The invariant leaves room for one leader. */
  lemma OneLeader(s: State, i: nat, j: nat)
    requires Inv(s) && i < |s.nodes| && j < |s.nodes| && Leads(s.w, s.nodes[i]) && Leads(s.w, s.nodes[j])
    ensures i == j
  {
    assert NodeOk(s.w, s.nodes[i]) && NodeOk(s.w, s.nodes[j]);
  }

  // ---------------------------------------------------------------- server and clock

  lemma TickKeeps(s: State, d: nat)
    requires Inv(s)
    ensures Inv(Next(s, Tick(d)))
  {
    var w := Next(s, Tick(d)).w;
    forall k | 0 <= k < |w.net| ensures WriteOk(w, k) {
      assert WriteOk(s.w, k);
    }
    forall i | 0 <= i < |s.nodes| ensures NodeOk(w, s.nodes[i]) {
      assert NodeOk(s.w, s.nodes[i]);
    }
  }

  /** A lease that has run its full duration cannot back a live deadline. */
  lemma ExpiredBacksNobody(w: World, n: Node)
    requires n.cfg.Outlasts() && w.now >= w.writtenAt + w.reg.seconds * SECOND
    ensures forall since: nat :: Backs(w, n, since) ==> w.now >= since + n.cfg.renew
  {
    assert n.cfg.lease == n.cfg.Seconds() * SECOND;
  }

  lemma ApplyKeepsNode(w: World, k: nat, n: Node)
    requires WorldOk(w) && NodeOk(w, n) && k < |w.net| && Applies(w, k)
    ensures NodeOk(ApplyStep(w, k), n)
  {
    var m, after := w.net[k], ApplyStep(w, k);
    assert WriteOk(w, k);
    if m.kind == Campaign && w.reg.holder != VACANT {
      ExpiredBacksNobody(w, n);
    }
    assert TermOk(after, n);
    assert ObservationOk(after, n);
    assert ReadOk(after, n);
    assert PutOk(after, n);
  }

  lemma ApplyKeepsWorld(w: World, k: nat)
    requires WorldOk(w) && k < |w.net| && Applies(w, k)
    ensures WorldOk(ApplyStep(w, k))
  {
    var after := ApplyStep(w, k);
    assert WriteOk(w, k);
    forall j | 0 <= j < |after.net| ensures WriteOk(after, j) {
      assert WriteOk(w, j);
    }
  }

  lemma ApplyKeeps(s: State, k: nat)
    requires Inv(s) && k < |s.w.net|
    ensures Inv(Next(s, Apply(k)))
  {
    if Applies(s.w, k) {
      ApplyKeepsWorld(s.w, k);
      forall i | 0 <= i < |s.nodes| ensures NodeOk(ApplyStep(s.w, k), s.nodes[i]) {
        ApplyKeepsNode(s.w, k, s.nodes[i]);
      }
    }
  }

  // ---------------------------------------------------------------- client steps

  /** Only the network, the resigned identities and the identity counter grew. */
  predicate Grew(w: World, after: World) {
    && after == w.(net := after.net, resigned := after.resigned, identities := after.identities)
    && |w.net| <= |after.net| && after.net[..|w.net|] == w.net
    && w.resigned <= after.resigned && w.identities <= after.identities
  }

  lemma GrewKeepsNode(w: World, after: World, n: Node)
    requires NodeOk(w, n) && Grew(w, after) && (n.identity in after.resigned ==> n.identity in w.resigned)
    ensures NodeOk(after, n)
  {
    if n.op.Put? {
      assert after.net[n.op.index] == after.net[..|w.net|][n.op.index];
    }
  }

  /** A client step is safe when it keeps the world, its own node and the identities apart. */
  lemma LocalKeeps(s: State, i: nat, n: Node, w: World)
    requires Inv(s) && i < |s.nodes| && Grew(s.w, w) && WorldOk(w) && NodeOk(w, n)
    requires n.identity == s.nodes[i].identity || n.identity == s.w.identities
    requires forall x :: x in w.resigned ==> x in s.w.resigned || x == s.nodes[i].identity
    ensures Inv(State(w, s.nodes[i := n]))
  {
    var nodes := s.nodes[i := n];
    forall j | 0 <= j < |nodes| ensures NodeOk(w, nodes[j]) {
      if j != i {
        assert NodeOk(s.w, s.nodes[j]) && NodeOk(s.w, s.nodes[i]);
        assert s.nodes[j].identity == s.nodes[i].identity ==> s.nodes[i].identity == VACANT;
        GrewKeepsNode(s.w, w, s.nodes[j]);
      }
    }
    forall a, b | 0 <= a < b < |nodes| && nodes[a].identity == nodes[b].identity ensures nodes[a].identity == VACANT {
      assert NodeOk(s.w, s.nodes[a]) && NodeOk(s.w, s.nodes[b]);
    }
  }

  lemma StartKeepsNode(w: World, n: Node, kind: Kind)
    requires WorldOk(w) && NodeOk(w, n) && CanStart(w, n, kind)
    ensures NodeOk(StartWorld(w, n, kind), StartNode(w, n, kind))
  {
  }

  lemma StartKeepsWorld(w: World, n: Node, kind: Kind)
    requires WorldOk(w)
    ensures Grew(w, StartWorld(w, n, kind)) && WorldOk(StartWorld(w, n, kind))
  {
    var after := StartWorld(w, n, kind);
    forall k | 0 <= k < |after.net| ensures WriteOk(after, k) {
      assert WriteOk(w, k);
    }
  }

  lemma AckKeepsNode(w: World, n: Node)
    requires WorldOk(w) && NodeOk(w, n) && CanAck(w, n)
    ensures NodeOk(w, AckNode(w, n))
  {
  }

  lemma SimpleKeepsNode(w: World, n: Node, a: Action)
    requires WorldOk(w) && NodeOk(w, n)
    requires a.ServerRead? || a.Fail? || a.GiveUp? || a.Cancel?
    requires a.ServerRead? ==> n.op.Get?
    requires a.Fail? ==> n.op.Get? || n.op.Put?
    requires a.GiveUp? ==> n.op.Pause?
    ensures NodeOk(w, NextNode(w, n, a)) && NextNode(w, n, a).identity == n.identity
  {
  }

  /** The answer to a record that is still current tells the truth about the register. */
  lemma AnswerIsSound(w: World, n: Node, m: Write)
    requires WorldOk(w) && NodeOk(w, n) && CanReceive(n) && Answer(w, n, n.op.kind, n.op.read.value) == Some(m)
    ensures Grew(w, ReceiveWorld(w, n)) && WriteOk(ReceiveWorld(w, n), |w.net|)
  {
    var after := ReceiveWorld(w, n);
    assert after.net[|w.net|] == m;
  }

  lemma ReceiveKeepsWorld(w: World, n: Node)
    requires WorldOk(w) && NodeOk(w, n) && CanReceive(n)
    ensures Grew(w, ReceiveWorld(w, n)) && WorldOk(ReceiveWorld(w, n))
  {
    var after := ReceiveWorld(w, n);
    match Answer(w, n, n.op.kind, n.op.read.value)
    case None =>
    case Some(m) =>
      AnswerIsSound(w, n, m);
      forall k | 0 <= k < |after.net| ensures WriteOk(after, k) {
        if k < |w.net| {
          assert WriteOk(w, k) && after.net[k] == w.net[k];
        }
      }
  }

  lemma ReceiveKeepsNode(w: World, n: Node)
    requires WorldOk(w) && NodeOk(w, n) && CanReceive(n)
    ensures NodeOk(ReceiveWorld(w, n), ReceiveNode(w, n)) && ReceiveNode(w, n).identity == n.identity
  {
  }

  lemma InvStep(s: State, a: Action)
    requires Inv(s) && Enabled(s, a)
    ensures Inv(Next(s, a))
  {
    match a
    case Tick(d) => TickKeeps(s, d);
    case Apply(k) => ApplyKeeps(s, k);
    case Start(i, kind) =>
      var n := s.nodes[i];
      StartKeepsWorld(s.w, n, kind);
      StartKeepsNode(s.w, n, kind);
      LocalKeeps(s, i, StartNode(s.w, n, kind), StartWorld(s.w, n, kind));
    case Receive(i) =>
      var n := s.nodes[i];
      ReceiveKeepsWorld(s.w, n);
      ReceiveKeepsNode(s.w, n);
      LocalKeeps(s, i, ReceiveNode(s.w, n), ReceiveWorld(s.w, n));
    case Ack(i) =>
      AckKeepsNode(s.w, s.nodes[i]);
      LocalKeeps(s, i, AckNode(s.w, s.nodes[i]), s.w);
    case _ =>
      var n := s.nodes[a.i];
      SimpleKeepsNode(s.w, n, a);
      LocalKeeps(s, a.i, NextNode(s.w, n, a), s.w);
  }

  predicate AllOutlast(nodes: seq<Node>) {
    forall i :: 0 <= i < |nodes| ==> nodes[i].cfg.Outlasts()
  }

  lemma {:induction false} InvAt(states: seq<State>, actions: seq<Action>, k: nat)
    requires Run(states, actions) && k < |states| && AllOutlast(states[0].nodes)
    ensures Inv(states[k])
  {
    if k > 0 {
      InvAt(states, actions, k - 1);
      InvStep(states[k - 1], actions[k - 1]);
    }
  }

  /** Mutual exclusion: in every run of nodes whose renewal deadline is within their lease,
      at every instant, at most one node leads. */
  lemma AtMostOneLeader(states: seq<State>, actions: seq<Action>, k: nat, i: nat, j: nat)
    requires Run(states, actions) && k < |states| && AllOutlast(states[0].nodes) && i < |states[k].nodes|
    requires j < |states[k].nodes|
    requires Leads(states[k].w, states[k].nodes[i]) && Leads(states[k].w, states[k].nodes[j])
    ensures i == j
  {
    InvAt(states, actions, k);
    OneLeader(states[k], i, j);
  }
}
