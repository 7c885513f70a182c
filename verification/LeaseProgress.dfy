/**
  What the election grants, and that it can grant it: a vacant or expired lease can be taken, a
  renewal extends the grant, a resignation frees the lease at once.
 */
module LeaseProgress {
  import opened Basics
  import opened Paths
  import opened LeaseElection

  function Play(s: State, actions: seq<Action>): Option<State> {
    Fold(Take, s, actions)
  }

  function Take(s: State, a: Action): Option<State> {
    if Enabled(s, a) then Some(Next(s, a)) else None
  }

  lemma PlayAfter(s: State, a: Action, rest: seq<Action>)
    requires Enabled(s, a)
    ensures Play(s, [a] + rest) == Play(Next(s, a), rest)
  {
    FoldAfter(Take, s, a, rest);
  }

  /** The node leads from now until exactly `end`, as long as nothing cancels its grant. */
  ghost predicate LeadsUntil(w: World, n: Node, end: nat) {
    forall t: nat :: w.now <= t ==> (Leads(w.(now := t), n) <==> t < end)
  }

  // ---------------------------------------------------------------- what a confirmation grants

  /** A renewal confirmed in time extends the grant to the renewal deadline after the attempt began. */
  lemma RenewalExtends(w: World, n: Node)
    requires CanAck(w, n) && n.op.kind == Renew && Leads(w, n)
    ensures LeadsUntil(w, AckNode(w, n), n.op.started + n.cfg.renew)
  {
  }

  /** So does a campaign; one confirmed too late grants nothing. */
  lemma CampaignGrants(w: World, n: Node)
    requires CanAck(w, n) && n.op.kind == Campaign && n.term == None
    ensures LeadsUntil(w, AckNode(w, n), n.op.started + n.cfg.renew)
  {
  }

  /** A renewal confirmed after the grant ended, and every resignation, leaves a node that does not lead. */
  lemma TooLateGrantsNothing(w: World, n: Node, t: nat)
    requires CanAck(w, n) && ((n.op.kind == Renew && !Leads(w, n)) || n.op.kind == Resign) && w.now <= t
    ensures !Leads(w.(now := t), AckNode(w, n))
  {
  }

  // ---------------------------------------------------------------- one exchange with the server

  /** Send the read, let the server answer, write, apply the write and confirm it. */
  function Exchange(i: nat, kind: Kind, index: nat): seq<Action> {
    [Start(i, kind), ServerRead(i), Receive(i), Apply(index), Ack(i)]
  }

  function Put1(s: State, i: nat, w: World, n: Node): State
    requires i < |s.nodes|
  {
    State(w, s.nodes[i := n])
  }

  /** The node once its request has been read by the server. */
  function Asked(w: World, n: Node, kind: Kind): Node
    requires CanStart(w, n, kind)
  {
    StartNode(w, n, kind).(op := Get(kind, w.now, Some(w.reg)))
  }

  lemma AsksFirst(s: State, i: nat, kind: Kind, rest: seq<Action>)
    requires i < |s.nodes| && CanStart(s.w, s.nodes[i], kind)
    ensures Play(s, [Start(i, kind), ServerRead(i)] + rest)
      == Play(Put1(s, i, StartWorld(s.w, s.nodes[i], kind), Asked(s.w, s.nodes[i], kind)), rest)
  {
    var w, n := StartWorld(s.w, s.nodes[i], kind), StartNode(s.w, s.nodes[i], kind);
    PlayAfter(s, Start(i, kind), [ServerRead(i)] + rest);
    assert [Start(i, kind), ServerRead(i)] + rest == [Start(i, kind)] + ([ServerRead(i)] + rest);
    PlayAfter(Put1(s, i, w, n), ServerRead(i), rest);
    assert s.nodes[i := n][i := Asked(s.w, s.nodes[i], kind)] == s.nodes[i := Asked(s.w, s.nodes[i], kind)];
  }

  lemma WritesNext(s: State, i: nat, m: Write, rest: seq<Action>)
    requires i < |s.nodes| && CanReceive(s.nodes[i])
    requires Answer(s.w, s.nodes[i], s.nodes[i].op.kind, s.nodes[i].op.read.value) == Some(m)
    requires m.expected == s.w.reg.version
    ensures Play(s, [Receive(i), Apply(|s.w.net|)] + rest)
      == Play(Put1(s, i, ApplyStep(ReceiveWorld(s.w, s.nodes[i]), |s.w.net|), ReceiveNode(s.w, s.nodes[i])), rest)
  {
    var k := |s.w.net|;
    PlayAfter(s, Receive(i), [Apply(k)] + rest);
    assert [Receive(i), Apply(k)] + rest == [Receive(i)] + ([Apply(k)] + rest);
    PlayAfter(Put1(s, i, ReceiveWorld(s.w, s.nodes[i]), ReceiveNode(s.w, s.nodes[i])), Apply(k), rest);
  }

  /** When the read leads to a write, the exchange goes through and the register holds what was written. */
  lemma ExchangeGoesThrough(s: State, i: nat, kind: Kind, m: Write) returns (after: State)
    requires i < |s.nodes| && CanStart(s.w, s.nodes[i], kind)
    requires Answer(StartWorld(s.w, s.nodes[i], kind), Asked(s.w, s.nodes[i], kind), kind, s.w.reg) == Some(m)
    requires m.expected == s.w.reg.version
    ensures Play(s, Exchange(i, kind, |s.w.net|)) == Some(after) && |after.nodes| == |s.nodes|
    ensures after.w.now == s.w.now && after.w.reg == Record(s.w.reg.version + 1, m.holder, m.seconds, m.stamp)
    ensures |after.w.net| == |s.w.net| + 1
    ensures forall j :: 0 <= j < |s.nodes| && j != i ==> after.nodes[j] == s.nodes[j]
    ensures Confirms(s, i, kind, after)
  {
    var w0, n0 := StartWorld(s.w, s.nodes[i], kind), Asked(s.w, s.nodes[i], kind);
    var s0 := Put1(s, i, w0, n0);
    var k := |s.w.net|;
    AsksFirst(s, i, kind, [Receive(i), Apply(k), Ack(i)]);
    assert Exchange(i, kind, k) == [Start(i, kind), ServerRead(i)] + [Receive(i), Apply(k), Ack(i)];
    WritesNext(s0, i, m, [Ack(i)]);
    assert [Receive(i), Apply(k), Ack(i)] == [Receive(i), Apply(k)] + [Ack(i)];
    var w1, n1 := ApplyStep(ReceiveWorld(w0, n0), k), ReceiveNode(w0, n0);
    var s1 := Put1(s0, i, w1, n1);
    PlayAfter(s1, Ack(i), []);
    assert [Ack(i)] + [] == [Ack(i)];
    after := Next(s1, Ack(i));
  }

  /** The node is what the confirmation of its write makes of it. */
  ghost predicate Confirms(s: State, i: nat, kind: Kind, after: State)
    requires i < |s.nodes| && CanStart(s.w, s.nodes[i], kind)
  {
    && i < |after.nodes|
    && exists w, n :: CanAck(w, n) && Sent(s, i, kind, w, n) && after.w == w && after.nodes[i] == AckNode(w, n)
  }

  predicate Sent(s: State, i: nat, kind: Kind, w: World, n: Node)
    requires i < |s.nodes| && CanStart(s.w, s.nodes[i], kind)
  {
    && w.now == s.w.now && n.op.Put? && n.op.kind == kind && n.op.started == s.w.now
    && n.cfg == s.nodes[i].cfg && n.identity == StartNode(s.w, s.nodes[i], kind).identity
    && n.term == StartNode(s.w, s.nodes[i], kind).term
  }

  // ---------------------------------------------------------------- what can always be done

  /** A lease that is vacant, or that this node has seen unchanged for its full duration. */
  predicate Free(w: World, n: Node) {
    w.reg.holder == VACANT
    || (w.reg.seconds > 0 && n.observed.Some? && n.observed.value.stamp == w.reg.stamp
        && w.now >= n.observed.value.at + w.reg.seconds * SECOND)
  }

  /** A free lease can be taken by any node without a grant, for exactly its renewal deadline. */
  lemma FreeLeaseCanBeTaken(s: State, i: nat) returns (after: State)
    requires i < |s.nodes| && s.nodes[i].term == None && (s.nodes[i].op.Idle? || s.nodes[i].op.Pause?)
    requires Free(s.w, s.nodes[i])
    ensures Play(s, Exchange(i, Campaign, |s.w.net|)) == Some(after) && i < |after.nodes|
    ensures after.w.reg.holder == after.nodes[i].identity && after.w.reg.seconds == s.nodes[i].cfg.Seconds()
    ensures LeadsUntil(after.w, after.nodes[i], s.w.now + s.nodes[i].cfg.renew)
  {
    var n := s.nodes[i];
    var id := StartNode(s.w, n, Campaign).identity;
    var m := Write(Campaign, id, s.w.reg.version, id, n.cfg.Seconds(), |s.w.net| + 1);
    after := ExchangeGoesThrough(s, i, Campaign, m);
    var w, sent :| CanAck(w, sent) && Sent(s, i, Campaign, w, sent)
      && after.w == w && after.nodes[i] == AckNode(w, sent);
    CampaignGrants(w, sent);
  }

  /** A leader whose lease is still its own can extend its grant past the old deadline. */
  lemma LeaderCanRenew(s: State, i: nat) returns (after: State)
    requires i < |s.nodes| && s.nodes[i].op.Idle? && Leads(s.w, s.nodes[i])
    requires s.w.reg.holder == s.nodes[i].identity && s.w.reg.seconds == s.nodes[i].cfg.Seconds()
    ensures Play(s, Exchange(i, Renew, |s.w.net|)) == Some(after) && i < |after.nodes|
    ensures after.w.reg.holder == s.nodes[i].identity == after.nodes[i].identity
    ensures after.w.reg.seconds == s.w.reg.seconds && after.w.reg.stamp == |s.w.net| + 1
    ensures after.w.now == s.w.now && after.nodes[i].cfg == s.nodes[i].cfg && after.nodes[i].op.Idle?
    ensures |after.w.net| == |s.w.net| + 1
    ensures LeadsUntil(after.w, after.nodes[i], s.w.now + s.nodes[i].cfg.renew)
  {
    var r := s.w.reg;
    var m := Write(Renew, s.nodes[i].identity, r.version, r.holder, r.seconds, |s.w.net| + 1);
    after := ExchangeGoesThrough(s, i, Renew, m);
    var w, sent :| CanAck(w, sent) && Sent(s, i, Renew, w, sent)
      && after.w == w && after.nodes[i] == AckNode(w, sent);
    RenewalExtends(w, sent);
  }

  /** `m` times: wait for `d`, then renew; `index` counts the writes. */
  function RenewalRounds(i: nat, d: nat, index: nat, m: nat): seq<Action> {
    if m == 0 then []
    else RenewalRounds(i, d, index, m - 1) + ([Tick(d)] + Exchange(i, Renew, index + m - 1))
  }

  /** The node holds the lease and its grant, with nothing under way, for more than `d` from now. */
  ghost predicate Secure(s: State, i: nat, d: nat) {
    && i < |s.nodes| && s.nodes[i].op.Idle? && StillOwns(s.nodes[i], s.w.reg) && s.nodes[i].cfg.renew > d
    && exists end :: end > s.w.now + d && LeadsUntil(s.w, s.nodes[i], end)
  }

  lemma SecureLeads(s: State, i: nat, d: nat)
    requires Secure(s, i, d)
    ensures Leads(s.w, s.nodes[i]) && Leads(s.w.(now := s.w.now + d), s.nodes[i])
  {
    assert s.w == s.w.(now := s.w.now);
  }

  lemma WaitAndRenew(s: State, i: nat, d: nat) returns (after: State)
    requires Secure(s, i, d)
    ensures Play(s, [Tick(d)] + Exchange(i, Renew, |s.w.net|)) == Some(after) && Secure(after, i, d)
    ensures after.w.now == s.w.now + d && |after.w.net| == |s.w.net| + 1
  {
    SecureLeads(s, i, d);
    var later := Next(s, Tick(d));
    PlayAfter(s, Tick(d), Exchange(i, Renew, |s.w.net|));
    after := LeaderCanRenew(later, i);
  }

  /** However long: a leader that renews every `d`, less than its renewal deadline, still leads. */
  lemma {:induction false} LeadsAsLongAsItRenews(s: State, i: nat, d: nat, m: nat) returns (after: State)
    requires Secure(s, i, d)
    ensures Play(s, RenewalRounds(i, d, |s.w.net|, m)) == Some(after) && Secure(after, i, d)
    ensures after.w.now == s.w.now + m * d && |after.w.net| == |s.w.net| + m
    ensures Leads(after.w, after.nodes[i])
  {
    if m == 0 {
      after := s;
    } else {
      var before := LeadsAsLongAsItRenews(s, i, d, m - 1);
      after := WaitAndRenew(before, i, d);
      FoldConcat(Take, s, RenewalRounds(i, d, |s.w.net|, m - 1), before,
                 [Tick(d)] + Exchange(i, Renew, |before.w.net|));
      assert m * d == (m - 1) * d + d;
    }
    SecureLeads(after, i, d);
  }

  /** A node that resigns a lease of its own leaves it vacant, so that any other can take it at once. */
  lemma ResignationFreesLease(s: State, i: nat) returns (after: State)
    requires i < |s.nodes| && s.nodes[i].op.Idle? && s.nodes[i].term.Some? && s.w.reg.holder == s.nodes[i].identity
    ensures Play(s, Exchange(i, Resign, |s.w.net|)) == Some(after) && i < |after.nodes|
    ensures after.nodes[i].term == None && forall n :: Free(after.w, n)
  {
    var r := s.w.reg;
    var m := Write(Resign, s.nodes[i].identity, r.version, VACANT, r.seconds, |s.w.net| + 1);
    after := ExchangeGoesThrough(s, i, Resign, m);
  }

  /** Publishing the leader's address changes neither the holder, the duration nor the grant. */
  lemma PublicationChangesNoTerm(s: State, i: nat) returns (after: State)
    requires i < |s.nodes| && s.nodes[i].op.Idle? && s.nodes[i].term.Some? && !s.nodes[i].term.value.cancelled
    requires s.w.reg.holder == s.nodes[i].identity && s.w.reg.seconds == s.nodes[i].cfg.Seconds()
    ensures Play(s, Exchange(i, Publish, |s.w.net|)) == Some(after) && i < |after.nodes|
    ensures after.w.reg == s.w.reg.(version := s.w.reg.version + 1) && after.nodes[i].term == s.nodes[i].term
  {
    var r := s.w.reg;
    var m := Write(Publish, s.nodes[i].identity, r.version, r.holder, r.seconds, r.stamp);
    after := ExchangeGoesThrough(s, i, Publish, m);
  }

  // ---------------------------------------------------------------- failures

  /** A request that fails takes nothing from the grant, and the node can try again. */
  lemma FailureKeepsGrant(w: World, n: Node, t: nat)
    requires (n.op.Get? || n.op.Put?) && (n.op.kind == Renew || n.op.kind == Publish) && w.now <= t
    ensures Leads(w.(now := t), Failed(n, n.op.kind)) <==> Leads(w.(now := t), n)
    ensures Leads(w, n) ==> CanStart(w, Failed(n, n.op.kind), n.op.kind)
  {
  }

  /** A campaign that fails is taken up again under the same identity; a resignation that fails still resigns. */
  lemma FailedAttemptGoesOn(w: World, n: Node)
    requires n.op.Get? || n.op.Put?
    ensures n.op.kind == Campaign && n.term == None ==>
      CanStart(w, Failed(n, Campaign), Campaign) && StartNode(w, Failed(n, Campaign), Campaign).identity == n.identity
    ensures n.op.kind == Resign ==> !Leads(w, Failed(n, Resign)) && CanStart(w, Failed(n, Resign), Campaign)
  {
  }

  /** A leader that finds its lease in other hands stops leading at once; with a foreign one a campaign waits. */
  lemma ForeignLeaseIsRespected(w: World, n: Node, t: nat)
    requires CanReceive(n) && w.now <= t
    ensures n.op.kind == Renew && !StillOwns(n, n.op.read.value) ==> !Leads(w.(now := t), ReceiveNode(w, n))
    ensures n.op.kind == Campaign && n.term == None && !MayTake(w, Observe(w, n, n.op.read.value), n.op.read.value) ==>
      ReceiveWorld(w, n) == w && CanStart(w, ReceiveNode(w, n), Campaign)
  {
  }

  /** A cancelled grant never leads again. */
  lemma CancelledNeverLeads(w: World, n: Node, t: nat)
    ensures !Leads(w.(now := t), Cancelled(n))
  {
  }
}
