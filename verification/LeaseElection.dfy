/**
  Leader election over one Kubernetes Lease (internal/coordinator/election_kubernetes.go).

  The Lease is a compare-and-swap register: a write carries the version it was based on and is
  refused when the register has moved on.  Requests and responses may be lost or delayed without
  bound, and a write whose sender has given up may still take effect.  All clocks advance at the
  same rate and every renewal writes a specification never written before.
 */
module LeaseElection {
  import opened Basics

  /** Clock ticks per second: durations are compared in ticks but stored in whole seconds. */
  const SECOND: nat := 1_000_000_000

  datatype Config = Config(lease: nat, renew: nat, retry: nat) {
    /** The constructor's check (lines 93-95). */
    predicate Valid() {
      0 < retry < renew < lease && lease % SECOND == 0 && lease / SECOND <= 2147483647
    }

    /** The part of the check that safety rests on. */
    predicate Outlasts() {
      renew <= lease && lease % SECOND == 0
    }

    function Seconds(): nat {
      lease / SECOND
    }
  }

  /** The part of the specification the protocol reads; `stamp` identifies one written specification. */
  datatype Record = Record(version: nat, holder: nat, seconds: nat, stamp: nat)

  const VACANT: nat := 0

  datatype Kind = Campaign | Renew | Publish | Resign

  /** A write in the network: the version it is based on and the specification it carries. */
  datatype Write = Write(kind: Kind, identity: nat, expected: nat, holder: nat, seconds: nat, stamp: nat)

  datatype Op =
    | Idle
    | Pause                                                       // between campaign attempts
    | Get(kind: Kind, started: nat, read: Option<Record>)
    | Put(kind: Kind, started: nat, index: nat)

  datatype Term = Term(deadline: nat, cancelled: bool)

  datatype Observation = Observation(stamp: nat, at: nat)

  datatype Node = Node(cfg: Config, identity: nat, term: Option<Term>, observed: Option<Observation>, op: Op)

  /** `writtenAt` is the time of the last change of the register's specification. */
  datatype World = World(
    now: nat, reg: Record, writtenAt: nat,
    net: seq<Write>, applied: set<nat>, resigned: set<nat>, identities: nat)

  datatype State = State(w: World, nodes: seq<Node>)

  /** The grant is not cancelled and its local deadline has not passed. */
  predicate Leads(w: World, n: Node) {
    n.term.Some? && !n.term.value.cancelled && w.now < n.term.value.deadline
  }

  // ---------------------------------------------------------------- server

  function Applies(w: World, k: nat): bool
    requires k < |w.net|
  {
    w.net[k].expected == w.reg.version
  }

  function ApplyStep(w: World, k: nat): World
    requires k < |w.net|
  {
    var m := w.net[k];
    if !Applies(w, k) then w
    else w.(reg := Record(w.reg.version + 1, m.holder, m.seconds, m.stamp),
            writtenAt := if m.kind == Publish then w.writtenAt else w.now,
            applied := w.applied + {k})
  }

  // ---------------------------------------------------------------- client

  function Cancelled(n: Node): Node {
    if n.term.Some? then n.(term := Some(n.term.value.(cancelled := true))) else n
  }

  /** A failed or abandoned request. */
  function Failed(n: Node, kind: Kind): Node {
    match kind
    case Campaign => n.(op := Pause)
    case Resign => n.(term := None, op := Idle)
    case _ => n.(op := Idle)
  }

  predicate CanStart(w: World, n: Node, kind: Kind) {
    match kind
    case Campaign => n.term == None && (n.op.Idle? || n.op.Pause?)
    case Renew => n.op.Idle? && Leads(w, n)
    case Publish => n.op.Idle? && n.term.Some? && !n.term.value.cancelled
    case Resign => n.op.Idle? && n.term.Some?
  }

  /** Sends the read request; a campaign draws a fresh identity unless it is a retry of one. */
  function StartNode(w: World, n: Node, kind: Kind): Node
    requires CanStart(w, n, kind)
  {
    var n := if kind == Resign then Cancelled(n) else n;
    var n := if kind == Campaign && n.op.Idle? then n.(identity := w.identities) else n;
    n.(op := Get(kind, w.now, None))
  }

  function StartWorld(w: World, n: Node, kind: Kind): World {
    if kind == Campaign && n.op.Idle? then w.(identities := w.identities + 1) else w
  }

  /** What the client last saw change, and when it saw it (lines 221-225). */
  function Observe(w: World, n: Node, r: Record): Observation {
    if n.observed.Some? && n.observed.value.stamp == r.stamp then n.observed.value else Observation(r.stamp, w.now)
  }

  predicate MayTake(w: World, seen: Observation, r: Record) {
    r.holder == VACANT || (r.seconds > 0 && w.now >= seen.at + r.seconds * SECOND)
  }

  predicate StillOwns(n: Node, r: Record) {
    r.holder == n.identity && r.seconds == n.cfg.Seconds()
  }

  /** The write that answers the record read, if any. */
  function Answer(w: World, n: Node, kind: Kind, r: Record): Option<Write> {
    var stamp := |w.net| + 1;
    match kind
    case Campaign =>
      if MayTake(w, Observe(w, n, r), r)
      then Some(Write(Campaign, n.identity, r.version, n.identity, n.cfg.Seconds(), stamp)) else None
    case Renew =>
      if StillOwns(n, r) then Some(Write(Renew, n.identity, r.version, r.holder, r.seconds, stamp)) else None
    case Publish =>
      if StillOwns(n, r) then Some(Write(Publish, n.identity, r.version, r.holder, r.seconds, r.stamp)) else None
    case Resign =>
      if r.holder == n.identity then Some(Write(Resign, n.identity, r.version, VACANT, r.seconds, stamp)) else None
  }

  predicate CanReceive(n: Node) {
    n.op.Get? && n.op.read.Some?
  }

  function ReceiveNode(w: World, n: Node): Node
    requires CanReceive(n)
  {
    var kind, r := n.op.kind, n.op.read.value;
    var next := if kind == Campaign then n.(observed := Some(Observe(w, n, r))) else n;
    if Answer(w, n, kind, r).Some? then next.(op := Put(kind, n.op.started, |w.net|))
    else if kind == Renew then Cancelled(next).(op := Idle)
    else Failed(next, kind)
  }

  function ReceiveWorld(w: World, n: Node): World
    requires CanReceive(n)
  {
    var kind := n.op.kind;
    match Answer(w, n, kind, n.op.read.value)
    case None => w
    case Some(m) =>
      w.(net := w.net + [m], resigned := if kind == Resign then w.resigned + {n.identity} else w.resigned)
  }

  predicate CanAck(w: World, n: Node) {
    n.op.Put? && n.op.index in w.applied
  }

  /** The success response reaches the client. */
  function AckNode(w: World, n: Node): Node
    requires CanAck(w, n)
  {
    var deadline := n.op.started + n.cfg.renew;
    match n.op.kind
    case Campaign =>
      if w.now < deadline then n.(term := Some(Term(deadline, false)), op := Idle) else n.(op := Pause)
    case Renew =>
      if Leads(w, n) then n.(term := Some(Term(deadline, false)), op := Idle) else Cancelled(n).(op := Idle)
    case Publish => n.(op := Idle)
    case Resign => n.(term := None, op := Idle)
  }

  // ---------------------------------------------------------------- runs

  datatype Action =
    | Tick(d: nat)
    | Apply(k: nat)
    | Start(i: nat, kind: Kind)
    | ServerRead(i: nat)
    | Receive(i: nat)
    | Ack(i: nat)
    | Fail(i: nat)
    | GiveUp(i: nat)
    | Cancel(i: nat)

  predicate Enabled(s: State, a: Action) {
    match a
    case Tick(_) => true
    case Apply(k) => k < |s.w.net|
    case Start(i, kind) => i < |s.nodes| && CanStart(s.w, s.nodes[i], kind)
    case ServerRead(i) => i < |s.nodes| && s.nodes[i].op.Get? && s.nodes[i].op.read == None
    case Receive(i) => i < |s.nodes| && CanReceive(s.nodes[i])
    case Ack(i) => i < |s.nodes| && CanAck(s.w, s.nodes[i])
    case Fail(i) => i < |s.nodes| && (s.nodes[i].op.Get? || s.nodes[i].op.Put?)
    case GiveUp(i) => i < |s.nodes| && s.nodes[i].op.Pause?
    case Cancel(i) => i < |s.nodes|
  }

  function NextWorld(s: State, a: Action): World
    requires Enabled(s, a)
  {
    match a
    case Tick(d) => s.w.(now := s.w.now + d)
    case Apply(k) => ApplyStep(s.w, k)
    case Start(i, kind) => StartWorld(s.w, s.nodes[i], kind)
    case Receive(i) => ReceiveWorld(s.w, s.nodes[i])
    case _ => s.w
  }

  function NextNode(w: World, n: Node, a: Action): Node
    requires a.Start? ==> CanStart(w, n, a.kind)
    requires a.ServerRead? ==> n.op.Get?
    requires a.Receive? ==> CanReceive(n)
    requires a.Ack? ==> CanAck(w, n)
    requires a.Fail? ==> n.op.Get? || n.op.Put?
  {
    match a
    case Start(_, kind) => StartNode(w, n, kind)
    case ServerRead(_) => n.(op := n.op.(read := Some(w.reg)))
    case Receive(_) => ReceiveNode(w, n)
    case Ack(_) => AckNode(w, n)
    case Fail(_) => Failed(n, n.op.kind)
    case GiveUp(_) => n.(op := Idle)
    case Cancel(_) => Cancelled(n)
    case _ => n
  }

  function Next(s: State, a: Action): State
    requires Enabled(s, a)
  {
    State(NextWorld(s, a),
      if a.Tick? || a.Apply? then s.nodes else s.nodes[a.i := NextNode(s.w, s.nodes[a.i], a)])
  }

  /** Any nodes, none campaigning; the Lease is missing or was left by someone else. */
  predicate Init(s: State) {
    && s.w.net == [] && s.w.applied == {} && s.w.resigned == {}
    && s.w.writtenAt <= s.w.now && s.w.reg.stamp == 0 && s.w.reg.holder < s.w.identities
    && forall i :: 0 <= i < |s.nodes| ==>
         s.nodes[i] == Node(s.nodes[i].cfg, VACANT, None, None, Idle)
  }

  predicate Run(states: seq<State>, actions: seq<Action>) {
    && |states| == |actions| + 1
    && Init(states[0])
    && forall k :: 0 <= k < |actions| ==> Enabled(states[k], actions[k]) && states[k + 1] == Next(states[k], actions[k])
  }
}
