/**
  The output router (internal/engine/output_writer.go): one dispatcher assigns messages to per-stream
  writers that run concurrently.  Data goes to one stream; a control message goes to all of them and
  fences the dispatcher until every writer has written it.  Messages stand for their positions in
  the chain's output.
 */
module OutputRouter {
  import opened Basics
  import opened KeyGroups

  datatype Msg = Data(group: nat) | Control

  /** `groups` is 0 for round-robin edges. */
  datatype Config = Config(streams: nat, groups: nat, msgs: seq<Msg>) {
    predicate Valid() {
      groups != 0 ==>
        KeyGroups.Valid(groups, streams) && forall p :: 0 <= p < |msgs| && msgs[p].Data? ==> msgs[p].group < groups
    }
  }

  /** A writer holds one message in its queue and one in hand. */
  const ROOM: nat := 2

  datatype Pc = Idle | Sending(target: nat) | Broadcasting(k: nat) | Fencing(left: nat)

  datatype State = State(cfg: Config, taken: nat, next: nat, pc: Pc, held: seq<seq<nat>>, wires: seq<seq<nat>>,
    acks: nat)

  // ---------------------------------------------------------------- what each stream is owed

  function DataBefore(msgs: seq<Msg>, p: nat): nat
    requires p <= |msgs|
  {
    if p == 0 then 0 else DataBefore(msgs, p - 1) + if msgs[p - 1].Data? then 1 else 0
  }

  /** The stream a data message belongs to. */
  function Target(cfg: Config, p: nat): nat
    requires p < |cfg.msgs| && cfg.msgs[p].Data? && cfg.streams > 0
  {
    if cfg.groups != 0 then AssignedTask(cfg.msgs[p].group, cfg.groups, cfg.streams)
    else DataBefore(cfg.msgs, p) % cfg.streams
  }

  predicate For(cfg: Config, p: nat, i: nat)
    requires p < |cfg.msgs| && cfg.streams > 0
  {
    cfg.msgs[p].Control? || Target(cfg, p) == i
  }

  /** The messages among the first `upto` that stream `i` must carry, in order. */
  function Routed(cfg: Config, i: nat, upto: nat): seq<nat>
    requires upto <= |cfg.msgs| && cfg.streams > 0
  {
    if upto == 0 then [] else Routed(cfg, i, upto - 1) + if For(cfg, upto - 1, i) then [upto - 1] else []
  }

  // ---------------------------------------------------------------- steps

  datatype Action = Take | Send | Broadcast | Write(i: nat) | Ack

  predicate Enabled(s: State, a: Action) {
    match a
    case Take => s.pc.Idle? && s.taken < |s.cfg.msgs|
    case Send => s.pc.Sending? && s.pc.target < |s.held| && |s.held[s.pc.target]| < ROOM
    case Broadcast => s.pc.Broadcasting? && s.pc.k < |s.held| && |s.held[s.pc.k]| < ROOM && s.taken > 0
    case Write(i) => i < |s.held| && i < |s.wires| && s.held[i] != [] && s.held[i][0] < |s.cfg.msgs|
    case Ack => s.pc.Fencing? && s.pc.left > 0 && s.acks > 0
  }

  function TakeStep(s: State): State
    requires Enabled(s, Take)
  {
    var m := s.cfg.msgs[s.taken];
    s.(taken := s.taken + 1,
       pc := if s.cfg.streams == 0 then Idle
             else if m.Control? then Broadcasting(0)
             else if s.cfg.groups != 0 then Sending(AssignedTask(m.group, s.cfg.groups, s.cfg.streams))
             else Sending(s.next))
  }

  function SendStep(s: State): State
    requires Enabled(s, Send) && s.cfg.streams > 0 && s.taken > 0
  {
    var t := s.pc.target;
    s.(held := s.held[t := s.held[t] + [s.taken - 1]], next := (s.next + 1) % s.cfg.streams, pc := Idle)
  }

  function BroadcastStep(s: State): State
    requires Enabled(s, Broadcast)
  {
    var k := s.pc.k;
    s.(held := s.held[k := s.held[k] + [s.taken - 1]],
       pc := if k + 1 == s.cfg.streams then Fencing(s.cfg.streams) else Broadcasting(k + 1))
  }

  function WriteStep(s: State, i: nat): State
    requires Enabled(s, Write(i))
  {
    var p := s.held[i][0];
    s.(held := s.held[i := s.held[i][1..]], wires := s.wires[i := s.wires[i] + [p]],
       acks := s.acks + if s.cfg.msgs[p].Control? then 1 else 0)
  }

  function AckStep(s: State): State
    requires Enabled(s, Ack)
  {
    s.(acks := s.acks - 1, pc := if s.pc.left == 1 then Idle else Fencing(s.pc.left - 1))
  }

  predicate Steps(s: State, a: Action) {
    Enabled(s, a) && (a.Send? ==> s.cfg.streams > 0 && s.taken > 0)
  }

  function Next(s: State, a: Action): State
    requires Steps(s, a)
  {
    match a
    case Take => TakeStep(s)
    case Send => SendStep(s)
    case Broadcast => BroadcastStep(s)
    case Write(i) => WriteStep(s, i)
    case Ack => AckStep(s)
  }

  predicate Init(s: State) {
    && s.cfg.Valid() && s.taken == 0 && s.next == 0 && s.pc == Idle && s.acks == 0
    && |s.held| == |s.wires| == s.cfg.streams
    && (forall i :: 0 <= i < |s.held| ==> s.held[i] == [])
    && (forall i :: 0 <= i < |s.wires| ==> s.wires[i] == [])
  }

  ghost predicate Run(states: seq<State>, actions: seq<Action>) {
    && |states| == |actions| + 1 && Init(states[0])
    && forall k :: 0 <= k < |actions| ==> Steps(states[k], actions[k]) && states[k + 1] == Next(states[k], actions[k])
  }

  // ---------------------------------------------------------------- the invariant

  /** How many messages have been settled as far as stream `i` is concerned. */
  function Settled(s: State, i: nat): nat
    requires s.pc.Sending? || s.pc.Broadcasting? ==> s.taken > 0
  {
    match s.pc
    case Sending(_) => s.taken - 1
    case Broadcasting(k) => if i < k then s.taken else s.taken - 1
    case _ => s.taken
  }

  predicate PcOk(s: State) {
    && s.cfg.Valid() && |s.held| == |s.wires| == s.cfg.streams && s.taken <= |s.cfg.msgs|
    && (s.cfg.streams == 0 ==> s.pc.Idle?)
    && match s.pc
       case Idle => true
       case Sending(t) => s.taken > 0 && s.cfg.msgs[s.taken - 1].Data? && t
         == Target(s.cfg, s.taken - 1) < s.cfg.streams
       case Broadcasting(k) => s.taken > 0 && s.cfg.msgs[s.taken - 1].Control? && k < s.cfg.streams
       case Fencing(left) => s.taken > 0 && s.cfg.msgs[s.taken - 1].Control? && 0 < left <= s.cfg.streams
  }

  predicate TurnOk(s: State)
    requires PcOk(s)
  {
    s.cfg.streams > 0 ==>
      s.next == DataBefore(s.cfg.msgs, if s.pc.Sending? then s.taken - 1 else s.taken) % s.cfg.streams
  }

  /** Written and held messages are exactly what the stream is owed so far. */
  predicate StreamOk(s: State, i: nat)
    requires PcOk(s) && i < s.cfg.streams
  {
    s.wires[i] + s.held[i] == Routed(s.cfg, i, Settled(s, i))
  }

  /** The control message being fenced is the only one not yet on every wire. */
  predicate HeldOk(s: State, i: nat)
    requires PcOk(s) && i < s.cfg.streams
  {
    forall p :: p in s.held[i] ==> p < |s.cfg.msgs| && (s.cfg.msgs[p].Control? ==> p == s.taken - 1 && Fenced(s.pc, i))
  }

  predicate Fenced(pc: Pc, i: nat) {
    (pc.Broadcasting? && i < pc.k) || pc.Fencing?
  }

  /** Streams among the first `upto` that still hold message `c`. */
  function Outstanding(held: seq<seq<nat>>, c: nat, upto: nat): nat
    requires upto <= |held|
  {
    if upto == 0 then 0 else Outstanding(held, c, upto - 1) + if c in held[upto - 1] then 1 else 0
  }

  /** Confirmations received or on their way account for the streams that wrote the control message. */
  predicate CountOk(s: State)
    requires PcOk(s)
  {
    match s.pc
    case Broadcasting(k) => s.acks + Outstanding(s.held, s.taken - 1, s.cfg.streams) == k
    case Fencing(left) => s.acks + Outstanding(s.held, s.taken - 1, s.cfg.streams) == left
    case _ => s.acks == 0
  }

  ghost predicate Inv(s: State) {
    && PcOk(s) && TurnOk(s) && CountOk(s)
    && forall i {:trigger StreamOk(s, i)} {:trigger HeldOk(s, i)} :: 0 <= i < s.cfg.streams ==>
      StreamOk(s, i) && HeldOk(s, i)
  }

  // ---------------------------------------------------------------- routed messages

  lemma {:induction false} RoutedMembers(cfg: Config, i: nat, upto: nat, p: nat)
    requires upto <= |cfg.msgs| && cfg.streams > 0
    ensures p in Routed(cfg, i, upto) <==> p < upto && For(cfg, p, i)
  {
    if upto > 0 {
      RoutedMembers(cfg, i, upto - 1, p);
    }
  }

  lemma {:induction false} RoutedRises(cfg: Config, i: nat, upto: nat, j: nat, k: nat)
    requires upto <= |cfg.msgs| && cfg.streams > 0 && j < k < |Routed(cfg, i, upto)|
    ensures Routed(cfg, i, upto)[j] < Routed(cfg, i, upto)[k] < upto
  {
    var before := Routed(cfg, i, upto - 1);
    if k < |before| {
      RoutedRises(cfg, i, upto - 1, j, k);
    } else {
      RoutedMembers(cfg, i, upto - 1, before[j]);
      assert before[j] in before;
    }
  }

  /** What comes before message `c` in a longer list is the list up to `c`. */
  lemma {:induction false} RoutedSplits(cfg: Config, i: nat, upto: nat, k: nat)
    requires upto <= |cfg.msgs| && cfg.streams > 0 && k < |Routed(cfg, i, upto)|
    ensures Routed(cfg, i, upto)[k] < upto && Routed(cfg, i, upto)[..k] == Routed(cfg, i, Routed(cfg, i, upto)[k])
  {
    var before := Routed(cfg, i, upto - 1);
    if k < |before| {
      RoutedSplits(cfg, i, upto - 1, k);
      assert Routed(cfg, i, upto)[..k] == before[..k];
    } else {
      assert Routed(cfg, i, upto)[..k] == before;
    }
  }

  lemma TargetInRange(cfg: Config, p: nat)
    requires cfg.Valid() && p < |cfg.msgs| && cfg.msgs[p].Data? && cfg.streams > 0
    ensures Target(cfg, p) < cfg.streams
  {
    if cfg.groups != 0 {
      AssignedTaskOwns(cfg.msgs[p].group, cfg.groups, cfg.streams);
    }
  }

  // ---------------------------------------------------------------- outstanding confirmations

  lemma {:induction false} OutstandingElsewhere(before: seq<seq<nat>>, after: seq<seq<nat>>, c: nat, upto: nat)
    requires upto <= |before| == |after| && forall i :: 0 <= i < upto ==> (c in before[i] <==> c in after[i])
    ensures Outstanding(after, c, upto) == Outstanding(before, c, upto)
  {
    if upto > 0 {
      OutstandingElsewhere(before, after, c, upto - 1);
    }
  }

  /** One stream starts or stops holding the message. */
  lemma {:induction false} OutstandingOne(before: seq<seq<nat>>, after: seq<seq<nat>>, c: nat, i: nat, upto: nat)
    requires i < upto <= |before| == |after| && c !in before[i] && c in after[i]
    requires forall j :: 0 <= j < |before| && j != i ==> before[j] == after[j]
    ensures Outstanding(after, c, upto) == Outstanding(before, c, upto) + 1
  {
    if upto == i + 1 {
      OutstandingElsewhere(before, after, c, i);
    } else {
      OutstandingOne(before, after, c, i, upto - 1);
    }
  }

  lemma {:induction false} OutstandingNone(held: seq<seq<nat>>, c: nat, upto: nat)
    requires upto <= |held|
    ensures Outstanding(held, c, upto) == 0 <==> forall i :: 0 <= i < upto ==> c !in held[i]
  {
    if upto > 0 {
      OutstandingNone(held, c, upto - 1);
    }
  }

  // ---------------------------------------------------------------- every step keeps it

  lemma InitKeeps(s: State)
    requires Init(s)
    ensures Inv(s)
  {
    forall i | 0 <= i < s.cfg.streams ensures StreamOk(s, i) && HeldOk(s, i) {
    }
  }

  lemma TakeKeeps(s: State)
    requires Inv(s) && Enabled(s, Take)
    ensures Inv(TakeStep(s))
  {
    var s' := TakeStep(s);
    if s.cfg.streams > 0 {
      if s.cfg.msgs[s.taken].Data? {
        TargetInRange(s.cfg, s.taken);
      }
      NotYetHeld(s);
      OutstandingNone(s'.held, s.taken, s.cfg.streams);
      forall i | 0 <= i < s.cfg.streams ensures StreamOk(s', i) && HeldOk(s', i) {
        assert StreamOk(s, i) && HeldOk(s, i);
      }
    }
  }

  lemma NotYetHeld(s: State)
    requires Inv(s) && s.pc.Idle? && s.cfg.streams > 0
    ensures forall i :: 0 <= i < s.cfg.streams ==> s.taken !in s.held[i]
  {
    forall i | 0 <= i < s.cfg.streams ensures s.taken !in s.held[i] {
      assert StreamOk(s, i);
      RoutedMembers(s.cfg, i, s.taken, s.taken);
      assert s.taken !in s.wires[i] + s.held[i];
    }
  }

  lemma SendKeepsStream(s: State, s': State, i: nat)
    requires Inv(s) && Enabled(s, Send) && s' == SendStep(s) && PcOk(s') && i < s.cfg.streams
    ensures StreamOk(s', i) && HeldOk(s', i)
  {
    assert StreamOk(s, i) && HeldOk(s, i);
    assert For(s.cfg, s.taken - 1, i) <==> i == s.pc.target;
    if i == s.pc.target {
      assert s.wires[i] + (s.held[i] + [s.taken - 1]) == s.wires[i] + s.held[i] + [s.taken - 1];
    } else {
      assert Routed(s.cfg, i, s.taken) == Routed(s.cfg, i, s.taken - 1) + [];
    }
  }

  lemma SendKeeps(s: State)
    requires Inv(s) && Enabled(s, Send)
    ensures Inv(SendStep(s))
  {
    var s' := SendStep(s);
    NextTurn(DataBefore(s.cfg.msgs, s.taken - 1), s.cfg.streams);
    forall i | 0 <= i < s.cfg.streams ensures StreamOk(s', i) && HeldOk(s', i) {
      SendKeepsStream(s, s', i);
    }
  }

  lemma BroadcastKeepsStream(s: State, s': State, i: nat)
    requires Inv(s) && Enabled(s, Broadcast) && s' == BroadcastStep(s) && PcOk(s') && i < s.cfg.streams
    ensures StreamOk(s', i) && HeldOk(s', i)
  {
    assert StreamOk(s, i) && HeldOk(s, i);
    if i == s.pc.k {
      assert s.wires[i] + (s.held[i] + [s.taken - 1]) == s.wires[i] + s.held[i] + [s.taken - 1];
    }
  }

  lemma BroadcastKeeps(s: State)
    requires Inv(s) && Enabled(s, Broadcast)
    ensures Inv(BroadcastStep(s))
  {
    var s', k := BroadcastStep(s), s.pc.k;
    assert StreamOk(s, k);
    RoutedMembers(s.cfg, k, s.taken - 1, s.taken - 1);
    assert s.taken - 1 !in s.wires[k] + s.held[k];
    OutstandingOne(s.held, s'.held, s.taken - 1, k, s.cfg.streams);
    forall i | 0 <= i < s.cfg.streams ensures StreamOk(s', i) && HeldOk(s', i) {
      BroadcastKeepsStream(s, s', i);
    }
  }

  lemma WriteKeepsStream(s: State, s': State, i: nat, j: nat)
    requires Inv(s) && Enabled(s, Write(j)) && s' == WriteStep(s, j) && i < s.cfg.streams
    ensures PcOk(s') && StreamOk(s', i) && HeldOk(s', i)
  {
    assert StreamOk(s, i) && HeldOk(s, i);
    if i == j {
      assert s.wires[i] + [s.held[i][0]] + s.held[i][1..] == s.wires[i] + s.held[i];
      forall p | p in s'.held[i] ensures p in s.held[i] {
      }
    }
  }

  /** A message is held at most once, so the one written is held no more. */
  lemma HeldOnce(s: State, j: nat)
    requires Inv(s) && Enabled(s, Write(j))
    ensures s.held[j][0] !in s.held[j][1..]
  {
    assert StreamOk(s, j);
    var all, n := s.wires[j] + s.held[j], |s.wires[j]|;
    forall k | 1 <= k < |s.held[j]| ensures s.held[j][k] != s.held[j][0] {
      RoutedRises(s.cfg, j, Settled(s, j), n, n + k);
      assert all[n] == s.held[j][0] && all[n + k] == s.held[j][k];
    }
  }

  lemma WriteCounts(s: State, j: nat)
    requires Inv(s) && Enabled(s, Write(j))
    ensures PcOk(WriteStep(s, j)) && CountOk(WriteStep(s, j))
  {
    var s', p := WriteStep(s, j), s.held[j][0];
    assert HeldOk(s, j);
    HeldOnce(s, j);
    assert s.held[j] == [p] + s.held[j][1..];
    if s.cfg.msgs[p].Control? {
      OutstandingOne(s'.held, s.held, p, j, s.cfg.streams);
    } else if s.pc.Broadcasting? || s.pc.Fencing? {
      OutstandingElsewhere(s.held, s'.held, s.taken - 1, s.cfg.streams);
    }
  }

  lemma WriteKeeps(s: State, j: nat)
    requires Inv(s) && Enabled(s, Write(j))
    ensures Inv(WriteStep(s, j))
  {
    var s' := WriteStep(s, j);
    WriteCounts(s, j);
    forall i | 0 <= i < s.cfg.streams ensures StreamOk(s', i) && HeldOk(s', i) {
      WriteKeepsStream(s, s', i, j);
    }
  }

  lemma AckKeeps(s: State)
    requires Inv(s) && Enabled(s, Ack)
    ensures Inv(AckStep(s))
  {
    var s' := AckStep(s);
    OutstandingNone(s.held, s.taken - 1, s.cfg.streams);
    forall i | 0 <= i < s.cfg.streams ensures StreamOk(s', i) && HeldOk(s', i) {
      assert StreamOk(s, i) && HeldOk(s, i);
    }
  }

  lemma InvStep(s: State, a: Action)
    requires Inv(s) && Steps(s, a)
    ensures Inv(Next(s, a)) && Next(s, a).cfg == s.cfg
  {
    match a
    case Take => TakeKeeps(s);
    case Send => SendKeeps(s);
    case Broadcast => BroadcastKeeps(s);
    case Write(i) => WriteKeeps(s, i);
    case Ack => AckKeeps(s);
  }

  lemma {:induction false} InvAt(states: seq<State>, actions: seq<Action>, k: nat)
    requires Run(states, actions) && k < |states|
    ensures Inv(states[k]) && states[k].cfg == states[0].cfg
  {
    if k == 0 {
      InitKeeps(states[0]);
    } else {
      InvAt(states, actions, k - 1);
      InvStep(states[k - 1], actions[k - 1]);
    }
  }

  // ---------------------------------------------------------------- theorems

  /** Every stream carries, in order and without gaps, a prefix of exactly the messages it is owed. */
  lemma WiresArePrefixes(states: seq<State>, actions: seq<Action>, k: nat, i: nat)
    requires Run(states, actions) && k < |states| && i < states[0].cfg.streams
    ensures states[k].taken <= |states[0].cfg.msgs| && i < |states[k].wires|
    ensures states[k].wires[i] <= Routed(states[0].cfg, i, states[k].taken)
  {
    InvAt(states, actions, k);
    var s := states[k];
    assert StreamOk(s, i);
    if Settled(s, i) < s.taken {
      assert Routed(s.cfg, i, s.taken - 1) <= Routed(s.cfg, i, s.taken);
    }
  }

  /** No stream carries a message behind a control message that some other stream has yet to carry. */
  lemma ControlFences(states: seq<State>, actions: seq<Action>, k: nat, c: nat, i: nat, j: nat, p: nat)
    requires Run(states, actions) && k < |states| && i < states[0].cfg.streams && j < states[0].cfg.streams
    requires c < p < |states[0].cfg.msgs| && states[0].cfg.msgs[c].Control?
    requires i < |states[k].wires| && j < |states[k].wires| && p in states[k].wires[j]
    ensures c in states[k].wires[i]
  {
    InvAt(states, actions, k);
    var s := states[k];
    assert StreamOk(s, j) && StreamOk(s, i) && HeldOk(s, i);
    assert p in s.wires[j] + s.held[j];
    RoutedMembers(s.cfg, j, Settled(s, j), p);
    RoutedMembers(s.cfg, i, Settled(s, i), c);
    assert c in s.wires[i] + s.held[i];
  }

  /** A control message cuts every stream at the same point of the chain's output. */
  lemma ControlCutsEveryStream(states: seq<State>, actions: seq<Action>, k: nat, i: nat, n: nat)
    requires Run(states, actions) && k < |states| && i < states[0].cfg.streams
    requires i < |states[k].wires| && n < |states[k].wires[i]|
    ensures states[k].wires[i][n] <= |states[0].cfg.msgs|
    ensures states[k].wires[i][..n] == Routed(states[0].cfg, i, states[k].wires[i][n])
  {
    WiresArePrefixes(states, actions, k, i);
    var all := Routed(states[0].cfg, i, states[k].taken);
    assert all[n] == states[k].wires[i][n] && all[..n] == states[k].wires[i][..n];
    RoutedSplits(states[0].cfg, i, states[k].taken, n);
  }

  /** Once everything is taken and written, each stream carries exactly what it is owed. */
  lemma AllDelivered(states: seq<State>, actions: seq<Action>, k: nat, i: nat)
    requires Run(states, actions) && k < |states| && i < states[0].cfg.streams
    requires states[k].pc.Idle? && states[k].taken == |states[0].cfg.msgs| && i < |states[k].held|
    requires states[k].held[i] == []
    ensures i < |states[k].wires| && states[k].wires[i] == Routed(states[0].cfg, i, |states[0].cfg.msgs|)
  {
    InvAt(states, actions, k);
    assert StreamOk(states[k], i);
    assert states[k].wires[i] + [] == states[k].wires[i];
  }

  /** On a hash edge, the stream that carries a data message is the one whose key-group range holds its group. */
  lemma CarrierOwnsGroup(states: seq<State>, actions: seq<Action>, k: nat, i: nat, p: nat)
    requires Run(states, actions) && k < |states| && i < states[0].cfg.streams && i < |states[k].wires|
    requires states[0].cfg.groups != 0 && p in states[k].wires[i]
    ensures p < |states[0].cfg.msgs|
    ensures states[0].cfg.msgs[p].Data? ==>
      forall t :: 0 <= t < states[0].cfg.streams ==>
        (TaskRange(t, states[0].cfg.groups, states[0].cfg.streams).Contains(states[0].cfg.msgs[p].group) <==> t == i)
  {
    var cfg := states[0].cfg;
    WiresArePrefixes(states, actions, k, i);
    RoutedMembers(cfg, i, states[k].taken, p);
    assert p in Routed(cfg, i, states[k].taken);
    if cfg.msgs[p].Data? {
      AssignedTaskOwns(cfg.msgs[p].group, cfg.groups, cfg.streams);
    }
  }

  /** On any other edge data takes the streams in turn, from the first. */
  lemma CarriersTakeTurns(states: seq<State>, actions: seq<Action>, k: nat, i: nat, p: nat)
    requires Run(states, actions) && k < |states| && i < states[0].cfg.streams && i < |states[k].wires|
    requires states[0].cfg.groups == 0 && p in states[k].wires[i]
    ensures p < |states[0].cfg.msgs|
    ensures states[0].cfg.msgs[p].Data? ==> i == DataBefore(states[0].cfg.msgs, p) % states[0].cfg.streams
  {
    WiresArePrefixes(states, actions, k, i);
    RoutedMembers(states[0].cfg, i, states[k].taken, p);
    assert p in Routed(states[0].cfg, i, states[k].taken);
  }

  // ---------------------------------------------------------------- progress

  /** Nothing is left to do. */
  predicate Finished(s: State) {
    s.pc.Idle? && s.taken == |s.cfg.msgs| && forall i :: 0 <= i < |s.held| ==> s.held[i] == []
  }

  /** Every stream carries exactly its messages. */
  predicate Delivered(cfg: Config, s: State) {
    |s.wires| == cfg.streams && forall i :: 0 <= i < cfg.streams ==> s.wires[i] == Routed(cfg, i, |cfg.msgs|)
  }

  /** A writer with something in its queue can write it. */
  lemma HolderWrites(s: State, i: nat)
    requires Inv(s) && i < s.cfg.streams && s.held[i] != []
    ensures Steps(s, Write(i))
  {
    assert HeldOk(s, i) && s.held[i][0] in s.held[i];
  }

  /** A step that is possible in a state with work left. */
  lemma SomeStep(s: State) returns (a: Action)
    requires Inv(s) && !Finished(s)
    ensures Steps(s, a)
  {
    if i :| 0 <= i < s.cfg.streams && s.held[i] != [] {
      HolderWrites(s, i);
      a := Write(i);
    } else {
      match s.pc
      case Idle => a := Take;
      case Sending(_) => a := Send;
      case Broadcasting(_) => a := Broadcast;
      case Fencing(_) =>
        OutstandingNone(s.held, s.taken - 1, s.cfg.streams);
        a := Ack;
    }
  }

  /** What a message costs from being taken to being confirmed everywhere. */
  function Cost(cfg: Config, m: Msg): nat {
    1 + 3 * (if m.Control? then cfg.streams else 1)
  }

  function Untaken(cfg: Config, p: nat): nat
    requires p <= |cfg.msgs|
    decreases |cfg.msgs| - p
  {
    if p == |cfg.msgs| then 0 else Cost(cfg, cfg.msgs[p]) + Untaken(cfg, p + 1)
  }

  function Unsent(s: State): nat {
    match s.pc
    case Sending(_) => 3
    case Broadcasting(k) => if k < s.cfg.streams then 3 * (s.cfg.streams - k) else 0
    case _ => 0
  }

  function Unwritten(held: seq<seq<nat>>): nat {
    if held == [] then 0 else Unwritten(held[..|held| - 1]) + 2 * |held[|held| - 1]|
  }

  /** The steps a state can still take, at most. */
  function Work(s: State): nat
    requires s.taken <= |s.cfg.msgs|
  {
    Untaken(s.cfg, s.taken) + Unsent(s) + Unwritten(s.held) + s.acks
  }

  lemma {:induction false} UnwrittenUpdate(held: seq<seq<nat>>, i: nat, q: seq<nat>)
    requires i < |held|
    ensures Unwritten(held[i := q]) == Unwritten(held) - 2 * |held[i]| + 2 * |q|
  {
    var n, after := |held| - 1, held[i := q];
    if i == n {
      assert after[..n] == held[..n];
    } else {
      assert after[..n] == held[..n][i := q];
      UnwrittenUpdate(held[..n], i, q);
    }
  }

  lemma WorkShrinks(s: State, a: Action)
    requires Inv(s) && Steps(s, a)
    ensures Next(s, a).taken <= |s.cfg.msgs| && Work(Next(s, a)) < Work(s)
  {
    match a
    case Take =>
    case Send => UnwrittenUpdate(s.held, s.pc.target, s.held[s.pc.target] + [s.taken - 1]);
    case Broadcast => UnwrittenUpdate(s.held, s.pc.k, s.held[s.pc.k] + [s.taken - 1]);
    case Write(i) => UnwrittenUpdate(s.held, i, s.held[i][1..]);
    case Ack =>
  }

  lemma {:induction false} WorkBounds(states: seq<State>, actions: seq<Action>, k: nat)
    requires Run(states, actions) && k < |states|
    ensures states[k].taken <= |states[k].cfg.msgs| && k + Work(states[k]) <= Work(states[0])
  {
    if k > 0 {
      WorkBounds(states, actions, k - 1);
      InvAt(states, actions, k - 1);
      WorkShrinks(states[k - 1], actions[k - 1]);
    }
  }

  /**
    The router never hangs: no run is longer than its work, and one that cannot go on has left on
    every stream exactly the messages it is owed.
   */
  lemma EveryRunDelivers(states: seq<State>, actions: seq<Action>)
    requires Run(states, actions)
    ensures |actions| <= Work(states[0])
    ensures (forall a :: !Steps(states[|actions|], a)) <==> Finished(states[|actions|])
    ensures Finished(states[|actions|]) ==> Delivered(states[0].cfg, states[|actions|])
  {
    var n := |actions|;
    WorkBounds(states, actions, n);
    InvAt(states, actions, n);
    if Finished(states[n]) {
      FinishedStops(states[n]);
      forall i | 0 <= i < states[0].cfg.streams
        ensures states[n].wires[i] == Routed(states[0].cfg, i, |states[0].cfg.msgs|)
      {
        AllDelivered(states, actions, n, i);
      }
    } else {
      var a := SomeStep(states[n]);
    }
  }

  lemma FinishedStops(s: State)
    requires Inv(s) && Finished(s)
    ensures forall a :: !Steps(s, a)
  {
  }
}
