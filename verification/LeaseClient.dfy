/**
  The election client as the object it is (internal/coordinator/election_kubernetes.go): fields
  updated between the requests it sends.  Each method runs from one point where the code waits
  for the API server to the next, and does to the fields exactly what the step of
  `LeaseElection` does to the node.
 */
module LeaseClient {
  import opened Basics
  import opened LeaseElection

  datatype Waiting = Nothing | Retry | AwaitRecord(kind: Kind) | AwaitConfirmation(kind: Kind)

  class KubernetesLeaseElection {
    const cfg: Config
    var identity: nat
    var hasTerm: bool
    var deadline: nat
    var cancelled: bool
    var hasObserved: bool
    var observedSpec: nat
    var observedAt: nat
    var waiting: Waiting
    var started: nat
    ghost var sent: nat          // index of the write awaiting its confirmation

    /** The node of the machine this client is; `read` is a response on its way, if any. */
    ghost function Node(read: Option<Record>): LeaseElection.Node
      reads this
    {
      LeaseElection.Node(cfg, identity,
        if hasTerm then Some(Term(deadline, cancelled)) else None,
        if hasObserved then Some(Observation(observedSpec, observedAt)) else None,
        match waiting
        case Nothing => Idle
        case Retry => Pause
        case AwaitRecord(kind) => Get(kind, started, read)
        case AwaitConfirmation(kind) => Put(kind, started, sent))
    }

    constructor (cfg: Config)
      ensures this.cfg == cfg && Node(None) == LeaseElection.Node(cfg, VACANT, None, None, Idle)
    {
      this.cfg := cfg;
      identity, hasTerm, deadline, cancelled := VACANT, false, 0, true;
      hasObserved, observedSpec, observedAt := false, 0, 0;
      waiting, started := Nothing, 0;
    }

    /** An uncancelled grant before its local deadline. */
    predicate Leading(now: nat)
      reads this
    {
      hasTerm && !cancelled && now < deadline
    }

    /** From now on the grant lasts until exactly `end`. */
    ghost predicate LeadingUntil(now: nat, end: nat)
      reads this
    {
      forall t: nat :: now <= t ==> (Leading(t) <==> t < end)
    }

    /** Begins a campaign attempt, a renewal, a publication or a resignation; `nonce` is drawn fresh. */
    method Begin(kind: Kind, now: nat, nonce: nat, ghost w: World) returns (ok: bool)
      requires w.now == now && w.identities == nonce
      modifies this
      ensures ok <==> LeaseElection.CanStart(w, old(Node(None)), kind)
      ensures Node(None) == if ok then StartNode(w, old(Node(None)), kind) else old(Node(None))
    {
      var ready := match kind
        case Campaign => !hasTerm && (waiting == Nothing || waiting == Retry)
        case Renew => waiting == Nothing && Leading(now)
        case Publish => waiting == Nothing && hasTerm && !cancelled
        case Resign => waiting == Nothing && hasTerm;
      if !ready {
        return false;
      }
      if kind == Resign {
        cancelled := true;
      }
      if kind == Campaign && waiting == Nothing {
        identity := nonce;
      }
      waiting, started := AwaitRecord(kind), now;
      return true;
    }

    /**
      The record arrived: remember what changed, and answer with a write or give up the attempt.
      `stamp` stands for the specification with the renewed time, which was never written before.
     */
    method OnRecord(r: Record, now: nat, stamp: nat, ghost w: World) returns (write: Option<Write>)
      requires waiting.AwaitRecord? && w.now == now && stamp == |w.net| + 1
      modifies this
      ensures Node(None) == ReceiveNode(w, old(Node(Some(r))))
      ensures write == Answer(w, old(Node(Some(r))), old(waiting).kind, r)
    {
      var kind := waiting.kind;
      write := None;
      if kind == Campaign {
        if !hasObserved || observedSpec != r.stamp {
          hasObserved, observedSpec, observedAt := true, r.stamp, now;
        }
        var vacant := r.holder == VACANT;
        var expired := r.seconds > 0 && now >= observedAt + r.seconds * SECOND;
        if vacant || expired {
          write := Some(Write(kind, identity, r.version, identity, cfg.lease / SECOND, stamp));
        }
      } else if kind == Resign {
        if r.holder == identity {
          write := Some(Write(kind, identity, r.version, VACANT, r.seconds, stamp));
        }
      } else if r.holder == identity && r.seconds == cfg.lease / SECOND {
        var written := if kind == Publish then r.stamp else stamp;
        write := Some(Write(kind, identity, r.version, r.holder, r.seconds, written));
      }
      if write.Some? {
        waiting, sent := AwaitConfirmation(kind), |w.net|;
        return;
      }
      if kind == Renew {
        cancelled := true;
      }
      Abandon(kind);
    }

    /** The write was confirmed; the deadline counts from the moment the attempt began. */
    method OnConfirmed(now: nat, ghost w: World)
      requires waiting.AwaitConfirmation? && w.now == now && sent in w.applied
      modifies this
      ensures Node(None) == AckNode(w, old(Node(None)))
      ensures old(waiting).kind == Renew && old(Leading(now)) ==> LeadingUntil(now, old(started) + cfg.renew)
      ensures old(waiting).kind == Campaign && !old(hasTerm) ==> LeadingUntil(now, old(started) + cfg.renew)
    {
      var kind := waiting.kind;
      match kind {
        case Campaign =>
          if now < started + cfg.renew {
            hasTerm, deadline, cancelled, waiting := true, started + cfg.renew, false, Nothing;
          } else {
            waiting := Retry;
          }
        case Renew =>
          if Leading(now) {
            deadline := started + cfg.renew;
          } else {
            cancelled := true;
          }
          waiting := Nothing;
        case Publish =>
          waiting := Nothing;
        case Resign =>
          hasTerm, waiting := false, Nothing;
      }
    }

    /** A request failed, timed out or was refused. */
    method Abandon(kind: Kind)
      modifies this
      ensures Node(None) == Failed(old(Node(None)), kind)
    {
      match kind {
        case Campaign => waiting := Retry;
        case Resign => hasTerm, waiting := false, Nothing;
        case _ => waiting := Nothing;
      }
    }
  }
}
