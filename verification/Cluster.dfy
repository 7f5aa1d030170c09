/** A cluster: correct replicas that run the handlers, faulty ones that send what they like, and a
    network that delivers anything ever sent to anyone, in any order, any number of times. */
module Cluster {
  import opened Types
  import opened ReplicaState
  import opened Handlers
  import opened Quorum

  /** `replicas` are the configurations of the correct replicas. */
  datatype Setup = Setup(n: nat, faulty: set<nat>, fastQuorum: nat, T: u32, replicas: map<nat, Config>)
  {
    ghost predicate Valid() {
      && 0 < T && replicas.Keys !! faulty && replicas.Keys + faulty == Below(n)
      && (forall i | i in replicas ::
            var c := replicas[i];
            c.id == i && c.n == n && c.fastQuorum == fastQuorum && c.T == T && c.Scans())
    }

    /** The size the key pair was generated for; a certificate that verifies has that many backers. */
    function Threshold(key: KeyKind): nat { if key == TsKey then n - n / 3 else fastQuorum }
  }

  datatype Sys = Sys(nodes: map<nat, State>, net: set<Msg>)

  // ---------------------------------------------------------------- Who signed what

  predicate Signed(g: map<nat, State>, i: nat, p: Payload) {
    i in g && match p
              case ForPrepare(v) => v in g[i].votes
              case ForCommit(q) => q in g[i].commitVotes
  }

  /** Replicas whose share over the payload may exist: faulty ones sign anything. */
  function Backers(u: Setup, g: map<nat, State>, p: Payload): set<nat> {
    set i | i in Below(u.n) && (i in u.faulty || Signed(g, i, p))
  }

  /** A threshold signature exists only with enough shares behind it. */
  predicate Legit(u: Setup, g: map<nat, State>, sig: ThresholdSig) {
    sig.Genuine? ==> |Backers(u, g, sig.payload)| >= u.Threshold(sig.key)
  }

  /** A share exists only if its owner made it. */
  predicate ShareExists(u: Setup, g: map<nat, State>, p: PartialSig) {
    p.signer < u.n && (p.signer in u.faulty || Signed(g, p.signer, p.payload))
  }

  predicate QsetLegit(u: Setup, g: map<nat, State>, qset: map<u32, PrepareQc>) {
    forall k | k in qset :: Legit(u, g, qset[k].sig)
  }

  /** The signatures a message carries exist. */
  predicate Carries(u: Setup, g: map<nat, State>, m: Msg) {
    match m
    case PrePrepare(_) => true
    case Prepare(pm) => ShareExists(u, g, pm.sig) && ShareExists(u, g, pm.fastSig)
    case Commit(cm) => ShareExists(u, g, cm.sig)
    case SlowQc(q) => Legit(u, g, q.sig)
    case FastQc(q) => Legit(u, g, q.sig)
    case FinalQc(q) => Legit(u, g, q.sig)
    case Checkpoint(_) => true
    case ViewChange(vc) => QsetLegit(u, g, vc.qset)
    case NewView(nv) => forall vc | vc in nv.vset :: QsetLegit(u, g, vc.qset)
  }

  /** Nobody speaks for a correct replica: its ed25519 signature is on what it sent, and only there. */
  predicate MsgSound(u: Setup, g: map<nat, State>, m: Msg) {
    && m.Sender() < u.n
    && (m.Sender() in g ==> m in g[m.Sender()].outbox)
    && Carries(u, g, m)
  }

  // ---------------------------------------------------------------- Runs

  ghost predicate InitSys(u: Setup, x: Sys) {
    && x.net == {}
    && x.nodes.Keys == u.replicas.Keys
    && (forall i | i in u.replicas :: x.nodes[i] == Init(u.replicas[i]))
  }

  /** A correct replica handles a message from the network, a batch from its clients, or a timer. */
  ghost predicate Acts(u: Setup, x: Sys, y: Sys, i: nat, now: int, e: Event) {
    && i in u.replicas && i in x.nodes
    && (e.Deliver? ==> e.m in x.net)
    && var t := Step(u.replicas[i], x.nodes[i], now, e);
       y == Sys(x.nodes[i := t], x.net + (set m | m in t.outbox))
  }

  /** A faulty replica sends anything that it can send without forging a signature. */
  ghost predicate Injects(u: Setup, x: Sys, y: Sys, m: Msg) {
    m.Sender() in u.faulty && MsgSound(u, x.nodes, m) && y == x.(net := x.net + {m})
  }

  ghost predicate Next(u: Setup, x: Sys, y: Sys) {
    (exists i, now, e :: Acts(u, x, y, i, now, e)) || (exists m :: Injects(u, x, y, m))
  }

  ghost predicate Run(u: Setup, tr: seq<Sys>) {
    && |tr| > 0 && InitSys(u, tr[0])
    && forall k :: 0 < k < |tr| ==> Next(u, tr[k - 1], tr[k])
  }
}
