/** The state of one replica as a value: what `Node` and `MsgCert` hold in core/node.go. */
module ReplicaState {
  import opened Types

  datatype Stage = Received | Prepared | Committed

  datatype Cert = Cert(
    stage: Stage,
    digest: Digest,
    prepareQc: Option<PrepareQc>,
    fastQc: Option<FastPrepareQc>,
    qcSent: bool,
    commitQc: Option<CommitQc>,
    commitQcSent: bool,
    prePrepare: Option<PrePrepareMsg>,
    prepares: map<nat, PrepareMsg>,
    commits: map<nat, CommitMsg>)

  const FRESH: Cert := Cert(Received, Nil, None, None, false, None, false, None, map[], map[])

  /** One line of the execution log. */
  datatype Executed = Executed(sn: u32, id: MsgId, digest: Digest)

  /** Partial signatures collected for one message, by the replica that sent them. */
  type Shares = map<nat, PartialSig>

  datatype Execution = Execution(last: u32, digests: map<u32, Digest>, ids: map<u32, MsgId>, log: seq<Executed>)

  datatype Views = Views(
    view: nat,
    active: bool,
    store: map<Vcidx, ViewChangeMsg>,
    sent: set<nat>,
    newViews: map<nat, NewViewMsg>,
    newViewsSent: set<nat>)

  datatype Watermarks = Watermarks(h: u32, chkpts: map<u32, string>, store: map<u32, set<CheckpointMsg>>)

  datatype Ballots = Ballots(
    prepare: map<(MsgId, Digest), Shares>,
    fast: map<(MsgId, Digest), Shares>,
    commit: map<(MsgId, PrepareQc), Shares>)

  /** What a primary keeps. `armed` are the timer goroutines that have not fired yet, and `fired`
      gives for each timer that did the digest its goroutine checked. */
  datatype Leader = Leader(
    nextSN: u32,
    viewChangeSeq: u32,
    timers: map<MsgId, bool>,
    armed: set<(MsgId, Digest)>,
    fired: map<MsgId, Digest>)

  /** `clock` is what time.Now() reads. `outbox` holds the messages handed to the network so far,
      `votes` and `commitVotes` what the replica has signed with its threshold shares. `panicked`
      says that the process died, or hangs in a loop without end. */
  datatype State = State(
    certs: map<MsgId, Cert>,
    batches: map<MsgId, RequestBatch>,
    exec: Execution,
    views: Views,
    marks: Watermarks,
    ballots: Ballots,
    leader: Leader,
    clock: int,
    outbox: seq<Msg>,
    votes: set<PrepareVote>,
    commitVotes: set<PrepareQc>,
    panicked: bool)

  function Init(c: Config): State {
    State(map[], map[],
          Execution(0, map[], map[], []),
          Views(0, true, map[], {}, map[], {}),
          Watermarks(0, map[], map[]),
          Ballots(map[], map[], map[]),
          Leader(1, Add(c.T, c.T / 2), map[], {}, map[]),
          0, [], {}, {}, false)
  }

  // ---------------------------------------------------------------- Small accessors

  function CertOf(s: State, id: MsgId): Cert { if id in s.certs then s.certs[id] else FRESH }
  function PutCert(s: State, id: MsgId, c: Cert): State { s.(certs := s.certs[id := c]) }

  /** `getCert`: looking a certificate up inserts a fresh one on a miss. */
  function Touch(s: State, id: MsgId): State { PutCert(s, id, CertOf(s, id)) }

  function Send(s: State, m: Msg): State { s.(outbox := s.outbox + [m]) }

  function SharesOf<A(==)>(table: map<(MsgId, A), Shares>, k: (MsgId, A)): Shares {
    if k in table then table[k] else map[]
  }

  function CheckpointsAt(m: Watermarks, sn: u32): set<CheckpointMsg> {
    if sn in m.store then m.store[sn] else {}
  }

  predicate IsPrimary(c: Config, s: State) { c.Primary(s.views.view) == c.id }

  /** Unsigned subtraction, as the source writes it. */
  predicate InWatermarks(c: Config, s: State, sn: u32) { 0 < Sub(sn, s.marks.h) <= c.K }

  // ---------------------------------------------------------------- Threshold signatures

  /** The replicas whose share in the table really signs the payload. */
  function GenuineSigners(shares: Shares, key: KeyKind, payload: Payload): set<nat> {
    set j | j in shares && shares[j].key == key && shares[j].payload == payload :: shares[j].signer
  }

  /** Recovering from `quorum` shares succeeds only with that many genuine ones; otherwise it panics. */
  predicate Recoverable(shares: Shares, key: KeyKind, payload: Payload, quorum: nat) {
    |GenuineSigners(shares, key, payload)| >= quorum
  }

  /** `quorum` genuine shares interpolate to the signature when the key needs no more than that. */
  function Recover(c: Config, key: KeyKind, payload: Payload, quorum: nat): ThresholdSig {
    if quorum >= c.Threshold(key) then Genuine(key, payload) else Garbage
  }
}
