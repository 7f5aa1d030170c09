/** Messages, identifiers and the symbolic cryptography shared by every other module. */
module Types {

  // ---------------------------------------------------------------- Integers

  /** Sequence numbers and watermarks are 32-bit unsigned in the source; their arithmetic wraps. */
  const MOD: int := 0x1_0000_0000
  type u32 = x: int | 0 <= x < MOD

  function Add(x: u32, y: int): u32 { (x + y) % MOD }
  function Sub(x: u32, y: u32): u32 { (x - y) % MOD }

  datatype Option<+T> = None | Some(value: T)

  // ---------------------------------------------------------------- Batches and digests

  type Request = string
  type RequestBatch = seq<Request>

  /** A byte slice that stands for a batch digest: nil, arbitrary bytes a sender made up, or the
      SHA-256 sum of a batch. The sum is symbolic, hence injective and never empty. */
  datatype Digest = Nil | Raw(bytes: string) | Hash(batch: RequestBatch)
  {
    /** `len(d) == 0` */
    predicate Empty() { Nil? || this == Raw("") }

    /** Hex (or string) form used as a map key: nil and the empty slice share one key. */
    function Key(): Digest { if Empty() then Raw("") else this }
  }

  // ---------------------------------------------------------------- Cryptography

  /** The ordinary and the fast-path threshold key pairs. */
  datatype KeyKind = TsKey | FastKey

  datatype PrepareVote = PrepareVote(sn: u32, view: nat, digest: Digest)

  /** What a replica signs with its share of a threshold key. */
  datatype Payload = ForPrepare(vote: PrepareVote) | ForCommit(qc: PrepareQc)

  datatype PartialSig = PartialSig(key: KeyKind, payload: Payload, signer: nat)

  /** A BLS threshold signature is unique for its key and message, so it is named by them.
      Anything that does not verify is Garbage. */
  datatype ThresholdSig = Genuine(key: KeyKind, payload: Payload) | Garbage

  predicate Verify(key: KeyKind, payload: Payload, sig: ThresholdSig) { sig == Genuine(key, payload) }

  // ---------------------------------------------------------------- Messages

  datatype MsgId = MsgId(sn: u32, view: nat)

  datatype PrePrepareMsg = PrePrepareMsg(sn: u32, digest: Digest, batch: RequestBatch, view: nat, sender: nat)
  datatype PrepareMsg = PrepareMsg(vote: PrepareVote, sender: nat, sig: PartialSig, fastSig: PartialSig)
  datatype PrepareQc = PrepareQc(sn: u32, digest: Digest, view: nat, sender: nat, sig: ThresholdSig, time: int)
  datatype FastPrepareQc = FastPrepareQc(sn: u32, digest: Digest, view: nat, sender: nat, sig: ThresholdSig)
  datatype CommitMsg = CommitMsg(vote: PrepareQc, sender: nat, sig: PartialSig)
  datatype CommitQc = CommitQc(sn: u32, digest: Digest, view: nat, sender: nat, sig: ThresholdSig)
  datatype CheckpointMsg = CheckpointMsg(sn: u32, digest: string, sender: nat)

  datatype Vcidx = Vcidx(view: nat, sender: nat)
  datatype ViewChangeMsg = ViewChangeMsg(
    view: nat,
    h: u32,
    cset: seq<CheckpointMsg>,
    pset: map<u32, PrePrepareMsg>,
    qset: map<u32, PrepareQc>,
    sender: nat)
  datatype NewViewMsg = NewViewMsg(view: nat, vset: seq<ViewChangeMsg>, oset: map<u32, RequestBatch>, sender: nat)

  datatype Msg =
    | PrePrepare(pp: PrePrepareMsg)
    | Prepare(pm: PrepareMsg)
    | Commit(cm: CommitMsg)
    | SlowQc(pqc: PrepareQc)
    | FastQc(fqc: FastPrepareQc)
    | FinalQc(cqc: CommitQc)
    | Checkpoint(ck: CheckpointMsg)
    | ViewChange(vc: ViewChangeMsg)
    | NewView(nv: NewViewMsg)
  {
    /** The replica whose ed25519 signature the receiver checks before dispatching the message. */
    function Sender(): nat {
      match this
      case PrePrepare(m) => m.sender
      case Prepare(m) => m.sender
      case Commit(m) => m.sender
      case SlowQc(m) => m.sender
      case FastQc(m) => m.sender
      case FinalQc(m) => m.sender
      case Checkpoint(m) => m.sender
      case ViewChange(m) => m.sender
      case NewView(m) => m.sender
    }
  }

  /** The vote a slow or a fast prepare certificate claims to certify. */
  function SlowVote(q: PrepareQc): PrepareVote { PrepareVote(q.sn, q.view, q.digest) }
  function FastVote(q: FastPrepareQc): PrepareVote { PrepareVote(q.sn, q.view, q.digest) }

  // ---------------------------------------------------------------- Configuration

  /** Per-replica configuration. Go enumerates maps in an arbitrary order; the three `scan` fields
      are that order, as arbitrary functions of the view being entered and of the key set. */
  datatype Settings = Settings(
    id: nat,
    n: nat,
    fastQuorum: nat,
    viewChangeQuorum: nat,
    subsetCount: nat,
    T: u32,
    K: u32,
    auto: bool,
    scanIds: (nat, set<MsgId>) -> seq<MsgId>,
    scanCheckpoints: (nat, set<CheckpointMsg>) -> seq<CheckpointMsg>,
    scanViewChanges: (nat, set<Vcidx>) -> seq<Vcidx>)
  {
    /** Dafny's `/` is Go's truncation of `n / 3.0` here: both operands are non-negative. */
    function F(): nat { n / 3 }

    /** The number of shares the threshold key pair was generated for. */
    function Threshold(key: KeyKind): nat {
      match key
      case TsKey => n - n / 3
      case FastKey => fastQuorum
    }

    function Primary(view: nat): nat
      requires n > 0
    { view % n }

    /** The enumerations really enumerate. */
    ghost predicate Scans() {
      && (forall v, ks {:trigger scanIds(v, ks)} :: Enumerates(scanIds(v, ks), ks))
      && (forall v, ks {:trigger scanCheckpoints(v, ks)} :: Enumerates(scanCheckpoints(v, ks), ks))
      && (forall v, ks {:trigger scanViewChanges(v, ks)} :: Enumerates(scanViewChanges(v, ks), ks))
    }
  }

  /** A cluster has replicas and a positive checkpoint period. */
  type Config = c: Settings | 0 < c.n && 0 < c.T
    witness Settings(0, 1, 1, 1, 1, 1, 1, false, (v, ks) => [], (v, ks) => [], (v, ks) => [])

  /** `order` lists exactly the members of `ks`, each once. */
  ghost predicate Enumerates<A(!new)>(order: seq<A>, ks: set<A>) {
    && (forall x :: x in order <==> x in ks)
    && (forall i, j :: 0 <= i < j < |order| ==> order[i] != order[j])
  }

  /** Some enumeration of a set. */
  ghost function ToSeq<A(!new)>(ks: set<A>): seq<A> {
    if ks == {} then [] else var x :| x in ks; ToSeq(ks - {x}) + [x]
  }

  lemma {:induction false} ToSeqEnumerates<A(!new)>(ks: set<A>)
    ensures Enumerates(ToSeq(ks), ks)
  {
    if ks != {} {
      var x :| x in ks && ToSeq(ks) == ToSeq(ks - {x}) + [x];
      ToSeqEnumerates(ks - {x});
      assert x !in ToSeq(ks - {x});
    }
  }
}
