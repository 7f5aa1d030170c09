/** Safety over every run, with up to a third of the replicas behaving arbitrarily. */
module Agreement {
  import opened Types
  import opened ReplicaState
  import opened Handlers
  import opened Quorum
  import opened Cluster
  import opened Invariants
  import opened Preservation
  import opened Assignment
  import opened Delivery
  import opened Soundness
  import opened Reachability
  import opened Frames
  import opened Numbering

  /** The quorum sizes are the generator's, and fewer than a third of the replicas are faulty. */
  ghost predicate Tolerates(u: Setup, m: Mix) {
    u.Valid() && m.Accepted() && m.n == u.n && m.FastNum() == u.fastQuorum && Minority(u.n, |u.faulty|)
  }

  /** A prepare certificate for v, slow or fast, can exist. */
  predicate Certifiable(u: Setup, g: map<nat, State>, v: PrepareVote) {
    Legit(u, g, Genuine(TsKey, ForPrepare(v))) || Legit(u, g, Genuine(FastKey, ForPrepare(v)))
  }

  // ---------------------------------------------------------------- Certificates agree

  /** Two threshold signatures have a correct signer in common. */
  lemma CommonSigner(u: Setup, m: Mix, g: map<nat, State>, a: ThresholdSig, b: ThresholdSig)
    requires Tolerates(u, m) && g.Keys == u.replicas.Keys
    requires a.Genuine? && b.Genuine? && Legit(u, g, a) && Legit(u, g, b)
    ensures exists i :: i in g && Signed(g, i, a.payload) && Signed(g, i, b.payload)
  {
    CertificatesOverlap(m, |u.faulty|);
    Overlap(u.n, Backers(u, g, a.payload), Backers(u, g, b.payload), u.faulty);
    var i :| i in Backers(u, g, a.payload) && i in Backers(u, g, b.payload) && i !in u.faulty;
    assert Signed(g, i, a.payload);
  }

  /** What a correct replica signed is backed by what it has stored. */
  lemma Backed(u: Setup, x: Sys, i: nat)
    requires SysInv(u, x) && i in x.nodes
    ensures forall v | v in x.nodes[i].votes :: VoteBacked(x.nodes[i].certs, v)
    ensures forall q | q in x.nodes[i].commitVotes :: CommitBacked(x.nodes[i].certs, q)
  {
    hide SysInv, ExecOk, OutboxOk, CertsSound, BallotsSound, ViewsSound, MarksSound, OutboxSound, Full;
    NodeFacts(u, x, i);
  }

  lemma CertifiableAgree(u: Setup, m: Mix, x: Sys, v: PrepareVote, w: PrepareVote)
    requires Tolerates(u, m) && SysInv(u, x) && Certifiable(u, x.nodes, v) && Certifiable(u, x.nodes, w)
    requires v.sn == w.sn && v.view == w.view && !v.digest.Empty() && !w.digest.Empty()
    ensures v == w
  {
    hide Legit, Good;
    var a := if Legit(u, x.nodes, Genuine(TsKey, ForPrepare(v))) then Genuine(TsKey, ForPrepare(v))
        else Genuine(FastKey, ForPrepare(v));
    var b := if Legit(u, x.nodes, Genuine(TsKey, ForPrepare(w))) then Genuine(TsKey, ForPrepare(w))
        else Genuine(FastKey, ForPrepare(w));
    CommonSigner(u, m, x.nodes, a, b);
    var i :| i in x.nodes && Signed(x.nodes, i, a.payload) && Signed(x.nodes, i, b.payload);
    Backed(u, x, i);
  }

  /** The vote behind a prepare certificate that verifies. */
  predicate Verifies(m: Msg) {
    || (m.SlowQc? && Verify(TsKey, ForPrepare(SlowVote(m.pqc)), m.pqc.sig))
    || (m.FastQc? && Verify(FastKey, ForPrepare(FastVote(m.fqc)), m.fqc.sig))
  }

  function VoteOf(m: Msg): PrepareVote
    requires IsPrepareCert(m)
  { if m.SlowQc? then SlowVote(m.pqc) else FastVote(m.fqc) }

  /** Over every run, whatever a faulty primary proposes to whom: any two prepare certificates ever
      sent that verify for the same number and view carry the same digest, if neither is empty. */
  lemma CertificatesAgree(u: Setup, m: Mix, tr: seq<Sys>, k: nat, a: Msg, b: Msg)
    requires Tolerates(u, m) && Run(u, tr) && k < |tr| && a in tr[k].net && b in tr[k].net
    requires IsPrepareCert(a) && IsPrepareCert(b) && Verifies(a) && Verifies(b) && CertifiedId(a) == CertifiedId(b)
    requires !VoteOf(a).digest.Empty() && !VoteOf(b).digest.Empty()
    ensures VoteOf(a) == VoteOf(b)
  {
    hide Run, Legit, Good;
    ReachableSound(u, tr, k);
    assert MsgSound(u, tr[k].nodes, a) && MsgSound(u, tr[k].nodes, b);
    CertifiableAgree(u, m, tr[k], VoteOf(a), VoteOf(b));
  }

  /** Any two commit certificates for the same number and view certify the identical prepare
      certificate - timestamp, sender and all. */
  lemma CommitCertificatesAgree(u: Setup, m: Mix, tr: seq<Sys>, k: nat, q: PrepareQc, r: PrepareQc)
    requires Tolerates(u, m) && Run(u, tr) && k < |tr| && q.sn == r.sn && q.view == r.view
    requires Legit(u, tr[k].nodes, Genuine(TsKey, ForCommit(q))) && Legit(u, tr[k].nodes, Genuine(TsKey, ForCommit(r)))
    ensures q == r
  {
    hide Run, Legit, Good;
    ReachableSound(u, tr, k);
    var g := tr[k].nodes;
    CommonSigner(u, m, g, Genuine(TsKey, ForCommit(q)), Genuine(TsKey, ForCommit(r)));
    var i :| i in g && Signed(g, i, ForCommit(q)) && Signed(g, i, ForCommit(r));
    Backed(u, tr[k], i);
  }

  /** A certificate commits by the slow path only with a quorum's signatures over the very prepare
      certificate stored in it, and by the fast path only with a fast quorum's votes. */
  lemma CommittedByQuorum(u: Setup, tr: seq<Sys>, k: nat, i: nat, id: MsgId)
    requires u.Valid() && Run(u, tr) && k < |tr| && i in tr[k].nodes && id in tr[k].nodes[i].certs
    requires tr[k].nodes[i].certs[id].stage == Committed
    ensures var cert := tr[k].nodes[i].certs[id];
            || (cert.fastQc.Some? && |Backers(u, tr[k].nodes, ForPrepare(FastVote(cert.fastQc.value)))| >= u.fastQuorum)
            || (cert.prepareQc.Some? && |Backers(u, tr[k].nodes, ForCommit(cert.prepareQc.value))| >= u.n - u.n / 3)
  {
    hide Run, SysInv, Backers;
    ReachableSound(u, tr, k);
    CertFacts(u, tr[k], i, id);
  }

  lemma CertFacts(u: Setup, x: Sys, i: nat, id: MsgId)
    requires SysInv(u, x) && i in x.nodes && id in x.nodes[i].certs
    ensures CertOk(id, x.nodes[i].certs[id]) && QcsLegit(u, x.nodes, x.nodes[i].certs[id])
    ensures FromFirstPrimary(u, x.nodes, x.nodes[i].views.view, x.nodes[i].certs[id])
  {
    hide SysInv, CertOk, QcsLegit, FromFirstPrimary, ExecOk, OutboxOk, BallotsSound, ViewsSound, MarksSound,
         OutboxSound, Full;
    NodeFacts(u, x, i);
  }

  lemma LogFacts(u: Setup, x: Sys, i: nat, e: Executed)
    requires SysInv(u, x) && i in x.nodes && e in x.nodes[i].exec.log
    ensures e.sn == e.id.sn && e.digest != Nil && Justified(x.nodes[i].certs, e.id, e.digest)
  {
    hide SysInv, Justified, CertsOk, OutboxOk, CertsSound, BallotsSound, ViewsSound, MarksSound, OutboxSound, Full;
    NodeFacts(u, x, i);
  }

  // ---------------------------------------------------------------- Executed logs, any primary

  /** The check checkIfPrepared does not make: the certificate is for the digest stored. */
  ghost predicate Matches(cert: Cert) {
    (cert.fastQc.Some? && cert.fastQc.value.digest == cert.digest)
    || (CommitVerifies(cert) && cert.prepareQc.value.digest == cert.digest)
  }

  /** The digest a certificate stands for, by the fast path if it has one. */
  function CertDigest(cert: Cert): Digest
    requires cert.fastQc.Some? || cert.prepareQc.Some?
  { if cert.fastQc.Some? then cert.fastQc.value.digest else cert.prepareQc.value.digest }

  /** Under any primary: two correct replicas that executed the same number of the same view, with
      certificates for some digest, hold certificates for the same one; each of them executed it exactly if
      its certificate matches what it had stored. So once one matches, they agree exactly if both do. */
  lemma ExecutedAgreeExactly(u: Setup, m: Mix, tr: seq<Sys>, k: nat, i: nat, j: nat, a: Executed, b: Executed)
    requires Tolerates(u, m) && Run(u, tr) && k < |tr| && i in tr[k].nodes && j in tr[k].nodes
    requires a in tr[k].nodes[i].exec.log && b in tr[k].nodes[j].exec.log && a.id == b.id
    requires !a.digest.Empty() && !b.digest.Empty()
    requires CertifiesSome(tr[k].nodes[i], a.id) && CertifiesSome(tr[k].nodes[j], b.id)
    ensures var ca, cb := tr[k].nodes[i].certs[a.id], tr[k].nodes[j].certs[b.id];
            && CertDigest(ca) == CertDigest(cb)
            && (a.digest == CertDigest(ca) <==> Matches(ca)) && (b.digest == CertDigest(cb) <==> Matches(cb))
            && (Matches(ca) ==> (a.digest == b.digest <==> Matches(cb)))
  {
    hide Run, Legit, SysInv, MsgSound, Matches, CertDigest;
    ReachableSound(u, tr, k);
    var x := tr[k];
    MatchesExactly(u, m, x, i, a);
    MatchesExactly(u, m, x, j, b);
    CertifiableAgree(u, m, x, PrepareVote(a.id.sn, a.id.view, CertDigest(x.nodes[i].certs[a.id])),
                     PrepareVote(b.id.sn, b.id.view, CertDigest(x.nodes[j].certs[b.id])));
  }

  ghost predicate CertifiesSome(s: State, id: MsgId) {
    id in s.certs && Certified(s.certs[id]) && !CertDigest(s.certs[id]).Empty()
  }

  /** An executed digest is the certified one exactly if the certificate matches what is stored. */
  lemma MatchesExactly(u: Setup, m: Mix, x: Sys, i: nat, e: Executed)
    requires Tolerates(u, m) && SysInv(u, x) && i in x.nodes && e in x.nodes[i].exec.log && !e.digest.Empty()
    requires CertifiesSome(x.nodes[i], e.id)
    ensures var cert := x.nodes[i].certs[e.id];
            && Certifiable(u, x.nodes, PrepareVote(e.id.sn, e.id.view, CertDigest(cert)))
            && (e.digest == CertDigest(cert) <==> Matches(cert))
  {
    hide Legit, SysInv, MsgSound, Tolerates, Certifiable;
    LogFacts(u, x, i, e);
    CertFacts(u, x, i, e.id);
    var cert := x.nodes[i].certs[e.id];
    MatchedVote(u, x, cert, e.id);
    if Matches(cert) {
      CertifiableAgree(u, m, x, PrepareVote(e.id.sn, e.id.view, cert.digest),
                       PrepareVote(e.id.sn, e.id.view, CertDigest(cert)));
    }
  }

  lemma MatchedVote(u: Setup, x: Sys, cert: Cert, id: MsgId)
    requires CertOk(id, cert) && QcsLegit(u, x.nodes, cert)
    ensures Matches(cert) ==> Certifiable(u, x.nodes, PrepareVote(id.sn, id.view, cert.digest))
    ensures Certified(cert) ==> Certifiable(u, x.nodes, PrepareVote(id.sn, id.view, CertDigest(cert)))
  {
    hide Legit;
  }

  // ---------------------------------------------------------------- Executed logs, one view

  /** A run with a correct first primary, up to a step at which its counters have not reached 2^32. */
  ghost predicate Led(u: Setup, tr: seq<Sys>, k: nat) {
    && u.Valid() && Run(u, tr) && k < |tr| && 0 in u.replicas
    && (forall l | 0 <= l <= k && 0 in tr[l].nodes :: NoWrap(u.replicas[0], tr[l].nodes[0]))
  }

  /** Replica i is in the first view. */
  predicate InFirstView(x: Sys, i: nat) { i in x.nodes && x.nodes[i].views.view == 0 }

  lemma LedBefore(u: Setup, tr: seq<Sys>, l: nat, k: nat)
    requires Led(u, tr, k) && l <= k
    ensures Led(u, tr, l)
  {
    hide Run, Setup.Valid, NoWrap;
  }

  lemma LedRun(u: Setup, tr: seq<Sys>, k: nat)
    requires Led(u, tr, k)
    ensures u.Valid() && Run(u, tr) && k < |tr| && 0 in u.replicas
    ensures 0 < k ==> Next(u, tr[k - 1], tr[k]) && (0 in tr[k - 1].nodes ==> NoWrap(u.replicas[0], tr[k - 1].nodes[0]))
  {
    hide Next, Setup.Valid, NoWrap;
  }

  lemma NextNumbered(u: Setup, x: Sys, y: Sys)
    requires Next(u, x, y) && u.Valid() && 0 in u.replicas && 0 in x.nodes
    requires Numbered(u.replicas[0], x.nodes[0]) && NoWrap(u.replicas[0], x.nodes[0])
    ensures 0 in y.nodes && Numbered(u.replicas[0], y.nodes[0])
  {
    hide Step, Numbered, NoWrap, MsgSound;
    if i, now, e :| Acts(u, x, y, i, now, e) {
      if i == 0 { StepNumbered(u.replicas[0], x.nodes[0], now, e); }
    }
  }

  lemma {:induction false} FirstPrimaryNumbers(u: Setup, tr: seq<Sys>, k: nat)
    requires Led(u, tr, k)
    ensures k < |tr| && 0 in u.replicas && 0 in tr[k].nodes && Numbered(u.replicas[0], tr[k].nodes[0])
  {
    hide Next, Numbered, NoWrap, Setup.Valid, Led, Run;
    LedRun(u, tr, k);
    if k == 0 {
      RunStarts(u, tr);
      FreshNumbered(u.replicas[0]);
    } else {
      LedBefore(u, tr, k - 1, k);
      FirstPrimaryNumbers(u, tr, k - 1);
      NextNumbered(u, tr[k - 1], tr[k]);
    }
  }

  lemma RunStarts(u: Setup, tr: seq<Sys>)
    requires Run(u, tr) && 0 in u.replicas
    ensures |tr| > 0 && 0 in tr[0].nodes && tr[0].nodes[0] == Init(u.replicas[0])
  {
    hide Next;
  }

  lemma FreshNumbered(c: Config)
    ensures Numbered(c, Init(c))
  {
    assert Proposals(Init(c).outbox) == [];
  }

  /** What the first primary has proposed, whatever view it is in now: with the hash of the batch, and
      each number once. */
  lemma FirstProposals(u: Setup, tr: seq<Sys>, k: nat, p: PrePrepareMsg, q: PrePrepareMsg)
    requires Led(u, tr, k) && 0 in tr[k].nodes
    requires PrePrepare(p) in tr[k].nodes[0].outbox && PrePrepare(q) in tr[k].nodes[0].outbox
    ensures p.digest == Hash(p.batch) && p.view <= tr[k].nodes[0].views.view
    ensures p.sn == q.sn ==> p == q
  {
    hide Run, Sound, CertsOk, ExecOk, NoWrap;
    var x := tr[k];
    ReachableSound(u, tr, k);
    FirstPrimaryNumbers(u, tr, k);
    assert Good(u, x.nodes, u.replicas[0], x.nodes[0]);
    assert OutMsgOk(u.replicas[0], x.nodes[0], PrePrepare(p));
    if p.sn == q.sn { ProposalsNeverReuse(u.replicas[0], x.nodes[0], PrePrepare(p), PrePrepare(q)); }
  }

  /** So no correct replica in the first view executes an empty digest. */
  lemma FirstViewFull(u: Setup, tr: seq<Sys>, k: nat, i: nat)
    requires Led(u, tr, k) && InFirstView(tr[k], i)
    ensures ExecFull(tr[k].nodes[i].exec)
  {
    hide Run, SysInv, CertsSound, BallotsSound, ViewsSound, MarksSound, OutboxSound, Inv, ExecFull, NoWrap, CalledFor;
    var x := tr[k];
    ReachableSound(u, tr, k);
    NodeFacts(u, x, i);
    FirstPrimaryNumbers(u, tr, k);
    forall m | m in x.nodes[0].outbox && m.PrePrepare? ensures !m.pp.digest.Empty() {
      FirstProposals(u, tr, k, m.pp, m.pp);
    }
    assert WellPrimed(x.nodes, x.nodes[i]);
  }

  /** Proposed by the first primary: the digest, for the number and view. */
  ghost predicate Proposed(x: Sys, id: MsgId, d: Digest) {
    0 in x.nodes
    && exists pp :: PrePrepare(pp) in x.nodes[0].outbox && pp.sn == id.sn && pp.view == id.view && pp.digest == d
  }

  /** Whatever a correct replica in the first view stores under a number is what was proposed for it. */
  lemma StoredProposal(u: Setup, tr: seq<Sys>, k: nat, i: nat, id: MsgId)
    requires Led(u, tr, k) && InFirstView(tr[k], i) && id in tr[k].nodes[i].certs
    requires tr[k].nodes[i].certs[id].prePrepare.Some?
    ensures Proposed(tr[k], id, tr[k].nodes[i].certs[id].digest)
  {
    hide Run, Good, NoWrap;
    ReachableSound(u, tr, k);
    FirstPrimaryNumbers(u, tr, k);
    CertFacts(u, tr[k], i, id);
    var pp := tr[k].nodes[i].certs[id].prePrepare.value;
    assert PrePrepare(pp) in tr[k].nodes[0].outbox && pp.sn == id.sn && pp.digest == tr[k].nodes[i].certs[id].digest;
  }

  /** Each executed digest is the one the primary proposed for the number. */
  lemma ExecutedProposal(u: Setup, tr: seq<Sys>, k: nat, i: nat, e: Executed)
    requires Led(u, tr, k) && InFirstView(tr[k], i) && e in tr[k].nodes[i].exec.log
    ensures Proposed(tr[k], e.id, e.digest) && e.id.sn == e.sn
  {
    hide Run, Good, NoWrap, Proposed;
    ReachableSound(u, tr, k);
    LogFacts(u, tr[k], i, e);
    FirstViewFull(u, tr, k, i);
    StoredProposal(u, tr, k, i, e.id);
  }

  /** As long as the primary is in the first view, so is everything executed there. */
  lemma ExecutedInFirstView(u: Setup, tr: seq<Sys>, k: nat, i: nat, e: Executed)
    requires Led(u, tr, k) && InFirstView(tr[k], 0) && InFirstView(tr[k], i) && e in tr[k].nodes[i].exec.log
    ensures e.id.view == 0
  {
    hide Led, Run, Setup.Valid;
    LedRun(u, tr, k);
    ExecutedProposal(u, tr, k, i, e);
    var pp :| PrePrepare(pp) in tr[k].nodes[0].outbox && pp.view == e.id.view;
    FirstProposals(u, tr, k, pp, pp);
  }

  lemma ProposedOnce(u: Setup, tr: seq<Sys>, k: nat, a: MsgId, d: Digest, b: MsgId, w: Digest)
    requires Led(u, tr, k) && k < |tr| && Proposed(tr[k], a, d) && Proposed(tr[k], b, w) && a.sn == b.sn
    ensures d == w && a == b
  {
    hide Led;
    var p :| PrePrepare(p) in tr[k].nodes[0].outbox && p.sn == a.sn && p.view == a.view && p.digest == d;
    var q :| PrePrepare(q) in tr[k].nodes[0].outbox && q.sn == b.sn && q.view == b.view && q.digest == w;
    FirstProposals(u, tr, k, p, q);
  }

  // What one step leaves of that.

  lemma NextGrows(u: Setup, x: Sys, y: Sys, i: nat)
    requires SysInv(u, x) && Next(u, x, y) && i in y.nodes
    ensures i in x.nodes && x.nodes[i].views.view <= y.nodes[i].views.view && x.nodes[i].outbox <= y.nodes[i].outbox
    ensures forall v | v in y.nodes[i].votes && v !in x.nodes[i].votes :: v.view >= x.nodes[i].views.view
    ensures forall v | v in y.nodes[i].votes && v !in x.nodes[i].votes && v.view == 0 :: y.nodes[i].views.view == 0
  {
    hide SysInv, MsgSound, Step;
    if j, now, e :| Acts(u, x, y, j, now, e) {
      if j == i { StepGrows(u, x, j, now, e); }
    }
  }

  lemma StepGrows(u: Setup, x: Sys, i: nat, now: int, e: Event)
    requires SysInv(u, x) && i in x.nodes && i in u.replicas
    ensures var s := x.nodes[i];
            var t := Step(u.replicas[i], s, now, e);
            && s.views.view <= t.views.view && s.outbox <= t.outbox
            && (forall v | v in t.votes && v !in s.votes :: v.view >= s.views.view)
            && (forall v | v in t.votes && v !in s.votes && v.view == 0 :: t.views.view == 0)
  {
    hide SysInv, Inv, Step, CertsSound, BallotsSound, MarksSound, OutboxSound, Full, MsgSound, CorrectViewChange,
         Settings.Scans, CertsGrow;
    NodeFacts(u, x, i);
    MemberId(u, u.replicas[i]);
    StepKeeps(u.replicas[i], x.nodes[i], now, e);
    if x.nodes[i].views.view == 0 { LeavingCastsNoVote(u.replicas[i], x.nodes[i], now, e); }
  }

  lemma StillProposed(u: Setup, x: Sys, y: Sys, id: MsgId, d: Digest)
    requires SysInv(u, x) && Next(u, x, y) && Proposed(x, id, d) && 0 in y.nodes
    ensures Proposed(y, id, d)
  {
    hide SysInv, Next;
    NextGrows(u, x, y, 0);
    var pp :| PrePrepare(pp) in x.nodes[0].outbox && pp.sn == id.sn && pp.view == id.view && pp.digest == d;
    assert PrePrepare(pp) in y.nodes[0].outbox;
  }

  /** What the primary had proposed it has still proposed. */
  lemma {:induction false} ProposedBefore(u: Setup, tr: seq<Sys>, l: nat, k: nat)
    requires Led(u, tr, k) && l <= k
    ensures Led(u, tr, l) && k < |tr|
    ensures forall id, d | Proposed(tr[l], id, d) :: Proposed(tr[k], id, d)
    decreases k
  {
    hide Next, SysInv, Led, Run, Proposed, Setup.Valid;
    LedRun(u, tr, k);
    if l < k {
      LedBefore(u, tr, k - 1, k);
      ReachableSound(u, tr, k - 1);
      FirstPrimaryNumbers(u, tr, k);
      ProposedBefore(u, tr, l, k - 1);
      forall id, d | Proposed(tr[k - 1], id, d) ensures Proposed(tr[k], id, d) {
        StillProposed(u, tr[k - 1], tr[k], id, d);
      }
    }
  }

  lemma StillCalled(u: Setup, x: Sys, y: Sys, v: PrepareVote)
    requires SysInv(u, x) && Next(u, x, y) && 0 in x.nodes && 0 in y.nodes && CalledFor(x.nodes, v)
    ensures CalledFor(y.nodes, v)
  {
    hide SysInv, Next;
    NextGrows(u, x, y, 0);
    var pp :| PrePrepare(pp) in x.nodes[0].outbox && Calls(pp, v);
    assert PrePrepare(pp) in y.nodes[0].outbox;
  }

  /** The primary called for every vote of the first view, even if its caster has moved on since. */
  lemma {:induction false} FirstViewVotes(u: Setup, tr: seq<Sys>, k: nat, i: nat, v: PrepareVote)
    requires Led(u, tr, k) && i in tr[k].nodes && v in tr[k].nodes[i].votes && v.view == 0
    ensures CalledFor(tr[k].nodes, v)
  {
    hide Next, SysInv, Led, Run, CalledFor, Setup.Valid, InFirstView;
    LedRun(u, tr, k);
    FirstPrimaryNumbers(u, tr, k);
    if InFirstView(tr[k], i) {
      VoteCalled(u, tr, k, i, v);
    } else {
      OutOfView(u, tr, k, i);
      LedBefore(u, tr, k - 1, k);
      ReachableSound(u, tr, k - 1);
      FirstPrimaryNumbers(u, tr, k - 1);
      NextGrows(u, tr[k - 1], tr[k], i);
      assert v in tr[k - 1].nodes[i].votes by { OldVote(tr[k - 1], tr[k], i, v); }
      FirstViewVotes(u, tr, k - 1, i, v);
      StillCalled(u, tr[k - 1], tr[k], v);
    }
  }

  lemma OldVote(x: Sys, y: Sys, i: nat, v: PrepareVote)
    requires i in x.nodes && i in y.nodes && v in y.nodes[i].votes && v.view == 0 && !InFirstView(y, i)
    requires forall v | v in y.nodes[i].votes && v !in x.nodes[i].votes && v.view == 0 :: y.nodes[i].views.view == 0
    ensures v in x.nodes[i].votes
  {}

  lemma OutOfView(u: Setup, tr: seq<Sys>, k: nat, i: nat)
    requires Run(u, tr) && k < |tr| && i in tr[k].nodes && !InFirstView(tr[k], i)
    ensures 0 < k
  {
    hide Next;
  }

  lemma VoteCalled(u: Setup, tr: seq<Sys>, k: nat, i: nat, v: PrepareVote)
    requires u.Valid() && Run(u, tr) && k < |tr| && InFirstView(tr[k], i) && v in tr[k].nodes[i].votes
    ensures CalledFor(tr[k].nodes, v)
  {
    hide Run, SysInv, CertsSound, BallotsSound, ViewsSound, MarksSound, OutboxSound, Inv, CalledFor, Setup.Valid;
    ReachableSound(u, tr, k);
    NodeFacts(u, tr[k], i);
  }

  function Digests(log: seq<Executed>): seq<Digest> { seq(|log|, i requires 0 <= i < |log| => log[i].digest) }

  /** Under a correct first primary the executed logs of any two correct replicas, each taken at any time it
      is in the first view, are prefixes of one another - whatever the faulty replicas do, and whether or
      not the primary and other correct replicas have left the view. */
  lemma LogsArePrefixes(u: Setup, tr: seq<Sys>, k: nat, l: nat, i: nat, r: nat, j: nat)
    requires Led(u, tr, k) && l <= k && InFirstView(tr[l], i) && r <= k && InFirstView(tr[r], j)
    ensures var a := Digests(tr[l].nodes[i].exec.log); var b := Digests(tr[r].nodes[j].exec.log); a <= b || b <= a
  {
    hide Led, SysInv, Proposed, Run, Setup.Valid;
    LedRun(u, tr, k);
    ProposedBefore(u, tr, l, k);
    ProposedBefore(u, tr, r, k);
    var a := tr[l].nodes[i].exec.log;
    var b := tr[r].nodes[j].exec.log;
    forall p | 0 <= p < |a| && p < |b| ensures a[p].digest == b[p].digest {
      ExecutedProposal(u, tr, l, i, a[p]);
      ExecutedProposal(u, tr, r, j, b[p]);
      PositionIsNumber(u, tr, l, i, p);
      PositionIsNumber(u, tr, r, j, p);
      ProposedOnce(u, tr, k, a[p].id, a[p].digest, b[p].id, b[p].digest);
    }
  }

  /** Execution is gap-free and in order: the p-th entry executed is number p + 1. */
  lemma PositionIsNumber(u: Setup, tr: seq<Sys>, k: nat, i: nat, p: nat)
    requires u.Valid() && Run(u, tr) && k < |tr| && i in tr[k].nodes && p < |tr[k].nodes[i].exec.log|
    ensures tr[k].nodes[i].exec.log[p].sn == p + 1
  {
    hide Run, Sound, OutboxOk, CertsOk;
    ReachableSound(u, tr, k);
    assert Good(u, tr[k].nodes, u.replicas[i], tr[k].nodes[i]);
  }

  /** And each digest a replica in the first view has executed as of that view - which is all of them while
      the primary is there too - is that of every certificate stored with it. */
  lemma ExecutedMatchesCertificate(u: Setup, m: Mix, tr: seq<Sys>, k: nat, i: nat, e: Executed)
    requires Tolerates(u, m) && Led(u, tr, k) && InFirstView(tr[k], i) && e in tr[k].nodes[i].exec.log && e.id.view == 0
    ensures e.id in tr[k].nodes[i].certs
    ensures var cert := tr[k].nodes[i].certs[e.id];
            && (cert.fastQc.Some? || cert.prepareQc.Some?)
            && (cert.fastQc.Some? ==> cert.fastQc.value.digest == e.digest)
            && (cert.prepareQc.Some? ==> cert.prepareQc.value.digest == e.digest)
  {
    hide Run, SysInv, Legit, Led, Proposed, Tolerates;
    LedRun(u, tr, k);
    ReachableSound(u, tr, k);
    var x := tr[k];
    LogFacts(u, x, i, e);
    CertFacts(u, x, i, e.id);
    ExecutedProposal(u, tr, k, i, e);
    var cert := x.nodes[i].certs[e.id];
    if cert.fastQc.Some? {
      CertifiedProposal(u, m, tr, k, e, Genuine(FastKey, ForPrepare(FastVote(cert.fastQc.value))));
    }
    if cert.prepareQc.Some? {
      CertifiedProposal(u, m, tr, k, e, Genuine(TsKey, ForPrepare(SlowVote(cert.prepareQc.value))));
    }
  }

  /** A certificate's correct voter was called by the only pre-prepare there is for the number. */
  lemma CertifiedProposal(u: Setup, m: Mix, tr: seq<Sys>, k: nat, e: Executed, sig: ThresholdSig)
    requires Tolerates(u, m) && Led(u, tr, k) && k < |tr| && Proposed(tr[k], e.id, e.digest) && e.id.view == 0
    requires sig.Genuine? && sig.payload.ForPrepare? && sig.payload.vote.sn == e.id.sn && sig.payload.vote.view == 0
    requires Legit(u, tr[k].nodes, sig)
    ensures sig.payload.vote.digest == e.digest
  {
    hide Led, SysInv, Legit, Run, Tolerates, Signed, CalledFor, Proposed;
    LedRun(u, tr, k);
    var x := tr[k];
    ReachableSound(u, tr, k);
    SetupOf(u, x);
    CommonSigner(u, m, x.nodes, sig, sig);
    var j :| j in x.nodes && Signed(x.nodes, j, sig.payload);
    SignedVote(x.nodes, j, sig.payload);
    FirstViewVotes(u, tr, k, j, sig.payload.vote);
    CalledProposal(u, tr, k, e.id, e.digest, sig.payload.vote);
  }

  lemma CalledProposal(u: Setup, tr: seq<Sys>, k: nat, id: MsgId, d: Digest, v: PrepareVote)
    requires Led(u, tr, k) && k < |tr| && Proposed(tr[k], id, d) && CalledFor(tr[k].nodes, v)
    requires id.view == 0 && v.sn == id.sn
    ensures v.digest == d
  {
    hide Led;
    var pp :| PrePrepare(pp) in tr[k].nodes[0].outbox && Calls(pp, v);
    var w :| PrePrepare(w) in tr[k].nodes[0].outbox && w.sn == id.sn && w.view == 0 && w.digest == d;
    FirstProposals(u, tr, k, pp, w);
  }

  lemma SignedVote(g: map<nat, State>, j: nat, p: Payload)
    requires Signed(g, j, p) && p.ForPrepare?
    ensures j in g && p.vote in g[j].votes
  {}

  // ---------------------------------------------------------------- Leaving the first view

  /** A step that leaves the first view casts no vote of that view. */
  lemma LeavingCastsNoVote(c: Config, s: State, now: int, e: Event)
    requires Inv(c, s) && c.Scans() && s.views.view == 0 && s.views.active && forall k | k in s.views.newViews :: 0 < k
    ensures var t := Step(c, s, now, e);
            t.views.view == 0 || forall v | v in t.votes && v !in s.votes :: 0 < v.view
  {
    hide Settings.Scans, Inv, HandlePrePrepare, HandlePrepare, HandleSlowQc, HandleFastQc, HandleFinalQc,
        HandleViewChange,
         Propose, CheckIfPrepareQc, StateDigests, Matching, ViewChangeOf, Recover, Recoverable;
    var x := s.(clock := now);
    match e
    case Deliver(m) => {
      match m
      case PrePrepare(pp) => PrePrepareLeaves(c, x, pp);
      case Prepare(pm) => HandlePrepareAlike(c, x, pm);
      case Commit(cm) =>
      case SlowQc(_) => CertificateLeaves(c, x, m);
      case FastQc(_) => CertificateLeaves(c, x, m);
      case FinalQc(_) => CertificateLeaves(c, x, m);
      case Checkpoint(ck) =>
      case ViewChange(vc) => TickKeeps(c, s, now); ViewChangeLeaves(c, x, vc);
      case NewView(nv) =>
    }
    case Batch(b) => ProposeLeaves(c, x, b);
    case FastTimeout(id, k) =>
      CheckIfPrepareQcAlike(c, x.(leader := x.leader.(timers := x.leader.timers[id := true],
                                                      armed := x.leader.armed - {(id, k)},
                                                      fired := x.leader.fired[id := k])), id, k);
    case ViewTimeout =>
  }

  lemma ProposeLeaves(c: Config, s: State, batch: RequestBatch)
    ensures Propose(c, s, batch).views == s.views
  {}

  /** The vote is cast last, for the view then current. */
  lemma PrePrepareLeaves(c: Config, s: State, pp: PrePrepareMsg)
    ensures var t := HandlePrePrepare(c, s, pp); forall v | v in t.votes && v !in s.votes :: v.view == t.views.view
  {
    hide CheckIfPrepared, HandlePrepare, InWatermarks, ViewChangeOf, CastVote;
    var id := MsgId(pp.sn, pp.view);
    var t := CheckIfPrepared(c, StorePrePrepare(s, id, pp), id);
    CheckIfPreparedCalm(c, StorePrePrepare(s, id, pp), id);
    CastVoteAlike(c, t, pp.sn);
    CastVoteVotes(c, t, pp.sn);
  }

  lemma CastVoteVotes(c: Config, s: State, sn: u32)
    ensures CastVote(c, s, sn).votes == s.votes + {OwnVote(s, sn)}
  {
    hide HandlePrepare;
    HandlePrepareVotes(c, SignVote(s, OwnVote(s, sn)), PrepareFor(c, OwnVote(s, sn)));
  }

  lemma HandlePrepareVotes(c: Config, s: State, pm: PrepareMsg)
    ensures HandlePrepare(c, s, pm).votes == s.votes
  {
    hide CheckIfPrepareQc, IssueFastQc, SharesOf;
    var cert := CertOf(s, MsgId(pm.vote.sn, s.views.view));
    var t := PutCert(s, MsgId(pm.vote.sn, s.views.view), cert.(prepares := cert.prepares[pm.sender := pm]));
    var r := RecordVote(t, MsgId(pm.vote.sn, pm.vote.view), pm.vote.digest.Key(), pm);
    IssuingVotes(c, r, MsgId(pm.vote.sn, pm.vote.view), pm.vote.digest.Key());
  }

  lemma IssuingVotes(c: Config, s: State, id: MsgId, k: Digest)
    ensures CheckIfPrepareQc(c, s, id, k).votes == s.votes && IssueFastQc(c, s, id, k).votes == s.votes
  {
    hide Recover, Recoverable, SharesOf;
  }

  lemma CertificateLeaves(c: Config, s: State, m: Msg)
    requires m.SlowQc? || m.FastQc? || m.FinalQc?
    ensures Dispatch(c, s, m).votes == s.votes && Dispatch(c, s, m).views.newViews == s.views.newViews
  {
    hide CheckIfPrepared, CheckIfCommitted, InWatermarks, ViewChangeOf, Quiet, CertsIn, CommitVerifies;
    match m
    case SlowQc(q) =>
      CheckIfPreparedCalm(c, PutCert(s, MsgId(q.sn, q.view), CertOf(s, MsgId(q.sn, q.view)).(prepareQc := Some(q))),
                          MsgId(q.sn, q.view));
    case FastQc(q) =>
      CheckIfPreparedCalm(c, PutCert(s, MsgId(q.sn, q.view), CertOf(s, MsgId(q.sn, q.view)).(fastQc := Some(q))),
                          MsgId(q.sn, q.view));
    case FinalQc(q) =>
      CheckIfCommittedCalm(c, PutCert(s, MsgId(q.sn, q.view), CertOf(s, MsgId(q.sn, q.view)).(commitQc := Some(q))),
                           MsgId(q.sn, q.view));
    case _ =>
  }

  /** An active replica that is told of view changes can only catch up first, and vote afterwards. */
  lemma ViewChangeLeaves(c: Config, s: State, vc: ViewChangeMsg)
    requires Inv(c, s) && c.Scans() && s.views.view == 0 && s.views.active
    ensures var t := HandleViewChange(c, s, vc);
            t.views.view == 0 || forall v | v in t.votes && v !in s.votes :: 0 < v.view
  {
    hide Settings.Scans, Inv, CorrectViewChange, SendNewView, ForView, CatchUp;
    var x := s.(views := s.views.(store := s.views.store[Vcidx(vc.view, vc.sender) := vc]));
    if Vcidx(vc.view, vc.sender) !in s.views.store {
      ViewsKeep(c, s, x.views);
      CatchUpKeeps(c, x);
      CatchUpCalm(c, x);
      CatchUpMoves(c, x);
      SendNewViewKeeps(c, CatchUp(c, x));
    }
  }

  lemma CatchUpMoves(c: Config, s: State)
    requires s.views.active
    ensures CatchUp(c, s) == s || (!CatchUp(c, s).views.active && 0 < CatchUp(c, s).views.view)
  {
    hide ViewChangeOf;
  }
}
