/** What every handler keeps, whatever it is fed: a relation between the states before and after,
    and an invariant of the state. Nothing here trusts the sender of a message. */
module Invariants {
  import opened Types
  import opened ReplicaState
  import opened Assignment
  import opened Handlers

  // ---------------------------------------------------------------- Growth

  ghost predicate CertGrows(a: Cert, b: Cert) {
    && (!a.digest.Empty() ==> b.digest == a.digest)
    && (a.prepareQc.Some? ==> b.prepareQc == a.prepareQc)
    && (a.fastQc.Some? ==> b.fastQc == a.fastQc)
    && (a.commitQc.Some? ==> b.commitQc == a.commitQc)
    && (a.prePrepare.Some? ==> b.prePrepare.Some?)
    && (a.qcSent ==> b.qcSent)
    && (a.commitQcSent ==> b.commitQcSent)
  }

  ghost predicate CertsGrow(a: map<MsgId, Cert>, b: map<MsgId, Cert>) {
    forall id | id in a :: id in b && CertGrows(a[id], b[id])
  }

  ghost predicate Evolves(s: State, t: State) {
    && CertsGrow(s.certs, t.certs)
    && s.votes <= t.votes && s.commitVotes <= t.commitVotes
    && (forall v | v in t.votes && v !in s.votes :: v.view >= s.views.view)
    && s.outbox <= t.outbox && s.exec.log <= t.exec.log
    && s.exec.last <= t.exec.last
    && s.views.view <= t.views.view
    && s.views.newViewsSent <= t.views.newViewsSent
    && s.views.store.Keys <= t.views.store.Keys
    && (forall i | i in s.views.store :: t.views.store[i] == s.views.store[i])
    && (forall sn | sn in s.marks.store :: sn in t.marks.store && s.marks.store[sn] <= t.marks.store[sn])
    && (s.panicked ==> t.panicked)
  }

  lemma EvolvesTransitive(s: State, t: State, u: State)
    requires Evolves(s, t) && Evolves(t, u)
    ensures Evolves(s, u)
  {}

  // ---------------------------------------------------------------- The invariant

  ghost predicate CertOk(id: MsgId, cert: Cert) {
    && (cert.prePrepare.None? ==> cert.digest == Nil)
    && (cert.prePrepare.Some? ==>
          var pp := cert.prePrepare.value; pp.sn == id.sn && pp.view == id.view && pp.digest == cert.digest)
    && (cert.prepareQc.Some? ==>
          var q := cert.prepareQc.value;
          q.sn == id.sn && q.view == id.view && Verify(TsKey, ForPrepare(SlowVote(q)), q.sig))
    && (cert.fastQc.Some? ==>
          var q := cert.fastQc.value;
          q.sn == id.sn && q.view == id.view && Verify(FastKey, ForPrepare(FastVote(q)), q.sig))
    && (cert.stage == Prepared ==> cert.prepareQc.Some?)
    && (cert.stage == Committed ==> Certified(cert))
  }

  /** A fast certificate, or a commit certificate that verifies over the stored prepare certificate. */
  ghost predicate Certified(cert: Cert) { cert.fastQc.Some? || CommitVerifies(cert) }

  ghost predicate CertsOk(certs: map<MsgId, Cert>) { forall id | id in certs :: CertOk(id, certs[id]) }

  /** A signed vote with a non-empty digest is for the digest stored under its number and view. */
  ghost predicate VoteBacked(certs: map<MsgId, Cert>, v: PrepareVote) {
    !v.digest.Empty() ==> MsgId(v.sn, v.view) in certs && certs[MsgId(v.sn, v.view)].digest == v.digest
  }

  ghost predicate CommitBacked(certs: map<MsgId, Cert>, q: PrepareQc) {
    MsgId(q.sn, q.view) in certs && certs[MsgId(q.sn, q.view)].prepareQc == Some(q)
  }

  /** Executing digest d under id rests on a stored pre-prepare and a certificate. */
  ghost predicate Justified(certs: map<MsgId, Cert>, id: MsgId, d: Digest) {
    && id in certs && certs[id].prePrepare.Some? && Certified(certs[id])
    && (!d.Empty() ==> certs[id].digest == d)
  }

  ghost predicate ExecOk(certs: map<MsgId, Cert>, e: Execution) {
    && e.ids.Keys == e.digests.Keys
    && (forall sn | sn in e.ids ::
        e.ids[sn].sn == sn && (e.digests[sn] != Nil ==> Justified(certs, e.ids[sn], e.digests[sn])))
    && |e.log| == e.last
    && (forall k | 0 <= k < |e.log| ::
          && e.log[k].sn == k + 1 && e.log[k].id.sn == k + 1 && e.log[k].digest != Nil
          && Justified(certs, e.log[k].id, e.log[k].digest))
  }

  /** A view-change message leaves out no pre-prepare the sender voted for in an earlier view. */
  ghost predicate VoteReported(vc: ViewChangeMsg, v: PrepareVote) {
    !v.digest.Empty() && v.view < vc.view && v.sn > vc.h ==>
      v.sn in vc.pset && (vc.pset[v.sn].view == v.view ==> vc.pset[v.sn].digest == v.digest)
  }

  /** Nor any prepare certificate the sender signed a commit for before sending it. */
  ghost predicate CommitReported(vc: ViewChangeMsg, q: PrepareQc) {
    q.sn > vc.h ==> q.sn in vc.qset && (vc.qset[q.sn].view == q.view ==> vc.qset[q.sn] == q)
  }

  ghost predicate OutMsgOk(c: Config, s: State, m: Msg) {
    && m.Sender() == c.id
    && match m
       case PrePrepare(pp) => pp.digest == Hash(pp.batch) && pp.view <= s.views.view
       case Prepare(pm) => pm == PrepareFor(c, pm.vote) && pm.vote in s.votes
       case Commit(cm) => cm.vote in s.commitVotes && cm.sig == PartialSig(TsKey, ForCommit(cm.vote), c.id)
       case SlowQc(q) => MsgId(q.sn, q.view) in s.certs && s.certs[MsgId(q.sn, q.view)].qcSent
       case FastQc(q) => MsgId(q.sn, q.view) in s.certs && s.certs[MsgId(q.sn, q.view)].qcSent
       case FinalQc(q) => MsgId(q.sn, q.view) in s.certs && s.certs[MsgId(q.sn, q.view)].commitQcSent
       case Checkpoint(ck) => ck.digest == "" && ck.sn <= s.exec.last && ck.sn % c.T == 0
       case ViewChange(vc) =>
         && 0 < vc.view <= s.views.view
         && (forall v | v in s.votes :: VoteReported(vc, v))
       case NewView(nv) => nv.view in s.views.newViewsSent
  }

  predicate IsPrepareCert(m: Msg) { m.SlowQc? || m.FastQc? }

  function CertifiedId(m: Msg): MsgId
    requires IsPrepareCert(m)
  {
    if m.SlowQc? then MsgId(m.pqc.sn, m.pqc.view) else MsgId(m.fqc.sn, m.fqc.view)
  }

  /** What one message sent earlier and one sent later have to do with each other. */
  ghost predicate InOrder(a: Msg, b: Msg) {
    && (a.ViewChange? && b.ViewChange? ==> a.vc.view < b.vc.view)
    && (a.NewView? && b.NewView? ==> a.nv.view != b.nv.view)
    && (IsPrepareCert(a) && IsPrepareCert(b) ==> CertifiedId(a) != CertifiedId(b))
    && (a.FinalQc? && b.FinalQc? ==> (a.cqc.sn, a.cqc.view) != (b.cqc.sn, b.cqc.view))
    && (a.Commit? && b.ViewChange? ==> CommitReported(b.vc, a.cm.vote))
  }

  ghost predicate OutboxOk(c: Config, s: State) {
    && (forall m | m in s.outbox :: OutMsgOk(c, s, m))
    && (forall i, j | 0 <= i < j < |s.outbox| :: InOrder(s.outbox[i], s.outbox[j]))
  }

  ghost predicate Inv(c: Config, s: State) {
    && CertsOk(s.certs)
    && (forall v | v in s.votes :: VoteBacked(s.certs, v) && v.view <= s.views.view)
    && (forall q | q in s.commitVotes :: CommitBacked(s.certs, q))
    && ExecOk(s.certs, s.exec)
    && OutboxOk(c, s)
  }

  /** From a state in order, the step to t keeps the invariant and only grows. */
  ghost predicate Kept(c: Config, s: State, t: State) { Inv(c, t) && Evolves(s, t) }

  lemma Chain(c: Config, s: State, t: State, u: State)
    requires Kept(c, s, t) && Kept(c, t, u)
    ensures Kept(c, s, u)
  {
    hide Inv;
    EvolvesTransitive(s, t, u);
  }

  lemma StoredOk(c: Config, s: State, id: MsgId)
    requires Inv(c, s)
    ensures CertOk(id, CertOf(s, id))
  {}

  // ---------------------------------------------------------------- Kinds of update

  lemma ExecOkGrows(a: map<MsgId, Cert>, b: map<MsgId, Cert>, e: Execution)
    requires ExecOk(a, e) && CertsGrow(a, b)
    ensures ExecOk(b, e)
  {
    forall id, d | Justified(a, id, d) ensures Justified(b, id, d) {}
    forall sn | sn in e.ids && e.digests[sn] != Nil ensures Justified(b, e.ids[sn], e.digests[sn]) {
      assert Justified(a, e.ids[sn], e.digests[sn]);
    }
    forall k | 0 <= k < |e.log| ensures Justified(b, e.log[k].id, e.log[k].digest) {
      assert Justified(a, e.log[k].id, e.log[k].digest);
    }
  }

  lemma OutboxGrows(c: Config, s: State, t: State)
    requires OutboxOk(c, s) && Evolves(s, t) && t.outbox == s.outbox
    ensures OutboxOk(c, t)
  {
    forall m | m in t.outbox ensures OutMsgOk(c, t, m) {
      assert OutMsgOk(c, s, m);
      if m.ViewChange? {
        forall v | v in t.votes ensures VoteReported(m.vc, v) {}
      }
    }
  }

  /** An update that signs, executes and sends nothing. */
  lemma Grow(c: Config, s: State, t: State)
    requires Inv(c, s) && Evolves(s, t) && CertsOk(t.certs)
    requires t.exec == s.exec && t.votes == s.votes && t.commitVotes == s.commitVotes && t.outbox == s.outbox
    ensures Kept(c, s, t)
  {
    ExecOkGrows(s.certs, t.certs, s.exec);
    OutboxGrows(c, s, t);
  }

  lemma Same(c: Config, s: State)
    requires Inv(c, s)
    ensures Kept(c, s, s)
  {}

  /** The fields no invariant speaks of. */
  lemma Unwatched(c: Config, s: State, batches: map<MsgId, RequestBatch>, ballots: Ballots, leader: Leader,
                  panicked: bool)
    requires Inv(c, s) && (s.panicked ==> panicked)
    ensures Kept(c, s, s.(batches := batches, ballots := ballots, leader := leader, panicked := panicked))
  {
    Grow(c, s, s.(batches := batches, ballots := ballots, leader := leader, panicked := panicked));
  }

  lemma Put(c: Config, s: State, id: MsgId, cert: Cert)
    requires Inv(c, s) && CertOk(id, cert) && CertGrows(CertOf(s, id), cert)
    ensures Kept(c, s, PutCert(s, id, cert))
  {
    Grow(c, s, PutCert(s, id, cert));
  }

  lemma TouchKeeps(c: Config, s: State, id: MsgId)
    requires Inv(c, s)
    ensures Kept(c, s, Touch(s, id))
  {
    StoredOk(c, s, id);
    Put(c, s, id, CertOf(s, id));
  }

  lemma SendKeeps(c: Config, s: State, m: Msg)
    requires Inv(c, s) && OutMsgOk(c, s, m)
    requires forall a | a in s.outbox :: InOrder(a, m)
    ensures Kept(c, s, Send(s, m))
  {
    var t := Send(s, m);
    forall a | a in t.outbox ensures OutMsgOk(c, t, a) {
      assert OutMsgOk(c, s, a);
    }
  }
}
