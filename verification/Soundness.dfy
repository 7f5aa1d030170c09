/** What a replica has stored and sent rests on signatures that exist: every handler keeps this,
    given that the message it handles does. */
module Soundness {
  import opened Types
  import opened ReplicaState
  import opened Assignment
  import opened Handlers
  import opened Quorum
  import opened Cluster
  import opened Invariants

  // ---------------------------------------------------------------- The predicate

  ghost predicate QcsLegit(u: Setup, g: map<nat, State>, cert: Cert) {
    && (cert.prepareQc.Some? ==> Legit(u, g, cert.prepareQc.value.sig))
    && (cert.fastQc.Some? ==> Legit(u, g, cert.fastQc.value.sig))
    && (cert.commitQc.Some? ==> Legit(u, g, cert.commitQc.value.sig))
  }

  /** In the first view, stored pre-prepares come from its primary. */
  ghost predicate FromFirstPrimary(u: Setup, g: map<nat, State>, view: nat, cert: Cert) {
    view == 0 && cert.prePrepare.Some? ==>
      cert.prePrepare.value.sender == 0 && MsgSound(u, g, PrePrepare(cert.prePrepare.value))
  }

  ghost predicate CertsSound(u: Setup, g: map<nat, State>, view: nat, certs: map<MsgId, Cert>) {
    forall id | id in certs :: QcsLegit(u, g, certs[id]) && FromFirstPrimary(u, g, view, certs[id])
  }

  ghost predicate SharesExist(u: Setup, g: map<nat, State>, shares: Shares) {
    forall j | j in shares :: ShareExists(u, g, shares[j])
  }

  ghost predicate BallotsSound(u: Setup, g: map<nat, State>, b: Ballots) {
    && (forall k | k in b.prepare :: SharesExist(u, g, b.prepare[k]))
    && (forall k | k in b.fast :: SharesExist(u, g, b.fast[k]))
    && (forall k | k in b.commit :: SharesExist(u, g, b.commit[k]))
  }

  ghost predicate ViewsSound(u: Setup, g: map<nat, State>, c: Config, v: Views) {
    && (forall i | i in v.store ::
          && i == Vcidx(v.store[i].view, v.store[i].sender)
          && MsgSound(u, g, ViewChange(v.store[i])) && CorrectViewChange(c, v.store[i]))
    && (forall k | k in v.newViews :: 0 < k)
    && (!v.active ==> 0 < v.view)
  }

  /** The low watermark is 0 or has a quorum of matching checkpoints behind it. */
  ghost predicate Stable(c: Config, m: Watermarks) {
    0 < m.h ==> exists d :: |Matching(CheckpointsAt(m, m.h), d)| >= 2 * c.n / 3 + 1
  }

  ghost predicate MarksSound(u: Setup, g: map<nat, State>, c: Config, m: Watermarks) {
    && (forall sn, ck | sn in m.store && ck in m.store[sn] :: ck.sn == sn && MsgSound(u, g, Checkpoint(ck)))
    && Stable(c, m)
  }

  ghost predicate DistinctSenders(vset: seq<ViewChangeMsg>) {
    forall i, j :: 0 <= i < j < |vset| ==> vset[i].sender != vset[j].sender
  }

  /** What a correct new primary published is what it computed from a quorum it had received. */
  ghost predicate NewViewSound(u: Setup, g: map<nat, State>, c: Config, nv: NewViewMsg) {
    && |nv.vset| >= c.viewChangeQuorum
    && DistinctSenders(nv.vset)
    && (forall vc | vc in nv.vset ::
          vc.view == nv.view && MsgSound(u, g, ViewChange(vc)) && CorrectViewChange(c, vc))
    && !Diverges(c, MaxCheckpoint(nv.vset))
    && Assign(c, nv.vset, MaxCheckpoint(nv.vset)) == Result(nv.oset, true)
  }

  ghost predicate OutboxSound(u: Setup, g: map<nat, State>, c: Config, outbox: seq<Msg>) {
    && (forall m | m in outbox :: MsgSound(u, g, m))
    && (forall m | m in outbox && m.NewView? :: NewViewSound(u, g, c, m.nv))
  }

  /** In the first view, under a correct primary. */
  ghost predicate WellPrimed(g: map<nat, State>, s: State) {
    && s.views.view == 0 && 0 in g
    && (forall m | m in g[0].outbox && m.PrePrepare? :: !m.pp.digest.Empty())
  }

  /** The pre-prepare is for the number voted on - and, if it is for the first view and has a digest, for
      the digest. */
  predicate Calls(pp: PrePrepareMsg, v: PrepareVote) {
    pp.sn == v.sn && (pp.view == 0 && !pp.digest.Empty() ==> pp.digest == v.digest)
  }

  /** The first primary called for the vote. */
  ghost predicate CalledFor(g: map<nat, State>, v: PrepareVote) {
    0 in g ==> exists pp :: PrePrepare(pp) in g[0].outbox && Calls(pp, v)
  }

  ghost predicate ExecFull(e: Execution) {
    && (forall sn | sn in e.digests :: e.digests[sn].Empty() ==> e.digests[sn] == Nil)
    && (forall k | 0 <= k < |e.log| :: !e.log[k].digest.Empty())
  }

  /** In the first view a replica votes only when called, and executes no empty digest. */
  ghost predicate Full(g: map<nat, State>, s: State) {
    && (s.views.view == 0 ==> forall v | v in s.votes :: CalledFor(g, v))
    && (WellPrimed(g, s) ==> ExecFull(s.exec))
  }

  /** Soundness of replica c.id in state s, the others being as in g. */
  ghost predicate Sound(u: Setup, g: map<nat, State>, c: Config, s: State) {
    var l := g[c.id := s];
    && CertsSound(u, l, s.views.view, s.certs)
    && BallotsSound(u, l, s.ballots)
    && ViewsSound(u, l, c, s.views)
    && MarksSound(u, l, c, s.marks)
    && OutboxSound(u, l, c, s.outbox)
    && Full(l, s)
  }

  ghost predicate Member(u: Setup, c: Config) {
    u.Valid() && c.id in u.replicas && c == u.replicas[c.id]
  }

  lemma MemberId(u: Setup, c: Config)
    requires Member(u, c)
    ensures c.id in u.replicas && c.id in Below(u.n) && c.n == u.n && c.fastQuorum == u.fastQuorum && c.T == u.T
            && c.Scans()
  {}

  // ---------------------------------------------------------------- The ledger only grows

  ghost predicate LedgerGrows(g: map<nat, State>, l: map<nat, State>) {
    g.Keys == l.Keys && forall i | i in g ::
      g[i].votes <= l[i].votes && g[i].commitVotes <= l[i].commitVotes && g[i].outbox <= l[i].outbox
  }

  lemma LegitGrows(u: Setup, g: map<nat, State>, l: map<nat, State>, sig: ThresholdSig)
    requires LedgerGrows(g, l) && Legit(u, g, sig)
    ensures Legit(u, l, sig)
  {
    if sig.Genuine? { SubsetSize(Backers(u, g, sig.payload), Backers(u, l, sig.payload)); }
  }

  lemma CarriesGrows(u: Setup, g: map<nat, State>, l: map<nat, State>, m: Msg)
    requires LedgerGrows(g, l) && Carries(u, g, m)
    ensures Carries(u, l, m)
  {
    hide Legit;
    forall sig | Legit(u, g, sig) ensures Legit(u, l, sig) { LegitGrows(u, g, l, sig); }
  }

  lemma MsgGrows(u: Setup, g: map<nat, State>, l: map<nat, State>, m: Msg)
    requires LedgerGrows(g, l) && MsgSound(u, g, m)
    ensures MsgSound(u, l, m)
  {
    hide Carries;
    CarriesGrows(u, g, l, m);
  }

  lemma CertsGrowSound(u: Setup, g: map<nat, State>, l: map<nat, State>, v: nat, w: nat, certs: map<MsgId, Cert>)
    requires LedgerGrows(g, l) && CertsSound(u, g, v, certs) && v <= w
    ensures CertsSound(u, l, w, certs)
  {
    hide Legit, MsgSound;
    forall sig | Legit(u, g, sig) ensures Legit(u, l, sig) { LegitGrows(u, g, l, sig); }
    forall m | MsgSound(u, g, m) ensures MsgSound(u, l, m) { MsgGrows(u, g, l, m); }
  }

  lemma BallotsGrow(u: Setup, g: map<nat, State>, l: map<nat, State>, b: Ballots)
    requires LedgerGrows(g, l) && BallotsSound(u, g, b)
    ensures BallotsSound(u, l, b)
  {}

  lemma ViewsGrow(u: Setup, g: map<nat, State>, l: map<nat, State>, c: Config, v: Views)
    requires LedgerGrows(g, l) && ViewsSound(u, g, c, v)
    ensures ViewsSound(u, l, c, v)
  {
    hide MsgSound, CorrectViewChange;
    forall m | MsgSound(u, g, m) ensures MsgSound(u, l, m) { MsgGrows(u, g, l, m); }
  }

  lemma MarksGrow(u: Setup, g: map<nat, State>, l: map<nat, State>, c: Config, m: Watermarks)
    requires LedgerGrows(g, l) && MarksSound(u, g, c, m)
    ensures MarksSound(u, l, c, m)
  {
    hide MsgSound, Stable;
    forall x | MsgSound(u, g, x) ensures MsgSound(u, l, x) { MsgGrows(u, g, l, x); }
  }

  lemma OutboxGrowsSound(u: Setup, g: map<nat, State>, l: map<nat, State>, c: Config, outbox: seq<Msg>)
    requires LedgerGrows(g, l) && OutboxSound(u, g, c, outbox)
    ensures OutboxSound(u, l, c, outbox)
  {
    hide MsgSound, CorrectViewChange;
    forall x | MsgSound(u, g, x) ensures MsgSound(u, l, x) { MsgGrows(u, g, l, x); }
  }

  // ---------------------------------------------------------------- Kinds of update

  /** The setting of every lemma below: replica c.id, in order and sound in state s. */
  ghost predicate Good(u: Setup, g: map<nat, State>, c: Config, s: State) {
    Member(u, c) && c.Scans() && c.id in g && Inv(c, s) && Sound(u, g, c, s)
  }

  /** Everything stored stays sound when the replica itself moves on from s to t. */
  lemma Carry(u: Setup, g: map<nat, State>, c: Config, s: State, t: State)
    requires Good(u, g, c, s) && Evolves(s, t)
    ensures var l := g[c.id := t];
            && LedgerGrows(g[c.id := s], l)
            && CertsSound(u, l, t.views.view, s.certs) && BallotsSound(u, l, s.ballots) && ViewsSound(u, l, c, s.views)
            && MarksSound(u, l, c, s.marks) && OutboxSound(u, l, c, s.outbox)
            && (t.votes == s.votes && t.exec == s.exec ==> Full(l, t))
            && (WellPrimed(l, t) ==> WellPrimed(g[c.id := s], s))
  {
    hide Member, Settings.Scans, CertsSound, BallotsSound, ViewsSound, MarksSound, OutboxSound, Inv;
    var k := g[c.id := s];
    var l := g[c.id := t];
    assert s.outbox <= t.outbox && s.views.view <= t.views.view;
    assert forall m :: m in s.outbox ==> m in t.outbox;
    assert LedgerGrows(k, l);
    CertsGrowSound(u, k, l, s.views.view, t.views.view, s.certs);
    BallotsGrow(u, k, l, s.ballots);
    ViewsGrow(u, k, l, c, s.views);
    MarksGrow(u, k, l, c, s.marks);
    OutboxGrowsSound(u, k, l, c, s.outbox);
  }

  /** An update of the fields no soundness condition speaks of. */
  lemma Aside(u: Setup, g: map<nat, State>, c: Config, s: State, t: State)
    requires Good(u, g, c, s) && Kept(c, s, t)
    requires t.certs == s.certs && t.ballots == s.ballots && t.views == s.views
    requires t.marks.h == s.marks.h && t.marks.store == s.marks.store && t.outbox == s.outbox && t.votes == s.votes
    requires t.exec == s.exec || (WellPrimed(g[c.id := s], s) ==> ExecFull(t.exec))
    ensures Good(u, g, c, t)
  {
    hide Member, Settings.Scans, CertsSound, BallotsSound, ViewsSound, OutboxSound, WellPrimed, ExecFull,
         LedgerGrows, Inv, Evolves, MsgSound;
    Carry(u, g, c, s, t);
    assert CheckpointsAt(t.marks, t.marks.h) == CheckpointsAt(s.marks, s.marks.h);
    assert Stable(c, s.marks);
  }

  lemma PutSound(u: Setup, g: map<nat, State>, c: Config, s: State, id: MsgId, cert: Cert)
    requires Good(u, g, c, s) && Kept(c, s, PutCert(s, id, cert))
    requires QcsLegit(u, g[c.id := s], cert) && FromFirstPrimary(u, g[c.id := s], s.views.view, cert)
    ensures Good(u, g, c, PutCert(s, id, cert))
  {
    hide Member, Settings.Scans, BallotsSound, ViewsSound, MarksSound, OutboxSound, Full, LedgerGrows, Inv,
         Evolves, Legit, MsgSound;
    var t := PutCert(s, id, cert);
    Carry(u, g, c, s, t);
    CertsGrowSound(u, g[c.id := s], g[c.id := t], s.views.view, s.views.view, map[id := cert]);
    assert map[id := cert][id] == cert;
    assert QcsLegit(u, g[c.id := t], cert);
  }

  /** What is stored for id, or a fresh certificate. */
  lemma StoredSound(u: Setup, g: map<nat, State>, c: Config, s: State, id: MsgId)
    requires Good(u, g, c, s)
    ensures QcsLegit(u, g[c.id := s], CertOf(s, id)) && FromFirstPrimary(u, g[c.id := s], s.views.view, CertOf(s, id))
  {}

  /** A change of stage or bookkeeping leaves the certificates of an entry alone. */
  lemma RestageSound(u: Setup, g: map<nat, State>, c: Config, s: State, id: MsgId, cert: Cert)
    requires Good(u, g, c, s) && Kept(c, s, PutCert(s, id, cert))
    requires cert.prepareQc == CertOf(s, id).prepareQc && cert.fastQc == CertOf(s, id).fastQc
    requires cert.commitQc == CertOf(s, id).commitQc && cert.prePrepare == CertOf(s, id).prePrepare
    ensures Good(u, g, c, PutCert(s, id, cert))
  {
    hide Member, Settings.Scans, Inv, Sound, Legit, MsgSound, Kept;
    StoredSound(u, g, c, s, id);
    PutSound(u, g, c, s, id, cert);
  }

  lemma TouchSound(u: Setup, g: map<nat, State>, c: Config, s: State, id: MsgId)
    requires Good(u, g, c, s)
    ensures Good(u, g, c, Touch(s, id))
  {
    hide Member, Settings.Scans, Inv, Sound, Kept;
    TouchKeeps(c, s, id);
    RestageSound(u, g, c, s, id, CertOf(s, id));
  }

  lemma SendSound(u: Setup, g: map<nat, State>, c: Config, s: State, m: Msg)
    requires Good(u, g, c, s) && Kept(c, s, Send(s, m))
    requires m.Sender() == c.id && Carries(u, g[c.id := s], m)
    requires m.NewView? ==> NewViewSound(u, g[c.id := s], c, m.nv)
    ensures Good(u, g, c, Send(s, m))
  {
    hide Member, Settings.Scans, CertsSound, BallotsSound, ViewsSound, MarksSound, Full, Inv, Evolves, Carries,
         NewViewSound, LedgerGrows;
    var t := Send(s, m);
    Carry(u, g, c, s, t);
    CarriesGrows(u, g[c.id := s], g[c.id := t], m);
    assert m in t.outbox;
    MemberId(u, c);
    if m.NewView? { NewViewGrows(u, g[c.id := s], g[c.id := t], c, m.nv); }
  }

  lemma NewViewGrows(u: Setup, g: map<nat, State>, l: map<nat, State>, c: Config, nv: NewViewMsg)
    requires LedgerGrows(g, l) && NewViewSound(u, g, c, nv)
    ensures NewViewSound(u, l, c, nv)
  {
    hide Member, Settings.Scans, MsgSound, CorrectViewChange, Assign, MaxCheckpoint;
    forall x | MsgSound(u, g, x) ensures MsgSound(u, l, x) { MsgGrows(u, g, l, x); }
  }

  lemma BallotsUpdate(u: Setup, g: map<nat, State>, c: Config, s: State, b: Ballots)
    requires Good(u, g, c, s) && Kept(c, s, s.(ballots := b)) && BallotsSound(u, g[c.id := s], b)
    ensures Good(u, g, c, s.(ballots := b))
  {
    hide Member, Settings.Scans, CertsSound, BallotsSound, ViewsSound, MarksSound, OutboxSound, Full, Inv, Evolves,
         LedgerGrows;
    var t := s.(ballots := b);
    Carry(u, g, c, s, t);
    BallotsGrow(u, g[c.id := s], g[c.id := t], b);
  }

  lemma ViewsUpdate(u: Setup, g: map<nat, State>, c: Config, s: State, v: Views)
    requires Good(u, g, c, s) && Kept(c, s, s.(views := v)) && ViewsSound(u, g[c.id := s], c, v)
    ensures Good(u, g, c, s.(views := v))
  {
    hide Member, Settings.Scans, CertsSound, BallotsSound, ViewsSound, MarksSound, OutboxSound, Full, Inv,
         LedgerGrows;
    var t := s.(views := v);
    assert s.views.view <= v.view;
    Carry(u, g, c, s, t);
    ViewsGrow(u, g[c.id := s], g[c.id := t], c, v);
  }
}
