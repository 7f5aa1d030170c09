/** Every handler of a correct replica keeps its state sound, given that the message it handles is. */
module SoundHandlers {
  import opened Types
  import opened ReplicaState
  import opened Assignment
  import opened Handlers
  import opened Quorum
  import opened Cluster
  import opened Invariants
  import opened Preservation
  import opened Soundness

  // ---------------------------------------------------------------- View change and execution

  lemma OwnViewChangeCarries(u: Setup, g: map<nat, State>, c: Config, s: State)
    requires Good(u, g, c, s)
    ensures QsetLegit(u, g[c.id := s], ViewChangeOf(c, s).qset)
  {
    hide Legit, CalPset, CalCset, Inv;
    var l := g[c.id := s];
    CalQsetSpec(s.certs, s.marks.h, c.scanIds(s.views.view + 1, s.certs.Keys));
    assert CertsSound(u, l, s.views.view, s.certs);
  }

  lemma SendViewChangeSound(u: Setup, g: map<nat, State>, c: Config, s: State)
    requires Good(u, g, c, s)
    ensures Good(u, g, c, SendViewChange(c, s))
  {
    hide Member, Settings.Scans, Inv, Evolves, ViewChangeOf, CertsSound, BallotsSound, MarksSound, OutboxSound,
         Full, Legit;
    var v := s.views.view + 1;
    var t := s.(views := s.views.(view := v, active := false, sent := s.views.sent + {v}));
    var m := ViewChange(ViewChangeOf(c, s));
    SendViewChangeKeeps(c, s);
    OwnViewChangeCarries(u, g, c, s);
    ViewsKeep(c, s, t.views);
    ViewsUpdate(u, g, c, s, t.views);
    SentMeanwhile(c, s, t, m);
    Carry(u, g, c, s, t);
    CarriesGrows(u, g[c.id := s], g[c.id := t], m);
    assert m.Sender() == c.id by { assert ViewChangeOf(c, s).sender == c.id by { OwnSender(c, s); } }
    SendSound(u, g, c, t, m);
  }

  lemma OwnSender(c: Config, s: State)
    ensures ViewChangeOf(c, s).sender == c.id
  {}

  /** If the whole step from s keeps the invariant, so does sending from the state in between. */
  lemma SentMeanwhile(c: Config, s: State, t: State, m: Msg)
    requires Kept(c, s, Send(t, m))
    ensures Kept(c, t, Send(t, m))
  {
    hide Member, Settings.Scans, Inv;
    assert CertsGrow(t.certs, t.certs);
  }

  lemma ExecuteNextSound(u: Setup, g: map<nat, State>, c: Config, s: State)
    requires Good(u, g, c, s) && Executable(s.exec)
    ensures Good(u, g, c, ExecuteNext(c, s))
  {
    hide Member, Settings.Scans, Inv, Sound, Kept, SendViewChange, TakeCheckpoint;
    var sn := s.exec.last + 1;
    var s0 := Touch(s, s.exec.ids[sn]);
    TouchSound(u, g, c, s, s.exec.ids[sn]);
    RunNext(c, s0);
    RunNextFull(u, g, c, s0);
    var s1 := s0.(exec := LogNext(s.exec));
    Aside(u, g, c, s0, s1);
    var s2 := if sn % c.T == 0 then TakeCheckpoint(c, s1, sn) else s1;
    if sn % c.T == 0 { TakeCheckpointSound(u, g, c, s1, sn); }
    SendViewChangeSound(u, g, c, s2);
  }

  lemma RunNextFull(u: Setup, g: map<nat, State>, c: Config, s: State)
    requires Good(u, g, c, s) && Executable(s.exec)
    ensures WellPrimed(g[c.id := s], s) ==> ExecFull(LogNext(s.exec))
  {
    hide Member, Settings.Scans, Inv, CertsSound, BallotsSound, ViewsSound, MarksSound, OutboxSound, WellPrimed;
  }

  lemma BufferFull(u: Setup, g: map<nat, State>, c: Config, s: State, id: MsgId)
    requires Good(u, g, c, s)
    ensures WellPrimed(g[c.id := s], s) ==> ExecFull(Buffer(s, id).exec)
  {
    hide Member, Settings.Scans, Inv;
    StoredOk(c, s, id);
    StoredSound(u, g, c, s, id);
  }

  lemma TakeCheckpointSound(u: Setup, g: map<nat, State>, c: Config, s: State, sn: u32)
    requires Good(u, g, c, s) && sn <= s.exec.last && sn % c.T == 0
    ensures Good(u, g, c, TakeCheckpoint(c, s, sn))
  {
    hide Member, Settings.Scans, Inv, Sound, Evolves;
    var marks := s.marks.(chkpts := s.marks.chkpts[sn := ""]);
    var t := s.(marks := marks);
    MarksKeep(c, s, marks);
    Aside(u, g, c, s, t);
    TakeCheckpointKeeps(c, s, sn);
    var m := Checkpoint(CheckpointMsg(sn, "", c.id));
    SentMeanwhile(c, s, t, m);
    SendSound(u, g, c, t, m);
  }

  lemma {:induction false} ExecuteAllSound(u: Setup, g: map<nat, State>, c: Config, s: State)
    requires Good(u, g, c, s)
    ensures Good(u, g, c, ExecuteAll(c, s))
    decreases MOD - s.exec.last
  {
    hide Good, ExecuteNext;
    if Executable(s.exec) {
      ExecuteNextSound(u, g, c, s);
      ExecuteAllSound(u, g, c, ExecuteNext(c, s));
    }
  }

  lemma ExecuteRequestSound(u: Setup, g: map<nat, State>, c: Config, s: State, id: MsgId)
    requires Good(u, g, c, s) && Certified(CertOf(s, id))
    ensures Good(u, g, c, ExecuteRequest(c, s, id))
  {
    hide Member, Settings.Scans, Inv, Sound, Kept, ExecuteAll;
    var t := Touch(s, id);
    TouchSound(u, g, c, s, id);
    BufferKeeps(c, s, id);
    BufferedMeanwhile(c, s, id);
    BufferFull(u, g, c, t, id);
    assert Buffer(t, id) == Buffer(s, id);
    Aside(u, g, c, t, Buffer(s, id));
    ExecuteAllSound(u, g, c, Buffer(s, id));
  }

  lemma BufferedMeanwhile(c: Config, s: State, id: MsgId)
    requires Kept(c, s, Buffer(s, id))
    ensures Kept(c, Touch(s, id), Buffer(s, id))
  {
    hide Member, Settings.Scans, Inv;
  }

  lemma CheckIfCommittedSound(u: Setup, g: map<nat, State>, c: Config, s: State, id: MsgId)
    requires Good(u, g, c, s)
    ensures Good(u, g, c, CheckIfCommitted(c, s, id))
  {
    hide Member, Settings.Scans, Inv, Sound, Kept, ExecuteRequest;
    var cert := CertOf(s, id);
    TouchSound(u, g, c, s, id);
    StoredOk(c, s, id);
    if cert.stage == Prepared && CommitVerifies(cert) {
      Put(c, s, id, cert.(stage := Committed));
      RestageSound(u, g, c, s, id, cert.(stage := Committed));
      ExecuteRequestSound(u, g, c, PutCert(s, id, cert.(stage := Committed)), id);
    }
  }

  lemma CheckIfPreparedSound(u: Setup, g: map<nat, State>, c: Config, s: State, id: MsgId)
    requires Good(u, g, c, s)
    ensures Good(u, g, c, CheckIfPrepared(c, s, id))
  {
    hide Member, Settings.Scans, Inv, Sound, Kept, ExecuteRequest, CheckIfCommitted;
    var cert := CertOf(s, id);
    TouchSound(u, g, c, s, id);
    StoredOk(c, s, id);
    if cert.stage == Received && cert.fastQc.Some? {
      Put(c, s, id, cert.(stage := Committed));
      RestageSound(u, g, c, s, id, cert.(stage := Committed));
      ExecuteRequestSound(u, g, c, PutCert(s, id, cert.(stage := Committed)), id);
    } else if cert.stage == Received && cert.prepareQc.Some? {
      Put(c, s, id, cert.(stage := Prepared));
      RestageSound(u, g, c, s, id, cert.(stage := Prepared));
      CheckIfCommittedSound(u, g, c, PutCert(s, id, cert.(stage := Prepared)), id);
    }
  }

  // ---------------------------------------------------------------- Prepare votes

  /** A certificate assembled from enough genuine shares is legitimate. */
  lemma RecoverLegit(u: Setup, g: map<nat, State>, c: Config, shares: Shares, key: KeyKind, p: Payload, quorum: nat)
    requires Member(u, c) && SharesExist(u, g, shares) && Recoverable(shares, key, p, quorum)
    ensures Legit(u, g, Recover(c, key, p, quorum))
  {
    var signers := GenuineSigners(shares, key, p);
    forall i | i in signers ensures i in Backers(u, g, p) {
      var j :| j in shares && shares[j].key == key && shares[j].payload == p && shares[j].signer == i;
      assert ShareExists(u, g, shares[j]);
    }
    SubsetSize(signers, Backers(u, g, p));
  }

  lemma SharesOfExist<A>(u: Setup, g: map<nat, State>, table: map<(MsgId, A), Shares>, k: (MsgId, A))
    requires forall x | x in table :: SharesExist(u, g, table[x])
    ensures SharesExist(u, g, SharesOf(table, k))
  {}

  lemma IssueSound(u: Setup, g: map<nat, State>, c: Config, s: State, id: MsgId, m: Msg)
    requires Good(u, g, c, s) && !CertOf(s, id).qcSent
    requires IsPrepareCert(m) && CertifiedId(m) == id && m.Sender() == c.id
    ensures var t := PutCert(s, id, CertOf(s, id).(qcSent := true)); Good(u, g, c, t.(panicked := true))
    ensures Carries(u, g[c.id := s], m) ==> Good(u, g, c, Send(PutCert(s, id, CertOf(s, id).(qcSent := true)), m))
  {
    hide Member, Settings.Scans, Inv, Sound, Evolves, Carries;
    var cert := CertOf(s, id).(qcSent := true);
    var t := PutCert(s, id, cert);
    IssueKeeps(c, s, id, m);
    StoredOk(c, s, id);
    Put(c, s, id, cert);
    RestageSound(u, g, c, s, id, cert);
    Unwatched(c, t, t.batches, t.ballots, t.leader, true);
    Aside(u, g, c, t, t.(panicked := true));
    if Carries(u, g[c.id := s], m) {
      Carry(u, g, c, s, t);
      CarriesGrows(u, g[c.id := s], g[c.id := t], m);
      SentMeanwhile(c, s, t, m);
      SendSound(u, g, c, t, m);
    }
  }

  lemma CheckIfPrepareQcSound(u: Setup, g: map<nat, State>, c: Config, s: State, id: MsgId, k: Digest)
    requires Good(u, g, c, s)
    ensures Good(u, g, c, CheckIfPrepareQc(c, s, id, k))
  {
    hide Member, Settings.Scans, Inv, CertsSound, ViewsSound, MarksSound, OutboxSound, Full, SharesExist, Recover,
         Recoverable, Legit;
    TouchSound(u, g, c, s, id);
    if !CertOf(s, id).qcSent {
      var p := ForPrepare(PrepareVote(id.sn, id.view, k));
      var quorum := 2 * c.F() + 1;
      var shares := SharesOf(s.ballots.prepare, (id, k));
      SharesOfExist(u, g[c.id := s], s.ballots.prepare, (id, k));
      if Recoverable(shares, TsKey, p, quorum) { RecoverLegit(u, g[c.id := s], c, shares, TsKey, p, quorum); }
      IssueSound(u, g, c, s, id, SlowQc(PrepareQc(id.sn, k, id.view, c.id, Recover(c, TsKey, p, quorum), s.clock)));
    }
  }

  lemma IssueFastQcSound(u: Setup, g: map<nat, State>, c: Config, s: State, id: MsgId, k: Digest)
    requires Good(u, g, c, s) && !CertOf(s, id).qcSent
    ensures Good(u, g, c, IssueFastQc(c, s, id, k))
  {
    hide Member, Settings.Scans, Inv, CertsSound, ViewsSound, MarksSound, OutboxSound, Full, SharesExist, Recover,
         Recoverable, Legit;
    var p := ForPrepare(PrepareVote(id.sn, id.view, k));
    var shares := SharesOf(s.ballots.fast, (id, k));
    SharesOfExist(u, g[c.id := s], s.ballots.fast, (id, k));
    if Recoverable(shares, FastKey, p, c.fastQuorum) {
      RecoverLegit(u, g[c.id := s], c, shares, FastKey, p, c.fastQuorum);
    }
    IssueSound(u, g, c, s, id, FastQc(FastPrepareQc(id.sn, k, id.view, c.id, Recover(c, FastKey, p, c.fastQuorum))));
  }

  lemma BallotsWithVote(u: Setup, g: map<nat, State>, b: Ballots, x: (MsgId, Digest), j: nat, sig: PartialSig,
                        fast: PartialSig)
    requires BallotsSound(u, g, b) && ShareExists(u, g, sig) && ShareExists(u, g, fast)
    ensures BallotsSound(u, g, b.(prepare := b.prepare[x := SharesOf(b.prepare, x)[j := sig]],
                                  fast := b.fast[x := SharesOf(b.fast, x)[j := fast]]))
  {
    hide ShareExists;
    SharesOfExist(u, g, b.prepare, x);
    SharesOfExist(u, g, b.fast, x);
  }

  lemma RecordVoteSound(u: Setup, g: map<nat, State>, c: Config, s: State, id: MsgId, k: Digest, pm: PrepareMsg)
    requires Good(u, g, c, s) && Carries(u, g[c.id := s], Prepare(pm))
    ensures Good(u, g, c, RecordVote(s, id, k, pm))
  {
    hide Member, Settings.Scans, Inv, Evolves, CertsSound, BallotsSound, ViewsSound, MarksSound, OutboxSound, Full,
         ShareExists;
    var t := Touch(s, id);
    TouchKeeps(c, s, id);
    TouchSound(u, g, c, s, id);
    Carry(u, g, c, s, t);
    CarriesGrows(u, g[c.id := s], g[c.id := t], Prepare(pm));
    var b := RecordVote(s, id, k, pm).ballots;
    BallotsWithVote(u, g[c.id := t], t.ballots, (id, k), pm.sender, pm.sig, pm.fastSig);
    Unwatched(c, t, t.batches, b, t.leader, t.panicked);
    BallotsUpdate(u, g, c, t, b);
  }

  lemma HandlePrepareVoteSound(u: Setup, g: map<nat, State>, c: Config, s: State, pm: PrepareMsg)
    requires Good(u, g, c, s) && Carries(u, g[c.id := s], Prepare(pm))
    ensures Good(u, g, c, HandlePrepareVote(c, s, pm))
  {
    hide Member, Settings.Scans, Inv, Sound, Kept, RecordVote, CheckIfPrepareQc, IssueFastQc;
    var id := MsgId(pm.vote.sn, pm.vote.view);
    var k := pm.vote.digest.Key();
    var t := RecordVote(s, id, k, pm);
    RecordVoteSound(u, g, c, s, id, k, pm);
    Unwatched(c, t, t.batches, t.ballots, t.leader, true);
    Aside(u, g, c, t, t.(panicked := true));
    CheckIfPrepareQcSound(u, g, c, t, id, k);
    if !CertOf(t, id).qcSent { IssueFastQcSound(u, g, c, t, id, k); }
  }

  lemma HandlePrepareSound(u: Setup, g: map<nat, State>, c: Config, s: State, pm: PrepareMsg)
    requires Good(u, g, c, s) && Carries(u, g[c.id := s], Prepare(pm))
    ensures Good(u, g, c, HandlePrepare(c, s, pm))
  {
    hide Member, Settings.Scans, Inv, Sound, Evolves, Carries, HandlePrepareVote;
    var id := MsgId(pm.vote.sn, s.views.view);
    var cert := CertOf(s, id);
    TouchSound(u, g, c, s, id);
    StoredOk(c, s, id);
    var t := PutCert(s, id, cert.(prepares := cert.prepares[pm.sender := pm]));
    Put(c, s, id, cert.(prepares := cert.prepares[pm.sender := pm]));
    RestageSound(u, g, c, s, id, cert.(prepares := cert.prepares[pm.sender := pm]));
    Carry(u, g, c, s, t);
    CarriesGrows(u, g[c.id := s], g[c.id := t], Prepare(pm));
    HandlePrepareVoteSound(u, g, c, t, pm);
  }

  // ---------------------------------------------------------------- Pre-prepares

  /** In the first view, the primary called for the vote. */
  ghost predicate VoteFull(l: map<nat, State>, s: State, vote: PrepareVote) {
    s.views.view == 0 ==> CalledFor(l, vote)
  }

  lemma SignVoteSound(u: Setup, g: map<nat, State>, c: Config, s: State, sn: u32)
    requires Good(u, g, c, s) && VoteFull(g[c.id := s], s, OwnVote(s, sn))
    ensures Good(u, g, c, SignVote(s, OwnVote(s, sn)))
  {
    hide Member, Settings.Scans, Inv, CertsSound, BallotsSound, ViewsSound, MarksSound, OutboxSound, Evolves;
    var vote := OwnVote(s, sn);
    var s0 := Touch(s, MsgId(sn, s.views.view));
    var t := SignVote(s, vote);
    TouchSound(u, g, c, s, MsgId(sn, s.views.view));
    SignVoteKeeps(c, s, sn);
    assert Evolves(s0, t) by { SignedMeanwhile(c, s, sn); }
    Carry(u, g, c, s0, t);
    assert t.outbox == s.outbox;
    assert Full(g[c.id := s], s);
  }

  lemma SignedMeanwhile(c: Config, s: State, sn: u32)
    ensures Evolves(Touch(s, MsgId(sn, s.views.view)), SignVote(s, OwnVote(s, sn)))
  {}

  lemma CastVoteSound(u: Setup, g: map<nat, State>, c: Config, s: State, sn: u32)
    requires Good(u, g, c, s) && VoteFull(g[c.id := s], s, OwnVote(s, sn))
    ensures Good(u, g, c, CastVote(c, s, sn))
  {
    hide Member, Settings.Scans, Inv, Sound, Evolves, HandlePrepare;
    var vote := OwnVote(s, sn);
    var t := SignVote(s, vote);
    var m := Prepare(PrepareFor(c, vote));
    SignVoteKeeps(c, s, sn);
    SignVoteSound(u, g, c, s, sn);
    MemberId(u, c);
    assert Carries(u, g[c.id := t], m);
    HandlePrepareSound(u, g, c, t, PrepareFor(c, vote));
    if !IsPrimary(c, s) {
      CastVoteKeeps(c, s, sn);
      SentMeanwhile(c, s, t, m);
      SendSound(u, g, c, t, m);
    }
  }

  lemma StorePrePrepareSound(u: Setup, g: map<nat, State>, c: Config, s: State, id: MsgId, pp: PrePrepareMsg)
    requires Good(u, g, c, s) && id == MsgId(pp.sn, pp.view)
    requires CertOf(s, id).digest.Empty() || CertOf(s, id).digest == pp.digest
    requires s.views.view == 0 ==> pp.sender == 0 && MsgSound(u, g[c.id := s], PrePrepare(pp))
    ensures Good(u, g, c, StorePrePrepare(s, id, pp))
  {
    hide Member, Settings.Scans, Inv, Sound, Evolves, MsgSound, Legit;
    var cert := CertOf(s, id).(stage := Received, digest := pp.digest, prePrepare := Some(pp));
    StoredOk(c, s, id);
    StoredSound(u, g, c, s, id);
    var t := PutCert(s, id, cert);
    Put(c, s, id, cert);
    PutSound(u, g, c, s, id, cert);
    Unwatched(c, t, t.batches[id := pp.batch], t.ballots, t.leader, t.panicked);
    Aside(u, g, c, t, StorePrePrepare(s, id, pp));
  }

  lemma VoteFullAfter(u: Setup, g: map<nat, State>, c: Config, s: State, pp: PrePrepareMsg, t: State)
    requires Good(u, g, c, s) && Evolves(StorePrePrepare(s, MsgId(pp.sn, pp.view), pp), t)
    requires s.views.view == 0 ==> pp.sender == 0 && MsgSound(u, g[c.id := s], PrePrepare(pp))
    ensures VoteFull(g[c.id := t], t, OwnVote(t, pp.sn))
  {
    hide Member, Settings.Scans, Inv, Sound, Carries;
    var id := MsgId(pp.sn, pp.view);
    var s1 := StorePrePrepare(s, id, pp);
    assert s1.certs[id].digest == pp.digest;
    assert s.outbox == s1.outbox <= t.outbox;
    assert forall m :: m in s.outbox ==> m in t.outbox;
    if t.views.view == 0 && 0 in g[c.id := t] {
      assert pp.view == 0 && !pp.digest.Empty() ==> t.certs[id].digest == pp.digest;
      assert PrePrepare(pp) in g[c.id := t][0].outbox && Calls(pp, OwnVote(t, pp.sn));
    }
  }

  lemma HandlePrePrepareSound(u: Setup, g: map<nat, State>, c: Config, s: State, pp: PrePrepareMsg)
    requires Good(u, g, c, s)
    requires s.views.view == 0 ==> MsgSound(u, g[c.id := s], PrePrepare(pp))
    ensures Good(u, g, c, HandlePrePrepare(c, s, pp))
  {
    hide Member, Settings.Scans, Inv, Sound, Evolves, VoteFull, SendViewChange, CheckIfPrepared, CastVote,
         StorePrePrepare;
    var id := MsgId(pp.sn, pp.view);
    TouchSound(u, g, c, s, id);
    SendViewChangeSound(u, g, c, s);
    SendViewChangeSound(u, g, c, Touch(s, id));
    if (CertOf(s, id).digest.Empty() || CertOf(s, id).digest == pp.digest) && pp.sender == c.Primary(s.views.view) {
      StorePrePrepareSound(u, g, c, s, id, pp);
      var s1 := StorePrePrepare(s, id, pp);
      var s2 := CheckIfPrepared(c, s1, id);
      CheckIfPreparedKeeps(c, s1, id);
      CheckIfPreparedSound(u, g, c, s1, id);
      VoteFullAfter(u, g, c, s, pp, s2);
      CastVoteSound(u, g, c, s2, pp.sn);
    }
  }

  // ---------------------------------------------------------------- Certificates

  lemma SendCommitSound(u: Setup, g: map<nat, State>, c: Config, s: State, q: PrepareQc)
    requires Good(u, g, c, s) && CommitBacked(s.certs, q)
    ensures Good(u, g, c, SendCommit(c, s, q))
  {
    hide Member, Settings.Scans, Inv, CertsSound, BallotsSound, ViewsSound, MarksSound, OutboxSound, Full;
    var t := s.(commitVotes := s.commitVotes + {q});
    SendCommitKeeps(c, s, q);
    assert Kept(c, s, t) by { SigningCommitKeeps(c, s, q); }
    Carry(u, g, c, s, t);
    assert Good(u, g, c, t);
    var m := Commit(CommitMsg(q, c.id, PartialSig(TsKey, ForCommit(q), c.id)));
    SentMeanwhile(c, s, t, m);
    MemberId(u, c);
    SendSound(u, g, c, t, m);
  }

  lemma SigningCommitKeeps(c: Config, s: State, q: PrepareQc)
    requires Inv(c, s) && CommitBacked(s.certs, q)
    ensures Kept(c, s, s.(commitVotes := s.commitVotes + {q}))
  {
    OutboxGrows(c, s, s.(commitVotes := s.commitVotes + {q}));
  }

  lemma HandleSlowQcSound(u: Setup, g: map<nat, State>, c: Config, s: State, q: PrepareQc)
    requires Good(u, g, c, s) && Legit(u, g[c.id := s], q.sig)
    ensures Good(u, g, c, HandleSlowQc(c, s, q))
  {
    hide Member, Settings.Scans, Inv, Sound, Evolves, Legit, MsgSound, SendViewChange, CheckIfPrepared, SendCommit;
    var id := MsgId(q.sn, q.view);
    var cert := CertOf(s, id);
    TouchSound(u, g, c, s, id);
    SendViewChangeSound(u, g, c, s);
    if cert.prepareQc.None? && Verify(TsKey, ForPrepare(SlowVote(q)), q.sig) {
      var s1 := PutCert(s, id, cert.(prepareQc := Some(q)));
      StoredOk(c, s, id);
      StoredSound(u, g, c, s, id);
      Put(c, s, id, cert.(prepareQc := Some(q)));
      PutSound(u, g, c, s, id, cert.(prepareQc := Some(q)));
      var s2 := CheckIfPrepared(c, s1, id);
      CheckIfPreparedKeeps(c, s1, id);
      CheckIfPreparedSound(u, g, c, s1, id);
      QcStays(s1, s2, id);
      SendCommitSound(u, g, c, s2, q);
    }
  }

  lemma HandleFastQcSound(u: Setup, g: map<nat, State>, c: Config, s: State, q: FastPrepareQc)
    requires Good(u, g, c, s) && Legit(u, g[c.id := s], q.sig)
    ensures Good(u, g, c, HandleFastQc(c, s, q))
  {
    hide Member, Settings.Scans, Inv, Sound, Evolves, Legit, MsgSound, CheckIfPrepared;
    var id := MsgId(q.sn, q.view);
    var cert := CertOf(s, id);
    TouchSound(u, g, c, s, id);
    if cert.fastQc.None? && Verify(FastKey, ForPrepare(FastVote(q)), q.sig) {
      StoredOk(c, s, id);
      StoredSound(u, g, c, s, id);
      Put(c, s, id, cert.(fastQc := Some(q)));
      PutSound(u, g, c, s, id, cert.(fastQc := Some(q)));
      CheckIfPreparedSound(u, g, c, PutCert(s, id, cert.(fastQc := Some(q))), id);
    }
  }

  lemma IssueFinalQcSound(u: Setup, g: map<nat, State>, c: Config, s: State, id: MsgId, q: PrepareQc)
    requires Good(u, g, c, s) && !CertOf(s, id).commitQcSent
    ensures Good(u, g, c, IssueFinalQc(c, s, id, q))
  {
    hide Member, Settings.Scans, Inv, CertsSound, ViewsSound, MarksSound, OutboxSound, Full, SharesExist, Recover,
         Recoverable, Legit, Evolves;
    Unwatched(c, s, s.batches, s.ballots, s.leader, true);
    Aside(u, g, c, s, s.(panicked := true));
    var quorum := 2 * c.F() + 1;
    var shares := SharesOf(s.ballots.commit, (id, q));
    if Recoverable(shares, TsKey, ForCommit(q), quorum) {
      var cert := CertOf(s, id).(commitQcSent := true);
      var t := PutCert(s, id, cert);
      var m := FinalQc(CommitQc(id.sn, q.digest, id.view, c.id, Recover(c, TsKey, ForCommit(q), quorum)));
      SharesOfExist(u, g[c.id := s], s.ballots.commit, (id, q));
      RecoverLegit(u, g[c.id := s], c, shares, TsKey, ForCommit(q), quorum);
      IssueFinalQcKeeps(c, s, id, q);
      StoredOk(c, s, id);
      Put(c, s, id, cert);
      RestageSound(u, g, c, s, id, cert);
      Carry(u, g, c, s, t);
      CarriesGrows(u, g[c.id := s], g[c.id := t], m);
      SentMeanwhile(c, s, t, m);
      SendSound(u, g, c, t, m);
    }
  }

  lemma BallotsWithCommit(u: Setup, g: map<nat, State>, b: Ballots, x: (MsgId, PrepareQc), j: nat, sig: PartialSig)
    requires BallotsSound(u, g, b) && ShareExists(u, g, sig)
    ensures BallotsSound(u, g, b.(commit := b.commit[x := SharesOf(b.commit, x)[j := sig]]))
  {
    hide ShareExists;
    SharesOfExist(u, g, b.commit, x);
  }

  lemma RecordCommitSound(u: Setup, g: map<nat, State>, c: Config, s: State, id: MsgId, cm: CommitMsg)
    requires Good(u, g, c, s) && Carries(u, g[c.id := s], Commit(cm))
    ensures Good(u, g, c, RecordCommit(s, id, cm))
  {
    hide Member, Settings.Scans, Inv, Evolves, CertsSound, BallotsSound, ViewsSound, MarksSound, OutboxSound, Full,
         ShareExists;
    var t := Touch(s, id);
    TouchKeeps(c, s, id);
    TouchSound(u, g, c, s, id);
    Carry(u, g, c, s, t);
    CarriesGrows(u, g[c.id := s], g[c.id := t], Commit(cm));
    var b := RecordCommit(s, id, cm).ballots;
    BallotsWithCommit(u, g[c.id := t], t.ballots, (id, cm.vote), cm.sender, cm.sig);
    Unwatched(c, t, t.batches, b, t.leader, t.panicked);
    BallotsUpdate(u, g, c, t, b);
  }

  lemma HandleCommitVoteSound(u: Setup, g: map<nat, State>, c: Config, s: State, cm: CommitMsg)
    requires Good(u, g, c, s) && Carries(u, g[c.id := s], Commit(cm))
    ensures Good(u, g, c, HandleCommitVote(c, s, cm))
  {
    hide Member, Settings.Scans, Inv, Sound, RecordCommit, IssueFinalQc;
    var id := MsgId(cm.vote.sn, cm.vote.view);
    var t := RecordCommit(s, id, cm);
    RecordCommitSound(u, g, c, s, id, cm);
    if !CertOf(t, id).commitQcSent { IssueFinalQcSound(u, g, c, t, id, cm.vote); }
  }

  lemma HandleCommitSound(u: Setup, g: map<nat, State>, c: Config, s: State, cm: CommitMsg)
    requires Good(u, g, c, s) && Carries(u, g[c.id := s], Commit(cm))
    ensures Good(u, g, c, HandleCommit(c, s, cm))
  {
    hide Member, Settings.Scans, Inv, Sound, Evolves, Carries, HandleCommitVote;
    var id := MsgId(cm.vote.sn, cm.vote.view);
    var cert := CertOf(s, id);
    TouchSound(u, g, c, s, id);
    StoredOk(c, s, id);
    var t := PutCert(s, id, cert.(commits := cert.commits[cm.sender := cm]));
    Put(c, s, id, cert.(commits := cert.commits[cm.sender := cm]));
    RestageSound(u, g, c, s, id, cert.(commits := cert.commits[cm.sender := cm]));
    Carry(u, g, c, s, t);
    CarriesGrows(u, g[c.id := s], g[c.id := t], Commit(cm));
    HandleCommitVoteSound(u, g, c, t, cm);
  }

  lemma HandleFinalQcSound(u: Setup, g: map<nat, State>, c: Config, s: State, q: CommitQc)
    requires Good(u, g, c, s) && Legit(u, g[c.id := s], q.sig)
    ensures Good(u, g, c, HandleFinalQc(c, s, q))
  {
    hide Member, Settings.Scans, Inv, Sound, Evolves, Legit, MsgSound, SendViewChange, CheckIfCommitted;
    var id := MsgId(q.sn, q.view);
    var cert := CertOf(s, id);
    TouchSound(u, g, c, s, id);
    SendViewChangeSound(u, g, c, s);
    if cert.commitQc.None? {
      StoredOk(c, s, id);
      StoredSound(u, g, c, s, id);
      Put(c, s, id, cert.(commitQc := Some(q)));
      PutSound(u, g, c, s, id, cert.(commitQc := Some(q)));
      CheckIfCommittedSound(u, g, c, PutCert(s, id, cert.(commitQc := Some(q))), id);
    }
  }

  // ---------------------------------------------------------------- Checkpoints, proposals, timers

  lemma MarksSoundAfter(u: Setup, g: map<nat, State>, c: Config, m: Watermarks, ck: CheckpointMsg)
    requires MarksSound(u, g, c, m) && MsgSound(u, g, Checkpoint(ck))
    ensures var cks := CheckpointsAt(m, ck.sn) + {ck};
            var m1 := m.(store := m.store[ck.sn := cks]);
            MarksSound(u, g, c, m1)
                && (|Matching(cks, ck.digest)| >= 2 * c.n / 3 + 1 ==> MarksSound(u, g, c, m1.(h := ck.sn)))
  {
    hide MsgSound, Stable;
    var cks := CheckpointsAt(m, ck.sn) + {ck};
    var m1 := m.(store := m.store[ck.sn := cks]);
    StableStays(c, m, ck);
    if |Matching(cks, ck.digest)| >= 2 * c.n / 3 + 1 { StableNow(c, m1.(h := ck.sn), ck.digest); }
  }

  lemma StableNow(c: Config, m: Watermarks, d: string)
    requires |Matching(CheckpointsAt(m, m.h), d)| >= 2 * c.n / 3 + 1
    ensures Stable(c, m)
  {}

  lemma StableStays(c: Config, m: Watermarks, ck: CheckpointMsg)
    requires Stable(c, m)
    ensures Stable(c, m.(store := m.store[ck.sn := CheckpointsAt(m, ck.sn) + {ck}]))
  {
    var m1 := m.(store := m.store[ck.sn := CheckpointsAt(m, ck.sn) + {ck}]);
    if 0 < m.h {
      var d :| |Matching(CheckpointsAt(m, m.h), d)| >= 2 * c.n / 3 + 1;
      SubsetSize(Matching(CheckpointsAt(m, m.h), d), Matching(CheckpointsAt(m1, m.h), d));
    }
  }

  lemma MarksUpdate(u: Setup, g: map<nat, State>, c: Config, s: State, m: Watermarks)
    requires Good(u, g, c, s) && Kept(c, s, s.(marks := m)) && MarksSound(u, g[c.id := s], c, m)
    ensures Good(u, g, c, s.(marks := m))
  {
    hide CertsSound, BallotsSound, ViewsSound, MarksSound, OutboxSound, Full, Inv, Evolves, LedgerGrows;
    var t := s.(marks := m);
    Carry(u, g, c, s, t);
    MarksGrow(u, g[c.id := s], g[c.id := t], c, m);
  }

  lemma HandleCheckpointSound(u: Setup, g: map<nat, State>, c: Config, s: State, ck: CheckpointMsg)
    requires Good(u, g, c, s) && MsgSound(u, g[c.id := s], Checkpoint(ck))
    ensures Good(u, g, c, HandleCheckpoint(c, s, ck))
  {
    hide Member, Settings.Scans, Inv, CertsSound, BallotsSound, ViewsSound, MarksSound, OutboxSound, Full, Evolves,
         MsgSound, StateDigests, Matching;
    var cks := CheckpointsAt(s.marks, ck.sn) + {ck};
    var m := s.marks.(store := s.marks.store[ck.sn := cks]);
    MarksSoundAfter(u, g[c.id := s], c, s.marks, ck);
    MarksKeep(c, s, m);
    MarksKeep(c, s, m.(h := ck.sn));
    MarksUpdate(u, g, c, s, m);
    if |Matching(cks, ck.digest)| >= 2 * c.n / 3 + 1 { MarksUpdate(u, g, c, s, m.(h := ck.sn)); }
  }

  lemma ProposeSound(u: Setup, g: map<nat, State>, c: Config, s: State, batch: RequestBatch)
    requires Good(u, g, c, s)
    ensures Good(u, g, c, Propose(c, s, batch))
  {
    hide Member, Settings.Scans, Inv, Sound, Evolves;
    var sn := s.leader.nextSN;
    var t := StartTimer(s.(leader := s.leader.(nextSN := Add(sn, 1))), MsgId(sn, s.views.view), Hash(batch));
    var m := PrePrepare(PrePrepareMsg(sn, Hash(batch), batch, s.views.view, c.id));
    Unwatched(c, s, s.batches, s.ballots, t.leader, s.panicked);
    Aside(u, g, c, s, t);
    if Propose(c, s, batch) == Send(t, m) {
      ProposeKeeps(c, s, batch);
      SentMeanwhile(c, s, t, m);
      SendSound(u, g, c, t, m);
    }
  }

  lemma FireTimerSound(u: Setup, g: map<nat, State>, c: Config, s: State, id: MsgId, k: Digest)
    requires Good(u, g, c, s)
    ensures Good(u, g, c, FireTimer(c, s, id, k))
  {
    hide Member, Settings.Scans, Inv, Sound, Kept, CheckIfPrepareQc;
    var t := s.(leader := s.leader.(timers := s.leader.timers[id := true],
                                    armed := s.leader.armed - {(id, k)},
                                    fired := s.leader.fired[id := k]));
    Unwatched(c, s, s.batches, s.ballots, t.leader, s.panicked);
    Aside(u, g, c, s, t);
    CheckIfPrepareQcSound(u, g, c, t, id, k);
  }

  // ---------------------------------------------------------------- View changes

  lemma AcceptEntrySound(u: Setup, g: map<nat, State>, c: Config, s: State, nv: NewViewMsg, sn: u32)
    requires Good(u, g, c, s) && sn in nv.oset && 0 < s.views.view
    ensures Good(u, g, c, AcceptEntry(c, s, nv, sn))
  {
    hide Member, Settings.Scans, Inv, Sound, Kept, HandlePrePrepare, MsgSound;
    var pp := PrePrepareMsg(sn, Hash(nv.oset[sn]), nv.oset[sn], s.views.view, nv.sender);
    var t := StartTimer(s, MsgId(sn, s.views.view), pp.digest);
    Unwatched(c, s, s.batches, s.ballots, t.leader, s.panicked);
    Aside(u, g, c, s, t);
    HandlePrePrepareSound(u, g, c, t, pp);
    HandlePrePrepareSound(u, g, c, s, pp);
  }

  lemma {:induction false} AcceptAllSound(u: Setup, g: map<nat, State>, c: Config, s: State, nv: NewViewMsg,
                                          keys: seq<u32>)
    requires Good(u, g, c, s) && 0 < s.views.view && forall k | k in keys :: k in nv.oset
    ensures Good(u, g, c, AcceptAll(c, s, nv, keys))
    decreases |keys|
  {
    hide Member, Settings.Scans, Inv, Sound, AcceptEntry;
    if keys != [] {
      var rest := keys[..|keys| - 1];
      var t := AcceptAll(c, s, nv, rest);
      AcceptAllSound(u, g, c, s, nv, rest);
      AcceptAllKeeps(c, s, nv, rest);
      AcceptEntrySound(u, g, c, t, nv, keys[|keys| - 1]);
    }
  }

  lemma EnterViewSound(u: Setup, g: map<nat, State>, c: Config, s: State)
    requires Good(u, g, c, s)
    ensures Good(u, g, c, EnterView(c, s))
  {
    hide Member, Settings.Scans, Inv, Evolves, CertsSound, BallotsSound, MarksSound, OutboxSound, Full, MsgSound;
    var t := s.(views := s.views.(active := true));
    ViewsKeep(c, s, t.views);
    ViewsUpdate(u, g, c, s, t.views);
    var e := EnterView(c, s);
    Unwatched(c, t, t.batches, t.ballots, e.leader, t.panicked);
    Aside(u, g, c, t, e);
  }

  lemma ProcessNewViewSound(u: Setup, g: map<nat, State>, c: Config, s: State)
    requires Good(u, g, c, s)
    ensures Good(u, g, c, ProcessNewView(c, s))
  {
    hide Member, Settings.Scans, Inv, Evolves, CertsSound, BallotsSound, MarksSound, OutboxSound, Full, MsgSound,
         AcceptAll, Sorted;
    EnterViewSound(u, g, c, s);
    if s.views.view in s.views.newViews {
      var nv := s.views.newViews[s.views.view];
      SortedMembers(nv.oset.Keys);
      AcceptAllSound(u, g, c, EnterView(c, s), nv, Sorted(nv.oset.Keys));
    }
  }

  ghost predicate StoreKeyed(store: map<Vcidx, ViewChangeMsg>) {
    forall i | i in store :: i == Vcidx(store[i].view, store[i].sender)
  }

  /** getViewChangeMsgs lists stored messages of the given view, each sender once. */
  lemma {:induction false} CollectedFromStore(store: map<Vcidx, ViewChangeMsg>, view: nat, order: seq<Vcidx>)
    requires StoreKeyed(store)
    ensures forall vc | vc in GetViewChangeMsgs(store, view, order) ::
              var i := Vcidx(view, vc.sender); vc.view == view && i in order && i in store && store[i] == vc
  {
    if order != [] {
      CollectedFromStore(store, view, order[..|order| - 1]);
      assert order == order[..|order| - 1] + [order[|order| - 1]];
    }
  }

  lemma {:induction false} CollectedOnce(store: map<Vcidx, ViewChangeMsg>, view: nat, order: seq<Vcidx>)
    requires StoreKeyed(store) && forall i, j :: 0 <= i < j < |order| ==> order[i] != order[j]
    ensures DistinctSenders(GetViewChangeMsgs(store, view, order))
  {
    if order != [] {
      var rest := order[..|order| - 1];
      var x := order[|order| - 1];
      var r := GetViewChangeMsgs(store, view, rest);
      CollectedOnce(store, view, rest);
      CollectedFromStore(store, view, rest);
      assert x !in rest;
      var full := GetViewChangeMsgs(store, view, order);
      forall i, j | 0 <= i < j < |full| ensures full[i].sender != full[j].sender {
        assert full[i] == r[i] && r[i] in r;
        if j == |r| { assert Vcidx(view, r[i].sender) in rest; }
      }
    }
  }

  function ListedFor(store: map<Vcidx, ViewChangeMsg>, view: nat, order: seq<Vcidx>): set<Vcidx> {
    set i | i in order && i in store && i.view == view
  }

  lemma ListedNext(store: map<Vcidx, ViewChangeMsg>, view: nat, rest: seq<Vcidx>, x: Vcidx)
    requires x !in rest
    ensures |ListedFor(store, view, rest + [x])|
            == |ListedFor(store, view, rest)| + (if x in store && x.view == view then 1 else 0)
  {
    var a := ListedFor(store, view, rest);
    assert ListedFor(store, view, rest + [x]) == if x in store && x.view == view then a + {x} else a;
  }

  lemma {:induction false} CollectedAll(store: map<Vcidx, ViewChangeMsg>, view: nat, order: seq<Vcidx>)
    requires StoreKeyed(store) && forall i, j :: 0 <= i < j < |order| ==> order[i] != order[j]
    ensures |GetViewChangeMsgs(store, view, order)| == |ListedFor(store, view, order)|
  {
    hide ListedFor;
    if order != [] {
      var rest := order[..|order| - 1];
      var x := order[|order| - 1];
      CollectedAll(store, view, rest);
      assert order == rest + [x] && x !in rest;
      ListedNext(store, view, rest, x);
    } else {
      ListedNone(store, view);
    }
  }

  lemma ListedNone(store: map<Vcidx, ViewChangeMsg>, view: nat)
    ensures ListedFor(store, view, []) == {}
  {}

  lemma VsetSound(u: Setup, g: map<nat, State>, c: Config, v: Views)
    requires Member(u, c) && ViewsSound(u, g, c, v) && |ForView(v, v.view)| >= c.viewChangeQuorum
    ensures var vset := Vset(c, v);
            && |vset| >= c.viewChangeQuorum
            && DistinctSenders(vset)
            && (forall vc | vc in vset ::
                vc.view == v.view && MsgSound(u, g, ViewChange(vc)) && CorrectViewChange(c, vc))
  {
    hide MsgSound, CorrectViewChange, GetViewChangeMsgs;
    var order := c.scanViewChanges(v.view, v.store.Keys);
    assert Enumerates(order, v.store.Keys);
    CollectedFromStore(v.store, v.view, order);
    CollectedOnce(v.store, v.view, order);
    CollectedAll(v.store, v.view, order);
    assert ForView(v, v.view) == ListedFor(v.store, v.view, order);
  }

  lemma PublishNewViewSound(u: Setup, g: map<nat, State>, c: Config, s: State, nv: NewViewMsg)
    requires Good(u, g, c, s) && Kept(c, s, PublishNewView(c, s, nv)) && nv.sender == c.id
    requires 0 < nv.view && nv.view !in s.views.newViewsSent && NewViewSound(u, g[c.id := s], c, nv)
    ensures Good(u, g, c, PublishNewView(c, s, nv))
  {
    hide Member, Settings.Scans, Inv, Evolves, CertsSound, BallotsSound, MarksSound, OutboxSound, Full, Assign,
         MaxCheckpoint, CorrectViewChange, Legit;
    var v1 := s.views.(newViews := s.views.newViews[nv.view := nv]);
    ViewsKeep(c, s, v1);
    var v2 := v1.(newViewsSent := s.views.newViewsSent + {nv.view});
    var t := s.(views := v2);
    assert Kept(c, s, t) by { PublishingKeeps(c, s, nv); }
    ViewsUpdate(u, g, c, s, v2);
    SentMeanwhile(c, s, t, NewView(nv));
    Carry(u, g, c, s, t);
    NewViewGrows(u, g[c.id := s], g[c.id := t], c, nv);
    SendSound(u, g, c, t, NewView(nv));
  }

  lemma PublishingKeeps(c: Config, s: State, nv: NewViewMsg)
    requires Inv(c, s) && nv.view !in s.views.newViewsSent
    ensures Kept(c, s, s.(views := s.views.(newViews := s.views.newViews[nv.view := nv],
                                            newViewsSent := s.views.newViewsSent + {nv.view})))
  {
    Grow(c, s, s.(views := s.views.(newViews := s.views.newViews[nv.view := nv],
                                    newViewsSent := s.views.newViewsSent + {nv.view})));
  }

  lemma SendNewViewSound(u: Setup, g: map<nat, State>, c: Config, s: State)
    requires Good(u, g, c, s) && !s.views.active && |ForView(s.views, s.views.view)| >= c.viewChangeQuorum
    ensures Good(u, g, c, SendNewView(c, s))
  {
    hide Member, Settings.Scans, Inv, Evolves, CertsSound, BallotsSound, MarksSound, OutboxSound, Full, MsgSound,
         ProcessNewView, PublishNewView,
         Vset, Assign, MaxCheckpoint, ForView, CorrectViewChange;
    Unwatched(c, s, s.batches, s.ballots, s.leader, true);
    Aside(u, g, c, s, s.(panicked := true));
    var vset := Vset(c, s.views);
    VsetSound(u, g[c.id := s], c, s.views);
    var r := Assign(c, vset, MaxCheckpoint(vset));
    if s.views.view !in s.views.newViewsSent && r.ok && !Diverges(c, MaxCheckpoint(vset)) {
      var nv := NewViewMsg(s.views.view, vset, r.oset, c.id);
      PublishNewViewKeeps(c, s, nv);
      PublishNewViewSound(u, g, c, s, nv);
      ProcessNewViewSound(u, g, c, PublishNewView(c, s, nv));
    }
  }

  lemma MinAhead(v: Views)
    ensures Ahead(v) != {} ==> MinView(Ahead(v)) > v.view
  {}

  lemma CatchUpSound(u: Setup, g: map<nat, State>, c: Config, s: State)
    requires Good(u, g, c, s)
    ensures Good(u, g, c, CatchUp(c, s))
  {
    hide Member, Settings.Scans, Inv, Evolves, CertsSound, BallotsSound, MarksSound, OutboxSound, Full, MsgSound,
         SendViewChange, MinView, Ahead,
         Senders, CorrectViewChange;
    NobodyAhead(s.views);
    MinAhead(s.views);
    if |Senders(Ahead(s.views))| >= c.F() + 1 {
      var t := s.(views := s.views.(view := MinView(Ahead(s.views)) - 1));
      ViewsKeep(c, s, t.views);
      ViewsUpdate(u, g, c, s, t.views);
      SendViewChangeSound(u, g, c, t);
    }
  }

  lemma HandleViewChangeSound(u: Setup, g: map<nat, State>, c: Config, s: State, vc: ViewChangeMsg)
    requires Good(u, g, c, s) && MsgSound(u, g[c.id := s], ViewChange(vc))
    ensures Good(u, g, c, HandleViewChange(c, s, vc))
  {
    hide Member, Settings.Scans, Inv, Evolves, CertsSound, BallotsSound, MarksSound, OutboxSound, Full, MsgSound,
         CatchUp, SendNewView, CorrectViewChange;
    var idx := Vcidx(vc.view, vc.sender);
    if CorrectViewChange(c, vc) && idx !in s.views.store {
      var t := s.(views := s.views.(store := s.views.store[idx := vc]));
      ViewsKeep(c, s, t.views);
      ViewsUpdate(u, g, c, s, t.views);
      CatchUpSound(u, g, c, t);
      var t1 := CatchUp(c, t);
      if !t1.views.active && |ForView(t1.views, t1.views.view)| >= c.viewChangeQuorum { SendNewViewSound(u, g, c, t1); }
    }
  }

  lemma HandleNewViewSound(u: Setup, g: map<nat, State>, c: Config, s: State, nv: NewViewMsg)
    requires Good(u, g, c, s)
    ensures Good(u, g, c, HandleNewView(c, s, nv))
  {
    hide Member, Settings.Scans, Inv, Evolves, CertsSound, BallotsSound, MarksSound, OutboxSound, Full, MsgSound,
         ProcessNewView;
    var t := s.(views := s.views.(newViews := s.views.newViews[nv.view := nv]));
    ViewsKeep(c, s, t.views);
    if 0 < nv.view {
      ViewsUpdate(u, g, c, s, t.views);
      ProcessNewViewSound(u, g, c, t);
    }
  }

  // ---------------------------------------------------------------- One step

  lemma DispatchSound(u: Setup, g: map<nat, State>, c: Config, s: State, m: Msg)
    requires Good(u, g, c, s) && MsgSound(u, g[c.id := s], m)
    ensures Good(u, g, c, Dispatch(c, s, m))
  {
    hide Good, Legit, HandlePrePrepare, HandlePrepare, HandleCommit, HandleSlowQc, HandleFastQc, HandleFinalQc,
         HandleCheckpoint, HandleViewChange, HandleNewView;
    match m
    case PrePrepare(pp) => HandlePrePrepareSound(u, g, c, s, pp);
    case Prepare(pm) => HandlePrepareSound(u, g, c, s, pm);
    case Commit(cm) => HandleCommitSound(u, g, c, s, cm);
    case SlowQc(q) => HandleSlowQcSound(u, g, c, s, q);
    case FastQc(q) => HandleFastQcSound(u, g, c, s, q);
    case FinalQc(q) => HandleFinalQcSound(u, g, c, s, q);
    case Checkpoint(ck) => HandleCheckpointSound(u, g, c, s, ck);
    case ViewChange(vc) => HandleViewChangeSound(u, g, c, s, vc);
    case NewView(nv) => HandleNewViewSound(u, g, c, s, nv);
  }

  lemma StepSound(u: Setup, g: map<nat, State>, c: Config, s: State, now: int, e: Event)
    requires Good(u, g, c, s) && (e.Deliver? ==> MsgSound(u, g[c.id := s], e.m))
    ensures Good(u, g, c, Step(c, s, now, e))
  {
    hide Member, Settings.Scans, Inv, Sound, Evolves, MsgSound, Dispatch, Propose, FireTimer, SendViewChange,
         LedgerGrows;
    var t := s.(clock := now);
    TickKeeps(c, s, now);
    Aside(u, g, c, s, t);
    match e
    case Deliver(m) =>
      Carry(u, g, c, s, t);
      MsgGrows(u, g[c.id := s], g[c.id := t], m);
      DispatchSound(u, g, c, t, m);
    case Batch(b) => ProposeSound(u, g, c, t, b);
    case FastTimeout(id, k) => FireTimerSound(u, g, c, t, id, k);
    case ViewTimeout => SendViewChangeSound(u, g, c, t);
  }
}
