/** Every handler keeps the invariant and only grows what the replica has stored, signed and sent. */
module Preservation {
  import opened Types
  import opened ReplicaState
  import opened Assignment
  import opened Handlers
  import opened Invariants

  // ---------------------------------------------------------------- View-change messages

  lemma {:induction false} CalPsetSpec(certs: map<MsgId, Cert>, h: u32, ids: seq<MsgId>)
    ensures forall sn | sn in CalPset(certs, h, ids) ::
              sn > h && exists id ::
                  id in certs && id in ids && id.sn == sn && certs[id].prePrepare == Some(CalPset(certs, h, ids)[sn])
    ensures forall id | id in ids && id in certs && id.sn > h
            && certs[id].prePrepare.Some? :: id.sn in CalPset(certs, h, ids)
  {
    if ids != [] {
      var rest := ids[..|ids| - 1];
      CalPsetSpec(certs, h, rest);
      assert ids == rest + [ids[|ids| - 1]];
    }
  }

  lemma {:induction false} CalQsetSpec(certs: map<MsgId, Cert>, h: u32, ids: seq<MsgId>)
    ensures forall sn | sn in CalQset(certs, h, ids) ::
              sn > h && exists id ::
                  id in certs && id in ids && id.sn == sn && certs[id].prepareQc == Some(CalQset(certs, h, ids)[sn])
    ensures forall id | id in ids && id in certs && id.sn > h
            && certs[id].prepareQc.Some? :: id.sn in CalQset(certs, h, ids)
  {
    if ids != [] {
      var rest := ids[..|ids| - 1];
      CalQsetSpec(certs, h, rest);
      assert ids == rest + [ids[|ids| - 1]];
    }
  }

  lemma SameCerts(certs: map<MsgId, Cert>)
    ensures CertsGrow(certs, certs)
  {}

  lemma PsetReports(certs: map<MsgId, Cert>, h: u32, ids: seq<MsgId>, v: PrepareVote)
    requires CertsOk(certs) && VoteBacked(certs, v) && !v.digest.Empty() && v.sn > h
    requires forall id | id in certs :: id in ids
    ensures var pset := CalPset(certs, h, ids);
            v.sn in pset && (pset[v.sn].view == v.view ==> pset[v.sn].digest == v.digest)
  {
    hide CalPset;
    CalPsetSpec(certs, h, ids);
    assert CertOk(MsgId(v.sn, v.view), certs[MsgId(v.sn, v.view)]);
  }

  lemma QsetReports(certs: map<MsgId, Cert>, h: u32, ids: seq<MsgId>, q: PrepareQc)
    requires CertsOk(certs) && CommitBacked(certs, q) && q.sn > h
    requires forall id | id in certs :: id in ids
    ensures var qset := CalQset(certs, h, ids); q.sn in qset && (qset[q.sn].view == q.view ==> qset[q.sn] == q)
  {
    hide CalQset;
    CalQsetSpec(certs, h, ids);
  }

  lemma ReportsVotes(c: Config, s: State, v: PrepareVote)
    requires Inv(c, s) && c.Scans() && v in s.votes
    ensures VoteReported(ViewChangeOf(c, s), v)
  {
    hide OutboxOk, ExecOk, CertsOk, VoteBacked, CalPset, CalQset, CalCset;
    var ids := c.scanIds(s.views.view + 1, s.certs.Keys);
    assert Enumerates(ids, s.certs.Keys);
    if !v.digest.Empty() && v.sn > s.marks.h { PsetReports(s.certs, s.marks.h, ids, v); }
  }

  lemma ReportsCommits(c: Config, s: State, q: PrepareQc)
    requires Inv(c, s) && c.Scans() && q in s.commitVotes
    ensures CommitReported(ViewChangeOf(c, s), q)
  {
    hide OutboxOk, ExecOk, CertsOk, CommitBacked, CalPset, CalQset, CalCset;
    var ids := c.scanIds(s.views.view + 1, s.certs.Keys);
    assert Enumerates(ids, s.certs.Keys);
    if q.sn > s.marks.h { QsetReports(s.certs, s.marks.h, ids, q); }
  }

  lemma SendViewChangeKeeps(c: Config, s: State)
    requires Inv(c, s) && c.Scans()
    ensures Kept(c, s, SendViewChange(c, s))
  {
    hide Settings.Scans, Inv, CommitReported, VoteReported, InOrder, Evolves, CalPset, CalQset, CalCset;
    var t := s.(views := s.views.(view := s.views.view + 1, active := false,
                                  sent := s.views.sent + {s.views.view + 1}));
    LeavingKeeps(c, s, t);
    var m := ViewChange(ViewChangeOf(c, s));
    forall w | w in t.votes ensures VoteReported(m.vc, w) { ReportsVotes(c, s, w); }
    forall a | a in t.outbox ensures InOrder(a, m) { LaterViewChange(c, s, a); }
    SendKeeps(c, t, m);
    Chain(c, s, t, Send(t, m));
  }

  lemma LeavingKeeps(c: Config, s: State, t: State)
    requires Inv(c, s) && t == s.(views := t.views) && t.views.view == s.views.view + 1
    requires t.views.store == s.views.store && t.views.newViewsSent == s.views.newViewsSent
    ensures Kept(c, s, t)
  {
    hide ExecOk, OutboxOk, CertOk;
    SameCerts(s.certs);
    Grow(c, s, t);
  }

  lemma LaterViewChange(c: Config, s: State, a: Msg)
    requires Inv(c, s) && c.Scans() && a in s.outbox
    ensures InOrder(a, ViewChange(ViewChangeOf(c, s)))
  {
    hide Settings.Scans, CertsOk, ExecOk, CalPset, CalQset, CalCset, CommitReported;
    assert OutMsgOk(c, s, a);
    if a.Commit? { ReportsCommits(c, s, a.cm.vote); }
  }

  // ---------------------------------------------------------------- Execution

  lemma LogNextOk(certs: map<MsgId, Cert>, e: Execution)
    requires ExecOk(certs, e) && Executable(e)
    ensures ExecOk(certs, LogNext(e))
  {
    var f := LogNext(e);
    forall k | 0 <= k < |f.log|
      ensures && f.log[k].sn == k + 1 && f.log[k].id.sn == k + 1 && f.log[k].digest != Nil
              && Justified(certs, f.log[k].id, f.log[k].digest)
    {
      if k < |e.log| { assert f.log[k] == e.log[k]; }
    }
  }

  lemma RunNext(c: Config, s: State)
    requires Inv(c, s) && Executable(s.exec)
    ensures Kept(c, s, s.(exec := LogNext(s.exec)))
  {
    LogNextOk(s.certs, s.exec);
    OutboxGrows(c, s, s.(exec := LogNext(s.exec)));
  }

  lemma TakeCheckpointKeeps(c: Config, s: State, sn: u32)
    requires Inv(c, s) && sn <= s.exec.last && sn % c.T == 0
    ensures Kept(c, s, TakeCheckpoint(c, s, sn))
  {
    var t := s.(marks := s.marks.(chkpts := s.marks.chkpts[sn := ""]));
    Grow(c, s, t);
    SendKeeps(c, t, Checkpoint(CheckpointMsg(sn, "", c.id)));
  }

  lemma ExecuteNextKeeps(c: Config, s: State)
    requires Inv(c, s) && c.Scans() && Executable(s.exec)
    ensures Kept(c, s, ExecuteNext(c, s))
  {
    hide Settings.Scans, Inv, Evolves, TakeCheckpoint, SendViewChange;
    var sn := s.exec.last + 1;
    var s0 := Touch(s, s.exec.ids[sn]);
    TouchKeeps(c, s, s.exec.ids[sn]);
    RunNext(c, s0);
    var s1 := s0.(exec := LogNext(s.exec));
    Chain(c, s, s0, s1);
    if sn % c.T == 0 {
      TakeCheckpointKeeps(c, s1, sn);
      Chain(c, s, s1, TakeCheckpoint(c, s1, sn));
    }
    var s2 := if sn % c.T == 0 then TakeCheckpoint(c, s1, sn) else s1;
    SendViewChangeKeeps(c, s2);
    Chain(c, s, s2, SendViewChange(c, s2));
  }

  lemma {:induction false} ExecuteAllKeeps(c: Config, s: State)
    requires Inv(c, s) && c.Scans()
    ensures Kept(c, s, ExecuteAll(c, s))
    decreases MOD - s.exec.last
  {
    hide Settings.Scans, Inv, Evolves, ExecuteNext;
    if Executable(s.exec) {
      var t := ExecuteNext(c, s);
      ExecuteNextKeeps(c, s);
      ExecuteAllKeeps(c, t);
      Chain(c, s, t, ExecuteAll(c, t));
    } else {
      Same(c, s);
    }
  }

  lemma BufferKeeps(c: Config, s: State, id: MsgId)
    requires Inv(c, s) && Certified(CertOf(s, id))
    ensures Kept(c, s, Buffer(s, id))
  {
    TouchKeeps(c, s, id);
    StoredOk(c, s, id);
    var t := Touch(s, id);
    var s1 := Buffer(s, id);
    assert CertOf(s, id).digest != Nil ==> Justified(t.certs, id, CertOf(s, id).digest);
    assert ExecOk(s1.certs, s1.exec) by {
      forall sn | sn in s1.exec.ids
        ensures s1.exec.ids[sn].sn == sn
                && (s1.exec.digests[sn] != Nil ==> Justified(s1.certs, s1.exec.ids[sn], s1.exec.digests[sn]))
      {
        if sn != id.sn { assert sn in t.exec.ids; }
      }
    }
    OutboxGrows(c, t, s1);
  }

  lemma ExecuteRequestKeeps(c: Config, s: State, id: MsgId)
    requires Inv(c, s) && c.Scans() && Certified(CertOf(s, id))
    ensures Kept(c, s, ExecuteRequest(c, s, id))
  {
    hide Settings.Scans, Inv, Evolves, Buffer, ExecuteAll;
    BufferKeeps(c, s, id);
    ExecuteAllKeeps(c, Buffer(s, id));
    Chain(c, s, Buffer(s, id), ExecuteAll(c, Buffer(s, id)));
  }

  lemma CheckIfCommittedKeeps(c: Config, s: State, id: MsgId)
    requires Inv(c, s) && c.Scans()
    ensures Kept(c, s, CheckIfCommitted(c, s, id))
  {
    hide Settings.Scans, Inv, Evolves, ExecuteRequest;
    var cert := CertOf(s, id);
    StoredOk(c, s, id);
    TouchKeeps(c, s, id);
    if cert.stage == Prepared && CommitVerifies(cert) {
      var t := PutCert(s, id, cert.(stage := Committed));
      Put(c, s, id, cert.(stage := Committed));
      ExecuteRequestKeeps(c, t, id);
      Chain(c, s, t, ExecuteRequest(c, t, id));
    }
  }

  lemma CheckIfPreparedKeeps(c: Config, s: State, id: MsgId)
    requires Inv(c, s) && c.Scans()
    ensures Kept(c, s, CheckIfPrepared(c, s, id))
  {
    hide Settings.Scans, Inv, Evolves, ExecuteRequest, CheckIfCommitted;
    var cert := CertOf(s, id);
    StoredOk(c, s, id);
    TouchKeeps(c, s, id);
    if cert.stage == Received && cert.fastQc.Some? {
      var t := PutCert(s, id, cert.(stage := Committed));
      Put(c, s, id, cert.(stage := Committed));
      ExecuteRequestKeeps(c, t, id);
      Chain(c, s, t, ExecuteRequest(c, t, id));
    } else if cert.stage == Received && cert.prepareQc.Some? {
      var t := PutCert(s, id, cert.(stage := Prepared));
      Put(c, s, id, cert.(stage := Prepared));
      CheckIfCommittedKeeps(c, t, id);
      Chain(c, s, t, CheckIfCommitted(c, t, id));
    }
  }

  // ---------------------------------------------------------------- Prepare votes

  /** A certificate goes out only when none went out before for its number and view. */
  lemma IssueKeeps(c: Config, s: State, id: MsgId, m: Msg)
    requires Inv(c, s) && !CertOf(s, id).qcSent
    requires IsPrepareCert(m) && CertifiedId(m) == id && m.Sender() == c.id
    ensures var t := PutCert(s, id, CertOf(s, id).(qcSent := true));
            Kept(c, s, t.(panicked := true)) && Kept(c, s, Send(t, m))
  {
    var t := PutCert(s, id, CertOf(s, id).(qcSent := true));
    StoredOk(c, s, id);
    Put(c, s, id, CertOf(s, id).(qcSent := true));
    forall a | a in t.outbox ensures InOrder(a, m) { assert OutMsgOk(c, s, a); }
    SendKeeps(c, t, m);
    Unwatched(c, t, t.batches, t.ballots, t.leader, true);
    Chain(c, s, t, t.(panicked := true));
    Chain(c, s, t, Send(t, m));
  }

  lemma CheckIfPrepareQcKeeps(c: Config, s: State, id: MsgId, k: Digest)
    requires Inv(c, s)
    ensures Kept(c, s, CheckIfPrepareQc(c, s, id, k))
  {
    hide Settings.Scans, Inv, Evolves, Recover, Recoverable;
    TouchKeeps(c, s, id);
    if !CertOf(s, id).qcSent {
      var sig := Recover(c, TsKey, ForPrepare(PrepareVote(id.sn, id.view, k)), 2 * c.F() + 1);
      IssueKeeps(c, s, id, SlowQc(PrepareQc(id.sn, k, id.view, c.id, sig, s.clock)));
    }
  }

  lemma IssueFastQcKeeps(c: Config, s: State, id: MsgId, k: Digest)
    requires Inv(c, s) && !CertOf(s, id).qcSent
    ensures Kept(c, s, IssueFastQc(c, s, id, k))
  {
    hide Settings.Scans, Inv, Evolves, Recover, Recoverable;
    var sig := Recover(c, FastKey, ForPrepare(PrepareVote(id.sn, id.view, k)), c.fastQuorum);
    IssueKeeps(c, s, id, FastQc(FastPrepareQc(id.sn, k, id.view, c.id, sig)));
  }

  lemma RecordVoteKeeps(c: Config, s: State, id: MsgId, k: Digest, pm: PrepareMsg)
    requires Inv(c, s)
    ensures Kept(c, s, RecordVote(s, id, k, pm))
  {
    hide Settings.Scans, Inv, Evolves;
    var t := Touch(s, id);
    TouchKeeps(c, s, id);
    Unwatched(c, t, t.batches, RecordVote(s, id, k, pm).ballots, t.leader, t.panicked);
    Chain(c, s, t, RecordVote(s, id, k, pm));
  }

  lemma HandlePrepareVoteKeeps(c: Config, s: State, pm: PrepareMsg)
    requires Inv(c, s)
    ensures Kept(c, s, HandlePrepareVote(c, s, pm))
  {
    hide Settings.Scans, Inv, Evolves, RecordVote, CheckIfPrepareQc, IssueFastQc;
    var id := MsgId(pm.vote.sn, pm.vote.view);
    var k := pm.vote.digest.Key();
    var t := RecordVote(s, id, k, pm);
    RecordVoteKeeps(c, s, id, k, pm);
    Unwatched(c, t, t.batches, t.ballots, t.leader, true);
    Chain(c, s, t, t.(panicked := true));
    CheckIfPrepareQcKeeps(c, t, id, k);
    Chain(c, s, t, CheckIfPrepareQc(c, t, id, k));
    if !CertOf(t, id).qcSent {
      IssueFastQcKeeps(c, t, id, k);
      Chain(c, s, t, IssueFastQc(c, t, id, k));
    }
  }

  lemma HandlePrepareKeeps(c: Config, s: State, pm: PrepareMsg)
    requires Inv(c, s)
    ensures Kept(c, s, HandlePrepare(c, s, pm))
  {
    hide Settings.Scans, Inv, Evolves, HandlePrepareVote;
    var id := MsgId(pm.vote.sn, s.views.view);
    var cert := CertOf(s, id);
    Same(c, s);
    StoredOk(c, s, id);
    TouchKeeps(c, s, id);
    var t := PutCert(s, id, cert.(prepares := cert.prepares[pm.sender := pm]));
    Put(c, s, id, cert.(prepares := cert.prepares[pm.sender := pm]));
    HandlePrepareVoteKeeps(c, t, pm);
    Chain(c, s, t, HandlePrepareVote(c, t, pm));
  }

  // ---------------------------------------------------------------- Pre-prepares

  lemma SignVoteKeeps(c: Config, s: State, sn: u32)
    requires Inv(c, s)
    ensures Kept(c, s, SignVote(s, OwnVote(s, sn)))
  {
    var vote := OwnVote(s, sn);
    var s0 := Touch(s, MsgId(sn, s.views.view));
    TouchKeeps(c, s, MsgId(sn, s.views.view));
    OutboxGrows(c, s0, SignVote(s, vote));
  }

  lemma CastVoteKeeps(c: Config, s: State, sn: u32)
    requires Inv(c, s)
    ensures Kept(c, s, CastVote(c, s, sn))
  {
    hide Evolves, HandlePrepare, CertsOk, ExecOk, OutboxOk;
    var vote := OwnVote(s, sn);
    var t := SignVote(s, vote);
    SignVoteKeeps(c, s, sn);
    HandlePrepareKeeps(c, t, PrepareFor(c, vote));
    Chain(c, s, t, HandlePrepare(c, t, PrepareFor(c, vote)));
    SendKeeps(c, t, Prepare(PrepareFor(c, vote)));
    Chain(c, s, t, Send(t, Prepare(PrepareFor(c, vote))));
  }

  lemma StorePrePrepareKeeps(c: Config, s: State, id: MsgId, pp: PrePrepareMsg)
    requires Inv(c, s) && id == MsgId(pp.sn, pp.view)
    requires CertOf(s, id).digest.Empty() || CertOf(s, id).digest == pp.digest
    ensures Kept(c, s, StorePrePrepare(s, id, pp))
  {
    hide Settings.Scans, Inv, Evolves;
    var cert := CertOf(s, id).(stage := Received, digest := pp.digest, prePrepare := Some(pp));
    StoredOk(c, s, id);
    var t := PutCert(s, id, cert);
    Put(c, s, id, cert);
    Unwatched(c, t, t.batches[id := pp.batch], t.ballots, t.leader, t.panicked);
    Chain(c, s, t, StorePrePrepare(s, id, pp));
  }

  lemma HandlePrePrepareKeeps(c: Config, s: State, pp: PrePrepareMsg)
    requires Inv(c, s) && c.Scans()
    ensures Kept(c, s, HandlePrePrepare(c, s, pp))
  {
    hide Settings.Scans, Inv, Evolves, SendViewChange, CheckIfPrepared, CastVote, StorePrePrepare;
    var id := MsgId(pp.sn, pp.view);
    Same(c, s);
    TouchKeeps(c, s, id);
    SendViewChangeKeeps(c, s);
    SendViewChangeKeeps(c, Touch(s, id));
    Chain(c, s, Touch(s, id), SendViewChange(c, Touch(s, id)));
    if CertOf(s, id).digest.Empty() || CertOf(s, id).digest == pp.digest {
      StorePrePrepareKeeps(c, s, id, pp);
      var s1 := StorePrePrepare(s, id, pp);
      CheckIfPreparedKeeps(c, s1, id);
      var s2 := CheckIfPrepared(c, s1, id);
      Chain(c, s, s1, s2);
      CastVoteKeeps(c, s2, pp.sn);
      Chain(c, s, s2, CastVote(c, s2, pp.sn));
    }
  }

  // ---------------------------------------------------------------- Certificates

  lemma SendCommitKeeps(c: Config, s: State, q: PrepareQc)
    requires Inv(c, s) && CommitBacked(s.certs, q)
    ensures Kept(c, s, SendCommit(c, s, q))
  {
    var t := s.(commitVotes := s.commitVotes + {q});
    OutboxGrows(c, s, t);
    SendKeeps(c, t, Commit(CommitMsg(q, c.id, PartialSig(TsKey, ForCommit(q), c.id))));
  }

  /** A stored prepare certificate stays stored. */
  lemma QcStays(s: State, t: State, id: MsgId)
    requires Evolves(s, t) && id in s.certs && s.certs[id].prepareQc.Some?
    ensures id in t.certs && t.certs[id].prepareQc == s.certs[id].prepareQc
  {}

  lemma HandleSlowQcKeeps(c: Config, s: State, q: PrepareQc)
    requires Inv(c, s) && c.Scans()
    ensures Kept(c, s, HandleSlowQc(c, s, q))
  {
    hide Settings.Scans, Inv, Evolves, SendViewChange, CheckIfPrepared, SendCommit;
    var id := MsgId(q.sn, q.view);
    var cert := CertOf(s, id);
    Same(c, s);
    StoredOk(c, s, id);
    TouchKeeps(c, s, id);
    SendViewChangeKeeps(c, s);
    if cert.prepareQc.None? && Verify(TsKey, ForPrepare(SlowVote(q)), q.sig) {
      var s1 := PutCert(s, id, cert.(prepareQc := Some(q)));
      Put(c, s, id, cert.(prepareQc := Some(q)));
      CheckIfPreparedKeeps(c, s1, id);
      var s2 := CheckIfPrepared(c, s1, id);
      Chain(c, s, s1, s2);
      QcStays(s1, s2, id);
      SendCommitKeeps(c, s2, q);
      Chain(c, s, s2, SendCommit(c, s2, q));
    }
  }

  lemma HandleFastQcKeeps(c: Config, s: State, q: FastPrepareQc)
    requires Inv(c, s) && c.Scans()
    ensures Kept(c, s, HandleFastQc(c, s, q))
  {
    hide Settings.Scans, Inv, Evolves, CheckIfPrepared;
    var id := MsgId(q.sn, q.view);
    var cert := CertOf(s, id);
    Same(c, s);
    StoredOk(c, s, id);
    TouchKeeps(c, s, id);
    if cert.fastQc.None? && Verify(FastKey, ForPrepare(FastVote(q)), q.sig) {
      var s1 := PutCert(s, id, cert.(fastQc := Some(q)));
      Put(c, s, id, cert.(fastQc := Some(q)));
      CheckIfPreparedKeeps(c, s1, id);
      Chain(c, s, s1, CheckIfPrepared(c, s1, id));
    }
  }

  lemma IssueFinalQcKeeps(c: Config, s: State, id: MsgId, q: PrepareQc)
    requires Inv(c, s) && !CertOf(s, id).commitQcSent
    ensures Kept(c, s, IssueFinalQc(c, s, id, q))
  {
    Unwatched(c, s, s.batches, s.ballots, s.leader, true);
    StoredOk(c, s, id);
    var t := PutCert(s, id, CertOf(s, id).(commitQcSent := true));
    Put(c, s, id, CertOf(s, id).(commitQcSent := true));
    var m := FinalQc(CommitQc(id.sn, q.digest, id.view, c.id, Recover(c, TsKey, ForCommit(q), 2 * c.F() + 1)));
    forall a | a in t.outbox ensures InOrder(a, m) { assert OutMsgOk(c, s, a); }
    SendKeeps(c, t, m);
    Chain(c, s, t, Send(t, m));
  }

  lemma HandleCommitVoteKeeps(c: Config, s: State, cm: CommitMsg)
    requires Inv(c, s)
    ensures Kept(c, s, HandleCommitVote(c, s, cm))
  {
    hide Settings.Scans, Inv, Evolves, IssueFinalQc;
    var id := MsgId(cm.vote.sn, cm.vote.view);
    var t := Touch(s, id);
    TouchKeeps(c, s, id);
    var s1 := RecordCommit(s, id, cm);
    Unwatched(c, t, t.batches, s1.ballots, t.leader, t.panicked);
    Chain(c, s, t, s1);
    if !CertOf(s1, id).commitQcSent {
      IssueFinalQcKeeps(c, s1, id, cm.vote);
      Chain(c, s, s1, IssueFinalQc(c, s1, id, cm.vote));
    }
  }

  lemma HandleCommitKeeps(c: Config, s: State, cm: CommitMsg)
    requires Inv(c, s)
    ensures Kept(c, s, HandleCommit(c, s, cm))
  {
    hide Settings.Scans, Inv, Evolves, HandleCommitVote;
    var id := MsgId(cm.vote.sn, cm.vote.view);
    var cert := CertOf(s, id);
    Same(c, s);
    StoredOk(c, s, id);
    TouchKeeps(c, s, id);
    var t := PutCert(s, id, cert.(commits := cert.commits[cm.sender := cm]));
    Put(c, s, id, cert.(commits := cert.commits[cm.sender := cm]));
    HandleCommitVoteKeeps(c, t, cm);
    Chain(c, s, t, HandleCommitVote(c, t, cm));
  }

  lemma HandleFinalQcKeeps(c: Config, s: State, q: CommitQc)
    requires Inv(c, s) && c.Scans()
    ensures Kept(c, s, HandleFinalQc(c, s, q))
  {
    hide Settings.Scans, Inv, Evolves, SendViewChange, CheckIfCommitted;
    var id := MsgId(q.sn, q.view);
    var cert := CertOf(s, id);
    Same(c, s);
    StoredOk(c, s, id);
    TouchKeeps(c, s, id);
    SendViewChangeKeeps(c, s);
    if cert.commitQc.None? {
      var t := PutCert(s, id, cert.(commitQc := Some(q)));
      Put(c, s, id, cert.(commitQc := Some(q)));
      CheckIfCommittedKeeps(c, t, id);
      Chain(c, s, t, CheckIfCommitted(c, t, id));
    }
  }

  // ---------------------------------------------------------------- Checkpoints, proposals, timers

  lemma MarksKeep(c: Config, s: State, m: Watermarks)
    requires Inv(c, s)
    requires forall sn | sn in s.marks.store :: sn in m.store && s.marks.store[sn] <= m.store[sn]
    ensures Kept(c, s, s.(marks := m))
  {
    Grow(c, s, s.(marks := m));
  }

  lemma HandleCheckpointKeeps(c: Config, s: State, ck: CheckpointMsg)
    requires Inv(c, s)
    ensures Kept(c, s, HandleCheckpoint(c, s, ck))
  {
    hide Settings.Scans, Inv, Evolves, StateDigests, Matching;
    Same(c, s);
    var m := s.marks.(store := s.marks.store[ck.sn := CheckpointsAt(s.marks, ck.sn) + {ck}]);
    MarksKeep(c, s, m);
    MarksKeep(c, s, m.(h := ck.sn));
  }

  lemma ProposeKeeps(c: Config, s: State, batch: RequestBatch)
    requires Inv(c, s)
    ensures Kept(c, s, Propose(c, s, batch))
  {
    var sn := s.leader.nextSN;
    var t := StartTimer(s.(leader := s.leader.(nextSN := Add(sn, 1))), MsgId(sn, s.views.view), Hash(batch));
    Same(c, s);
    Unwatched(c, s, s.batches, s.ballots, t.leader, s.panicked);
    SendKeeps(c, t, PrePrepare(PrePrepareMsg(sn, Hash(batch), batch, s.views.view, c.id)));
  }

  lemma FireTimerKeeps(c: Config, s: State, id: MsgId, k: Digest)
    requires Inv(c, s)
    ensures Kept(c, s, FireTimer(c, s, id, k))
  {
    hide Settings.Scans, Inv, Evolves, CheckIfPrepareQc;
    var t := s.(leader := s.leader.(timers := s.leader.timers[id := true],
                                    armed := s.leader.armed - {(id, k)},
                                    fired := s.leader.fired[id := k]));
    Same(c, s);
    Unwatched(c, s, s.batches, s.ballots, t.leader, s.panicked);
    CheckIfPrepareQcKeeps(c, t, id, k);
    Chain(c, s, t, CheckIfPrepareQc(c, t, id, k));
  }

  // ---------------------------------------------------------------- View changes

  lemma AcceptEntryKeeps(c: Config, s: State, nv: NewViewMsg, sn: u32)
    requires Inv(c, s) && c.Scans() && sn in nv.oset
    ensures Kept(c, s, AcceptEntry(c, s, nv, sn))
  {
    hide Settings.Scans, Inv, Evolves, HandlePrePrepare;
    var pp := PrePrepareMsg(sn, Hash(nv.oset[sn]), nv.oset[sn], s.views.view, nv.sender);
    var t := StartTimer(s, MsgId(sn, s.views.view), pp.digest);
    Unwatched(c, s, s.batches, s.ballots, t.leader, s.panicked);
    HandlePrePrepareKeeps(c, t, pp);
    HandlePrePrepareKeeps(c, s, pp);
    Chain(c, s, t, HandlePrePrepare(c, t, pp));
  }

  lemma {:induction false} AcceptAllKeeps(c: Config, s: State, nv: NewViewMsg, keys: seq<u32>)
    requires Inv(c, s) && c.Scans() && forall k | k in keys :: k in nv.oset
    ensures Kept(c, s, AcceptAll(c, s, nv, keys))
    decreases |keys|
  {
    hide Settings.Scans, Inv, Evolves, AcceptEntry;
    if keys == [] {
      Same(c, s);
    } else {
      var t := AcceptAll(c, s, nv, keys[..|keys| - 1]);
      var sn := keys[|keys| - 1];
      AcceptAllKeeps(c, s, nv, keys[..|keys| - 1]);
      AcceptEntryKeeps(c, t, nv, sn);
      Chain(c, s, t, AcceptEntry(c, t, nv, sn));
    }
  }

  lemma EnterViewKeeps(c: Config, s: State)
    requires Inv(c, s)
    ensures Kept(c, s, EnterView(c, s))
  {
    Grow(c, s, EnterView(c, s));
  }

  lemma ProcessNewViewKeeps(c: Config, s: State)
    requires Inv(c, s) && c.Scans()
    ensures Kept(c, s, ProcessNewView(c, s))
  {
    hide Settings.Scans, Inv, Evolves, EnterView, AcceptAll, Sorted;
    Same(c, s);
    EnterViewKeeps(c, s);
    if s.views.view in s.views.newViews {
      var nv := s.views.newViews[s.views.view];
      var t := EnterView(c, s);
      SortedMembers(nv.oset.Keys);
      AcceptAllKeeps(c, t, nv, Sorted(nv.oset.Keys));
      Chain(c, s, t, AcceptAll(c, t, nv, Sorted(nv.oset.Keys)));
    }
  }

  lemma PublishNewViewKeeps(c: Config, s: State, nv: NewViewMsg)
    requires Inv(c, s) && nv.view !in s.views.newViewsSent && nv.sender == c.id
    ensures Kept(c, s, PublishNewView(c, s, nv))
  {
    var t := s.(views := s.views.(newViews := s.views.newViews[nv.view := nv],
                                  newViewsSent := s.views.newViewsSent + {nv.view}));
    Grow(c, s, t);
    forall a | a in t.outbox ensures InOrder(a, NewView(nv)) { assert OutMsgOk(c, s, a); }
    SendKeeps(c, t, NewView(nv));
  }

  lemma SendNewViewKeeps(c: Config, s: State)
    requires Inv(c, s) && c.Scans()
    ensures Kept(c, s, SendNewView(c, s))
  {
    hide Settings.Scans, Inv, Evolves, ProcessNewView, PublishNewView, Vset, MaxCheckpoint, Assign;
    Same(c, s);
    Unwatched(c, s, s.batches, s.ballots, s.leader, true);
    var vset := Vset(c, s.views);
    if s.views.view !in s.views.newViewsSent {
      var nv := NewViewMsg(s.views.view, vset, Assign(c, vset, MaxCheckpoint(vset)).oset, c.id);
      var t := PublishNewView(c, s, nv);
      PublishNewViewKeeps(c, s, nv);
      ProcessNewViewKeeps(c, t);
      Chain(c, s, t, ProcessNewView(c, t));
    }
  }

  /** Adopting a later view, or storing a message, before anything is sent. */
  lemma ViewsKeep(c: Config, s: State, v: Views)
    requires Inv(c, s)
    requires s.views.view <= v.view && v.newViewsSent == s.views.newViewsSent
    requires s.views.store.Keys <= v.store.Keys && forall i | i in s.views.store :: v.store[i] == s.views.store[i]
    ensures Kept(c, s, s.(views := v))
  {
    Grow(c, s, s.(views := v));
  }

  lemma CatchUpKeeps(c: Config, s: State)
    requires Inv(c, s) && c.Scans()
    ensures Kept(c, s, CatchUp(c, s))
  {
    hide Settings.Scans, Inv, Evolves, SendViewChange;
    NobodyAhead(s.views);
    Same(c, s);
    if |Senders(Ahead(s.views))| >= c.F() + 1 {
      var t := s.(views := s.views.(view := MinView(Ahead(s.views)) - 1));
      ViewsKeep(c, s, t.views);
      SendViewChangeKeeps(c, t);
      Chain(c, s, t, SendViewChange(c, t));
    }
  }

  lemma HandleViewChangeKeeps(c: Config, s: State, vc: ViewChangeMsg)
    requires Inv(c, s) && c.Scans()
    ensures Kept(c, s, HandleViewChange(c, s, vc))
  {
    hide Settings.Scans, Inv, Evolves, CatchUp, SendNewView, CorrectViewChange;
    var idx := Vcidx(vc.view, vc.sender);
    Same(c, s);
    if idx !in s.views.store {
      var s0 := s.(views := s.views.(store := s.views.store[idx := vc]));
      ViewsKeep(c, s, s0.views);
      var s1 := CatchUp(c, s0);
      CatchUpKeeps(c, s0);
      Chain(c, s, s0, s1);
      SendNewViewKeeps(c, s1);
      Chain(c, s, s1, SendNewView(c, s1));
    }
  }

  lemma HandleNewViewKeeps(c: Config, s: State, nv: NewViewMsg)
    requires Inv(c, s) && c.Scans()
    ensures Kept(c, s, HandleNewView(c, s, nv))
  {
    hide Settings.Scans, Inv, Evolves, ProcessNewView;
    var t := s.(views := s.views.(newViews := s.views.newViews[nv.view := nv]));
    Same(c, s);
    ViewsKeep(c, s, t.views);
    ProcessNewViewKeeps(c, t);
    Chain(c, s, t, ProcessNewView(c, t));
  }

  // ---------------------------------------------------------------- One step

  lemma DispatchKeeps(c: Config, s: State, m: Msg)
    requires Inv(c, s) && c.Scans()
    ensures Kept(c, s, Dispatch(c, s, m))
  {
    hide Settings.Scans, Inv, Evolves, HandlePrePrepare, HandlePrepare, HandleCommit, HandleSlowQc, HandleFastQc,
         HandleFinalQc,
         HandleCheckpoint, HandleViewChange, HandleNewView;
    match m
    case PrePrepare(pp) => HandlePrePrepareKeeps(c, s, pp);
    case Prepare(pm) => HandlePrepareKeeps(c, s, pm);
    case Commit(cm) => HandleCommitKeeps(c, s, cm);
    case SlowQc(q) => HandleSlowQcKeeps(c, s, q);
    case FastQc(q) => HandleFastQcKeeps(c, s, q);
    case FinalQc(q) => HandleFinalQcKeeps(c, s, q);
    case Checkpoint(ck) => HandleCheckpointKeeps(c, s, ck);
    case ViewChange(vc) => HandleViewChangeKeeps(c, s, vc);
    case NewView(nv) => HandleNewViewKeeps(c, s, nv);
  }

  lemma HandleKeeps(c: Config, s: State, e: Event)
    requires Inv(c, s) && c.Scans()
    ensures Kept(c, s, Handle(c, s, e))
  {
    hide Settings.Scans, Inv, Evolves, Dispatch, Propose, FireTimer, SendViewChange;
    match e
    case Deliver(m) => DispatchKeeps(c, s, m);
    case Batch(b) => ProposeKeeps(c, s, b);
    case FastTimeout(id, k) => FireTimerKeeps(c, s, id, k);
    case ViewTimeout => SendViewChangeKeeps(c, s);
  }

  lemma TickKeeps(c: Config, s: State, now: int)
    requires Inv(c, s)
    ensures Kept(c, s, s.(clock := now))
  {
    Grow(c, s, s.(clock := now));
  }

  lemma StepKeeps(c: Config, s: State, now: int, e: Event)
    requires Inv(c, s) && c.Scans()
    ensures Kept(c, s, Step(c, s, now, e))
  {
    hide Settings.Scans, Inv, Evolves, Handle;
    Same(c, s);
    TickKeeps(c, s, now);
    HandleKeeps(c, s.(clock := now), e);
    Chain(c, s, s.(clock := now), Handle(c, s.(clock := now), e));
  }

  lemma InitInv(c: Config)
    ensures Inv(c, Init(c))
  {}
}
