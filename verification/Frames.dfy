/** What the handlers leave alone, and the numbers a primary gives its proposals. */
module Frames {
  import opened Types
  import opened ReplicaState
  import opened Assignment
  import opened Handlers

  /** The pre-prepares among the messages sent, in the order of sending. */
  function Proposals(outbox: seq<Msg>): seq<PrePrepareMsg> {
    if outbox == [] then [] else
      var rest := Proposals(outbox[..|outbox| - 1]);
      var m := outbox[|outbox| - 1];
      if m.PrePrepare? then rest + [m.pp] else rest
  }

  lemma {:induction false} ProposalListed(outbox: seq<Msg>, m: Msg)
    requires m in outbox && m.PrePrepare?
    ensures m.pp in Proposals(outbox)
  {
    var rest := outbox[..|outbox| - 1];
    assert outbox == rest + [outbox[|outbox| - 1]];
    if m in rest { ProposalListed(rest, m); }
  }

  /** The low watermarks reported in the view-changes sent. */
  function ReportedMarks(outbox: seq<Msg>): set<u32> { set m | m in outbox && m.ViewChange? :: m.vc.h }

  /** The prepare certificates sent. */
  function CertsIn(outbox: seq<Msg>): set<Msg> { set m | m in outbox && (m.SlowQc? || m.FastQc?) }

  lemma ProposalsAfter(s: State, m: Msg)
    ensures Proposals(Send(s, m).outbox) == if m.PrePrepare? then Proposals(s.outbox) + [m.pp] else Proposals(s.outbox)
    ensures ReportedMarks(Send(s, m).outbox) == ReportedMarks(s.outbox) + (if m.ViewChange? then {m.vc.h} else {})
    ensures CertsIn(Send(s, m).outbox) == CertsIn(s.outbox) + (if m.SlowQc? || m.FastQc? then {m} else {})
  {
    assert (s.outbox + [m])[..|s.outbox|] == s.outbox;
    assert m in Send(s, m).outbox && forall w :: w in Send(s, m).outbox <==> w in s.outbox || w == m;
  }

  /** No proposal, no new sequence number, no checkpoint taken in and no new low watermark; a view-change
      reports the present one. */
  ghost predicate Quiet(s: State, t: State) {
    && t.leader.nextSN == s.leader.nextSN && t.marks.h == s.marks.h && t.marks.store == s.marks.store
    && Proposals(t.outbox) == Proposals(s.outbox)
    && ReportedMarks(t.outbox) <= ReportedMarks(s.outbox) + {s.marks.h}
  }

  /** Nor any change to timers or votes. */
  ghost predicate Calm(s: State, t: State) {
    && Quiet(s, t) && t.leader == s.leader && t.ballots == s.ballots
    && t.votes == s.votes && t.commitVotes == s.commitVotes && t.panicked == s.panicked && t.clock == s.clock
    && t.views.store == s.views.store && t.views.newViews == s.views.newViews
       && t.views.newViewsSent == s.views.newViewsSent
    && CertsIn(t.outbox) == CertsIn(s.outbox)
  }

  lemma SendViewChangeCalm(c: Config, s: State)
    ensures Calm(s, SendViewChange(c, s))
  {
    hide ViewChangeOf, Proposals, ReportedMarks, CertsIn;
    OwnMark(c, s);
    ProposalsAfter(s, ViewChange(ViewChangeOf(c, s)));
  }

  lemma OwnMark(c: Config, s: State)
    ensures ViewChangeOf(c, s).h == s.marks.h
  {}

  lemma ExecuteNextCalm(c: Config, s: State)
    requires Executable(s.exec)
    ensures Calm(s, ExecuteNext(c, s))
  {
    hide SendViewChange, Proposals, ReportedMarks, CertsIn, Quiet;
    var sn: u32 := s.exec.last + 1;
    var s1 := Touch(s, s.exec.ids[sn]).(exec := LogNext(s.exec));
    var s2 := if sn % c.T == 0 then TakeCheckpoint(c, s1, sn) else s1;
    LoggedCalm(c, s, s1, sn);
    SendViewChangeCalm(c, s2);
    CalmTwice(s, s2, SendViewChange(c, s2));
  }

  lemma LoggedCalm(c: Config, s: State, t: State, sn: u32)
    requires t == s.(certs := t.certs, exec := t.exec)
    ensures Calm(s, t) && Calm(s, TakeCheckpoint(c, t, sn))
  {
    hide Proposals, ReportedMarks, CertsIn;
    ProposalsAfter(t, Checkpoint(CheckpointMsg(sn, "", c.id)));
  }

  lemma CalmTwice(s: State, t: State, w: State)
    requires Calm(s, t) && Calm(t, w)
    ensures Calm(s, w)
  {
    hide Proposals, ReportedMarks, CertsIn;
  }

  lemma {:induction false} ExecuteAllCalm(c: Config, s: State)
    ensures Calm(s, ExecuteAll(c, s))
    decreases MOD - s.exec.last
  {
    hide ExecuteNext, Proposals, ReportedMarks, CertsIn;
    if Executable(s.exec) {
      ExecuteNextCalm(c, s);
      ExecuteAllCalm(c, ExecuteNext(c, s));
    }
  }

  lemma CheckIfCommittedCalm(c: Config, s: State, id: MsgId)
    ensures Calm(s, CheckIfCommitted(c, s, id))
  {
    hide ExecuteAll, Proposals, ReportedMarks, CertsIn;
    ExecuteAllCalm(c, Buffer(PutCert(s, id, CertOf(s, id).(stage := Committed)), id));
  }

  lemma CheckIfPreparedCalm(c: Config, s: State, id: MsgId)
    ensures Calm(s, CheckIfPrepared(c, s, id))
  {
    hide ExecuteAll, CheckIfCommitted, Proposals, ReportedMarks, CertsIn;
    ExecuteAllCalm(c, Buffer(PutCert(s, id, CertOf(s, id).(stage := Committed)), id));
    CheckIfCommittedCalm(c, PutCert(s, id, CertOf(s, id).(stage := Prepared)), id);
  }

  // ---------------------------------------------------------------- Handlers that propose nothing

  lemma CheckIfPrepareQcQuiet(c: Config, s: State, id: MsgId, k: Digest)
    ensures Quiet(s, CheckIfPrepareQc(c, s, id, k))
  {
    hide Recover, Recoverable, Proposals, ReportedMarks, CertsIn;
    var sig := Recover(c, TsKey, ForPrepare(PrepareVote(id.sn, id.view, k)), 2 * c.F() + 1);
    ProposalsAfter(PutCert(s, id, CertOf(s, id).(qcSent := true)),
                   SlowQc(PrepareQc(id.sn, k, id.view, c.id, sig, s.clock)));
  }

  lemma IssueFastQcQuiet(c: Config, s: State, id: MsgId, k: Digest)
    ensures Quiet(s, IssueFastQc(c, s, id, k))
  {
    hide Recover, Recoverable, Proposals, ReportedMarks, CertsIn;
    var sig := Recover(c, FastKey, ForPrepare(PrepareVote(id.sn, id.view, k)), c.fastQuorum);
    ProposalsAfter(PutCert(s, id, CertOf(s, id).(qcSent := true)), FastQc(FastPrepareQc(id.sn, k, id.view, c.id, sig)));
  }

  lemma HandlePrepareQuiet(c: Config, s: State, pm: PrepareMsg)
    ensures Quiet(s, HandlePrepare(c, s, pm))
  {
    hide CheckIfPrepareQc, IssueFastQc, Proposals, ReportedMarks, CertsIn, SharesOf;
    var id := MsgId(pm.vote.sn, pm.vote.view);
    var k := pm.vote.digest.Key();
    var cert := CertOf(s, MsgId(pm.vote.sn, s.views.view));
    var s1 := RecordVote(PutCert(s, MsgId(pm.vote.sn, s.views.view), cert.(prepares := cert.prepares[pm.sender := pm])),
                         id, k, pm);
    CheckIfPrepareQcQuiet(c, s1, id, k);
    IssueFastQcQuiet(c, s1, id, k);
  }

  lemma CastVoteQuiet(c: Config, s: State, sn: u32)
    ensures Quiet(s, CastVote(c, s, sn))
  {
    hide HandlePrepare, Proposals, ReportedMarks, CertsIn;
    var t := SignVote(s, OwnVote(s, sn));
    HandlePrepareQuiet(c, t, PrepareFor(c, OwnVote(s, sn)));
    ProposalsAfter(t, Prepare(PrepareFor(c, OwnVote(s, sn))));
  }

  lemma HandlePrePrepareQuiet(c: Config, s: State, pp: PrePrepareMsg)
    ensures Quiet(s, HandlePrePrepare(c, s, pp))
  {
    hide SendViewChange, CheckIfPrepared, CastVote, Proposals, ReportedMarks, CertsIn;
    var id := MsgId(pp.sn, pp.view);
    SendViewChangeCalm(c, s);
    SendViewChangeCalm(c, Touch(s, id));
    CheckIfPreparedCalm(c, StorePrePrepare(s, id, pp), id);
    CastVoteQuiet(c, CheckIfPrepared(c, StorePrePrepare(s, id, pp), id), pp.sn);
  }

  lemma HandleSlowQcQuiet(c: Config, s: State, q: PrepareQc)
    ensures Quiet(s, HandleSlowQc(c, s, q))
  {
    hide SendViewChange, CheckIfPrepared, Proposals, ReportedMarks, CertsIn;
    var id := MsgId(q.sn, q.view);
    SendViewChangeCalm(c, s);
    var t := PutCert(s, id, CertOf(s, id).(prepareQc := Some(q)));
    CheckIfPreparedCalm(c, t, id);
    var t1 := CheckIfPrepared(c, t, id);
    ProposalsAfter(t1.(commitVotes := t1.commitVotes + {q}),
                   Commit(CommitMsg(q, c.id, PartialSig(TsKey, ForCommit(q), c.id))));
  }

  lemma HandleFastQcQuiet(c: Config, s: State, q: FastPrepareQc)
    ensures Quiet(s, HandleFastQc(c, s, q))
  {
    hide CheckIfPrepared, Proposals, ReportedMarks, CertsIn;
    var id := MsgId(q.sn, q.view);
    CheckIfPreparedCalm(c, PutCert(s, id, CertOf(s, id).(fastQc := Some(q))), id);
  }

  lemma IssueFinalQcQuiet(c: Config, s: State, id: MsgId, q: PrepareQc)
    ensures Quiet(s, IssueFinalQc(c, s, id, q))
  {
    hide Recover, Recoverable, Proposals, ReportedMarks, CertsIn, SharesOf;
    var sig := Recover(c, TsKey, ForCommit(q), 2 * c.F() + 1);
    ProposalsAfter(PutCert(s, id, CertOf(s, id).(commitQcSent := true)),
                   FinalQc(CommitQc(id.sn, q.digest, id.view, c.id, sig)));
  }

  lemma HandleCommitQuiet(c: Config, s: State, cm: CommitMsg)
    ensures Quiet(s, HandleCommit(c, s, cm))
  {
    hide IssueFinalQc, Proposals, ReportedMarks, CertsIn, SharesOf, InWatermarks;
    var id := MsgId(cm.vote.sn, cm.vote.view);
    var cert := CertOf(s, id);
    IssueFinalQcQuiet(c, RecordCommit(PutCert(s, id, cert.(commits := cert.commits[cm.sender := cm])), id, cm), id,
                      cm.vote);
  }

  lemma HandleFinalQcQuiet(c: Config, s: State, q: CommitQc)
    ensures Quiet(s, HandleFinalQc(c, s, q))
  {
    hide SendViewChange, CheckIfCommitted, Proposals, ReportedMarks, CertsIn;
    var id := MsgId(q.sn, q.view);
    SendViewChangeCalm(c, s);
    CheckIfCommittedCalm(c, PutCert(s, id, CertOf(s, id).(commitQc := Some(q))), id);
  }

  lemma {:induction false} AcceptAllQuiet(c: Config, s: State, nv: NewViewMsg, keys: seq<u32>)
    requires forall k | k in keys :: k in nv.oset
    ensures Quiet(s, AcceptAll(c, s, nv, keys))
    decreases |keys|
  {
    hide HandlePrePrepare, Proposals, ReportedMarks, CertsIn;
    if keys != [] {
      var t := AcceptAll(c, s, nv, keys[..|keys| - 1]);
      var sn := keys[|keys| - 1];
      AcceptAllQuiet(c, s, nv, keys[..|keys| - 1]);
      var pp := PrePrepareMsg(sn, Hash(nv.oset[sn]), nv.oset[sn], t.views.view, nv.sender);
      HandlePrePrepareQuiet(c, t, pp);
      HandlePrePrepareQuiet(c, StartTimer(t, MsgId(sn, t.views.view), pp.digest), pp);
    }
  }

  /** Entering a view sets nextSN past the window; nothing else about numbering changes. */
  ghost predicate Entered(c: Config, s: State, t: State) {
    && t.marks.h == s.marks.h && t.marks.store == s.marks.store && Proposals(t.outbox) == Proposals(s.outbox)
    && ReportedMarks(t.outbox) <= ReportedMarks(s.outbox) + {s.marks.h}
    && (t.leader.nextSN == s.leader.nextSN || t.leader.nextSN == Add(s.marks.h, c.K + 1))
  }

  lemma ProcessNewViewEnters(c: Config, s: State)
    ensures Entered(c, s, ProcessNewView(c, s))
  {
    hide AcceptAll, Sorted, Proposals, ReportedMarks, CertsIn;
    if s.views.view in s.views.newViews {
      var nv := s.views.newViews[s.views.view];
      SortedMembers(nv.oset.Keys);
      AcceptAllQuiet(c, EnterView(c, s), nv, Sorted(nv.oset.Keys));
    }
  }

  lemma CatchUpCalm(c: Config, s: State)
    ensures Calm(s, CatchUp(c, s))
  {
    hide SendViewChange, Proposals, ReportedMarks, CertsIn;
    NobodyAhead(s.views);
    if |Senders(Ahead(s.views))| >= c.F() + 1 {
      SendViewChangeCalm(c, s.(views := s.views.(view := MinView(Ahead(s.views)) - 1)));
    }
  }

  lemma HandleViewChangeEnters(c: Config, s: State, vc: ViewChangeMsg)
    ensures Entered(c, s, HandleViewChange(c, s, vc))
  {
    hide CatchUp, SendNewView, CorrectViewChange, ForView, Proposals, ReportedMarks, CertsIn;
    var t := s.(views := s.views.(store := s.views.store[Vcidx(vc.view, vc.sender) := vc]));
    CatchUpCalm(c, t);
    SendNewViewEnters(c, CatchUp(c, t));
  }

  lemma SendNewViewEnters(c: Config, s: State)
    ensures Entered(c, s, SendNewView(c, s))
  {
    hide ProcessNewView, Vset, Assign, MaxCheckpoint, Proposals, ReportedMarks, CertsIn;
    var vset := Vset(c, s.views);
    var nv := NewViewMsg(s.views.view, vset, Assign(c, vset, MaxCheckpoint(vset)).oset, c.id);
    ProposalsAfter(s.(views := s.views.(newViews := s.views.newViews[nv.view := nv],
                                        newViewsSent := s.views.newViewsSent + {nv.view})), NewView(nv));
    ProcessNewViewEnters(c, PublishNewView(c, s, nv));
  }

  // ---------------------------------------------------------------- Recording a vote

  /** The two shares of a vote go under its number, view and digest and its sender: each to its own table. */
  lemma Recorded(s: State, id: MsgId, k: Digest, pm: PrepareMsg)
    ensures var r := RecordVote(s, id, k, pm);
            && SharesOf(r.ballots.fast, (id, k)) == SharesOf(s.ballots.fast, (id, k))[pm.sender := pm.fastSig]
            && SharesOf(r.ballots.prepare, (id, k)) == SharesOf(s.ballots.prepare, (id, k))[pm.sender := pm.sig]
            && (forall x | x != (id, k) :: SharesOf(r.ballots.fast, x) == SharesOf(s.ballots.fast, x))
            && (forall x | x != (id, k) :: SharesOf(r.ballots.prepare, x) == SharesOf(s.ballots.prepare, x))
  {}

  lemma RecordedRest(s: State, id: MsgId, k: Digest, pm: PrepareMsg)
    ensures var r := RecordVote(s, id, k, pm);
            && r.views == s.views && r.marks == s.marks && r.exec == s.exec && r.leader == s.leader
            && r.batches == s.batches && r.votes == s.votes && r.panicked == s.panicked && r.clock == s.clock
            && forall o :: CertOf(r, o) == CertOf(s, o)
  {}
}
