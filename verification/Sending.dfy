/** Whatever is decided is said: over every history of one replica, what it has signed, issued, executed to a
    checkpoint or asked for has gone to the network, and nothing else has. */
module Sending {
  import opened Types
  import opened ReplicaState
  import opened Assignment
  import opened Handlers
  import opened Invariants
  import opened Preservation
  import opened Frames
  import opened Numbering

  // ---------------------------------------------------------------- The law

  function CommitFor(c: Config, q: PrepareQc): Msg {
    Commit(CommitMsg(q, c.id, PartialSig(TsKey, ForCommit(q), c.id)))
  }

  function CheckpointFor(c: Config, sn: u32): Msg { Checkpoint(CheckpointMsg(sn, "", c.id)) }

  ghost predicate PrepareCertSent(outbox: seq<Msg>, id: MsgId) {
    exists m :: m in outbox && IsPrepareCert(m) && CertifiedId(m) == id
  }

  ghost predicate CommitCertSent(outbox: seq<Msg>, id: MsgId) {
    exists m :: m in outbox && m.FinalQc? && m.cqc.sn == id.sn && m.cqc.view == id.view
  }

  ghost predicate ViewChangeSent(outbox: seq<Msg>, view: nat) {
    exists m :: m in outbox && m.ViewChange? && m.vc.view == view
  }

  ghost predicate NewViewSent(outbox: seq<Msg>, view: nat) {
    exists m :: m in outbox && m.NewView? && m.nv.view == view
  }

  /** Every signed commit, a backup's every vote, every certificate marked as sent, every checkpoint due and
      every new view published is in the outbox; and the replica's own state is kept for every checkpoint. */
  ghost predicate Told(c: Config, s: State) {
    && (forall q | q in s.commitVotes :: CommitFor(c, q) in s.outbox)
    && (forall v | v in s.votes && c.Primary(v.view) != c.id :: Prepare(PrepareFor(c, v)) in s.outbox)
    && (!s.panicked ==> forall id | CertOf(s, id).qcSent :: PrepareCertSent(s.outbox, id))
    && (forall id | CertOf(s, id).commitQcSent :: CommitCertSent(s.outbox, id))
    && (forall sn: u32 | 0 < sn <= s.exec.last && sn % c.T == 0 :: CheckpointFor(c, sn) in s.outbox)
    && (forall v | v in s.views.newViewsSent :: NewViewSent(s.outbox, v))
    && (forall sn: u32 :: sn in s.marks.chkpts <==> 0 < sn <= s.exec.last && sn % c.T == 0)
  }

  /** A replica that is not active has asked for the view it is in. */
  ghost predicate Asked(s: State) { s.views.active || ViewChangeSent(s.outbox, s.views.view) }

  ghost predicate Open(c: Config, s: State) { Told(c, s) && Asked(s) }

  // ---------------------------------------------------------------- Frames

  lemma OutboxKeeps(a: seq<Msg>, b: seq<Msg>)
    requires a <= b
    ensures forall m | m in a :: m in b
    ensures forall id | PrepareCertSent(a, id) :: PrepareCertSent(b, id)
    ensures forall id | CommitCertSent(a, id) :: CommitCertSent(b, id)
    ensures forall v | ViewChangeSent(a, v) :: ViewChangeSent(b, v)
    ensures forall v | NewViewSent(a, v) :: NewViewSent(b, v)
  {
    assert forall m :: m in a ==> m in b;
  }

  /** No new mark on any certificate. */
  ghost predicate NoNewMarks(s: State, t: State) {
    forall id :: (CertOf(t, id).qcSent ==> CertOf(s, id).qcSent)
                 && (CertOf(t, id).commitQcSent ==> CertOf(s, id).commitQcSent)
  }

  /** Nothing signed, marked, executed or published. */
  ghost predicate Silent(s: State, t: State) {
    && t.commitVotes == s.commitVotes && t.votes == s.votes && t.exec.last == s.exec.last
    && t.views.newViewsSent == s.views.newViewsSent && s.outbox <= t.outbox && NoNewMarks(s, t)
    && t.marks.chkpts == s.marks.chkpts
    && (s.panicked ==> t.panicked)
  }

  lemma SilentTold(c: Config, s: State, t: State)
    requires Told(c, s) && Silent(s, t)
    ensures Told(c, t)
  {
    OutboxKeeps(s.outbox, t.outbox);
  }

  lemma SilentOpen(c: Config, s: State, t: State)
    requires Open(c, s) && Silent(s, t)
    requires t.views.active || (t.views.active == s.views.active && t.views.view == s.views.view)
    ensures Open(c, t)
  {
    hide Told, Silent;
    SilentTold(c, s, t);
    SilentOutbox(s, t);
    OutboxKeeps(s.outbox, t.outbox);
  }

  lemma SilentOutbox(s: State, t: State)
    requires Silent(s, t)
    ensures s.outbox <= t.outbox
  {}

  lemma PutOpen(c: Config, s: State, id: MsgId, cert: Cert)
    requires Open(c, s) && cert.qcSent == CertOf(s, id).qcSent && cert.commitQcSent == CertOf(s, id).commitQcSent
    ensures Open(c, PutCert(s, id, cert))
  {
    hide Open;
    SilentOpen(c, s, PutCert(s, id, cert));
  }

  lemma SendOpen(c: Config, s: State, m: Msg)
    requires Open(c, s)
    ensures Open(c, Send(s, m))
  {
    hide Open;
    SilentOpen(c, s, Send(s, m));
  }

  // ---------------------------------------------------------------- Execution

  lemma SendViewChangeOpen(c: Config, s: State)
    requires Told(c, s)
    ensures Open(c, SendViewChange(c, s))
  {
    hide ViewChangeOf, Told;
    var t := SendViewChange(c, s);
    SilentTold(c, s, t);
    assert ViewChangeOf(c, s).view == t.views.view by { OwnView(c, s); }
    assert ViewChange(ViewChangeOf(c, s)) in t.outbox;
  }

  lemma OwnView(c: Config, s: State)
    ensures ViewChangeOf(c, s).view == s.views.view + 1
  {}

  /** The number executed is announced if it is a multiple of T. */
  lemma LogNextTold(c: Config, s: State)
    requires Open(c, s) && Executable(s.exec)
    ensures var sn: u32 := s.exec.last + 1;
            var t := Touch(s, s.exec.ids[sn]).(exec := LogNext(s.exec));
            Open(c, if sn % c.T == 0 then TakeCheckpoint(c, t, sn) else t)
  {
    hide PrepareCertSent, CommitCertSent, ViewChangeSent, NewViewSent;
    var sn: u32 := s.exec.last + 1;
    var t := Touch(s, s.exec.ids[sn]).(exec := LogNext(s.exec));
    var w := if sn % c.T == 0 then TakeCheckpoint(c, t, sn) else t;
    OutboxKeeps(s.outbox, w.outbox);
    assert sn % c.T == 0 ==> w.outbox[|s.outbox|] == CheckpointFor(c, sn);
  }

  lemma ExecuteNextOpen(c: Config, s: State)
    requires Open(c, s) && Executable(s.exec)
    ensures Open(c, ExecuteNext(c, s))
  {
    hide Told, Asked, SendViewChange;
    var sn: u32 := s.exec.last + 1;
    var t := Touch(s, s.exec.ids[sn]).(exec := LogNext(s.exec));
    var w := if sn % c.T == 0 then TakeCheckpoint(c, t, sn) else t;
    LogNextTold(c, s);
    SendViewChangeOpen(c, w);
  }

  lemma {:induction false} ExecuteAllOpen(c: Config, s: State)
    requires Open(c, s)
    ensures Open(c, ExecuteAll(c, s))
    decreases MOD - s.exec.last
  {
    hide Open, ExecuteNext;
    if Executable(s.exec) {
      ExecuteNextOpen(c, s);
      ExecuteAllOpen(c, ExecuteNext(c, s));
    }
  }

  lemma ExecuteRequestOpen(c: Config, s: State, id: MsgId)
    requires Open(c, s)
    ensures Open(c, ExecuteRequest(c, s, id))
  {
    hide Open, ExecuteAll;
    SilentOpen(c, s, Buffer(s, id));
    ExecuteAllOpen(c, Buffer(s, id));
  }

  lemma CheckIfCommittedOpen(c: Config, s: State, id: MsgId)
    requires Open(c, s)
    ensures Open(c, CheckIfCommitted(c, s, id))
  {
    hide Open, ExecuteRequest, CommitVerifies;
    var cert := CertOf(s, id);
    PutOpen(c, s, id, cert);
    PutOpen(c, s, id, cert.(stage := Committed));
    ExecuteRequestOpen(c, PutCert(s, id, cert.(stage := Committed)), id);
  }

  lemma CheckIfPreparedOpen(c: Config, s: State, id: MsgId)
    requires Open(c, s)
    ensures Open(c, CheckIfPrepared(c, s, id))
  {
    hide Open, ExecuteRequest, CheckIfCommitted;
    var cert := CertOf(s, id);
    PutOpen(c, s, id, cert);
    PutOpen(c, s, id, cert.(stage := Committed));
    PutOpen(c, s, id, cert.(stage := Prepared));
    ExecuteRequestOpen(c, PutCert(s, id, cert.(stage := Committed)), id);
    CheckIfCommittedOpen(c, PutCert(s, id, cert.(stage := Prepared)), id);
  }

  // ---------------------------------------------------------------- Votes and certificates

  /** Marked and sent in one go - or the replica dies. */
  lemma IssueOpen(c: Config, s: State, id: MsgId, m: Msg)
    requires Open(c, s) && IsPrepareCert(m) && CertifiedId(m) == id
    ensures var t := PutCert(s, id, CertOf(s, id).(qcSent := true));
            Open(c, Send(t, m)) && Open(c, t.(panicked := true))
  {
    hide CommitCertSent, ViewChangeSent, NewViewSent;
    var t := PutCert(s, id, CertOf(s, id).(qcSent := true));
    OutboxKeeps(s.outbox, Send(t, m).outbox);
    assert m in Send(t, m).outbox;
  }

  lemma CheckIfPrepareQcOpen(c: Config, s: State, id: MsgId, k: Digest)
    requires Open(c, s)
    ensures Open(c, CheckIfPrepareQc(c, s, id, k))
  {
    hide Open, SharesOf, Recover, Recoverable;
    PutOpen(c, s, id, CertOf(s, id));
    var sig := Recover(c, TsKey, ForPrepare(PrepareVote(id.sn, id.view, k)), 2 * c.F() + 1);
    IssueOpen(c, s, id, SlowQc(PrepareQc(id.sn, k, id.view, c.id, sig, s.clock)));
  }

  lemma IssueFastQcOpen(c: Config, s: State, id: MsgId, k: Digest)
    requires Open(c, s)
    ensures Open(c, IssueFastQc(c, s, id, k))
  {
    hide Open, SharesOf, Recover, Recoverable;
    var sig := Recover(c, FastKey, ForPrepare(PrepareVote(id.sn, id.view, k)), c.fastQuorum);
    IssueOpen(c, s, id, FastQc(FastPrepareQc(id.sn, k, id.view, c.id, sig)));
  }

  lemma HandlePrepareVoteOpen(c: Config, s: State, pm: PrepareMsg)
    requires Open(c, s)
    ensures Open(c, HandlePrepareVote(c, s, pm))
  {
    hide Open, SharesOf, CheckIfPrepareQc, IssueFastQc;
    var id := MsgId(pm.vote.sn, pm.vote.view);
    var k := pm.vote.digest.Key();
    var t := RecordVote(s, id, k, pm);
    SilentOpen(c, s, t);
    SilentOpen(c, s, t.(panicked := true));
    CheckIfPrepareQcOpen(c, t, id, k);
    IssueFastQcOpen(c, t, id, k);
  }

  lemma HandlePrepareOpen(c: Config, s: State, pm: PrepareMsg)
    requires Open(c, s)
    ensures Open(c, HandlePrepare(c, s, pm))
  {
    hide Open, HandlePrepareVote;
    var id := MsgId(pm.vote.sn, s.views.view);
    var cert := CertOf(s, id);
    PutOpen(c, s, id, cert);
    PutOpen(c, s, id, cert.(prepares := cert.prepares[pm.sender := pm]));
    HandlePrepareVoteOpen(c, PutCert(s, id, cert.(prepares := cert.prepares[pm.sender := pm])), pm);
  }

  /** The vote is for the current view: its primary keeps it, a backup sends it. */
  lemma CastVoteOpen(c: Config, s: State, sn: u32)
    requires Open(c, s)
    ensures Open(c, CastVote(c, s, sn))
  {
    hide HandlePrepare, Told, Asked;
    var vote := OwnVote(s, sn);
    var t := SignVote(s, vote);
    if IsPrimary(c, s) {
      SignedOpen(c, s, vote, t);
      HandlePrepareOpen(c, t, PrepareFor(c, vote));
    } else {
      SignedOpen(c, s, vote, Send(t, Prepare(PrepareFor(c, vote))));
    }
  }

  lemma SignedOpen(c: Config, s: State, vote: PrepareVote, t: State)
    requires Open(c, s) && vote.view == s.views.view
    requires t == (if IsPrimary(c, s) then SignVote(s, vote) else Send(SignVote(s, vote), Prepare(PrepareFor(c, vote))))
    ensures Open(c, t)
  {
    hide PrepareCertSent, CommitCertSent, ViewChangeSent, NewViewSent;
    OutboxKeeps(s.outbox, t.outbox);
    assert !IsPrimary(c, s) ==> t.outbox[|s.outbox|] == Prepare(PrepareFor(c, vote));
  }

  lemma HandlePrePrepareOpen(c: Config, s: State, pp: PrePrepareMsg)
    requires Open(c, s)
    ensures Open(c, HandlePrePrepare(c, s, pp))
  {
    hide Told, Asked, SendViewChange, CheckIfPrepared, CastVote, InWatermarks;
    var id := MsgId(pp.sn, pp.view);
    PutOpen(c, s, id, CertOf(s, id));
    SendViewChangeOpen(c, s);
    SendViewChangeOpen(c, Touch(s, id));
    var t := StorePrePrepare(s, id, pp);
    SilentOpen(c, s, t);
    CheckIfPreparedOpen(c, t, id);
    CastVoteOpen(c, CheckIfPrepared(c, t, id), pp.sn);
  }

  lemma SendCommitOpen(c: Config, s: State, q: PrepareQc)
    requires Open(c, s)
    ensures Open(c, SendCommit(c, s, q))
  {
    hide PrepareCertSent, CommitCertSent, ViewChangeSent, NewViewSent;
    var t := SendCommit(c, s, q);
    OutboxKeeps(s.outbox, t.outbox);
    assert t.outbox[|s.outbox|] == CommitFor(c, q);
  }

  lemma HandleSlowQcOpen(c: Config, s: State, q: PrepareQc)
    requires Open(c, s)
    ensures Open(c, HandleSlowQc(c, s, q))
  {
    hide Told, Asked, SendViewChange, CheckIfPrepared, SendCommit, InWatermarks;
    var id := MsgId(q.sn, q.view);
    var cert := CertOf(s, id);
    PutOpen(c, s, id, cert);
    SendViewChangeOpen(c, s);
    var t := PutCert(s, id, cert.(prepareQc := Some(q)));
    PutOpen(c, s, id, cert.(prepareQc := Some(q)));
    CheckIfPreparedOpen(c, t, id);
    SendCommitOpen(c, CheckIfPrepared(c, t, id), q);
  }

  lemma HandleFastQcOpen(c: Config, s: State, q: FastPrepareQc)
    requires Open(c, s)
    ensures Open(c, HandleFastQc(c, s, q))
  {
    hide Open, CheckIfPrepared;
    var id := MsgId(q.sn, q.view);
    var cert := CertOf(s, id);
    PutOpen(c, s, id, cert);
    PutOpen(c, s, id, cert.(fastQc := Some(q)));
    CheckIfPreparedOpen(c, PutCert(s, id, cert.(fastQc := Some(q))), id);
  }

  lemma IssueFinalQcOpen(c: Config, s: State, id: MsgId, q: PrepareQc)
    requires Open(c, s)
    ensures Open(c, IssueFinalQc(c, s, id, q))
  {
    hide Recover, Recoverable, SharesOf, PrepareCertSent, ViewChangeSent, NewViewSent;
    var t := IssueFinalQc(c, s, id, q);
    OutboxKeeps(s.outbox, t.outbox);
    if t.outbox != s.outbox {
      var m := t.outbox[|s.outbox|];
      assert m.FinalQc? && m.cqc.sn == id.sn && m.cqc.view == id.view;
    }
  }

  lemma HandleCommitOpen(c: Config, s: State, cm: CommitMsg)
    requires Open(c, s)
    ensures Open(c, HandleCommit(c, s, cm))
  {
    hide Open, SharesOf, IssueFinalQc, InWatermarks;
    var id := MsgId(cm.vote.sn, cm.vote.view);
    var cert := CertOf(s, id);
    PutOpen(c, s, id, cert);
    var t := PutCert(s, id, cert.(commits := cert.commits[cm.sender := cm]));
    PutOpen(c, s, id, cert.(commits := cert.commits[cm.sender := cm]));
    SilentOpen(c, t, RecordCommit(t, id, cm));
    IssueFinalQcOpen(c, RecordCommit(t, id, cm), id, cm.vote);
  }

  lemma HandleFinalQcOpen(c: Config, s: State, q: CommitQc)
    requires Open(c, s)
    ensures Open(c, HandleFinalQc(c, s, q))
  {
    hide Told, Asked, SendViewChange, CheckIfCommitted, CommitVerifies, InWatermarks;
    var id := MsgId(q.sn, q.view);
    var cert := CertOf(s, id);
    PutOpen(c, s, id, cert);
    SendViewChangeOpen(c, s);
    PutOpen(c, s, id, cert.(commitQc := Some(q)));
    CheckIfCommittedOpen(c, PutCert(s, id, cert.(commitQc := Some(q))), id);
  }

  // ---------------------------------------------------------------- View changes

  lemma {:induction false} AcceptAllOpen(c: Config, s: State, nv: NewViewMsg, keys: seq<u32>)
    requires Open(c, s) && forall k | k in keys :: k in nv.oset
    ensures Open(c, AcceptAll(c, s, nv, keys))
    decreases |keys|
  {
    hide Open, HandlePrePrepare;
    if keys != [] {
      var t := AcceptAll(c, s, nv, keys[..|keys| - 1]);
      var sn := keys[|keys| - 1];
      AcceptAllOpen(c, s, nv, keys[..|keys| - 1]);
      var pp := PrePrepareMsg(sn, Hash(nv.oset[sn]), nv.oset[sn], t.views.view, nv.sender);
      var t1 := StartTimer(t, MsgId(sn, t.views.view), pp.digest);
      SilentOpen(c, t, t1);
      HandlePrePrepareOpen(c, t, pp);
      HandlePrePrepareOpen(c, t1, pp);
    }
  }

  lemma ProcessNewViewOpen(c: Config, s: State)
    requires Open(c, s)
    ensures Open(c, ProcessNewView(c, s))
  {
    hide Open, AcceptAll, Sorted;
    SilentOpen(c, s, EnterView(c, s));
    if s.views.view in s.views.newViews {
      var nv := s.views.newViews[s.views.view];
      SortedMembers(nv.oset.Keys);
      AcceptAllOpen(c, EnterView(c, s), nv, Sorted(nv.oset.Keys));
    }
  }

  lemma PublishOpen(c: Config, s: State, nv: NewViewMsg)
    requires Open(c, s)
    ensures Open(c, PublishNewView(c, s, nv))
  {
    var t := PublishNewView(c, s, nv);
    OutboxKeeps(s.outbox, t.outbox);
    assert t.outbox[|s.outbox|] == NewView(nv);
  }

  lemma SendNewViewOpen(c: Config, s: State)
    requires Open(c, s)
    ensures Open(c, SendNewView(c, s))
  {
    hide Open, ProcessNewView, PublishNewView, Vset, MaxCheckpoint, Assign, Diverges;
    var vset := Vset(c, s.views);
    var nv := NewViewMsg(s.views.view, vset, Assign(c, vset, MaxCheckpoint(vset)).oset, c.id);
    SilentOpen(c, s, s.(panicked := true));
    PublishOpen(c, s, nv);
    ProcessNewViewOpen(c, PublishNewView(c, s, nv));
  }

  lemma CatchUpOpen(c: Config, s: State)
    requires Open(c, s)
    ensures Open(c, CatchUp(c, s))
  {
    hide Told, Asked, SendViewChange, MinView;
    NobodyAhead(s.views);
    if |Senders(Ahead(s.views))| >= c.F() + 1 {
      var t := s.(views := s.views.(view := MinView(Ahead(s.views)) - 1));
      SilentTold(c, s, t);
      SendViewChangeOpen(c, t);
    }
  }

  lemma HandleViewChangeOpen(c: Config, s: State, vc: ViewChangeMsg)
    requires Open(c, s)
    ensures Open(c, HandleViewChange(c, s, vc))
  {
    hide Open, CatchUp, SendNewView, CorrectViewChange, ForView;
    var t := s.(views := s.views.(store := s.views.store[Vcidx(vc.view, vc.sender) := vc]));
    SilentOpen(c, s, t);
    CatchUpOpen(c, t);
    SendNewViewOpen(c, CatchUp(c, t));
  }

  lemma HandleNewViewOpen(c: Config, s: State, nv: NewViewMsg)
    requires Open(c, s)
    ensures Open(c, HandleNewView(c, s, nv))
  {
    hide Open, ProcessNewView;
    var t := s.(views := s.views.(newViews := s.views.newViews[nv.view := nv]));
    SilentOpen(c, s, t);
    ProcessNewViewOpen(c, t);
  }

  // ---------------------------------------------------------------- One step

  lemma CheckpointOpen(c: Config, s: State, ck: CheckpointMsg)
    requires Open(c, s)
    ensures Open(c, HandleCheckpoint(c, s, ck))
  {
    hide Open, Matching, StateDigests, CheckpointsAt, InWatermarks;
    SilentOpen(c, s, HandleCheckpoint(c, s, ck));
  }

  lemma DispatchOpen(c: Config, s: State, m: Msg)
    requires Open(c, s)
    ensures Open(c, Dispatch(c, s, m))
  {
    hide Open, HandlePrePrepare, HandlePrepare, HandleCommit, HandleSlowQc, HandleFastQc, HandleFinalQc,
         HandleCheckpoint, HandleViewChange, HandleNewView;
    match m
    case PrePrepare(pp) => HandlePrePrepareOpen(c, s, pp);
    case Prepare(pm) => HandlePrepareOpen(c, s, pm);
    case Commit(cm) => HandleCommitOpen(c, s, cm);
    case SlowQc(q) => HandleSlowQcOpen(c, s, q);
    case FastQc(q) => HandleFastQcOpen(c, s, q);
    case FinalQc(q) => HandleFinalQcOpen(c, s, q);
    case Checkpoint(ck) => CheckpointOpen(c, s, ck);
    case ViewChange(vc) => HandleViewChangeOpen(c, s, vc);
    case NewView(nv) => HandleNewViewOpen(c, s, nv);
  }

  lemma ProposeOpen(c: Config, s: State, batch: RequestBatch)
    requires Open(c, s)
    ensures Open(c, Propose(c, s, batch))
  {
    hide Open;
    SilentOpen(c, s, Propose(c, s, batch));
  }

  lemma FireTimerOpen(c: Config, s: State, id: MsgId, k: Digest)
    requires Open(c, s)
    ensures Open(c, FireTimer(c, s, id, k))
  {
    hide Open, CheckIfPrepareQc;
    var t := s.(leader := s.leader.(timers := s.leader.timers[id := true],
                                    armed := s.leader.armed - {(id, k)},
                                    fired := s.leader.fired[id := k]));
    SilentOpen(c, s, t);
    CheckIfPrepareQcOpen(c, t, id, k);
  }

  lemma StepOpen(c: Config, s: State, now: int, e: Event)
    requires Open(c, s)
    ensures Open(c, Step(c, s, now, e))
  {
    hide Told, Asked, Dispatch, Propose, FireTimer, SendViewChange;
    var t := s.(clock := now);
    SilentOpen(c, s, t);
    match e
    case Deliver(m) => DispatchOpen(c, t, m);
    case Batch(b) => ProposeOpen(c, t, b);
    case FastTimeout(id, k) => FireTimerOpen(c, t, id, k);
    case ViewTimeout => SendViewChangeOpen(c, t);
  }

  // ---------------------------------------------------------------- Over every history

  lemma {:induction false} AlwaysOpen(c: Config, ss: seq<State>, k: nat)
    requires History(c, ss) && c.Scans() && k < |ss|
    ensures Inv(c, ss[k]) && Open(c, ss[k])
  {
    hide Step, Settings.Scans, Inv, Open;
    if k == 0 {
      InitInv(c);
      InitOpen(c);
    } else {
      AlwaysOpen(c, ss, k - 1);
      assert StepTo(c, ss[k - 1], ss[k]);
      var now, e :| ss[k] == Step(c, ss[k - 1], now, e);
      StepKeeps(c, ss[k - 1], now, e);
      StepOpen(c, ss[k - 1], now, e);
    }
  }

  lemma InitOpen(c: Config)
    ensures Open(c, Init(c))
  {}

  /** Whatever a replica is fed: a commit is signed exactly if it has been sent, and so is a backup's vote; a
      commit certificate is marked as issued exactly if one has been sent, and so is a prepare certificate
      unless the replica died issuing it; exactly the multiples of T executed have been announced, with the
      state kept; a new view counts as published exactly if it was sent; and a replica out of its view has
      asked for the one it is in. */
  lemma SaidExactly(c: Config, ss: seq<State>, k: nat)
    requires History(c, ss) && c.Scans() && k < |ss|
    ensures var s := ss[k];
            && (forall q :: q in s.commitVotes <==> CommitFor(c, q) in s.outbox)
            && (forall v: PrepareVote | c.Primary(v.view) != c.id ::
                  v in s.votes <==> Prepare(PrepareFor(c, v)) in s.outbox)
            && (forall id :: CertOf(s, id).commitQcSent <==> CommitCertSent(s.outbox, id))
            && (!s.panicked ==> forall id :: CertOf(s, id).qcSent <==> PrepareCertSent(s.outbox, id))
            && (forall sn: u32 | 0 < sn :: CheckpointFor(c, sn) in s.outbox <==> sn <= s.exec.last && sn % c.T == 0)
            && (forall sn: u32 :: sn in s.marks.chkpts <==> 0 < sn <= s.exec.last && sn % c.T == 0)
            && (forall v: nat :: v in s.views.newViewsSent <==> NewViewSent(s.outbox, v))
            && (s.views.active || ViewChangeSent(s.outbox, s.views.view))
  {
    hide History, Settings.Scans, CertsOk, ExecOk, InOrder, VoteReported;
    AlwaysOpen(c, ss, k);
    var s := ss[k];
    assert forall m | m in s.outbox :: OutMsgOk(c, s, m);
    forall q | CommitFor(c, q) in s.outbox ensures q in s.commitVotes { assert OutMsgOk(c, s, CommitFor(c, q)); }
    forall v | Prepare(PrepareFor(c, v)) in s.outbox ensures v in s.votes {
      assert OutMsgOk(c, s, Prepare(PrepareFor(c, v)));
    }
    forall sn: u32 | CheckpointFor(c, sn) in s.outbox ensures sn <= s.exec.last && sn % c.T == 0 {
      assert OutMsgOk(c, s, CheckpointFor(c, sn));
    }
  }
}
