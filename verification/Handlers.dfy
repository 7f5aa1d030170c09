/** What each handler of core/core.go and core/viewchange.go does to the state of a replica. */
module Handlers {
  import opened Types
  import opened ReplicaState
  import opened Assignment

  // ---------------------------------------------------------------- View change: sending

  function ViewChangeOf(c: Config, s: State): ViewChangeMsg {
    var v := s.views.view + 1;
    var h := s.marks.h;
    var ids := c.scanIds(v, s.certs.Keys);
    var order := c.scanCheckpoints(v, CheckpointsAt(s.marks, h));
    var digest := if h in s.marks.chkpts then s.marks.chkpts[h] else "";
    ViewChangeMsg(v, h, CalCset(order, digest, 2 * c.F() + 1), CalPset(s.certs, h, ids), CalQset(s.certs, h, ids), c.id)
  }

  function SendViewChange(c: Config, s: State): State {
    var v := s.views.view + 1;
    Send(s.(views := s.views.(view := v, active := false, sent := s.views.sent + {v})), ViewChange(ViewChangeOf(c, s)))
  }

  // ---------------------------------------------------------------- Execution

  function TakeCheckpoint(c: Config, s: State, sn: u32): State {
    Send(s.(marks := s.marks.(chkpts := s.marks.chkpts[sn := ""])), Checkpoint(CheckpointMsg(sn, "", c.id)))
  }

  predicate Executable(e: Execution) {
    && e.last + 1 < MOD
    && e.last + 1 in e.digests && e.digests[e.last + 1] != Nil
    && e.last + 1 in e.ids
  }

  function LogNext(e: Execution): Execution
    requires Executable(e)
  {
    var sn := e.last + 1;
    e.(last := sn, log := e.log + [Executed(sn, e.ids[sn], e.digests[sn])])
  }

  /** One round of the loop in executeRequest. */
  function ExecuteNext(c: Config, s: State): State
    requires Executable(s.exec)
    ensures ExecuteNext(c, s).exec == LogNext(s.exec)
  {
    var sn := s.exec.last + 1;
    var s1 := Touch(s, s.exec.ids[sn]).(exec := LogNext(s.exec));
    var s2 := if sn % c.T == 0 then TakeCheckpoint(c, s1, sn) else s1;
    if sn == s2.leader.viewChangeSeq && c.auto then SendViewChange(c, s2) else s2
  }

  function ExecuteAll(c: Config, s: State): State
    decreases MOD - s.exec.last
  {
    if Executable(s.exec) then ExecuteAll(c, ExecuteNext(c, s)) else s
  }

  function Buffer(s: State, id: MsgId): State {
    Touch(s, id).(exec := s.exec.(ids := s.exec.ids[id.sn := id],
                                  digests := s.exec.digests[id.sn := CertOf(s, id).digest]))
  }

  function ExecuteRequest(c: Config, s: State, id: MsgId): State {
    var s1 := Buffer(s, id);
    if s1.exec.last < id.sn then ExecuteAll(c, s1) else s1
  }

  // ---------------------------------------------------------------- Stages of a certificate

  predicate CommitVerifies(cert: Cert) {
    && cert.prepareQc.Some? && cert.commitQc.Some?
    && Verify(TsKey, ForCommit(cert.prepareQc.value), cert.commitQc.value.sig)
  }

  function CheckIfCommitted(c: Config, s: State, id: MsgId): State {
    var cert := CertOf(s, id);
    if cert.stage == Prepared && CommitVerifies(cert)
    then ExecuteRequest(c, PutCert(s, id, cert.(stage := Committed)), id)
    else Touch(s, id)
  }

  function CheckIfPrepared(c: Config, s: State, id: MsgId): State {
    var cert := CertOf(s, id);
    if cert.stage == Received && cert.fastQc.Some?
    then ExecuteRequest(c, PutCert(s, id, cert.(stage := Committed)), id)
    else if cert.stage == Received && cert.prepareQc.Some?
    then CheckIfCommitted(c, PutCert(s, id, cert.(stage := Prepared)), id)
    else Touch(s, id)
  }

  // ---------------------------------------------------------------- Prepare votes

  function IssueSlowQc(c: Config, s: State, id: MsgId, k: Digest): State {
    var vote := PrepareVote(id.sn, id.view, k);
    var s1 := PutCert(s, id, CertOf(s, id).(qcSent := true));
    var quorum := 2 * c.F() + 1;
    if !Recoverable(SharesOf(s.ballots.prepare, (id, k)), TsKey, ForPrepare(vote), quorum) then s1.(panicked := true)
    else Send(s1, SlowQc(PrepareQc(id.sn, k, id.view, c.id, Recover(c, TsKey, ForPrepare(vote), quorum), s.clock)))
  }

  function IssueFastQc(c: Config, s: State, id: MsgId, k: Digest): State {
    var vote := PrepareVote(id.sn, id.view, k);
    var s1 := PutCert(s, id, CertOf(s, id).(qcSent := true));
    var quorum := c.fastQuorum;
    if !Recoverable(SharesOf(s.ballots.fast, (id, k)), FastKey, ForPrepare(vote), quorum) then s1.(panicked := true)
    else Send(s1, FastQc(FastPrepareQc(id.sn, k, id.view, c.id, Recover(c, FastKey, ForPrepare(vote), quorum))))
  }

  function CheckIfPrepareQc(c: Config, s: State, id: MsgId, k: Digest): State {
    if |SharesOf(s.ballots.prepare, (id, k))| >= 2 * c.F() + 1 && !CertOf(s, id).qcSent then IssueSlowQc(c, s, id, k)
    else Touch(s, id)
  }

  function RecordVote(s: State, id: MsgId, k: Digest, pm: PrepareMsg): State {
    Touch(s, id).(ballots := s.ballots.(
      prepare := s.ballots.prepare[(id, k) := SharesOf(s.ballots.prepare, (id, k))[pm.sender := pm.sig]],
      fast := s.ballots.fast[(id, k) := SharesOf(s.ballots.fast, (id, k))[pm.sender := pm.fastSig]]))
  }

  function HandlePrepareVote(c: Config, s: State, pm: PrepareMsg): State {
    var id := MsgId(pm.vote.sn, pm.vote.view);
    var k := pm.vote.digest.Key();
    var s1 := RecordVote(s, id, k, pm);
    if id !in s.leader.timers then s1.(panicked := true)
    else if s.leader.timers[id] then CheckIfPrepareQc(c, s1, id, k)
    else if |SharesOf(s1.ballots.fast, (id, k))| >= c.fastQuorum && !CertOf(s1, id).qcSent
    then IssueFastQc(c, s1, id, k)
    else s1
  }

  function HandlePrepare(c: Config, s: State, pm: PrepareMsg): State {
    var id := MsgId(pm.vote.sn, s.views.view);
    var cert := CertOf(s, id);
    if !s.views.active || !InWatermarks(c, s, pm.vote.sn) then s
    else if pm.sender in cert.prepares then Touch(s, id)
    else HandlePrepareVote(c, PutCert(s, id, cert.(prepares := cert.prepares[pm.sender := pm])), pm)
  }

  // ---------------------------------------------------------------- Pre-prepares

  /** The vote createPrepareMsg signs: for the current view, with whatever digest is stored there. */
  function OwnVote(s: State, sn: u32): PrepareVote {
    PrepareVote(sn, s.views.view, CertOf(s, MsgId(sn, s.views.view)).digest)
  }

  function PrepareFor(c: Config, vote: PrepareVote): PrepareMsg {
    PrepareMsg(vote, c.id, PartialSig(TsKey, ForPrepare(vote), c.id), PartialSig(FastKey, ForPrepare(vote), c.id))
  }

  function SignVote(s: State, vote: PrepareVote): State {
    Touch(s, MsgId(vote.sn, vote.view)).(votes := s.votes + {vote})
  }

  function CastVote(c: Config, s: State, sn: u32): State {
    var vote := OwnVote(s, sn);
    var s1 := SignVote(s, vote);
    if IsPrimary(c, s) then HandlePrepare(c, s1, PrepareFor(c, vote)) else Send(s1, Prepare(PrepareFor(c, vote)))
  }

  function StorePrePrepare(s: State, id: MsgId, pp: PrePrepareMsg): State {
    PutCert(s, id, CertOf(s, id).(stage := Received, digest := pp.digest, prePrepare := Some(pp)))
      .(batches := s.batches[id := pp.batch])
  }

  function HandlePrePrepare(c: Config, s: State, pp: PrePrepareMsg): State {
    var id := MsgId(pp.sn, pp.view);
    if !s.views.active then s
    else if pp.sn > s.leader.viewChangeSeq && c.auto then SendViewChange(c, s)
    else if pp.sender != c.Primary(s.views.view) then SendViewChange(c, s)
    else if !InWatermarks(c, s, pp.sn) then s
    else if !CertOf(s, id).digest.Empty() && CertOf(s, id).digest != pp.digest then SendViewChange(c, Touch(s, id))
    else CastVote(c, CheckIfPrepared(c, StorePrePrepare(s, id, pp), id), pp.sn)
  }

  // ---------------------------------------------------------------- Certificates

  function SendCommit(c: Config, s: State, q: PrepareQc): State {
    Send(s.(commitVotes := s.commitVotes + {q}), Commit(CommitMsg(q, c.id, PartialSig(TsKey, ForCommit(q), c.id))))
  }

  function HandleSlowQc(c: Config, s: State, q: PrepareQc): State {
    var id := MsgId(q.sn, q.view);
    var cert := CertOf(s, id);
    if !s.views.active || !InWatermarks(c, s, q.sn) then s
    else if q.sender != c.Primary(s.views.view) then SendViewChange(c, s)
    else if cert.prepareQc.Some? || !Verify(TsKey, ForPrepare(SlowVote(q)), q.sig) then Touch(s, id)
    else SendCommit(c, CheckIfPrepared(c, PutCert(s, id, cert.(prepareQc := Some(q))), id), q)
  }

  function HandleFastQc(c: Config, s: State, q: FastPrepareQc): State {
    var id := MsgId(q.sn, q.view);
    var cert := CertOf(s, id);
    if q.sender != c.Primary(s.views.view) then s
    else if cert.fastQc.Some? || !Verify(FastKey, ForPrepare(FastVote(q)), q.sig) then Touch(s, id)
    else CheckIfPrepared(c, PutCert(s, id, cert.(fastQc := Some(q))), id)
  }

  function IssueFinalQc(c: Config, s: State, id: MsgId, q: PrepareQc): State {
    var quorum := 2 * c.F() + 1;
    if !Recoverable(SharesOf(s.ballots.commit, (id, q)), TsKey, ForCommit(q), quorum) then s.(panicked := true)
    else Send(PutCert(s, id, CertOf(s, id).(commitQcSent := true)),
              FinalQc(CommitQc(id.sn, q.digest, id.view, c.id, Recover(c, TsKey, ForCommit(q), quorum))))
  }

  function RecordCommit(s: State, id: MsgId, cm: CommitMsg): State {
    Touch(s, id).(ballots := s.ballots.(
      commit := s.ballots.commit[(id, cm.vote) := SharesOf(s.ballots.commit, (id, cm.vote))[cm.sender := cm.sig]]))
  }

  function HandleCommitVote(c: Config, s: State, cm: CommitMsg): State {
    var id := MsgId(cm.vote.sn, cm.vote.view);
    var s1 := RecordCommit(s, id, cm);
    if |SharesOf(s1.ballots.commit, (id, cm.vote))| >= 2 * c.F() + 1 && !CertOf(s1, id).commitQcSent
    then IssueFinalQc(c, s1, id, cm.vote)
    else s1
  }

  function HandleCommit(c: Config, s: State, cm: CommitMsg): State {
    var id := MsgId(cm.vote.sn, cm.vote.view);
    var cert := CertOf(s, id);
    if !s.views.active || !InWatermarks(c, s, cm.vote.sn) then s
    else if cm.sender in cert.commits then Touch(s, id)
    else HandleCommitVote(c, PutCert(s, id, cert.(commits := cert.commits[cm.sender := cm])), cm)
  }

  function HandleFinalQc(c: Config, s: State, q: CommitQc): State {
    var id := MsgId(q.sn, q.view);
    var cert := CertOf(s, id);
    if !s.views.active || !InWatermarks(c, s, q.sn) then s
    else if q.sender != c.Primary(s.views.view) then SendViewChange(c, s)
    else if cert.commitQc.Some? then Touch(s, id)
    else
      var s1 := PutCert(s, id, cert.(commitQc := Some(q)));
      if CommitVerifies(CertOf(s1, id)) then CheckIfCommitted(c, s1, id) else s1
  }

  // ---------------------------------------------------------------- Checkpoints

  function Matching(cks: set<CheckpointMsg>, digest: string): set<CheckpointMsg> {
    set ck | ck in cks && ck.digest == digest
  }

  function StateDigests(cks: set<CheckpointMsg>): set<string> { set ck | ck in cks :: ck.digest }

  function HandleCheckpoint(c: Config, s: State, ck: CheckpointMsg): State {
    if !InWatermarks(c, s, ck.sn) then s
    else
      var cks := CheckpointsAt(s.marks, ck.sn) + {ck};
      var m := s.marks.(store := s.marks.store[ck.sn := cks]);
      if |StateDigests(cks)| > c.F() + 1 || |Matching(cks, ck.digest)| < 2 * c.n / 3 + 1 then s.(marks := m)
      else s.(marks := m.(h := ck.sn))
  }

  // ---------------------------------------------------------------- Proposing

  function StartTimer(s: State, id: MsgId, k: Digest): State {
    s.(leader := s.leader.(timers := s.leader.timers[id := false], armed := s.leader.armed + {(id, k)}))
  }

  /** sendBatch's guard, then broadcastPrePrepareMsg. */
  function Propose(c: Config, s: State, batch: RequestBatch): State {
    var sn := s.leader.nextSN;
    if !s.views.active || !IsPrimary(c, s) then s
    else if !InWatermarks(c, s, sn) || sn > Add(s.marks.h, c.K / 2) then s
    else if sn > s.leader.viewChangeSeq && c.auto then s
    else
      var s1 := s.(leader := s.leader.(nextSN := Add(sn, 1)));
      Send(StartTimer(s1, MsgId(sn, s.views.view), Hash(batch)),
           PrePrepare(PrePrepareMsg(sn, Hash(batch), batch, s.views.view, c.id)))
  }

  /** The goroutine behind a fast-path timer: stop the timer, then try the slow certificate. */
  function FireTimer(c: Config, s: State, id: MsgId, k: Digest): State {
    if (id, k) !in s.leader.armed then s
    else
      CheckIfPrepareQc(c, s.(leader := s.leader.(
        timers := s.leader.timers[id := true],
        armed := s.leader.armed - {(id, k)},
        fired := s.leader.fired[id := k])), id, k)
  }

  // ---------------------------------------------------------------- View change: receiving

  function Ahead(v: Views): set<Vcidx> { set i | i in v.store && i.view > v.view }
  function Senders(idx: set<Vcidx>): set<nat> { set i | i in idx :: i.sender }
  function ForView(v: Views, view: nat): set<Vcidx> { set i | i in v.store && i.view == view }

  ghost function MinView(idx: set<Vcidx>): (v: nat)
    requires idx != {}
    ensures exists i :: i in idx && i.view == v
    ensures forall i | i in idx :: v <= i.view
  {
    var x :| x in idx;
    if idx == {x} then assert forall i :: i in idx ==> i == x; x.view
    else
      var m := MinView(idx - {x});
      assert forall i | i in idx :: i == x || i in idx - {x};
      if x.view < m then x.view else m
  }

  function GetViewChangeMsgs(store: map<Vcidx, ViewChangeMsg>, view: nat, order: seq<Vcidx>): seq<ViewChangeMsg> {
    if order == [] then [] else
      var rest := GetViewChangeMsgs(store, view, order[..|order| - 1]);
      var i := order[|order| - 1];
      if i in store && store[i].view == view then rest + [store[i]] else rest
  }

  function Vset(c: Config, v: Views): seq<ViewChangeMsg> {
    GetViewChangeMsgs(v.store, v.view, c.scanViewChanges(v.view, v.store.Keys))
  }

  /** processNewView's body for one entry of the new-view message. */
  function AcceptEntry(c: Config, s: State, nv: NewViewMsg, sn: u32): State
    requires sn in nv.oset
  {
    var pp := PrePrepareMsg(sn, Hash(nv.oset[sn]), nv.oset[sn], s.views.view, nv.sender);
    var s1 := if IsPrimary(c, s) then StartTimer(s, MsgId(sn, s.views.view), pp.digest) else s;
    HandlePrePrepare(c, s1, pp)
  }

  function AcceptAll(c: Config, s: State, nv: NewViewMsg, keys: seq<u32>): State
    requires forall k | k in keys :: k in nv.oset
    decreases |keys|
  {
    if keys == [] then s else
      var s1 := AcceptAll(c, s, nv, keys[..|keys| - 1]);
      var sn := keys[|keys| - 1];
      if s1.panicked || sn <= s1.marks.h then s1 else AcceptEntry(c, s1, nv, sn)
  }

  function EnterView(c: Config, s: State): State {
    var next := Add(s.marks.h, c.K + 1);
    s.(views := s.views.(active := true),
       leader := s.leader.(nextSN := next, viewChangeSeq := Add(Add(next, -1), c.K + c.T / 2)))
  }

  ghost function ProcessNewView(c: Config, s: State): State {
    if s.views.view !in s.views.newViews || s.views.active then s
    else
      var nv := s.views.newViews[s.views.view];
      SortedMembers(nv.oset.Keys);
      AcceptAll(c, EnterView(c, s), nv, Sorted(nv.oset.Keys))
  }

  function PublishNewView(c: Config, s: State, nv: NewViewMsg): State {
    Send(s.(views := s.views.(newViews := s.views.newViews[nv.view := nv],
                              newViewsSent := s.views.newViewsSent + {nv.view})), NewView(nv))
  }

  ghost function SendNewView(c: Config, s: State): State {
    var v := s.views;
    var vset := Vset(c, v);
    var sn := MaxCheckpoint(vset);
    if v.view in v.newViews || sn == 0 || vset == [] then s
    else if Diverges(c, sn) then s.(panicked := true)
    else
      var r := Assign(c, vset, sn);
      if !r.ok || v.view in v.newViewsSent then s
      else ProcessNewView(c, PublishNewView(c, s, NewViewMsg(v.view, vset, r.oset, c.id)))
  }

  lemma NobodyAhead(v: Views)
    ensures Ahead(v) == {} ==> |Senders(Ahead(v))| == 0
  {}

  /** f+1 replicas ahead of us: follow them to the smallest of their views. */
  ghost function CatchUp(c: Config, s: State): State {
    NobodyAhead(s.views);
    if |Senders(Ahead(s.views))| >= c.F() + 1
    then SendViewChange(c, s.(views := s.views.(view := MinView(Ahead(s.views)) - 1)))
    else s
  }

  ghost function HandleViewChange(c: Config, s: State, vc: ViewChangeMsg): State {
    var idx := Vcidx(vc.view, vc.sender);
    if vc.view < s.views.view || !CorrectViewChange(c, vc) || idx in s.views.store then s
    else
      var s1 := CatchUp(c, s.(views := s.views.(store := s.views.store[idx := vc])));
      var v := s1.views;
      if !v.active && vc.view == v.view && |ForView(v, v.view)| >= c.viewChangeQuorum && IsPrimary(c, s1)
      then SendNewView(c, s1)
      else s1
  }

  ghost function HandleNewView(c: Config, s: State, nv: NewViewMsg): State {
    if 0 < nv.view && s.views.view <= nv.view && c.Primary(nv.view) == nv.sender && nv.view !in s.views.newViews
    then ProcessNewView(c, s.(views := s.views.(newViews := s.views.newViews[nv.view := nv])))
    else s
  }

  // ---------------------------------------------------------------- One step of a replica

  datatype Event =
    | Deliver(m: Msg)
    | Batch(batch: RequestBatch)
    | FastTimeout(id: MsgId, k: Digest)
    | ViewTimeout

  ghost function Dispatch(c: Config, s: State, m: Msg): State {
    match m
    case PrePrepare(pp) => HandlePrePrepare(c, s, pp)
    case Prepare(pm) => HandlePrepare(c, s, pm)
    case Commit(cm) => HandleCommit(c, s, cm)
    case SlowQc(q) => HandleSlowQc(c, s, q)
    case FastQc(q) => HandleFastQc(c, s, q)
    case FinalQc(q) => HandleFinalQc(c, s, q)
    case Checkpoint(ck) => HandleCheckpoint(c, s, ck)
    case ViewChange(vc) => HandleViewChange(c, s, vc)
    case NewView(nv) => HandleNewView(c, s, nv)
  }

  ghost function Handle(c: Config, s: State, e: Event): State {
    match e
    case Deliver(m) => Dispatch(c, s, m)
    case Batch(b) => Propose(c, s, b)
    case FastTimeout(id, k) => FireTimer(c, s, id, k)
    case ViewTimeout => SendViewChange(c, s)
  }

  /** One atomic step: the clock is read, then one handler runs to its end. */
  ghost function Step(c: Config, s: State, now: int, e: Event): State {
    if s.panicked then s else Handle(c, s.(clock := now), e)
  }

  // ---------------------------------------------------------------- Sorted keys

  lemma {:induction false} SortedUpToMembers(ks: set<u32>, bound: nat)
    requires bound <= MOD
    ensures forall k: u32 :: k in SortedUpTo(ks, bound) <==> k in ks && k < bound
    decreases bound
  {
    if bound > 0 { SortedUpToMembers(ks, bound - 1); }
  }

  lemma SortedMembers(ks: set<u32>)
    ensures forall k :: k in Sorted(ks) <==> k in ks
  {
    SortedUpToMembers(ks, MOD);
  }
}
