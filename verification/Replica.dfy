/** `Node` and `MsgCert` of core/node.go: the mutable form of a replica. Abs() is its state as a
    value, and every method's contract says which function of Handlers it performs on that value. */
module Replica {
  import opened Types
  import opened ReplicaState
  import opened Assignment
  import opened Handlers
  import opened Computations
  import opened Invariants
  import opened Preservation

  class MsgCert {
    var reqBatchStage: Stage
    var reqBatchDigest: Digest
    var prepareQc: Option<PrepareQc>
    var fastPrepareQc: Option<FastPrepareQc>
    var prepareQcStage: bool
    var commitQc: Option<CommitQc>
    var commitQcStage: bool
    var prePrepareStore: Option<PrePrepareMsg>
    var prePareStore: map<nat, PrepareMsg>
    var commitStore: map<nat, CommitMsg>

    ghost function Value(): Cert
      reads this
    {
      Cert(reqBatchStage, reqBatchDigest, prepareQc, fastPrepareQc, prepareQcStage, commitQc, commitQcStage,
           prePrepareStore, prePareStore, commitStore)
    }

    constructor ()
      ensures Value() == FRESH
    {
      reqBatchStage, reqBatchDigest, prePrepareStore := Received, Nil, None;
      prepareQc, fastPrepareQc, prepareQcStage := None, None, false;
      commitQc, commitQcStage := None, false;
      prePareStore, commitStore := map[], map[];
    }
  }

  class Node {
    const c: Config

    var reqCertStore: map<MsgId, MsgCert>
    var reqBatch: map<MsgId, RequestBatch>

    var lastExec: u32
    var execReqBuffer: map<u32, Digest>
    var execReqIdBuffer: map<u32, MsgId>
    ghost var log: seq<Executed>

    var currenView: nat
    var activeView: bool
    var viewChangeStore: map<Vcidx, ViewChangeMsg>
    var viewChangeStage: set<nat>
    var newViewStore: map<nat, NewViewMsg>
    var newViewStage: set<nat>

    var h: u32
    var chkpts: map<u32, string>
    var checkpointStore: map<u32, set<CheckpointMsg>>

    var partialSigInPrepare: map<(MsgId, Digest), Shares>
    var fastPartialSigInPrepare: map<(MsgId, Digest), Shares>
    var partialSigInCommit: map<(MsgId, PrepareQc), Shares>

    var nextSN: u32
    var viewChangeSeqNumber: u32
    var prepareTimer: map<MsgId, bool>
    ghost var armed: set<(MsgId, Digest)>
    ghost var fired: map<MsgId, Digest>

    var clock: int
    var outbox: seq<Msg>
    ghost var votes: set<PrepareVote>
    ghost var commitVotes: set<PrepareQc>
    var panicked: bool

    // -------------------------------------------------------------- Abstraction

    /** Different identifiers own different certificates. */
    ghost predicate Valid()
      reads this`reqCertStore
    {
      forall a, b | a in reqCertStore && b in reqCertStore && a != b :: reqCertStore[a] != reqCertStore[b]
    }

    ghost function Certs(): map<MsgId, Cert>
      reads this`reqCertStore, reqCertStore.Values
    {
      map id | id in reqCertStore :: reqCertStore[id].Value()
    }

    ghost function Abs(): State
      reads this, reqCertStore.Values
    {
      State(Certs(), reqBatch, ExecutionNow(), ViewsNow(), MarksNow(), BallotsNow(), LeaderNow(),
            clock, outbox, votes, commitVotes, panicked)
    }

    ghost function ExecutionNow(): Execution
      reads this`lastExec, this`execReqBuffer, this`execReqIdBuffer, this`log
    {
      Execution(lastExec, execReqBuffer, execReqIdBuffer, log)
    }

    ghost function ViewsNow(): Views
      reads this`currenView, this`activeView, this`viewChangeStore, this`viewChangeStage, this`newViewStore,
          this`newViewStage
    {
      Views(currenView, activeView, viewChangeStore, viewChangeStage, newViewStore, newViewStage)
    }

    ghost function MarksNow(): Watermarks
      reads this`h, this`chkpts, this`checkpointStore
    {
      Watermarks(h, chkpts, checkpointStore)
    }

    ghost function BallotsNow(): Ballots
      reads this`partialSigInPrepare, this`fastPartialSigInPrepare, this`partialSigInCommit
    {
      Ballots(partialSigInPrepare, fastPartialSigInPrepare, partialSigInCommit)
    }

    ghost function LeaderNow(): Leader
      reads this`nextSN, this`viewChangeSeqNumber, this`prepareTimer, this`armed, this`fired
    {
      Leader(nextSN, viewChangeSeqNumber, prepareTimer, armed, fired)
    }

    /** Where Abs() is hidden, what it says about the fields a method tests. */
    lemma Fields()
      ensures Abs().certs.Keys == reqCertStore.Keys
              && Abs().exec == Execution(lastExec, execReqBuffer, execReqIdBuffer, log)
      ensures Abs().views.view == currenView && Abs().views.active == activeView && Abs().marks.h == h
      ensures Abs().leader.viewChangeSeq == viewChangeSeqNumber && Abs().leader.nextSN == nextSN
      ensures Abs().panicked == panicked
    {}

    lemma ViewFields()
      ensures Abs().views == Views(currenView, activeView, viewChangeStore, viewChangeStage, newViewStore, newViewStage)
    {}

    lemma LeaderFields()
      ensures Abs().leader.timers == prepareTimer && Abs().leader.armed == armed && Abs().clock == clock
      ensures Abs().ballots == Ballots(partialSigInPrepare, fastPartialSigInPrepare, partialSigInCommit)
      ensures Abs().marks == Watermarks(h, chkpts, checkpointStore)
    {}

    /** An update through one certificate's reference is an update of that entry alone. */
    twostate lemma Wrote(id: MsgId)
      requires old(Valid()) && unchanged(this) && id in reqCertStore
      requires forall o | o in reqCertStore.Values && o != reqCertStore[id] :: unchanged(o)
      ensures Valid() && Abs() == PutCert(old(Abs()), id, reqCertStore[id].Value())
    {
      assert forall k | k in reqCertStore
             && k != id :: reqCertStore[k] in reqCertStore.Values && reqCertStore[k] != reqCertStore[id];
      assert Certs() == old(Certs())[id := reqCertStore[id].Value()];
    }

    constructor (conf: Config)
      ensures Valid() && c == conf && reqCertStore == map[] && Abs() == Init(conf)
    {
      c := conf;
      reqCertStore, reqBatch := map[], map[];
      lastExec, execReqBuffer, execReqIdBuffer, log := 0, map[], map[], [];
      currenView, activeView := 0, true;
      viewChangeStore, viewChangeStage, newViewStore, newViewStage := map[], {}, map[], {};
      h, chkpts, checkpointStore := 0, map[], map[];
      partialSigInPrepare, fastPartialSigInPrepare, partialSigInCommit := map[], map[], map[];
      nextSN, viewChangeSeqNumber := 1, Add(conf.T, conf.T / 2);
      prepareTimer, armed, fired := map[], {}, map[];
      clock, outbox, votes, commitVotes, panicked := 0, [], {}, {}, false;
    }

    // -------------------------------------------------------------- Small operations

    function Primary(view: nat): nat { view % c.n }

    predicate InWindow(sn: u32)
      reads this`h
    {
      0 < Sub(sn, h) <= c.K
    }

    method GetCert(idx: MsgId) returns (cert: MsgCert)
      requires Valid()
      modifies this
      ensures Valid() && fresh(reqCertStore.Values - old(reqCertStore.Values))
      ensures idx in reqCertStore && cert == reqCertStore[idx] && cert.Value() == CertOf(old(Abs()), idx)
      ensures Abs() == Touch(old(Abs()), idx)
    {
      hide ExecutionNow, ViewsNow, MarksNow, BallotsNow, LeaderNow;
      if idx in reqCertStore {
        cert := reqCertStore[idx];
      } else {
        cert := new MsgCert();
        reqCertStore := reqCertStore[idx := cert];
      }
      assert Certs() == old(Certs())[idx := cert.Value()];
    }

    /** Broadcast, or send to the leader: hand the message to the network. */
    method Send(m: Msg)
      requires Valid()
      modifies this
      ensures Valid() && reqCertStore == old(reqCertStore) && Abs() == ReplicaState.Send(old(Abs()), m)
    {
      hide Valid, Certs, ExecutionNow, ViewsNow, MarksNow, BallotsNow, LeaderNow;
      ghost var s := Abs();
      outbox := outbox + [m];
      assert Certs() == s.certs;
    }

    // -------------------------------------------------------------- Execution

    method Checkpoint(sn: u32)
      requires Valid()
      modifies this
      ensures Valid() && reqCertStore == old(reqCertStore)
      ensures Abs() == if sn % c.T == 0 then TakeCheckpoint(c, old(Abs()), sn) else old(Abs())
    {
      if sn % c.T != 0 { return; }
      StoreCheckpoint(sn);
      hide Valid, Certs, Abs;
      Send(Msg.Checkpoint(CheckpointMsg(sn, "", c.id)));
    }

    method StoreCheckpoint(sn: u32)
      requires Valid()
      modifies this
      ensures Valid() && reqCertStore == old(reqCertStore)
      ensures var s := old(Abs()); Abs() == s.(marks := s.marks.(chkpts := s.marks.chkpts[sn := ""]))
    {
      hide Valid, Certs, ExecutionNow, ViewsNow, BallotsNow, LeaderNow;
      ghost var s := Abs();
      chkpts := chkpts[sn := ""];
      assert Certs() == s.certs;
    }

    method CalPQset() returns (pset: map<u32, PrePrepareMsg>, qset: map<u32, PrepareQc>)
      ensures var ids := c.scanIds(currenView, Certs().Keys);
              pset == CalPset(Certs(), h, ids) && qset == CalQset(Certs(), h, ids)
    {
      assert Certs().Keys == reqCertStore.Keys;
      var ids := c.scanIds(currenView, reqCertStore.Keys);
      pset, qset := map[], map[];
      for i := 0 to |ids|
        invariant pset == CalPset(Certs(), h, ids[..i]) && qset == CalQset(Certs(), h, ids[..i])
      {
        assert ids[..i + 1][..i] == ids[..i];
        var idx := ids[i];
        if idx !in reqCertStore || idx.sn <= h { continue; }
        var cert := reqCertStore[idx];
        if cert.prePrepareStore.Some? { pset := pset[idx.sn := cert.prePrepareStore.value]; }
        if cert.prepareQc.Some? { qset := qset[idx.sn := cert.prepareQc.value]; }
      }
      assert ids[..|ids|] == ids;
    }

    /** Up to 2f+1 stored checkpoints that agree with the replica's own at h. */
    method CalCheckpoints() returns (cset: seq<CheckpointMsg>)
      ensures cset == CalCset(c.scanCheckpoints(currenView, CheckpointsAt(Abs().marks, h)),
                              if h in chkpts then chkpts[h] else "", 2 * c.F() + 1)
    {
      hide CalCset;
      var order := c.scanCheckpoints(currenView, if h in checkpointStore then checkpointStore[h] else {});
      cset := CollectCheckpoints(order, if h in chkpts then chkpts[h] else "", 2 * c.F() + 1);
    }

    method CalViewChange() returns (vc: ViewChangeMsg)
      ensures vc == ReportFor(c, Abs(), currenView)
    {
      hide Valid, Certs, CalPset, CalQset, CalCset;
      var pset, qset := CalPQset();
      var cset := CalCheckpoints();
      vc := ViewChangeMsg(currenView, h, cset, pset, qset, c.id);
    }

    method SendViewChange()
      requires Valid()
      modifies this
      ensures Valid() && reqCertStore == old(reqCertStore) && Abs() == Handlers.SendViewChange(c, old(Abs()))
    {
      hide Valid, Certs, Abs, ViewChangeOf, ReportFor;
      ghost var s := Abs();
      Fields();
      LeaveView();
      Fields();
      var vc := CalViewChange();
      SameReport(c, s, Abs());
      Send(ViewChange(vc));
    }

    method LeaveView()
      requires Valid()
      modifies this
      ensures Valid() && reqCertStore == old(reqCertStore)
      ensures var s := old(Abs()); var v := s.views.view + 1;
              Abs() == s.(views := s.views.(view := v, active := false, sent := s.views.sent + {v}))
    {
      hide Valid, Certs, ExecutionNow, MarksNow, BallotsNow, LeaderNow;
      ghost var s := Abs();
      ghost var v := s.views.(view := s.views.view + 1, active := false, sent := s.views.sent + {s.views.view + 1});
      var next := currenView + 1;
      currenView := next;
      activeView := false;
      viewChangeStage := viewChangeStage + {next};
      assert Certs() == s.certs;
      assert ViewsNow() == v;
    }

    method ExecuteRequest(id: MsgId)
      requires Valid()
      modifies this, reqCertStore.Values
      ensures Valid() && fresh(reqCertStore.Values - old(reqCertStore.Values))
      ensures Abs() == Handlers.ExecuteRequest(c, old(Abs()), id)
    {
      hide Valid, Certs, Abs, ExecuteNext, Buffer;
      BufferRequest(id);
      Fields();
      if lastExec < id.sn {
        while lastExec + 1 < MOD && lastExec + 1 in execReqBuffer && execReqBuffer[lastExec + 1] != Nil
              && lastExec + 1 in execReqIdBuffer
          invariant Valid() && fresh(reqCertStore.Values - old(reqCertStore.Values))
          invariant ExecuteAll(c, Abs()) == Handlers.ExecuteRequest(c, old(Abs()), id)
          decreases MOD - lastExec
        {
          Fields();
          ExecuteOne();
        }
        Fields();
      }
    }

    method BufferRequest(id: MsgId)
      requires Valid()
      modifies this
      ensures Valid() && fresh(reqCertStore.Values - old(reqCertStore.Values))
      ensures Abs() == Buffer(old(Abs()), id)
    {
      hide Valid, Certs, ViewsNow, MarksNow, BallotsNow, LeaderNow;
      var cert := GetCert(id);
      ghost var s := Abs();
      execReqIdBuffer := execReqIdBuffer[id.sn := id];
      execReqBuffer := execReqBuffer[id.sn := cert.reqBatchDigest];
      assert Certs() == s.certs;
    }

    /** One round of the loop: log the next request, take a checkpoint if one is due, and ask for the
        next view if automatic view changes are on and the time has come. */
    method ExecuteOne()
      requires Valid() && Executable(Abs().exec)
      modifies this, reqCertStore.Values
      ensures Valid() && fresh(reqCertStore.Values - old(reqCertStore.Values)) && lastExec == old(lastExec) + 1
      ensures Abs() == ExecuteNext(c, old(Abs()))
    {
      hide Valid, Certs, Abs, Handlers.SendViewChange;
      Fields();
      LogRequest();
      Fields();
      Checkpoint(lastExec);
      Fields();
      if lastExec == viewChangeSeqNumber && c.auto { SendViewChange(); }
      assert Abs() == ExecuteNext(c, old(Abs()));
      Fields();
    }

    method LogRequest()
      requires Valid() && Executable(Abs().exec)
      modifies this
      ensures Valid() && fresh(reqCertStore.Values - old(reqCertStore.Values))
      ensures Abs() == Touch(old(Abs()), old(execReqIdBuffer[lastExec + 1])).(exec := LogNext(old(Abs()).exec))
    {
      hide Valid, Certs, ViewsNow, MarksNow, BallotsNow, LeaderNow;
      var cert := GetCert(execReqIdBuffer[lastExec + 1]);
      ghost var s := Abs();
      log := log + [Executed(lastExec + 1, execReqIdBuffer[lastExec + 1], execReqBuffer[lastExec + 1])];
      lastExec := lastExec + 1;
      assert Certs() == s.certs;
    }

    // -------------------------------------------------------------- Stages of a certificate

    method CheckIfCommitted(id: MsgId)
      requires Valid()
      modifies this, reqCertStore.Values
      ensures Valid() && fresh(reqCertStore.Values - old(reqCertStore.Values))
      ensures Abs() == Handlers.CheckIfCommitted(c, old(Abs()), id)
    {
      hide Valid, Certs, Abs, Handlers.ExecuteRequest;
      ghost var s := Abs();
      var cert := GetCert(id);
      if cert.reqBatchStage == Prepared && cert.commitQc.Some? {
        if cert.prepareQc.None? || !Verify(TsKey, ForCommit(cert.prepareQc.value), cert.commitQc.value.sig) { return; }
        label before:
        cert.reqBatchStage := Committed;
        Wrote@before(id);
        PutAgain(s, id, cert.Value());
        ExecuteRequest(id);
      }
    }

    method CheckIfPrepared(id: MsgId)
      requires Valid()
      modifies this, reqCertStore.Values
      ensures Valid() && fresh(reqCertStore.Values - old(reqCertStore.Values))
      ensures Abs() == Handlers.CheckIfPrepared(c, old(Abs()), id)
    {
      hide Valid, Certs, Abs, Handlers.ExecuteRequest, Handlers.CheckIfCommitted;
      ghost var s := Abs();
      var cert := GetCert(id);
      label before:
      if cert.reqBatchStage == Received && cert.fastPrepareQc.Some? {
        cert.reqBatchStage := Committed;
        Wrote@before(id);
        PutAgain(s, id, cert.Value());
        ExecuteRequest(id);
        return;
      }
      if cert.reqBatchStage == Received && cert.prepareQc.Some? {
        cert.reqBatchStage := Prepared;
        Wrote@before(id);
        PutAgain(s, id, cert.Value());
        CheckIfCommitted(id);
      }
    }

    // -------------------------------------------------------------- Certificates arrive

    method HandlePrepareQc(pqc: PrepareQc)
      requires Valid()
      modifies this, reqCertStore.Values
      ensures Valid() && fresh(reqCertStore.Values - old(reqCertStore.Values))
      ensures Abs() == HandleSlowQc(c, old(Abs()), pqc)
    {
      hide Valid, Certs, Abs, Handlers.CheckIfPrepared, Handlers.SendViewChange;
      ghost var s := Abs();
      Fields();
      if !activeView { return; }
      if !InWindow(pqc.sn) { return; }
      if pqc.sender != Primary(currenView) {
        SendViewChange();
        return;
      }
      var id := MsgId(pqc.sn, pqc.view);
      var cert := GetCert(id);
      if cert.prepareQc.Some? { return; }
      if !Verify(TsKey, ForPrepare(SlowVote(pqc)), pqc.sig) { return; }
      label before:
      cert.prepareQc := Some(pqc);
      Wrote@before(id);
      PutAgain(s, id, cert.Value());
      CheckIfPrepared(id);
      SendCommitMsg(pqc);
    }

    method SendCommitMsg(pqc: PrepareQc)
      requires Valid()
      modifies this
      ensures Valid() && reqCertStore == old(reqCertStore) && Abs() == SendCommit(c, old(Abs()), pqc)
    {
      SignCommit(pqc);
      hide Valid, Certs, Abs;
      Send(Commit(CommitMsg(pqc, c.id, PartialSig(TsKey, ForCommit(pqc), c.id))));
    }

    ghost method SignCommit(pqc: PrepareQc)
      requires Valid()
      modifies this
      ensures Valid() && reqCertStore == old(reqCertStore)
      ensures Abs() == old(Abs()).(commitVotes := old(Abs()).commitVotes + {pqc})
    {
      hide Valid, Certs, ExecutionNow, ViewsNow, MarksNow, BallotsNow, LeaderNow;
      ghost var s := Abs();
      commitVotes := commitVotes + {pqc};
      assert Certs() == s.certs;
    }

    method HandleFastPrepareQc(fpqc: FastPrepareQc)
      requires Valid()
      modifies this, reqCertStore.Values
      ensures Valid() && fresh(reqCertStore.Values - old(reqCertStore.Values))
      ensures Abs() == HandleFastQc(c, old(Abs()), fpqc)
    {
      hide Valid, Certs, Abs, Handlers.CheckIfPrepared;
      ghost var s := Abs();
      Fields();
      if fpqc.sender != Primary(currenView) { return; }
      var id := MsgId(fpqc.sn, fpqc.view);
      var cert := GetCert(id);
      if cert.fastPrepareQc.Some? { return; }
      if !Verify(FastKey, ForPrepare(FastVote(fpqc)), fpqc.sig) { return; }
      label before:
      cert.fastPrepareQc := Some(fpqc);
      Wrote@before(id);
      PutAgain(s, id, cert.Value());
      CheckIfPrepared(id);
    }

    method HandleCommitQc(cqc: CommitQc)
      requires Valid()
      modifies this, reqCertStore.Values
      ensures Valid() && fresh(reqCertStore.Values - old(reqCertStore.Values))
      ensures Abs() == HandleFinalQc(c, old(Abs()), cqc)
    {
      hide Valid, Certs, Abs, Handlers.CheckIfCommitted, Handlers.SendViewChange;
      ghost var s := Abs();
      Fields();
      if !activeView { return; }
      if !InWindow(cqc.sn) { return; }
      if cqc.sender != Primary(currenView) {
        SendViewChange();
        return;
      }
      var id := MsgId(cqc.sn, cqc.view);
      var cert := GetCert(id);
      if cert.commitQc.Some? { return; }
      label before:
      cert.commitQc := Some(cqc);
      Wrote@before(id);
      PutAgain(s, id, cert.Value());
      if cert.prepareQc.None? { return; }
      if !Verify(TsKey, ForCommit(cert.prepareQc.value), cqc.sig) { return; }
      CheckIfCommitted(id);
    }

    // -------------------------------------------------------------- Prepare votes

    method HandlePrepareMsg(pm: PrepareMsg)
      requires Valid()
      modifies this, reqCertStore.Values
      ensures Valid() && fresh(reqCertStore.Values - old(reqCertStore.Values))
      ensures Abs() == HandlePrepare(c, old(Abs()), pm)
    {
      hide Valid, Certs, Abs, Handlers.HandlePrepareVote;
      ghost var s := Abs();
      Fields();
      if !activeView { return; }
      if !InWindow(pm.vote.sn) { return; }
      var id := MsgId(pm.vote.sn, currenView);
      var cert := GetCert(id);
      if pm.sender in cert.prePareStore { return; }
      label before:
      cert.prePareStore := cert.prePareStore[pm.sender := pm];
      Wrote@before(id);
      PutAgain(s, id, cert.Value());
      HandlePrepareVote(pm);
    }

    method HandlePrepareVote(pm: PrepareMsg)
      requires Valid()
      modifies this, reqCertStore.Values
      ensures Valid() && fresh(reqCertStore.Values - old(reqCertStore.Values))
      ensures Abs() == Handlers.HandlePrepareVote(c, old(Abs()), pm)
    {
      hide Valid, Certs, Abs, RecordVote, Handlers.CheckIfPrepareQc, IssueFastQc;
      var id := MsgId(pm.vote.sn, pm.vote.view);
      var batchString := pm.vote.digest.Key();
      ghost var s := Abs();
      StoreShares(id, batchString, pm);
      LeaderFields();
      RecordKeepsLeader(s, id, batchString, pm);
      if id !in prepareTimer {
        Panic();
        return;
      }
      if prepareTimer[id] {
        CheckIfPrepareQc(id, batchString);
      } else {
        var cert := GetCert(id);
        TouchedAlready(s, id, batchString, pm);
        LeaderFields();
        if |SharesOf(fastPartialSigInPrepare, (id, batchString))| >= c.fastQuorum && !cert.prepareQcStage {
          IssueFastPrepareQc(id, batchString);
        }
      }
    }

    method StoreShares(id: MsgId, batchString: Digest, pm: PrepareMsg)
      requires Valid()
      modifies this
      ensures Valid() && fresh(reqCertStore.Values - old(reqCertStore.Values))
      ensures Abs() == RecordVote(old(Abs()), id, batchString, pm)
    {
      hide Valid, Certs, ExecutionNow, ViewsNow, MarksNow, LeaderNow, SharesOf;
      var cert := GetCert(id);
      ghost var s := Abs();
      var k := (id, batchString);
      partialSigInPrepare := partialSigInPrepare[k := SharesOf(partialSigInPrepare, k)[pm.sender := pm.sig]];
      fastPartialSigInPrepare := fastPartialSigInPrepare[k := SharesOf(fastPartialSigInPrepare,
                                                                       k)[pm.sender := pm.fastSig]];
      assert Certs() == s.certs;
    }

    method Panic()
      requires Valid()
      modifies this
      ensures Valid() && reqCertStore == old(reqCertStore) && Abs() == old(Abs()).(panicked := true)
    {
      hide Valid, Certs, ExecutionNow, ViewsNow, MarksNow, BallotsNow, LeaderNow;
      ghost var s := Abs();
      panicked := true;
      assert Certs() == s.certs;
    }

    method CheckIfPrepareQc(id: MsgId, batchString: Digest)
      requires Valid()
      modifies this, reqCertStore.Values
      ensures Valid() && fresh(reqCertStore.Values - old(reqCertStore.Values))
      ensures Abs() == Handlers.CheckIfPrepareQc(c, old(Abs()), id, batchString)
    {
      hide Valid, Certs, Abs, SharesOf, Recoverable, Recover;
      ghost var s := Abs();
      LeaderFields();
      var cert := GetCert(id);
      LeaderFields();
      if |SharesOf(partialSigInPrepare, (id, batchString))| >= 2 * c.F() + 1 && !cert.prepareQcStage {
        label before:
        cert.prepareQcStage := true;
        Wrote@before(id);
        PutAgain(s, id, cert.Value());
        LeaderFields();
        var vote := PrepareVote(id.sn, id.view, batchString);
        var quorum := 2 * c.F() + 1;
        if !Recoverable(SharesOf(partialSigInPrepare, (id, batchString)), TsKey, ForPrepare(vote), quorum) {
          Panic();
          return;
        }
        Send(SlowQc(PrepareQc(id.sn, batchString, id.view, c.id, Recover(c, TsKey, ForPrepare(vote), quorum), clock)));
      }
    }

    method IssueFastPrepareQc(id: MsgId, batchString: Digest)
      requires Valid()
      modifies this, reqCertStore.Values
      ensures Valid() && fresh(reqCertStore.Values - old(reqCertStore.Values))
      ensures Abs() == IssueFastQc(c, old(Abs()), id, batchString)
    {
      hide Valid, Certs, Abs, SharesOf, Recoverable, Recover;
      ghost var s := Abs();
      var cert := GetCert(id);
      label before:
      cert.prepareQcStage := true;
      Wrote@before(id);
      PutAgain(s, id, cert.Value());
      LeaderFields();
      var vote := PrepareVote(id.sn, id.view, batchString);
      if !Recoverable(SharesOf(fastPartialSigInPrepare, (id, batchString)), FastKey, ForPrepare(vote), c.fastQuorum) {
        Panic();
        return;
      }
      Send(FastQc(FastPrepareQc(id.sn, batchString, id.view, c.id,
                                Recover(c, FastKey, ForPrepare(vote), c.fastQuorum))));
    }

    // -------------------------------------------------------------- Commit votes

    method HandleCommitMsg(cmsg: CommitMsg)
      requires Valid()
      modifies this, reqCertStore.Values
      ensures Valid() && fresh(reqCertStore.Values - old(reqCertStore.Values))
      ensures Abs() == HandleCommit(c, old(Abs()), cmsg)
    {
      hide Valid, Certs, Abs, Handlers.HandleCommitVote;
      ghost var s := Abs();
      Fields();
      if !activeView { return; }
      if !InWindow(cmsg.vote.sn) { return; }
      var id := MsgId(cmsg.vote.sn, cmsg.vote.view);
      var cert := GetCert(id);
      if cmsg.sender in cert.commitStore { return; }
      label before:
      cert.commitStore := cert.commitStore[cmsg.sender := cmsg];
      Wrote@before(id);
      PutAgain(s, id, cert.Value());
      HandleCommitVote(cmsg);
    }

    method HandleCommitVote(cm: CommitMsg)
      requires Valid()
      modifies this, reqCertStore.Values
      ensures Valid() && fresh(reqCertStore.Values - old(reqCertStore.Values))
      ensures Abs() == Handlers.HandleCommitVote(c, old(Abs()), cm)
    {
      hide Valid, Certs, Abs, SharesOf, Recoverable, Recover;
      var id := MsgId(cm.vote.sn, cm.vote.view);
      ghost var s := Abs();
      StoreCommitShare(id, cm);
      LeaderFields();
      ghost var s1 := Abs();
      var cert := GetCert(id);
      TouchTwice(s, id);
      LeaderFields();
      if |SharesOf(partialSigInCommit, (id, cm.vote))| >= 2 * c.F() + 1 && !cert.commitQcStage {
        var quorum := 2 * c.F() + 1;
        if !Recoverable(SharesOf(partialSigInCommit, (id, cm.vote)), TsKey, ForCommit(cm.vote), quorum) {
          Panic();
          return;
        }
        var commitQcMsg := CommitQc(id.sn, cm.vote.digest, id.view, c.id,
                                    Recover(c, TsKey, ForCommit(cm.vote), quorum));
        label before:
        cert.commitQcStage := true;
        Wrote@before(id);
        PutAgain(s1, id, cert.Value());
        Send(FinalQc(commitQcMsg));
      }
    }

    method StoreCommitShare(id: MsgId, cm: CommitMsg)
      requires Valid()
      modifies this
      ensures Valid() && fresh(reqCertStore.Values - old(reqCertStore.Values))
      ensures Abs() == RecordCommit(old(Abs()), id, cm)
    {
      hide Valid, Certs, ExecutionNow, ViewsNow, MarksNow, LeaderNow, SharesOf;
      var cert := GetCert(id);
      ghost var s := Abs();
      var k := (id, cm.vote);
      partialSigInCommit := partialSigInCommit[k := SharesOf(partialSigInCommit, k)[cm.sender := cm.sig]];
      assert Certs() == s.certs;
    }

    // -------------------------------------------------------------- Pre-prepares

    method CreatePrepareMsg(sn: u32) returns (pm: PrepareMsg)
      requires Valid()
      modifies this
      ensures Valid() && fresh(reqCertStore.Values - old(reqCertStore.Values))
      ensures pm == PrepareFor(c, OwnVote(old(Abs()), sn)) && Abs() == SignVote(old(Abs()), OwnVote(old(Abs()), sn))
    {
      hide Valid, Certs, ExecutionNow, MarksNow, BallotsNow, LeaderNow;
      var cert := GetCert(MsgId(sn, currenView));
      ghost var s := Abs();
      var vote := PrepareVote(sn, currenView, cert.reqBatchDigest);
      votes := votes + {vote};
      assert Certs() == s.certs;
      pm := PrepareMsg(vote, c.id, PartialSig(TsKey, ForPrepare(vote), c.id),
                       PartialSig(FastKey, ForPrepare(vote), c.id));
    }

    /** The replica's own vote: a primary handles it on the spot, a backup sends it to the primary. */
    method CastVote(sn: u32)
      requires Valid()
      modifies this, reqCertStore.Values
      ensures Valid() && fresh(reqCertStore.Values - old(reqCertStore.Values))
      ensures Abs() == Handlers.CastVote(c, old(Abs()), sn)
    {
      hide Valid, Certs, Abs, SignVote, PrepareFor, HandlePrepare;
      Fields();
      var self := c.id == Primary(currenView);
      var pm := CreatePrepareMsg(sn);
      if self {
        HandlePrepareMsg(pm);
      } else {
        Send(Prepare(pm));
      }
    }

    method HandlePrePrepareMsg(ppm: PrePrepareMsg)
      requires Valid()
      modifies this, reqCertStore.Values
      ensures Valid() && fresh(reqCertStore.Values - old(reqCertStore.Values))
      ensures Abs() == HandlePrePrepare(c, old(Abs()), ppm)
    {
      hide Valid, Certs, Abs, Handlers.CheckIfPrepared, Handlers.SendViewChange, Handlers.CastVote, StorePrePrepare;
      ghost var s := Abs();
      Fields();
      if !activeView { return; }
      if ppm.sn > viewChangeSeqNumber && c.auto {
        SendViewChange();
        return;
      }
      if ppm.sender != Primary(currenView) {
        SendViewChange();
        return;
      }
      if !InWindow(ppm.sn) { return; }
      var id := MsgId(ppm.sn, ppm.view);
      var cert := GetCert(id);
      if !cert.reqBatchDigest.Empty() {
        if cert.reqBatchDigest != ppm.digest {
          SendViewChange();
          return;
        }
      }
      KeepPrePrepare(id, ppm);
      StoreTouched(s, id, ppm);
      CheckIfPrepared(id);
      CastVote(ppm.sn);
    }

    method KeepPrePrepare(id: MsgId, ppm: PrePrepareMsg)
      requires Valid()
      modifies this, reqCertStore.Values
      ensures Valid() && fresh(reqCertStore.Values - old(reqCertStore.Values))
      ensures Abs() == StorePrePrepare(old(Abs()), id, ppm)
    {
      hide Valid, Certs, Abs;
      ghost var s := Abs();
      var cert := GetCert(id);
      label before:
      cert.reqBatchStage := Received;
      cert.reqBatchDigest := ppm.digest;
      cert.prePrepareStore := Some(ppm);
      Wrote@before(id);
      PutAgain(s, id, cert.Value());
      KeepBatch(id, ppm.batch);
    }

    method KeepBatch(id: MsgId, batch: RequestBatch)
      requires Valid()
      modifies this
      ensures Valid() && reqCertStore == old(reqCertStore)
      ensures Abs() == old(Abs()).(batches := old(Abs()).batches[id := batch])
    {
      hide Valid, Certs, ExecutionNow, ViewsNow, MarksNow, BallotsNow, LeaderNow;
      ghost var s := Abs();
      reqBatch := reqBatch[id := batch];
      assert Certs() == s.certs;
    }

    // -------------------------------------------------------------- Proposing

    method SendBatch(batch: RequestBatch)
      requires Valid()
      modifies this
      ensures Valid() && reqCertStore == old(reqCertStore) && Abs() == Propose(c, old(Abs()), batch)
    {
      hide Valid, Certs, Abs, StartTimer;
      Fields();
      if activeView && Primary(currenView) == c.id { BroadcastPrePrepareMsg(batch); }
    }

    method BroadcastPrePrepareMsg(batch: RequestBatch)
      requires Valid() && activeView && Primary(currenView) == c.id
      modifies this
      ensures Valid() && reqCertStore == old(reqCertStore) && Abs() == Propose(c, old(Abs()), batch)
    {
      hide Valid, Certs, Abs, StartTimer;
      ghost var s := Abs();
      Fields();
      if !InWindow(nextSN) || nextSN > Add(h, c.K / 2) { return; }
      if nextSN > viewChangeSeqNumber && c.auto { return; }
      var ppm := CreatePrePrepareMsg(batch);
      StartFastTimer(MsgId(ppm.sn, ppm.view), ppm.digest);
      Send(PrePrepare(ppm));
    }

    method CreatePrePrepareMsg(batch: RequestBatch) returns (ppm: PrePrepareMsg)
      requires Valid()
      modifies this
      ensures Valid() && reqCertStore == old(reqCertStore)
      ensures ppm == PrePrepareMsg(old(Abs()).leader.nextSN, Hash(batch), batch, old(Abs()).views.view, c.id)
      ensures Abs() == old(Abs()).(leader := old(Abs()).leader.(nextSN := Add(old(Abs()).leader.nextSN, 1)))
    {
      hide Valid, Certs, ExecutionNow, MarksNow, BallotsNow, Add;
      ghost var s := Abs();
      ppm := PrePrepareMsg(nextSN, Hash(batch), batch, currenView, c.id);
      nextSN := Add(nextSN, 1);
      assert Certs() == s.certs;
    }

    method StartFastTimer(id: MsgId, batchString: Digest)
      requires Valid()
      modifies this
      ensures Valid() && reqCertStore == old(reqCertStore) && Abs() == StartTimer(old(Abs()), id, batchString)
    {
      hide Valid, Certs, ExecutionNow, ViewsNow, MarksNow, BallotsNow;
      ghost var s := Abs();
      prepareTimer := prepareTimer[id := false];
      armed := armed + {(id, batchString)};
      assert Certs() == s.certs;
    }

    /** The goroutine that waits for a fast-path timer. */
    method FastTimerExpires(id: MsgId, batchString: Digest)
      requires Valid() && (id, batchString) in armed
      modifies this, reqCertStore.Values
      ensures Valid() && fresh(reqCertStore.Values - old(reqCertStore.Values))
      ensures Abs() == FireTimer(c, old(Abs()), id, batchString)
    {
      hide Valid, Certs, Abs, Handlers.CheckIfPrepareQc;
      LeaderFields();
      StopTimer(id, batchString);
      CheckIfPrepareQc(id, batchString);
    }

    method StopTimer(id: MsgId, batchString: Digest)
      requires Valid()
      modifies this
      ensures Valid() && reqCertStore == old(reqCertStore)
      ensures var s := old(Abs());
              Abs() == s.(leader := s.leader.(timers := s.leader.timers[id := true],
                                              armed := s.leader.armed - {(id, batchString)},
                                              fired := s.leader.fired[id := batchString]))
    {
      hide Valid, Certs, ExecutionNow, ViewsNow, MarksNow, BallotsNow;
      ghost var s := Abs();
      prepareTimer := prepareTimer[id := true];
      armed := armed - {(id, batchString)};
      fired := fired[id := batchString];
      assert Certs() == s.certs;
    }

    // -------------------------------------------------------------- Checkpoints

    method RecvCheckpoint(chkpt: CheckpointMsg)
      requires Valid()
      modifies this
      ensures Valid() && reqCertStore == old(reqCertStore) && Abs() == HandleCheckpoint(c, old(Abs()), chkpt)
    {
      hide Valid, Certs, Abs, Matching, StateDigests;
      Fields();
      LeaderFields();
      if !InWindow(chkpt.sn) { return; }
      KeepCheckpoint(chkpt);
      LeaderFields();
      var matching, diffValues := CountCheckpoints(checkpointStore[chkpt.sn], chkpt.digest);
      if |diffValues| > c.F() + 1 { return; }
      if matching < 2 * c.n / 3 + 1 { return; }
      MoveWatermarks(chkpt.sn);
    }

    method KeepCheckpoint(chkpt: CheckpointMsg)
      requires Valid()
      modifies this
      ensures Valid() && reqCertStore == old(reqCertStore)
      ensures var s := old(Abs());
              Abs() == s.(marks := s.marks.(store := s.marks.store[chkpt.sn := CheckpointsAt(s.marks,
                                                                                             chkpt.sn) + {chkpt}]))
    {
      hide Valid, Certs, ExecutionNow, ViewsNow, BallotsNow, LeaderNow;
      ghost var s := Abs();
      var known := if chkpt.sn in checkpointStore then checkpointStore[chkpt.sn] else {};
      checkpointStore := checkpointStore[chkpt.sn := known + {chkpt}];
      assert Certs() == s.certs;
    }

    method MoveWatermarks(sn: u32)
      requires Valid()
      modifies this
      ensures Valid() && reqCertStore == old(reqCertStore)
      ensures Abs() == old(Abs()).(marks := old(Abs()).marks.(h := sn))
    {
      hide Valid, Certs, ExecutionNow, ViewsNow, BallotsNow, LeaderNow;
      ghost var s := Abs();
      h := sn;
      assert Certs() == s.certs;
    }

    // -------------------------------------------------------------- View change: receiving

    method RecvViewChange(vc: ViewChangeMsg)
      requires Valid()
      modifies this, reqCertStore.Values
      ensures Valid() && fresh(reqCertStore.Values - old(reqCertStore.Values))
      ensures Abs() == HandleViewChange(c, old(Abs()), vc)
    {
      hide Valid, Certs, Abs, CorrectViewChange, Handlers.CatchUp, Handlers.SendNewView;
      Fields();
      ViewFields();
      if vc.view < currenView { return; }
      var ok := CheckViewChange(c, vc);
      if !ok { return; }
      if Vcidx(vc.view, vc.sender) in viewChangeStore { return; }
      KeepViewChange(vc);
      CatchUp();
      Fields();
      ViewFields();
      var quorum := CountForView(viewChangeStore, currenView);
      if !activeView && vc.view == currenView && quorum >= c.viewChangeQuorum && Primary(vc.view) == c.id {
        SendNewView();
      }
    }

    method KeepViewChange(vc: ViewChangeMsg)
      requires Valid()
      modifies this
      ensures Valid() && reqCertStore == old(reqCertStore)
      ensures var s := old(Abs());
              Abs() == s.(views := s.views.(store := s.views.store[Vcidx(vc.view, vc.sender) := vc]))
    {
      hide Valid, Certs, ExecutionNow, MarksNow, BallotsNow, LeaderNow;
      ghost var s := Abs();
      viewChangeStore := viewChangeStore[Vcidx(vc.view, vc.sender) := vc];
      assert Certs() == s.certs;
    }

    /** f+1 replicas ahead of this one: follow them to the smallest of their views. */
    method CatchUp()
      requires Valid()
      modifies this
      ensures Valid() && reqCertStore == old(reqCertStore) && Abs() == Handlers.CatchUp(c, old(Abs()))
    {
      hide Valid, Certs, Abs, Handlers.SendViewChange, Ahead, Senders, MinView;
      ViewFields();
      ghost var s := Abs();
      NobodyAhead(s.views);
      var replicas, minView := ScanAhead(Views(currenView, activeView, viewChangeStore, viewChangeStage, newViewStore,
                                               newViewStage));
      if |replicas| >= c.F() + 1 {
        SetView(minView - 1);
        SendViewChange();
      }
    }

    method SetView(view: nat)
      requires Valid()
      modifies this
      ensures Valid() && reqCertStore == old(reqCertStore)
      ensures Abs() == old(Abs()).(views := old(Abs()).views.(view := view))
    {
      hide Valid, Certs, ExecutionNow, MarksNow, BallotsNow, LeaderNow;
      ghost var s := Abs();
      currenView := view;
      assert Certs() == s.certs;
    }

    // -------------------------------------------------------------- New view

    method SendNewView()
      requires Valid()
      modifies this, reqCertStore.Values
      ensures Valid() && fresh(reqCertStore.Values - old(reqCertStore.Values))
      ensures Abs() == Handlers.SendNewView(c, old(Abs()))
    {
      hide Valid, Certs, Abs, Handlers.ProcessNewView, MaxCheckpoint, Assign, GetViewChangeMsgs,
           Handlers.PublishNewView;
      ViewFields();
      if currenView in newViewStore { return; }
      var order := c.scanViewChanges(currenView, viewChangeStore.Keys);
      var vset := CollectViewChanges(viewChangeStore, currenView, order);
      var initialS, found := SelectInitialSequence(vset);
      if initialS == 0 || !found { return; }
      if Diverges(c, initialS) {
        Panic();
        return;
      }
      var msgList, ok := AssignSequenceNumbers(c, vset, initialS);
      if !ok { return; }
      if currenView in newViewStage { return; }
      PublishNewView(NewViewMsg(currenView, vset, msgList, c.id));
      ProcessNewView();
    }

    method PublishNewView(nv: NewViewMsg)
      requires Valid()
      modifies this
      ensures Valid() && reqCertStore == old(reqCertStore) && Abs() == Handlers.PublishNewView(c, old(Abs()), nv)
    {
      hide Valid, Certs, Abs;
      Send(NewView(nv));
      KeepNewView(nv);
      MarkNewView(nv.view);
    }

    method KeepNewView(nv: NewViewMsg)
      requires Valid()
      modifies this
      ensures Valid() && reqCertStore == old(reqCertStore)
      ensures var s := old(Abs()); Abs() == s.(views := s.views.(newViews := s.views.newViews[nv.view := nv]))
    {
      hide Valid, Certs, ExecutionNow, MarksNow, BallotsNow, LeaderNow;
      ghost var s := Abs();
      newViewStore := newViewStore[nv.view := nv];
      assert Certs() == s.certs;
    }

    method MarkNewView(view: nat)
      requires Valid()
      modifies this
      ensures Valid() && reqCertStore == old(reqCertStore)
      ensures var s := old(Abs()); Abs() == s.(views := s.views.(newViewsSent := s.views.newViewsSent + {view}))
    {
      hide Valid, Certs, ExecutionNow, MarksNow, BallotsNow, LeaderNow;
      ghost var s := Abs();
      newViewStage := newViewStage + {view};
      assert Certs() == s.certs;
    }

    method RecvNewView(nv: NewViewMsg)
      requires Valid()
      modifies this, reqCertStore.Values
      ensures Valid() && fresh(reqCertStore.Values - old(reqCertStore.Values))
      ensures Abs() == HandleNewView(c, old(Abs()), nv)
    {
      hide Valid, Certs, Abs, Handlers.ProcessNewView;
      ViewFields();
      if !(nv.view > 0 && nv.view >= currenView && Primary(nv.view) == nv.sender && nv.view !in newViewStore) {
        return;
      }
      KeepNewView(nv);
      ProcessNewView();
    }

    method ProcessNewView()
      requires Valid()
      modifies this, reqCertStore.Values
      ensures Valid() && fresh(reqCertStore.Values - old(reqCertStore.Values))
      ensures Abs() == Handlers.ProcessNewView(c, old(Abs()))
    {
      hide Valid, Certs, Abs, Handlers.AcceptEntry, Sorted, Handlers.EnterView;
      ViewFields();
      if currenView !in newViewStore { return; }
      if activeView { return; }
      var nv := newViewStore[currenView];
      EnterView();
      ghost var s1 := Abs();
      var keySort := GetMapkey(nv.oset);
      SortedMembers(nv.oset.Keys);
      for i := 0 to |keySort|
        invariant Valid() && fresh(reqCertStore.Values - old(reqCertStore.Values))
        invariant Abs() == AcceptAll(c, s1, nv, keySort[..i])
      {
        assert keySort[..i + 1][..i] == keySort[..i];
        Fields();
        if panicked || keySort[i] <= h { continue; }
        AcceptEntry(nv, keySort[i]);
      }
      assert keySort[..|keySort|] == keySort;
    }

    method EnterView()
      requires Valid()
      modifies this
      ensures Valid() && reqCertStore == old(reqCertStore) && Abs() == Handlers.EnterView(c, old(Abs()))
    {
      hide Valid, Certs, Abs, Add;
      Activate();
      Fields();
      Renumber(Add(h, c.K + 1));
    }

    method Activate()
      requires Valid()
      modifies this
      ensures Valid() && reqCertStore == old(reqCertStore)
      ensures Abs() == old(Abs()).(views := old(Abs()).views.(active := true))
    {
      hide Valid, Certs, ExecutionNow, MarksNow, BallotsNow, LeaderNow;
      ghost var s := Abs();
      activeView := true;
      assert Certs() == s.certs;
    }

    /** The next number to propose, and the one after which to change the view (a period of one). */
    method Renumber(next: u32)
      requires Valid()
      modifies this
      ensures Valid() && reqCertStore == old(reqCertStore)
      ensures var s := old(Abs());
              Abs() == s.(leader := s.leader.(nextSN := next, viewChangeSeq := Add(Add(next, -1), c.K + c.T / 2)))
    {
      hide Valid, Certs, ExecutionNow, ViewsNow, MarksNow, BallotsNow, Add;
      ghost var s := Abs();
      nextSN := next;
      viewChangeSeqNumber := Add(Add(next, -1), c.K + c.T / 2);
      assert Certs() == s.certs;
    }

    /** One entry of the new view: as if its pre-prepare had arrived. */
    method AcceptEntry(nv: NewViewMsg, sn: u32)
      requires Valid() && sn in nv.oset
      modifies this, reqCertStore.Values
      ensures Valid() && fresh(reqCertStore.Values - old(reqCertStore.Values))
      ensures Abs() == Handlers.AcceptEntry(c, old(Abs()), nv, sn)
    {
      hide Valid, Certs, Abs, HandlePrePrepare, StartTimer;
      Fields();
      var prePrepare := PrePrepareMsg(sn, Hash(nv.oset[sn]), nv.oset[sn], currenView, nv.sender);
      if c.id == Primary(currenView) { StartFastTimer(MsgId(sn, currenView), prePrepare.digest); }
      HandlePrePrepareMsg(prePrepare);
    }

    // -------------------------------------------------------------- Dispatch

    /** StartPBFT's dispatch of a message whose signature has been checked. */
    method HandleMessage(m: Msg)
      requires Valid()
      modifies this, reqCertStore.Values
      ensures Valid() && fresh(reqCertStore.Values - old(reqCertStore.Values))
      ensures Abs() == Dispatch(c, old(Abs()), m)
    {
      hide Valid, Certs, Abs, HandlePrePrepare, HandlePrepare, HandleCommit, HandleSlowQc, HandleFastQc,
           HandleFinalQc,
           HandleCheckpoint, HandleViewChange, HandleNewView;
      match m
      case PrePrepare(pp) => HandlePrePrepareMsg(pp);
      case Prepare(pm) => HandlePrepareMsg(pm);
      case Commit(cm) => HandleCommitMsg(cm);
      case SlowQc(q) => HandlePrepareQc(q);
      case FastQc(q) => HandleFastPrepareQc(q);
      case FinalQc(q) => HandleCommitQc(q);
      case Checkpoint(ck) => RecvCheckpoint(ck);
      case ViewChange(vc) => RecvViewChange(vc);
      case NewView(nv) => RecvNewView(nv);
    }

    /** Any event; a fast-path timer can only expire if it is armed. So whatever arrives, the
        invariant of Invariants is kept, and what has been stored, signed, sent and executed only grows. */
    method HandleEvent(now: int, e: Event)
      requires Valid() && !panicked && (e.FastTimeout? ==> (e.id, e.k) in armed)
      modifies this, reqCertStore.Values
      ensures Valid() && fresh(reqCertStore.Values - old(reqCertStore.Values))
      ensures Abs() == Step(c, old(Abs()), now, e)
      ensures c.Scans() && Inv(c, old(Abs())) ==> Kept(c, old(Abs()), Abs())
    {
      hide Valid, Certs, Abs, Dispatch, Propose, FireTimer, Handlers.SendViewChange, Settings.Scans, Inv, Evolves;
      ghost var s := Abs();
      Fields();
      LeaderFields();
      ReadClock(now);
      LeaderFields();
      match e {
        case Deliver(m) => HandleMessage(m);
        case Batch(b) => SendBatch(b);
        case FastTimeout(id, k) => FastTimerExpires(id, k);
        case ViewTimeout => SendViewChange();
      }
      if c.Scans() && Inv(c, s) { StepKeeps(c, s, now, e); }
    }

    method ReadClock(now: int)
      requires Valid()
      modifies this
      ensures Valid() && reqCertStore == old(reqCertStore) && Abs() == old(Abs()).(clock := now)
    {
      hide Valid, Certs, ExecutionNow, ViewsNow, MarksNow, BallotsNow, LeaderNow;
      ghost var s := Abs();
      clock := now;
      assert Certs() == s.certs;
    }
  }

  lemma RecordKeepsLeader(s: State, id: MsgId, k: Digest, pm: PrepareMsg)
    ensures RecordVote(s, id, k, pm).leader == s.leader
  {}

  lemma TouchedAlready(s: State, id: MsgId, k: Digest, pm: PrepareMsg)
    ensures Touch(RecordVote(s, id, k, pm), id) == RecordVote(s, id, k, pm)
  {
    TouchTwice(s, id);
    assert Touch(RecordVote(s, id, k, pm), id).certs == RecordVote(s, id, k, pm).certs;
  }

  lemma TouchTwice(s: State, id: MsgId)
    ensures Touch(Touch(s, id), id) == Touch(s, id)
  {
    assert Touch(Touch(s, id), id).certs == Touch(s, id).certs;
  }

  lemma StoreTouched(s: State, id: MsgId, pp: PrePrepareMsg)
    ensures StorePrePrepare(Touch(s, id), id, pp) == StorePrePrepare(s, id, pp)
  {
    PutAgain(s, id, CertOf(s, id).(stage := Received, digest := pp.digest, prePrepare := Some(pp)));
  }

  lemma PutAgain(s: State, id: MsgId, cert: Cert)
    ensures PutCert(Touch(s, id), id, cert) == PutCert(s, id, cert)
  {
    assert s.certs[id := CertOf(s, id)][id := cert] == s.certs[id := cert];
  }

  /** The view-change message for view v. */
  function ReportFor(c: Config, s: State, v: nat): ViewChangeMsg {
    var h := s.marks.h;
    var ids := c.scanIds(v, s.certs.Keys);
    var order := c.scanCheckpoints(v, CheckpointsAt(s.marks, h));
    var digest := if h in s.marks.chkpts then s.marks.chkpts[h] else "";
    ViewChangeMsg(v, h, CalCset(order, digest, 2 * c.F() + 1), CalPset(s.certs, h, ids), CalQset(s.certs, h, ids), c.id)
  }

  lemma SameReport(c: Config, s: State, t: State)
    requires t.certs == s.certs && t.marks == s.marks
    ensures ReportFor(c, t, s.views.view + 1) == ViewChangeOf(c, s)
  {}
}
