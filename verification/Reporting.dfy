/** What a view-change says, and which messages a replica takes in: exactly. */
module Reporting {
  import opened Types
  import opened ReplicaState
  import opened Assignment
  import opened Handlers
  import opened Invariants
  import opened Preservation
  import opened Frames
  import opened Delivery
  import opened Agreement
  import opened MixedPaths
  import opened Strays

  // ---------------------------------------------------------------- The view-change sent

  /** The checkpoints stored for the watermark that announce the replica's own state there. */
  function Supporting(s: State): set<CheckpointMsg> {
    var own := if s.marks.h in s.marks.chkpts then s.marks.chkpts[s.marks.h] else "";
    set ck | ck in CheckpointsAt(s.marks, s.marks.h) && ck.digest == own
  }

  ghost predicate Distinct<A>(order: seq<A>) { forall i, j :: 0 <= i < j < |order| ==> order[i] != order[j] }

  /** One pre-prepare for every number above h that some entry has one for, and no other. */
  ghost predicate PsetComplete(certs: map<MsgId, Cert>, h: u32, pset: map<u32, PrePrepareMsg>) {
    && (forall sn: u32 :: sn in pset <==>
          h < sn && exists id :: id in certs && id.sn == sn && certs[id].prePrepare.Some?)
    && (forall sn | sn in pset :: exists id :: id in certs && id.sn == sn && certs[id].prePrepare == Some(pset[sn]))
  }

  /** And one certificate likewise. */
  ghost predicate QsetComplete(certs: map<MsgId, Cert>, h: u32, qset: map<u32, PrepareQc>) {
    && (forall sn: u32 :: sn in qset <==>
          h < sn && exists id :: id in certs && id.sn == sn && certs[id].prepareQc.Some?)
    && (forall sn | sn in qset :: exists id :: id in certs && id.sn == sn && certs[id].prepareQc == Some(qset[sn]))
  }

  /** Everything the replica holds above its watermark, one entry a number, and as many of the checkpoints
      behind the watermark as a quorum takes. */
  ghost predicate ReportsAll(c: Config, s: State, m: ViewChangeMsg) {
    && m.view == s.views.view + 1 && m.sender == c.id && m.h == s.marks.h
    && PsetComplete(s.certs, s.marks.h, m.pset) && QsetComplete(s.certs, s.marks.h, m.qset)
    && Distinct(m.cset) && (forall ck | ck in m.cset :: ck in Supporting(s))
    && |m.cset| == (if |Supporting(s)| <= 2 * (c.n / 3) + 1 then |Supporting(s)| else 2 * (c.n / 3) + 1)
  }

  function Agreeing(order: seq<CheckpointMsg>, d: string): set<CheckpointMsg> {
    set ck | ck in order && ck.digest == d
  }

  lemma AgreeingNext(order: seq<CheckpointMsg>, d: string)
    requires order != [] && Distinct(order)
    ensures Distinct(order[1..]) && order[0] !in Agreeing(order[1..], d)
    ensures Agreeing(order, d) == if order[0].digest == d then Agreeing(order[1..], d) + {order[0]}
                                  else Agreeing(order[1..], d)
  {
    assert order == [order[0]] + order[1..];
  }

  lemma {:induction false} CollectsUpTo(order: seq<CheckpointMsg>, d: string, limit: nat)
    requires Distinct(order)
    ensures var r := CalCset(order, d, limit);
            && Distinct(r) && (forall ck | ck in r :: ck in Agreeing(order, d))
            && |r| == (if |Agreeing(order, d)| <= limit then |Agreeing(order, d)| else limit)
  {
    hide Agreeing;
    if order == [] {
      NoneAgree(d);
    } else {
      AgreeingNext(order, d);
      if limit > 0 { CollectsUpTo(order[1..], d, if order[0].digest == d then limit - 1 else limit); }
    }
  }

  lemma NoneAgree(d: string)
    ensures Agreeing([], d) == {}
  {}

  lemma OwnReport(c: Config, s: State)
    requires c.Scans()
    ensures ReportsAll(c, s, ViewChangeOf(c, s))
  {
    hide CalPset, CalQset, CalCset, Distinct, Settings.Scans, PsetComplete, QsetComplete;
    var v := s.views.view + 1;
    var ids := c.scanIds(v, s.certs.Keys);
    var order := c.scanCheckpoints(v, CheckpointsAt(s.marks, s.marks.h));
    var own := if s.marks.h in s.marks.chkpts then s.marks.chkpts[s.marks.h] else "";
    ScansBoth(c, v, s.certs.Keys, CheckpointsAt(s.marks, s.marks.h));
    PsetCompleted(s.certs, s.marks.h, ids);
    QsetCompleted(s.certs, s.marks.h, ids);
    CollectsUpTo(order, own, 2 * c.F() + 1);
    assert Agreeing(order, own) == Supporting(s);
  }

  lemma PsetCompleted(certs: map<MsgId, Cert>, h: u32, ids: seq<MsgId>)
    requires Enumerates(ids, certs.Keys)
    ensures PsetComplete(certs, h, CalPset(certs, h, ids))
  {
    hide CalPset;
    CalPsetSpec(certs, h, ids);
  }

  lemma QsetCompleted(certs: map<MsgId, Cert>, h: u32, ids: seq<MsgId>)
    requires Enumerates(ids, certs.Keys)
    ensures QsetComplete(certs, h, CalQset(certs, h, ids))
  {
    hide CalQset;
    CalQsetSpec(certs, h, ids);
  }

  lemma ScansBoth(c: Config, v: nat, ids: set<MsgId>, cks: set<CheckpointMsg>)
    requires c.Scans()
    ensures Enumerates(c.scanIds(v, ids), ids) && Enumerates(c.scanCheckpoints(v, cks), cks)
    ensures Distinct(c.scanCheckpoints(v, cks))
  {}

  /** When its timer runs out a live replica goes to the next view, inactive, and sends exactly one message: a
      view-change that reports everything it holds. */
  lemma TimeoutReportsExactly(c: Config, s: State, now: int)
    requires !s.panicked && c.Scans()
    ensures var t := Step(c, s, now, ViewTimeout);
            && t.views == s.views.(view := s.views.view + 1, active := false, sent := t.views.sent)
            && exists m :: t.outbox == s.outbox + [ViewChange(m)] && ReportsAll(c, s, m)
  {
    hide ViewChangeOf, Settings.Scans, ReportsAll;
    OwnReport(c, s);
    AtAnyTime(c, s, now);
  }

  lemma AtAnyTime(c: Config, s: State, now: int)
    ensures ViewChangeOf(c, s.(clock := now)) == ViewChangeOf(c, s)
  {}

  // ---------------------------------------------------------------- What is taken in

  /** A view-change is stored exactly if it is not for a view already left, is the sender's first for its view,
      and all it reports is in order: pre-prepares of earlier views inside (h, h+K), certificates that verify,
      checkpoints for h. */
  lemma ViewChangeStoredExactly(c: Config, s: State, now: int, vc: ViewChangeMsg)
    requires !s.panicked && Inv(c, s) && c.Scans()
    ensures var idx := Vcidx(vc.view, vc.sender);
            var t := Step(c, s, now, Deliver(ViewChange(vc)));
            idx !in s.views.store ==>
              (idx in t.views.store <==>
               && s.views.view <= vc.view
               && (forall k | k in vc.pset ::
                     vc.pset[k].view < vc.view && vc.h < vc.pset[k].sn < (vc.h + c.K) % MOD)
               && (forall k | k in vc.qset ::
                     vc.qset[k].sig == Genuine(TsKey, ForPrepare(PrepareVote(vc.qset[k].sn, vc.qset[k].view,
                                                                             vc.qset[k].digest))))
               && (forall ck | ck in vc.cset :: ck.sn == vc.h))
  {
    hide Inv, Settings.Scans, CatchUp, SendNewView, ForView, Evolves, CorrectViewChange;
    var x := s.(clock := now);
    var y := x.(views := x.views.(store := x.views.store[Vcidx(vc.view, vc.sender) := vc]));
    AcceptedExactly(c, vc);
    if Vcidx(vc.view, vc.sender) !in s.views.store {
      TickKeeps(c, s, now);
      ViewsKeep(c, x, y.views);
      CatchUpKeeps(c, y);
      SendNewViewKeeps(c, CatchUp(c, y));
      StoreGrows(c, y, CatchUp(c, y), SendNewView(c, CatchUp(c, y)), Vcidx(vc.view, vc.sender));
    }
  }

  lemma AcceptedExactly(c: Config, vc: ViewChangeMsg)
    ensures CorrectViewChange(c, vc) <==>
              && (forall k | k in vc.pset ::
                    vc.pset[k].view < vc.view && vc.h < vc.pset[k].sn < (vc.h + c.K) % MOD)
              && (forall k | k in vc.qset ::
                    vc.qset[k].sig == Genuine(TsKey, ForPrepare(PrepareVote(vc.qset[k].sn, vc.qset[k].view,
                                                                            vc.qset[k].digest))))
              && (forall ck | ck in vc.cset :: ck.sn == vc.h)
  {}

  lemma StoreGrows(c: Config, s: State, t: State, w: State, idx: Vcidx)
    requires Kept(c, s, t) && Kept(c, t, w) && idx in s.views.store
    ensures idx in t.views.store && idx in w.views.store
  {
    hide Inv;
  }

  /** A slow certificate is taken from the primary of an active view, in the window; a fast one from the
      primary whatever the window and even out of the view; a commit certificate like a slow one, but before it
      is verified - each only as the first for its number and view. */
  lemma CertificatesTakenExactly(c: Config, s: State, now: int, slow: PrepareQc, fast: FastPrepareQc, final: CommitQc)
    requires !s.panicked
    ensures var id := MsgId(slow.sn, slow.view);
            CertOf(s, id).prepareQc.None? ==>
              (CertOf(Step(c, s, now, Deliver(SlowQc(slow))), id).prepareQc == Some(slow) <==>
               && s.views.active && InWatermarks(c, s, slow.sn) && slow.sender == c.Primary(s.views.view)
               && slow.sig == Genuine(TsKey, ForPrepare(PrepareVote(slow.sn, slow.view, slow.digest))))
    ensures var id := MsgId(fast.sn, fast.view);
            CertOf(s, id).fastQc.None? ==>
              (CertOf(Step(c, s, now, Deliver(FastQc(fast))), id).fastQc == Some(fast) <==>
               && fast.sender == c.Primary(s.views.view)
               && fast.sig == Genuine(FastKey, ForPrepare(PrepareVote(fast.sn, fast.view, fast.digest))))
    ensures var id := MsgId(final.sn, final.view);
            CertOf(s, id).commitQc.None? ==>
              (CertOf(Step(c, s, now, Deliver(FinalQc(final))), id).commitQc == Some(final) <==>
               s.views.active && InWatermarks(c, s, final.sn) && final.sender == c.Primary(s.views.view))
  {
    var x := s.(clock := now);
    SlowTaken(c, x, slow);
    FastTaken(c, x, fast);
    FinalTaken(c, x, final);
  }

  /** Climbing changes no certificate's contents. */
  ghost predicate SameQcs(s: State, t: State) {
    forall id :: CertOf(t, id).prepareQc == CertOf(s, id).prepareQc && CertOf(t, id).fastQc == CertOf(s, id).fastQc
                 && CertOf(t, id).commitQc == CertOf(s, id).commitQc
  }

  lemma ExecuteNextQcs(c: Config, s: State)
    requires Executable(s.exec)
    ensures SameQcs(s, ExecuteNext(c, s))
  {
    hide ViewChangeOf;
  }

  lemma {:induction false} ExecuteAllQcs(c: Config, s: State)
    ensures SameQcs(s, ExecuteAll(c, s))
    decreases MOD - s.exec.last
  {
    hide ExecuteNext;
    if Executable(s.exec) {
      ExecuteNextQcs(c, s);
      ExecuteAllQcs(c, ExecuteNext(c, s));
    }
  }

  lemma RestagedQcs(c: Config, s: State, id: MsgId, stage: Stage)
    ensures SameQcs(s, ExecuteRequest(c, PutCert(s, id, CertOf(s, id).(stage := stage)), id))
  {
    hide ExecuteAll;
    ExecuteAllQcs(c, Buffer(PutCert(s, id, CertOf(s, id).(stage := stage)), id));
  }

  lemma CheckIfPreparedQcs(c: Config, s: State, id: MsgId)
    ensures SameQcs(s, CheckIfPrepared(c, s, id)) && SameQcs(s, CheckIfCommitted(c, s, id))
  {
    hide ExecuteRequest, CommitVerifies, SameQcs;
    var p := PutCert(s, id, CertOf(s, id).(stage := Prepared));
    RestagedQcs(c, s, id, Committed);
    RestagedQcs(c, p, id, Committed);
    StageOnlyQcs(s, id, Prepared);
    StageOnlyQcs(s, id, CertOf(s, id).stage);
    StageOnlyQcs(p, id, Prepared);
    QcsTwice(s, p, CheckIfCommitted(c, p, id));
  }

  lemma StageOnlyQcs(s: State, id: MsgId, stage: Stage)
    ensures SameQcs(s, PutCert(s, id, CertOf(s, id).(stage := stage)))
  {}

  lemma QcsTwice(s: State, t: State, w: State)
    requires SameQcs(s, t) && SameQcs(t, w)
    ensures SameQcs(s, w)
  {}

  lemma SlowTaken(c: Config, s: State, q: PrepareQc)
    ensures var id := MsgId(q.sn, q.view);
            CertOf(s, id).prepareQc.None? ==>
              (CertOf(HandleSlowQc(c, s, q), id).prepareQc == Some(q) <==>
               && s.views.active && InWatermarks(c, s, q.sn) && q.sender == c.Primary(s.views.view)
               && Verify(TsKey, ForPrepare(SlowVote(q)), q.sig))
  {
    hide CheckIfPrepared, ViewChangeOf, InWatermarks;
    var id := MsgId(q.sn, q.view);
    CheckIfPreparedQcs(c, PutCert(s, id, CertOf(s, id).(prepareQc := Some(q))), id);
  }

  lemma FastTaken(c: Config, s: State, q: FastPrepareQc)
    ensures var id := MsgId(q.sn, q.view);
            CertOf(s, id).fastQc.None? ==>
              (CertOf(HandleFastQc(c, s, q), id).fastQc == Some(q) <==>
               q.sender == c.Primary(s.views.view) && Verify(FastKey, ForPrepare(FastVote(q)), q.sig))
  {
    hide CheckIfPrepared;
    var id := MsgId(q.sn, q.view);
    CheckIfPreparedQcs(c, PutCert(s, id, CertOf(s, id).(fastQc := Some(q))), id);
  }

  lemma FinalTaken(c: Config, s: State, q: CommitQc)
    ensures var id := MsgId(q.sn, q.view);
            CertOf(s, id).commitQc.None? ==>
              (CertOf(HandleFinalQc(c, s, q), id).commitQc == Some(q) <==>
               s.views.active && InWatermarks(c, s, q.sn) && q.sender == c.Primary(s.views.view))
  {
    hide CheckIfCommitted, CheckIfPrepared, ViewChangeOf, InWatermarks, CommitVerifies;
    var id := MsgId(q.sn, q.view);
    CheckIfPreparedQcs(c, PutCert(s, id, CertOf(s, id).(commitQc := Some(q))), id);
  }

  /** Votes and commits that come while the replica is not active, outside the window or for the second time
      from their sender are neither recorded nor answered. */
  lemma UnadmittedIgnored(c: Config, s: State, now: int, m: Msg)
    requires !s.panicked
    requires || (m.Prepare? && !Admitted(c, s, m.pm.vote.sn, m.pm.sender))
             || (m.Commit? && !(s.views.active && InWatermarks(c, s, m.cm.vote.sn)
                                && m.cm.sender !in CertOf(s, MsgId(m.cm.vote.sn, m.cm.vote.view)).commits))
    ensures var t := Step(c, s, now, Deliver(m));
            && t.ballots == s.ballots && t.outbox == s.outbox && !t.panicked && t.leader == s.leader
            && forall id :: CertOf(t, id) == CertOf(s, id)
  {
    hide HandlePrepareVote, HandleCommitVote;
  }

  // ---------------------------------------------------------------- What becomes of an entry

  /** The entry goes on from `cert` to the given stage, and to execution if that commits it; no other entry
      changes its stage, and nothing else is buffered. */
  ghost predicate Climbs(s: State, t: State, id: MsgId, cert: Cert, stage: Stage) {
    && CertOf(t, id).stage == stage && (forall o | o != id :: CertOf(t, o).stage == CertOf(s, o).stage)
    && (if stage == Committed && cert.stage != Committed then
          t.exec.ids == s.exec.ids[id.sn := id] && t.exec.digests == s.exec.digests[id.sn := cert.digest]
        else t.exec == s.exec)
  }

  /** Executing changes no stage and no buffer. */
  ghost predicate SameStages(s: State, t: State) {
    && (forall o :: CertOf(t, o).stage == CertOf(s, o).stage)
    && t.exec.ids == s.exec.ids && t.exec.digests == s.exec.digests
  }

  lemma ExecuteNextStages(c: Config, s: State)
    requires Executable(s.exec)
    ensures SameStages(s, ExecuteNext(c, s))
  {
    hide ViewChangeOf;
  }

  lemma {:induction false} ExecuteAllStages(c: Config, s: State)
    ensures SameStages(s, ExecuteAll(c, s))
    decreases MOD - s.exec.last
  {
    hide ExecuteNext;
    if Executable(s.exec) {
      ExecuteNextStages(c, s);
      ExecuteAllStages(c, ExecuteNext(c, s));
    }
  }

  lemma CommitsEntry(c: Config, s: State, id: MsgId, cert: Cert)
    requires cert.stage != Committed
    ensures Climbs(s, ExecuteRequest(c, PutCert(s, id, cert.(stage := Committed)), id), id, cert, Committed)
  {
    hide ExecuteAll;
    ExecuteAllStages(c, Buffer(PutCert(s, id, cert.(stage := Committed)), id));
  }

  /** checkIfPrepared on an entry just put. */
  lemma PutClimbs(c: Config, s: State, id: MsgId, cert: Cert)
    ensures Climbs(s, CheckIfPrepared(c, PutCert(s, id, cert), id), id, cert, Risen(cert))
  {
    hide ExecuteRequest, CommitVerifies, Climbs;
    var x := PutCert(s, id, cert);
    StaysPut(s, id, cert, cert.stage);
    StaysPut(s, id, cert, Prepared);
    SameVerifies(cert, cert.(stage := Prepared));
    if cert.stage != Committed {
      CommitsEntry(c, s, id, cert);
      PutTwice(s, id, cert, cert.(stage := Committed));
      PutTwice(s, id, cert, cert.(stage := Prepared));
      PutTwice(s, id, cert.(stage := Prepared), cert.(stage := Committed));
    }
    PutTwice(s, id, cert, cert);
    PutTwice(s, id, cert.(stage := Prepared), cert.(stage := Prepared));
  }

  lemma PutTwice(s: State, id: MsgId, a: Cert, b: Cert)
    ensures PutCert(PutCert(s, id, a), id, b) == PutCert(s, id, b)
  {
    assert s.certs[id := a][id := b] == s.certs[id := b];
  }

  lemma StaysPut(s: State, id: MsgId, cert: Cert, stage: Stage)
    requires stage != Committed || cert.stage == Committed
    ensures Climbs(s, PutCert(s, id, cert.(stage := stage)), id, cert, stage)
  {}

  /** The pre-prepare passes the checks of handlePrePrepareMsg. */
  ghost predicate PassesAnyway(c: Config, s: State, pp: PrePrepareMsg) {
    && s.views.active && pp.sender == c.Primary(s.views.view) && InWatermarks(c, s, pp.sn)
    && (c.auto ==> pp.sn <= s.leader.viewChangeSeq)
    && (CertOf(s, MsgId(pp.sn, pp.view)).digest.Empty() || CertOf(s, MsgId(pp.sn, pp.view)).digest == pp.digest)
  }

  /** When a certificate is taken in, or a pre-prepare that passes its checks, the entry climbs: from the
      received stage a fast certificate commits it, a slow one prepares it, and a prepared one is committed by a
      commit certificate that verifies over the slow one - whatever the window and the view - and what is
      committed is buffered for execution with its digest. */
  lemma TakenClimbs(c: Config, s: State, now: int, m: Msg)
    requires !s.panicked
    ensures var t := Step(c, s, now, Deliver(m));
            match m
            case SlowQc(q) =>
              (var id := MsgId(q.sn, q.view);
               CertOf(s, id).prepareQc.None? && CertOf(t, id).prepareQc.Some? ==>
                 var cert := CertOf(s, id).(prepareQc := Some(q)); Climbs(s, t, id, cert, Risen(cert)))
            case FastQc(q) =>
              (var id := MsgId(q.sn, q.view);
               CertOf(s, id).fastQc.None? && CertOf(t, id).fastQc.Some? ==>
                 var cert := CertOf(s, id).(fastQc := Some(q)); Climbs(s, t, id, cert, Risen(cert)))
            case FinalQc(q) =>
              (var id := MsgId(q.sn, q.view);
               CertOf(s, id).commitQc.None? && CertOf(t, id).commitQc.Some? ==>
                 var cert := CertOf(s, id).(commitQc := Some(q));
                 Climbs(s, t, id, cert,
                        if cert.stage == Prepared && CommitVerifies(cert) then Committed else cert.stage))
            case PrePrepare(pp) =>
              (var id := MsgId(pp.sn, pp.view);
               PassesAnyway(c, s, pp) ==>
                 var cert := CertOf(s, id).(stage := Received, digest := pp.digest, prePrepare := Some(pp));
                 Climbs(s, t, id, cert, Risen(cert)))
            case _ => true
  {
    hide HandleSlowQc, HandleFastQc, HandleFinalQc, HandlePrePrepare, CommitVerifies, Climbs, Risen, PassesAnyway;
    var x := s.(clock := now);
    ClimbsAside(s, x);
    match m
    case SlowQc(q) => SlowClimbs(c, x, q);
    case FastQc(q) => FastClimbs(c, x, q);
    case FinalQc(q) => FinalClimbs(c, x, q);
    case PrePrepare(pp) => if PassesAnyway(c, s, pp) { PassesAside(c, s, x, pp); ProposalClimbs(c, x, pp); }
    case _ =>
  }

  lemma ClimbsAside(s: State, x: State)
    requires x.certs == s.certs && x.exec == s.exec
    ensures forall t, id, cert, stage :: Climbs(x, t, id, cert, stage) <==> Climbs(s, t, id, cert, stage)
    ensures forall id :: CertOf(x, id) == CertOf(s, id)
  {
    forall t, id, cert, stage ensures Climbs(x, t, id, cert, stage) <==> Climbs(s, t, id, cert, stage) {
      assert forall o :: CertOf(x, o) == CertOf(s, o);
    }
  }

  lemma PassesAside(c: Config, s: State, x: State, pp: PrePrepareMsg)
    requires x == s.(clock := x.clock) && PassesAnyway(c, s, pp)
    ensures PassesAnyway(c, x, pp)
  {}

  lemma SlowClimbs(c: Config, s: State, q: PrepareQc)
    ensures var id := MsgId(q.sn, q.view);
            var t := HandleSlowQc(c, s, q);
            CertOf(s, id).prepareQc.None? && CertOf(t, id).prepareQc.Some? ==>
              var cert := CertOf(s, id).(prepareQc := Some(q)); Climbs(s, t, id, cert, Risen(cert))
  {
    hide CheckIfPrepared, ViewChangeOf, Risen, InWatermarks;
    var id := MsgId(q.sn, q.view);
    PutClimbs(c, s, id, CertOf(s, id).(prepareQc := Some(q)));
  }

  lemma FastClimbs(c: Config, s: State, q: FastPrepareQc)
    ensures var id := MsgId(q.sn, q.view);
            var t := HandleFastQc(c, s, q);
            CertOf(s, id).fastQc.None? && CertOf(t, id).fastQc.Some? ==>
              var cert := CertOf(s, id).(fastQc := Some(q)); Climbs(s, t, id, cert, Risen(cert))
  {
    hide CheckIfPrepared, Risen, Climbs;
    var id := MsgId(q.sn, q.view);
    PutClimbs(c, s, id, CertOf(s, id).(fastQc := Some(q)));
  }

  lemma FinalClimbs(c: Config, s: State, q: CommitQc)
    ensures var id := MsgId(q.sn, q.view);
            var t := HandleFinalQc(c, s, q);
            CertOf(s, id).commitQc.None? && CertOf(t, id).commitQc.Some? ==>
              var cert := CertOf(s, id).(commitQc := Some(q));
              Climbs(s, t, id, cert, if cert.stage == Prepared && CommitVerifies(cert) then Committed else cert.stage)
  {
    hide ExecuteRequest, ViewChangeOf, CommitVerifies, Climbs, InWatermarks;
    var id := MsgId(q.sn, q.view);
    var cert := CertOf(s, id).(commitQc := Some(q));
    StaysPut(s, id, cert, cert.stage);
    PutTwice(s, id, cert, cert);
    PutTwice(s, id, cert, cert.(stage := Committed));
    if cert.stage != Committed { CommitsEntry(c, s, id, cert); }
  }

  lemma ProposalClimbs(c: Config, s: State, pp: PrePrepareMsg)
    requires PassesAnyway(c, s, pp)
    ensures var id := MsgId(pp.sn, pp.view);
            var cert := CertOf(s, id).(stage := Received, digest := pp.digest, prePrepare := Some(pp));
            Climbs(s, HandlePrePrepare(c, s, pp), id, cert, Risen(cert))
  {
    hide CheckIfPrepared, CastVote, Risen, InWatermarks;
    var id := MsgId(pp.sn, pp.view);
    var cert := CertOf(s, id).(stage := Received, digest := pp.digest, prePrepare := Some(pp));
    var x := s.(batches := s.batches[id := pp.batch]);
    ClimbsAside(s, x);
    PutClimbs(c, x, id, cert);
    assert StorePrePrepare(s, id, pp) == PutCert(x, id, cert);
    CastVoteAlike(c, CheckIfPrepared(c, PutCert(x, id, cert), id), pp.sn);
  }
}
