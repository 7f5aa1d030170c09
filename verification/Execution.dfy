/** Execution under arbitrary messages, forged or not: in order, without gaps, exactly once, and never
    late. */
module Execution {
  import opened Types
  import opened ReplicaState
  import opened Assignment
  import opened Handlers
  import opened Invariants
  import opened Preservation
  import opened Numbering
  import opened Delivery

  /** Nothing waits in the buffer at the next number to execute. */
  predicate Drained(s: State) { !Executable(s.exec) }

  /** A step that starts with a drained buffer ends with one. */
  ghost predicate Drains(s: State, t: State) { Drained(s) ==> Drained(t) }

  lemma {:induction false} ExecuteAllDrains(c: Config, s: State)
    ensures Drained(ExecuteAll(c, s))
    decreases MOD - s.exec.last
  {
    hide ExecuteNext;
    if Executable(s.exec) { ExecuteAllDrains(c, ExecuteNext(c, s)); }
  }

  lemma ExecuteRequestDrains(c: Config, s: State, id: MsgId)
    ensures Drains(s, ExecuteRequest(c, s, id))
  {
    hide ExecuteAll;
    ExecuteAllDrains(c, Buffer(s, id));
  }

  lemma CheckIfCommittedDrains(c: Config, s: State, id: MsgId)
    ensures Drains(s, CheckIfCommitted(c, s, id))
  {
    hide ExecuteRequest;
    ExecuteRequestDrains(c, PutCert(s, id, CertOf(s, id).(stage := Committed)), id);
  }

  lemma CheckIfPreparedDrains(c: Config, s: State, id: MsgId)
    ensures Drains(s, CheckIfPrepared(c, s, id))
  {
    hide ExecuteRequest, CheckIfCommitted;
    ExecuteRequestDrains(c, PutCert(s, id, CertOf(s, id).(stage := Committed)), id);
    CheckIfCommittedDrains(c, PutCert(s, id, CertOf(s, id).(stage := Prepared)), id);
  }

  lemma HandlePrePrepareDrains(c: Config, s: State, pp: PrePrepareMsg)
    ensures Drains(s, HandlePrePrepare(c, s, pp))
  {
    hide CheckIfPrepared, CastVote, InWatermarks, ViewChangeOf;
    var t := StorePrePrepare(s, MsgId(pp.sn, pp.view), pp);
    CheckIfPreparedDrains(c, t, MsgId(pp.sn, pp.view));
    CastVoteAlike(c, CheckIfPrepared(c, t, MsgId(pp.sn, pp.view)), pp.sn);
  }

  lemma CertificateDrains(c: Config, s: State, m: Msg)
    requires m.SlowQc? || m.FastQc? || m.FinalQc?
    ensures Drains(s, Dispatch(c, s, m))
  {
    hide CheckIfPrepared, CheckIfCommitted, InWatermarks, ViewChangeOf;
    match m
    case SlowQc(q) =>
      CheckIfPreparedDrains(c, PutCert(s, MsgId(q.sn, q.view), CertOf(s, MsgId(q.sn, q.view)).(prepareQc := Some(q))),
                            MsgId(q.sn, q.view));
    case FastQc(q) =>
      CheckIfPreparedDrains(c, PutCert(s, MsgId(q.sn, q.view), CertOf(s, MsgId(q.sn, q.view)).(fastQc := Some(q))),
                            MsgId(q.sn, q.view));
    case FinalQc(q) =>
      CheckIfCommittedDrains(c, PutCert(s, MsgId(q.sn, q.view), CertOf(s, MsgId(q.sn, q.view)).(commitQc := Some(q))),
                             MsgId(q.sn, q.view));
    case _ =>
  }

  lemma {:induction false} AcceptAllDrains(c: Config, s: State, nv: NewViewMsg, keys: seq<u32>)
    requires forall k | k in keys :: k in nv.oset
    ensures Drains(s, AcceptAll(c, s, nv, keys))
    decreases |keys|
  {
    hide HandlePrePrepare;
    if keys != [] {
      var t := AcceptAll(c, s, nv, keys[..|keys| - 1]);
      var sn := keys[|keys| - 1];
      AcceptAllDrains(c, s, nv, keys[..|keys| - 1]);
      var pp := PrePrepareMsg(sn, Hash(nv.oset[sn]), nv.oset[sn], t.views.view, nv.sender);
      HandlePrePrepareDrains(c, t, pp);
      HandlePrePrepareDrains(c, StartTimer(t, MsgId(sn, t.views.view), pp.digest), pp);
    }
  }

  lemma ProcessNewViewDrains(c: Config, s: State)
    ensures Drains(s, ProcessNewView(c, s))
  {
    hide AcceptAll, Sorted;
    if s.views.view in s.views.newViews {
      var nv := s.views.newViews[s.views.view];
      SortedMembers(nv.oset.Keys);
      AcceptAllDrains(c, EnterView(c, s), nv, Sorted(nv.oset.Keys));
    }
  }

  lemma ViewMessageDrains(c: Config, s: State, m: Msg)
    requires m.ViewChange? || m.NewView?
    ensures Drains(s, Dispatch(c, s, m))
  {
    hide ProcessNewView, CorrectViewChange, ViewChangeOf, Vset, Assign, MaxCheckpoint;
    match m
    case ViewChange(vc) =>
      var t := CatchUp(c, s.(views := s.views.(store := s.views.store[Vcidx(vc.view, vc.sender) := vc])));
      var vset := Vset(c, t.views);
      ProcessNewViewDrains(c, PublishNewView(c, t,
                                             NewViewMsg(t.views.view, vset, Assign(c, vset, MaxCheckpoint(vset)).oset,
                                                        c.id)));
    case NewView(nv) =>
      ProcessNewViewDrains(c, s.(views := s.views.(newViews := s.views.newViews[nv.view := nv])));
    case _ =>
  }

  lemma StepDrains(c: Config, s: State, now: int, e: Event)
    ensures Drains(s, Step(c, s, now, e))
  {
    hide Dispatch, Propose, CheckIfPrepareQc, ViewChangeOf;
    var x := s.(clock := now);
    match e
    case Deliver(m) => DispatchDrains(c, x, m);
    case Batch(b) => ProposeDrains(c, x, b);
    case FastTimeout(id, k) => FireTimerDrains(c, x, id, k);
    case ViewTimeout =>
  }

  lemma DispatchDrains(c: Config, s: State, m: Msg)
    ensures Drains(s, Dispatch(c, s, m))
  {
    hide HandlePrePrepare, HandlePrepare, HandleSlowQc, HandleFastQc, HandleFinalQc, HandleViewChange, HandleNewView,
         Recover, Recoverable, Matching, StateDigests;
    match m
    case PrePrepare(pp) => HandlePrePrepareDrains(c, s, pp);
    case Prepare(pm) => HandlePrepareAlike(c, s, pm);
    case Commit(cm) =>
    case SlowQc(_) => CertificateDrains(c, s, m);
    case FastQc(_) => CertificateDrains(c, s, m);
    case FinalQc(_) => CertificateDrains(c, s, m);
    case Checkpoint(_) =>
    case ViewChange(_) => ViewMessageDrains(c, s, m);
    case NewView(_) => ViewMessageDrains(c, s, m);
  }

  lemma ProposeDrains(c: Config, s: State, batch: RequestBatch)
    ensures Drains(s, Propose(c, s, batch))
  {}

  lemma FireTimerDrains(c: Config, s: State, id: MsgId, k: Digest)
    ensures Drains(s, FireTimer(c, s, id, k))
  {
    hide Recover, Recoverable;
  }

  // ---------------------------------------------------------------- Reads are defined

  /** Throughout the loop of executeRequest, the entry about to be executed holds its pre-prepare. */
  ghost predicate ReadsDefined(c: Config, s: State)
    decreases MOD - s.exec.last
  {
    Executable(s.exec) ==>
      && s.exec.ids[s.exec.last + 1] in s.certs && s.certs[s.exec.ids[s.exec.last + 1]].prePrepare.Some?
      && ReadsDefined(c, ExecuteNext(c, s))
  }

  lemma {:induction false} AlwaysDefined(c: Config, s: State)
    requires Inv(c, s) && c.Scans()
    ensures ReadsDefined(c, s)
    decreases MOD - s.exec.last
  {
    hide Settings.Scans, CertsOk, OutboxOk, Evolves, ExecuteNext;
    if Executable(s.exec) {
      assert Justified(s.certs, s.exec.ids[s.exec.last + 1], s.exec.digests[s.exec.last + 1]);
      ExecuteNextKeeps(c, s);
      AlwaysDefined(c, ExecuteNext(c, s));
    }
  }

  // ---------------------------------------------------------------- Over every run

  /** One entry per number, in order from 1, each with the pre-prepare and a certificate behind it. */
  ghost predicate InSequence(s: State) {
    && |s.exec.log| == s.exec.last
    && forall p | 0 <= p < |s.exec.log| ::
         && s.exec.log[p].sn == p + 1 && s.exec.log[p].id.sn == p + 1
         && Justified(s.certs, s.exec.log[p].id, s.exec.log[p].digest)
  }

  lemma InvInSequence(c: Config, s: State)
    requires Inv(c, s)
    ensures InSequence(s)
  {}

  /** Whatever messages a replica gets, from whomever: what it has executed is numbers 1 to lastExec,
      each exactly once and in order, each with its pre-prepare stored and certified; and nothing that
      could be executed is left waiting. */
  lemma {:induction false} ExecutionInSequence(c: Config, ss: seq<State>, k: nat)
    requires History(c, ss) && c.Scans() && k < |ss|
    ensures Inv(c, ss[k]) && InSequence(ss[k]) && Drained(ss[k])
  {
    hide Step, Settings.Scans, Inv, InSequence;
    if k == 0 {
      InitInv(c);
    } else {
      ExecutionInSequence(c, ss, k - 1);
      assert StepTo(c, ss[k - 1], ss[k]);
      var now, e :| ss[k] == Step(c, ss[k - 1], now, e);
      StepKeeps(c, ss[k - 1], now, e);
      StepDrains(c, ss[k - 1], now, e);
    }
    InvInSequence(c, ss[k]);
  }

  /** And nothing executed is ever taken back or changed. */
  lemma {:induction false} ExecutedForGood(c: Config, ss: seq<State>, j: nat, k: nat)
    requires History(c, ss) && c.Scans() && j <= k < |ss|
    ensures ss[j].exec.log <= ss[k].exec.log
    decreases k
  {
    hide Step, Settings.Scans, Inv, InSequence;
    if j < k {
      ExecutedForGood(c, ss, j, k - 1);
      ExecutionInSequence(c, ss, k - 1);
      assert StepTo(c, ss[k - 1], ss[k]);
      var now, e :| ss[k] == Step(c, ss[k - 1], now, e);
      StepKeeps(c, ss[k - 1], now, e);
    }
  }
}
