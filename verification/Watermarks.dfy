/** Low watermarks: a correct replica moves its own only past what a quorum has executed. */
module Watermarks {
  import opened Types
  import opened ReplicaState
  import opened Handlers
  import opened Quorum
  import opened Cluster
  import opened Invariants
  import opened Soundness
  import opened Reachability
  import opened Preservation
  import opened Assignment
  import opened Frames

  function CheckpointSenders(cks: set<CheckpointMsg>): set<nat> { set ck | ck in cks :: ck.sender }

  /** Checkpoints that agree on number and state differ in their sender, so counting them counts replicas. */
  lemma {:induction false} OneEach(cks: set<CheckpointMsg>, sn: u32, digest: string)
    requires forall ck | ck in cks :: ck.sn == sn && ck.digest == digest
    ensures |CheckpointSenders(cks)| == |cks|
  {
    if cks == {} {
      assert CheckpointSenders(cks) == {};
    } else {
      var ck :| ck in cks;
      var rest := cks - {ck};
      OneEach(rest, sn, digest);
      assert forall other | other in rest :: other.sender != ck.sender;
      assert CheckpointSenders(cks) == CheckpointSenders(rest) + {ck.sender};
    }
  }

  /** The correct replicas that have executed number sn. */
  ghost function ExecutedBy(x: Sys, sn: u32): set<nat> { set i | i in x.nodes && x.nodes[i].exec.last >= sn }

  lemma CheckpointExecuted(u: Setup, x: Sys, ck: CheckpointMsg)
    requires SysInv(u, x) && u.Valid() && MsgSound(u, x.nodes, Checkpoint(ck)) && ck.sender !in u.faulty
    ensures ck.sender in ExecutedBy(x, ck.sn) && ck.sn % u.T == 0
  {
    hide SysInv, MsgSound, Setup.Valid;
    FromCorrect(u, x, Checkpoint(ck));
    SentFacts(u, x, ck.sender, Checkpoint(ck));
    assert u.replicas[ck.sender].T == u.T by { SamePeriod(u, ck.sender); }
  }

  lemma SamePeriod(u: Setup, i: nat)
    requires u.Valid() && i in u.replicas
    ensures u.replicas[i].T == u.T
  {}

  /** In every reachable state: whenever a correct replica's low watermark is h > 0, more than n/3
      correct replicas have executed everything up to h, and h is a multiple of the period. */
  lemma WatermarkBehindExecution(u: Setup, tr: seq<Sys>, k: nat, i: nat)
    requires u.Valid() && |u.faulty| <= u.n / 3 && Run(u, tr) && k < |tr| && i in tr[k].nodes
    requires 0 < tr[k].nodes[i].marks.h
    ensures |ExecutedBy(tr[k], tr[k].nodes[i].marks.h)| >= u.n / 3 + 1
    ensures tr[k].nodes[i].marks.h % u.T == 0
  {
    hide Run, SysInv, Inv, CertsSound, BallotsSound, ViewsSound, OutboxSound, Full, MsgSound;
    var x := tr[k];
    ReachableSound(u, tr, k);
    NodeFacts(u, x, i);
    var m := x.nodes[i].marks;
    var d :| |Matching(CheckpointsAt(m, m.h), d)| >= 2 * u.n / 3 + 1;
    StableExecuted(u, x, i, Matching(CheckpointsAt(m, m.h), d), m.h, d);
  }

  lemma StableExecuted(u: Setup, x: Sys, i: nat, cks: set<CheckpointMsg>, h: u32, d: string)
    requires SysInv(u, x) && u.Valid() && |u.faulty| <= u.n / 3 && |cks| >= 2 * u.n / 3 + 1
    requires forall ck | ck in cks :: ck.sn == h && ck.digest == d && MsgSound(u, x.nodes, Checkpoint(ck))
    ensures |ExecutedBy(x, h)| >= u.n / 3 + 1 && h % u.T == 0
  {
    hide SysInv, MsgSound, ExecutedBy;
    SetupOf(u, x);
    var senders := CheckpointSenders(cks);
    OneEach(cks, h, d);
    forall ck | ck in cks ensures ck.sender in Below(u.n) { WithinCluster(u, x, ck); }
    CheckpointQuorum(u.n, senders, u.faulty);
    forall ck | ck in cks && ck.sender !in u.faulty ensures ck.sender in ExecutedBy(x, h) && h % u.T == 0 {
      CheckpointExecuted(u, x, ck);
    }
    SubsetSize(senders - u.faulty, ExecutedBy(x, h));
    assert senders - u.faulty != {};
    var j :| j in senders - u.faulty;
  }

  lemma WithinCluster(u: Setup, x: Sys, ck: CheckpointMsg)
    requires MsgSound(u, x.nodes, Checkpoint(ck))
    ensures ck.sender in Below(u.n)
  {}

  // ---------------------------------------------------------------- Reported watermarks

  /** A step reports in its view-changes no other low watermark than the one it starts with. */
  lemma StepReports(c: Config, s: State, now: int, e: Event)
    ensures ReportedMarks(Step(c, s, now, e).outbox) <= ReportedMarks(s.outbox) + {s.marks.h}
  {
    hide Proposals, ReportedMarks, CertsIn, HandlePrePrepare, HandlePrepare, HandleCommit, HandleSlowQc, HandleFastQc,
         HandleFinalQc, HandleViewChange, ProcessNewView, CheckIfPrepareQc, SendViewChange, StateDigests, Matching;
    var x := s.(clock := now);
    match e
    case Deliver(m) => {
      match m
      case PrePrepare(pp) => HandlePrePrepareQuiet(c, x, pp);
      case Prepare(pm) => HandlePrepareQuiet(c, x, pm);
      case Commit(cm) => HandleCommitQuiet(c, x, cm);
      case SlowQc(q) => HandleSlowQcQuiet(c, x, q);
      case FastQc(q) => HandleFastQcQuiet(c, x, q);
      case FinalQc(q) => HandleFinalQcQuiet(c, x, q);
      case Checkpoint(ck) =>
      case ViewChange(vc) => HandleViewChangeEnters(c, x, vc);
      case NewView(nv) => ProcessNewViewEnters(c, x.(views := x.views.(newViews := x.views.newViews[nv.view := nv])));
    }
    case Batch(b) => ProposeReports(c, x, b);
    case FastTimeout(id, k) =>
      CheckIfPrepareQcQuiet(c, x.(leader := x.leader.(timers := x.leader.timers[id := true],
                                                      armed := x.leader.armed - {(id, k)},
                                                      fired := x.leader.fired[id := k])), id, k);
    case ViewTimeout => SendViewChangeCalm(c, x);
  }

  lemma ProposeReports(c: Config, s: State, batch: RequestBatch)
    ensures ReportedMarks(Propose(c, s, batch).outbox) == ReportedMarks(s.outbox)
  {
    hide Proposals, ReportedMarks, CertsIn;
    var sn := s.leader.nextSN;
    var s1 := StartTimer(s.(leader := s.leader.(nextSN := Add(sn, 1))), MsgId(sn, s.views.view), Hash(batch));
    ProposalsAfter(s1, PrePrepare(PrePrepareMsg(sn, Hash(batch), batch, s.views.view, c.id)));
  }

  lemma ExecutedGrows(u: Setup, x: Sys, y: Sys, sn: u32)
    requires SysInv(u, x) && Next(u, x, y)
    ensures ExecutedBy(x, sn) <= ExecutedBy(y, sn)
  {
    hide Inv, Sound, MsgSound, Step;
    if j, now, e :| Acts(u, x, y, j, now, e) {
      assert Good(u, x.nodes, u.replicas[j], x.nodes[j]);
      StepKeeps(u.replicas[j], x.nodes[j], now, e);
    }
  }

  lemma ReportsInNext(u: Setup, x: Sys, y: Sys, i: nat)
    requires SysInv(u, x) && Next(u, x, y) && i in y.nodes
    ensures i in x.nodes && ReportedMarks(y.nodes[i].outbox) <= ReportedMarks(x.nodes[i].outbox) + {x.nodes[i].marks.h}
  {
    hide SysInv, MsgSound, Step, ReportedMarks;
    if j, now, e :| Acts(u, x, y, j, now, e) {
      StepReports(u.replicas[j], x.nodes[j], now, e);
    }
  }

  /** Whatever watermark a correct replica has ever reported in a view-change, more than n/3 correct
      replicas have executed everything up to it. */
  lemma {:induction false} ReportedExecuted(u: Setup, tr: seq<Sys>, k: nat, i: nat, h: u32)
    requires u.Valid() && |u.faulty| <= u.n / 3 && Run(u, tr) && k < |tr| && i in tr[k].nodes
    requires 0 < h && h in ReportedMarks(tr[k].nodes[i].outbox)
    ensures |ExecutedBy(tr[k], h)| >= u.n / 3 + 1
  {
    hide Next, SysInv, ExecutedBy, Setup.Valid, ReportedMarks, InitSys;
    if k == 0 {
      NothingReported(u, tr[0], i, h);
    } else {
      ReachableSound(u, tr, k - 1);
      ReportsInNext(u, tr[k - 1], tr[k], i);
      if h in ReportedMarks(tr[k - 1].nodes[i].outbox) {
        ReportedExecuted(u, tr, k - 1, i, h);
      } else {
        WatermarkBehindExecution(u, tr, k - 1, i);
      }
      ExecutedGrows(u, tr[k - 1], tr[k], h);
      SubsetSize(ExecutedBy(tr[k - 1], h), ExecutedBy(tr[k], h));
    }
  }

  lemma NothingReported(u: Setup, x: Sys, i: nat, h: u32)
    requires InitSys(u, x) && i in x.nodes
    ensures h !in ReportedMarks(x.nodes[i].outbox)
  {}
}
