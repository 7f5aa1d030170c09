/** View changes over every run. */
module ViewHistory {
  import opened Types
  import opened ReplicaState
  import opened Assignment
  import opened Handlers
  import opened Quorum
  import opened Cluster
  import opened Invariants
  import opened Preservation
  import opened Soundness
  import opened Reachability

  // ---------------------------------------------------------------- Once per view

  /** A correct replica sends at most one view-change and at most one new-view per view, in ascending
      order of view the former, and never for a view beyond its own. */
  lemma OncePerView(u: Setup, tr: seq<Sys>, k: nat, i: nat, a: nat, b: nat)
    requires u.Valid() && Run(u, tr) && k < |tr| && i in tr[k].nodes && a < b < |tr[k].nodes[i].outbox|
    ensures var x := tr[k].nodes[i].outbox[a]; var y := tr[k].nodes[i].outbox[b];
            && (x.ViewChange? && y.ViewChange? ==> x.vc.view < y.vc.view <= tr[k].nodes[i].views.view)
            && (x.NewView? && y.NewView? ==> x.nv.view != y.nv.view)
  {
    hide Run, SysInv, CertsOk, ExecOk, CertsSound, BallotsSound, ViewsSound, MarksSound, OutboxSound, Full;
    ReachableSound(u, tr, k);
    NodeFacts(u, tr[k], i);
    var s := tr[k].nodes[i];
    assert InOrder(s.outbox[a], s.outbox[b]) && OutMsgOk(u.replicas[i], s, s.outbox[b]);
  }

  /** Its view never decreases. */
  lemma {:induction false} ViewsOnlyGrow(u: Setup, tr: seq<Sys>, j: nat, k: nat, i: nat)
    requires u.Valid() && Run(u, tr) && j <= k < |tr| && i in u.replicas
    ensures i in tr[j].nodes && i in tr[k].nodes && tr[j].nodes[i].views.view <= tr[k].nodes[i].views.view
    decreases k
  {
    hide Run, Setup.Valid;
    NodePresent(u, tr, j, i);
    if j < k {
      ViewsOnlyGrow(u, tr, j, k - 1, i);
      RunView(u, tr, k, i);
    }
  }

  lemma NodePresent(u: Setup, tr: seq<Sys>, k: nat, i: nat)
    requires u.Valid() && Run(u, tr) && k < |tr| && i in u.replicas
    ensures i in tr[k].nodes
  {
    hide Run, SysInv;
    ReachableSound(u, tr, k);
    SetupOf(u, tr[k]);
  }

  lemma RunView(u: Setup, tr: seq<Sys>, k: nat, i: nat)
    requires u.Valid() && Run(u, tr) && 0 < k < |tr| && i in tr[k - 1].nodes
    ensures i in tr[k].nodes && tr[k - 1].nodes[i].views.view <= tr[k].nodes[i].views.view
  {
    hide Next, SysInv, Setup.Valid, InitSys;
    ReachableSound(u, tr, k - 1);
    NextView(u, tr[k - 1], tr[k], i);
  }

  lemma NextView(u: Setup, x: Sys, y: Sys, i: nat)
    requires SysInv(u, x) && Next(u, x, y) && i in x.nodes
    ensures i in y.nodes && x.nodes[i].views.view <= y.nodes[i].views.view
  {
    hide Inv, Sound, MsgSound, Step;
    if j, now, e :| Acts(u, x, y, j, now, e) {
      assert Good(u, x.nodes, u.replicas[j], x.nodes[j]);
      StepKeeps(u.replicas[j], x.nodes[j], now, e);
    }
  }

  // ---------------------------------------------------------------- Catching up

  /** The f+1 rule cannot be triggered by faulty replicas alone: the view it enters is later than the
      current one, and not later than one some correct replica has sent a view-change for. */
  lemma CatchUpFollowsCorrect(u: Setup, tr: seq<Sys>, k: nat, i: nat, vc: ViewChangeMsg)
    requires u.Valid() && |u.faulty| <= u.n / 3 && Run(u, tr) && k < |tr| && i in tr[k].nodes && i in u.replicas
    requires ViewChange(vc) in tr[k].net && CorrectViewChange(u.replicas[i], vc)
    requires Vcidx(vc.view, vc.sender) !in tr[k].nodes[i].views.store
    ensures var s := tr[k].nodes[i];
            var s0 := s.(views := s.views.(store := s.views.store[Vcidx(vc.view, vc.sender) := vc]));
            var t := CatchUp(u.replicas[i], s0);
            t == s0 || (s.views.view < t.views.view && !t.views.active
                        && exists j, m ::
                             j in tr[k].nodes && ViewChange(m) in tr[k].nodes[j].outbox && t.views.view <= m.view)
  {
    hide Run, SysInv, Inv, CertsSound, BallotsSound, MarksSound, OutboxSound, Full, MsgSound, CorrectViewChange,
         ViewChangeOf;
    var x := tr[k];
    ReachableSound(u, tr, k);
    NodeFacts(u, x, i);
    assert MsgSound(u, x.nodes, ViewChange(vc)) by { InNet(u, x, ViewChange(vc)); }
    var v := x.nodes[i].views.(store := x.nodes[i].views.store[Vcidx(vc.view, vc.sender) := vc]);
    NobodyAhead(v);
    if |Senders(Ahead(v))| >= u.replicas[i].F() + 1 {
      CorrectAhead(u, x, u.replicas[i], v);
    }
  }

  lemma CorrectAhead(u: Setup, x: Sys, c: Config, v: Views)
    requires SysInv(u, x) && ViewsSound(u, x.nodes, c, v) && |Senders(Ahead(v))| > u.n / 3 >= |u.faulty|
    ensures Ahead(v) != {} && v.view < MinView(Ahead(v))
    ensures exists j, m :: j in x.nodes && ViewChange(m) in x.nodes[j].outbox && MinView(Ahead(v)) <= m.view
  {
    hide SysInv, CorrectViewChange, MsgSound, MinView;
    NobodyAhead(v);
    var senders := Senders(Ahead(v));
    if senders <= u.faulty {
      SubsetSize(senders, u.faulty);
    }
    var j :| j in senders && j !in u.faulty;
    var idx :| idx in Ahead(v) && idx.sender == j;
    assert MsgSound(u, x.nodes, ViewChange(v.store[idx]));
    FromCorrect(u, x, ViewChange(v.store[idx]));
  }
}
