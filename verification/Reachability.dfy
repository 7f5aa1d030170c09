/** In every state of every run, every correct replica is in order and sound, and so is the network. */
module Reachability {
  import opened Types
  import opened ReplicaState
  import opened Handlers
  import opened Quorum
  import opened Cluster
  import opened Invariants
  import opened Preservation
  import opened Soundness
  import opened SoundHandlers

  ghost predicate SysInv(u: Setup, x: Sys) {
    && u.Valid() && x.nodes.Keys == u.replicas.Keys
    && (forall i | i in u.replicas :: Good(u, x.nodes, u.replicas[i], x.nodes[i]))
    && (forall m | m in x.net :: MsgSound(u, x.nodes, m))
  }

  lemma FreshSound(u: Setup, g: map<nat, State>, c: Config, s: State)
    requires s == Init(c)
    ensures CertsSound(u, g, 0, s.certs) && BallotsSound(u, g, s.ballots) && ViewsSound(u, g, c, s.views)
    ensures MarksSound(u, g, c, s.marks) && OutboxSound(u, g, c, s.outbox) && Full(g, s)
  {}

  lemma InitSound(u: Setup, g: map<nat, State>, i: nat)
    requires u.Valid() && i in u.replicas && g.Keys == u.replicas.Keys
    requires forall j | j in u.replicas :: g[j] == Init(u.replicas[j])
    ensures Good(u, g, u.replicas[i], g[i])
  {
    hide CertsSound, BallotsSound, ViewsSound, MarksSound, OutboxSound, Full, Settings.Scans;
    var c := u.replicas[i];
    assert g[i := g[i]] == g;
    InitInv(c);
    FreshSound(u, g, c, g[i]);
  }

  /** A replica that stood still while another one moved. */
  lemma BystanderSound(u: Setup, g: map<nat, State>, l: map<nat, State>, c: Config, s: State)
    requires Good(u, g, c, s) && c.id in l && g[c.id] == s == l[c.id] && LedgerGrows(g, l)
    ensures Good(u, l, c, s)
  {
    hide Member, Settings.Scans, Inv, CertsSound, BallotsSound, ViewsSound, MarksSound, OutboxSound;
    assert g[c.id := s] == g && l[c.id := s] == l;
    CertsGrowSound(u, g, l, s.views.view, s.views.view, s.certs);
    BallotsGrow(u, g, l, s.ballots);
    ViewsGrow(u, g, l, c, s.views);
    MarksGrow(u, g, l, c, s.marks);
    OutboxGrowsSound(u, g, l, c, s.outbox);
    if 0 in g { assert forall m :: m in g[0].outbox ==> m in l[0].outbox; }
  }

  lemma ActsKeepsNodes(u: Setup, x: Sys, y: Sys, i: nat, now: int, e: Event)
    requires SysInv(u, x) && Acts(u, x, y, i, now, e)
    ensures forall j | j in u.replicas :: j in y.nodes && Good(u, y.nodes, u.replicas[j], y.nodes[j])
    ensures LedgerGrows(x.nodes, y.nodes)
  {
    hide Member, Settings.Scans, Inv, Sound, Evolves, MsgSound, Step, LedgerGrows;
    var c := u.replicas[i];
    var s := x.nodes[i];
    var t := Step(c, s, now, e);
    assert x.nodes[i := s] == x.nodes;
    StepKeeps(c, s, now, e);
    StepSound(u, x.nodes, c, s, now, e);
    MovedLedger(x.nodes, i, t);
    SameLedger(u, x.nodes, y.nodes, c, t);
    forall j | j in u.replicas ensures Good(u, y.nodes, u.replicas[j], y.nodes[j]) {
      if j != i { BystanderSound(u, x.nodes, y.nodes, u.replicas[j], x.nodes[j]); }
    }
  }

  lemma ActsKeeps(u: Setup, x: Sys, y: Sys, i: nat, now: int, e: Event)
    requires SysInv(u, x) && Acts(u, x, y, i, now, e)
    ensures SysInv(u, y) && LedgerGrows(x.nodes, y.nodes)
  {
    hide Good, MsgSound, Step, LedgerGrows;
    ActsKeepsNodes(u, x, y, i, now, e);
    forall m | m in y.net ensures MsgSound(u, y.nodes, m) {
      if m in x.net {
        MsgGrows(u, x.nodes, y.nodes, m);
      } else {
        assert u.replicas[i].id == i;
        SentSound(u, y.nodes, u.replicas[i], y.nodes[i], m);
      }
    }
  }

  lemma MovedLedger(g: map<nat, State>, i: nat, t: State)
    requires i in g && Evolves(g[i], t)
    ensures LedgerGrows(g, g[i := t])
  {}

  lemma SameLedger(u: Setup, g: map<nat, State>, l: map<nat, State>, c: Config, t: State)
    requires Good(u, g, c, t) && l == g[c.id := t]
    ensures Good(u, l, c, t)
  {
    hide Member, Settings.Scans, Inv, CertsSound, BallotsSound, ViewsSound, MarksSound, OutboxSound, Full;
    assert l[c.id := t] == g[c.id := t];
  }

  lemma SentSound(u: Setup, g: map<nat, State>, c: Config, s: State, m: Msg)
    requires Good(u, g, c, s) && g[c.id] == s && m in s.outbox
    ensures MsgSound(u, g, m)
  {
    hide Member, Settings.Scans, Inv, CertsSound, BallotsSound, ViewsSound, MarksSound, Full, MsgSound;
    assert g[c.id := s] == g;
  }

  lemma SameLedgerGrows(g: map<nat, State>)
    ensures LedgerGrows(g, g)
  {}

  lemma NextKeeps(u: Setup, x: Sys, y: Sys)
    requires SysInv(u, x) && Next(u, x, y)
    ensures SysInv(u, y) && LedgerGrows(x.nodes, y.nodes)
  {
    hide SysInv, Acts, Injects, LedgerGrows;
    if i, now, e :| Acts(u, x, y, i, now, e) {
      ActsKeeps(u, x, y, i, now, e);
    } else {
      var m :| Injects(u, x, y, m);
      InjectsKeeps(u, x, y, m);
    }
  }

  lemma InjectsKeeps(u: Setup, x: Sys, y: Sys, m: Msg)
    requires SysInv(u, x) && Injects(u, x, y, m)
    ensures SysInv(u, y) && LedgerGrows(x.nodes, y.nodes)
  {
    hide Good, MsgSound, LedgerGrows;
    SameLedgerGrows(x.nodes);
  }

  lemma {:induction false} ReachableSound(u: Setup, tr: seq<Sys>, k: nat)
    requires u.Valid() && Run(u, tr) && k < |tr|
    ensures SysInv(u, tr[k])
  {
    hide Good, Next, MsgSound;
    if k == 0 {
      forall i | i in u.replicas ensures Good(u, tr[0].nodes, u.replicas[i], tr[0].nodes[i]) {
        InitSound(u, tr[0].nodes, i);
      }
    } else {
      ReachableSound(u, tr, k - 1);
      NextKeeps(u, tr[k - 1], tr[k]);
    }
  }

  lemma SetupOf(u: Setup, x: Sys)
    requires SysInv(u, x)
    ensures u.Valid() && x.nodes.Keys == u.replicas.Keys
  {}

  lemma InNet(u: Setup, x: Sys, m: Msg)
    requires SysInv(u, x) && m in x.net
    ensures MsgSound(u, x.nodes, m)
  {}

  /** What that says of one correct replica. */
  lemma NodeFacts(u: Setup, x: Sys, i: nat)
    requires SysInv(u, x) && i in x.nodes
    ensures var c := u.replicas[i];
            var s := x.nodes[i];
            && Member(u, c) && c.id == i && Inv(c, s)
            && CertsSound(u, x.nodes, s.views.view, s.certs) && BallotsSound(u, x.nodes, s.ballots)
            && ViewsSound(u, x.nodes, c, s.views) && MarksSound(u, x.nodes, c, s.marks)
            && OutboxSound(u, x.nodes, c, s.outbox) && Full(x.nodes, s)
  {
    hide Member, Settings.Scans, Inv, CertsSound, BallotsSound, ViewsSound, MarksSound, OutboxSound, Full, MsgSound;
    assert Good(u, x.nodes, u.replicas[i], x.nodes[i]);
    assert x.nodes[i := x.nodes[i]] == x.nodes;
  }

  lemma SentFacts(u: Setup, x: Sys, i: nat, m: Msg)
    requires SysInv(u, x) && i in x.nodes && m in x.nodes[i].outbox
    ensures i in u.replicas && OutMsgOk(u.replicas[i], x.nodes[i], m) && MsgSound(u, x.nodes, m)
  {
    hide SysInv, Member, CertsOk, ExecOk, OutMsgOk, CertsSound, BallotsSound, ViewsSound, MarksSound, Full, MsgSound;
    SetupOf(u, x);
    NodeFacts(u, x, i);
  }

  lemma FromCorrect(u: Setup, x: Sys, m: Msg)
    requires SysInv(u, x) && MsgSound(u, x.nodes, m) && m.Sender() !in u.faulty
    ensures m.Sender() in x.nodes && m in x.nodes[m.Sender()].outbox
  {
    hide Carries, Good;
    assert m.Sender() in Below(u.n);
  }
}
