/** Messages that name a view other than the one under way. Two handlers look up what they are about under the
    view the message names and check nothing else of it: a vote can so end a correct replica, and a correct
    replica commit to a certificate after its view-changes. */
module Strays {
  import opened Types
  import opened ReplicaState
  import opened Assignment
  import opened Handlers
  import opened Quorum
  import opened Cluster
  import opened Invariants
  import opened Preservation
  import opened Reachability
  import opened Issuing
  import opened Agreement
  import opened Frames
  import opened Delivery
  import opened Recovery
  import opened Findings
  import opened Runs
  import opened Divergence

  // ---------------------------------------------------------------- Votes

  /** The table is full, no certificate has been sent, and too few shares are genuine. */
  predicate Fatal(s: State, id: MsgId, shares: Shares, key: KeyKind, vote: PrepareVote, quorum: nat) {
    |shares| >= quorum && !CertOf(s, id).qcSent && |GenuineSigners(shares, key, ForPrepare(vote))| < quorum
  }

  /** No timer under the number and view the vote names, or a fatal table. */
  predicate Deadly(c: Config, s: State, pm: PrepareMsg) {
    var id := MsgId(pm.vote.sn, pm.vote.view);
    var k := pm.vote.digest.Key();
    || id !in s.leader.timers
    || (s.leader.timers[id]
        && Fatal(s, id, SharesOf(s.ballots.prepare, (id, k))[pm.sender := pm.sig], TsKey,
                 PrepareVote(id.sn, id.view, k), SlowQuorum(c)))
    || (!s.leader.timers[id]
        && Fatal(s, id, SharesOf(s.ballots.fast, (id, k))[pm.sender := pm.fastSig], FastKey,
                 PrepareVote(id.sn, id.view, k), c.fastQuorum))
  }

  /** The vote is looked at: the number is in the window, and the sender's first for it in this view. */
  predicate Admitted(c: Config, s: State, sn: u32, sender: nat) {
    s.views.active && InWatermarks(c, s, sn) && sender !in CertOf(s, MsgId(sn, s.views.view)).prepares
  }

  lemma CountingKillsExactly(c: Config, s: State, pm: PrepareMsg)
    requires !s.panicked
    ensures HandlePrepareVote(c, s, pm).panicked <==> Deadly(c, s, pm)
  {
    hide SharesOf, GenuineSigners, RecordVote;
    Recorded(s, MsgId(pm.vote.sn, pm.vote.view), pm.vote.digest.Key(), pm);
    RecordedRest(s, MsgId(pm.vote.sn, pm.vote.view), pm.vote.digest.Key(), pm);
  }

  lemma VoteKillsExactly(c: Config, s: State, pm: PrepareMsg)
    requires !s.panicked
    ensures HandlePrepare(c, s, pm).panicked <==> Admitted(c, s, pm.vote.sn, pm.sender) && Deadly(c, s, pm)
  {
    hide SharesOf, GenuineSigners, InWatermarks, HandlePrepareVote;
    var id := MsgId(pm.vote.sn, s.views.view);
    CountingKillsExactly(c, PutCert(s, id, CertOf(s, id).(prepares := CertOf(s, id).prepares[pm.sender := pm])), pm);
  }

  lemma UnusedView(ks: set<MsgId>, sn: u32) returns (view: nat)
    ensures MsgId(sn, view) !in ks && forall id | id in ks :: id.view < view
    decreases |ks|
  {
    view := 0;
    if ks != {} {
      var x :| x in ks;
      view := UnusedView(ks - {x}, sn);
      view := if view <= x.view then x.view + 1 else view;
      assert forall id | id in ks :: id == x || id in ks - {x};
    }
  }

  /** The vote of a faulty replica j for number sn and some view, signed with its own shares. */
  function VoteFor(sn: u32, view: nat, j: nat): PrepareMsg {
    var v := PrepareVote(sn, view, Nil);
    PrepareMsg(v, j, PartialSig(TsKey, ForPrepare(v), j), PartialSig(FastKey, ForPrepare(v), j))
  }

  /** In any state, primary or not: some properly signed vote of j ends the replica exactly if it is active and
      has a number in its window for which it has recorded no vote of j in this view. */
  lemma SomeVoteKillsExactly(c: Config, s: State, j: nat)
    requires !s.panicked
    ensures (exists pm: PrepareMsg :: pm.sender == j && HandlePrepare(c, s, pm).panicked)
            <==> exists sn: u32 :: Admitted(c, s, sn, j)
    ensures forall sn: u32 | Admitted(c, s, sn, j) ::
              exists view: nat :: HandlePrepare(c, s, VoteFor(sn, view, j)).panicked
  {
    hide HandlePrepare, Admitted, Deadly;
    if pm: PrepareMsg :| pm.sender == j && HandlePrepare(c, s, pm).panicked { VoteKillsExactly(c, s, pm); }
    forall sn: u32 | Admitted(c, s, sn, j)
      ensures exists view: nat :: HandlePrepare(c, s, VoteFor(sn, view, j)).panicked
    {
      var view := UnusedView(s.leader.timers.Keys, sn);
      assert Deadly(c, s, VoteFor(sn, view, j)) by { NoTimer(c, s, VoteFor(sn, view, j)); }
      VoteKillsExactly(c, s, VoteFor(sn, view, j));
      assert VoteFor(sn, view, j).sender == j;
    }
  }

  lemma NoTimer(c: Config, s: State, pm: PrepareMsg)
    requires MsgId(pm.vote.sn, pm.vote.view) !in s.leader.timers
    ensures Deadly(c, s, pm)
  {}

  /** So every run can go on, in two steps, to a state in which the correct replica i has died of a vote of the
      faulty replica j, if i has a number in its window without one. */
  lemma OneVoteEndsRun(u: Setup, was: seq<Sys>, i: nat, j: nat, sn: u32) returns (tr: seq<Sys>)
    requires u.Valid() && Run(u, was) && j in u.faulty && i in was[|was| - 1].nodes && i in u.replicas
    requires !was[|was| - 1].nodes[i].panicked && Admitted(u.replicas[i], was[|was| - 1].nodes[i], sn, j)
    ensures Run(u, tr) && |tr| == |was| + 2 && i in tr[|tr| - 1].nodes && tr[|tr| - 1].nodes[i].panicked
  {
    hide Run, Step, HandlePrepare, Setup.Valid, Admitted, MsgSound, SysInv;
    SomeStates(u, was);
    ReachableSound(u, was, |was| - 1);
    SetupOf(u, was[|was| - 1]);
    var c, x := u.replicas[i], was[|was| - 1];
    var s := x.nodes[i];
    SomeVoteKillsExactly(c, s.(clock := 0), j);
    assert Admitted(c, s.(clock := 0), sn, j) by { AtZero(c, s, sn, j); }
    var view: nat :| HandlePrepare(c, s.(clock := 0), VoteFor(sn, view, j)).panicked;
    var m := Prepare(VoteFor(sn, view, j));
    VoteSound(u, x.nodes, sn, view, j);
    var y := x.(net := x.net + {m});
    assert Injects(u, x, y, m);
    Extends(u, was, y);
    var t := Step(c, s, 0, Deliver(m));
    var z := Sys(y.nodes[i := t], y.net + (set o | o in t.outbox));
    assert Acts(u, y, z, i, 0, Deliver(m));
    Extends(u, was + [y], z);
    VoteHandled(c, s, VoteFor(sn, view, j));
    tr := was + [y] + [z];
  }

  lemma VoteHandled(c: Config, s: State, pm: PrepareMsg)
    requires !s.panicked
    ensures Step(c, s, 0, Deliver(Prepare(pm))) == HandlePrepare(c, s.(clock := 0), pm)
  {
    hide HandlePrepare;
  }

  lemma AtZero(c: Config, s: State, sn: u32, j: nat)
    ensures Admitted(c, s, sn, j) == Admitted(c, s.(clock := 0), sn, j)
  {}

  lemma VoteSound(u: Setup, g: map<nat, State>, sn: u32, view: nat, j: nat)
    requires u.Valid() && j in u.faulty && g.Keys == u.replicas.Keys
    ensures MsgSound(u, g, Prepare(VoteFor(sn, view, j)))
  {
    assert j in Below(u.n);
  }

  // ---------------------------------------------------------------- Commits

  /** When a certificate leads to a signed commit: neither its view nor the pre-prepare is looked at. */
  lemma CommitSignedExactly(c: Config, s: State, q: PrepareQc)
    ensures q in HandleSlowQc(c, s, q).commitVotes <==>
              || q in s.commitVotes
              || (s.views.active && InWatermarks(c, s, q.sn) && q.sender == c.Primary(s.views.view)
                  && CertOf(s, MsgId(q.sn, q.view)).prepareQc.None? && Verify(TsKey, ForPrepare(SlowVote(q)), q.sig))
  {
    hide CheckIfPrepared, InWatermarks, ViewChangeOf;
    CheckIfPreparedCalm(c, PutCert(s, MsgId(q.sn, q.view), CertOf(s, MsgId(q.sn, q.view)).(prepareQc := Some(q))),
                        MsgId(q.sn, q.view));
  }

  predicate HoldsPrePrepare(s: State, sn: u32) {
    exists id :: id in s.certs && id.sn == sn && s.certs[id].prePrepare.Some?
  }

  /** What a replica has signed a commit for it reports with both entries exactly if it holds a pre-prepare for
      the number, of whatever view. */
  lemma CommitReportedExactly(c: Config, s: State, q: PrepareQc)
    requires Inv(c, s) && c.Scans() && q in s.commitVotes && s.marks.h < q.sn
    ensures Paired(ViewChangeOf(c, s), q.sn) <==> HoldsPrePrepare(s, q.sn)
  {
    hide Inv, CalPset, CalQset, CalCset;
    var ids := c.scanIds(s.views.view + 1, s.certs.Keys);
    assert Enumerates(ids, s.certs.Keys);
    CalPsetSpec(s.certs, s.marks.h, ids);
    ReportsCommits(c, s, q);
  }

  // ---------------------------------------------------------------- A commit signed too late

  /** A replica that has heard nothing and has asked for views up to k. */
  ghost predicate Waiting(c: Config, s: State, k: nat) {
    && !s.panicked && s.certs == map[] && s.marks == Init(c).marks && s.views.newViews == map[]
    && s.views.view == k && (0 < k ==> !s.views.active)
    && (0 < k ==> exists vc :: s.outbox != [] && s.outbox[|s.outbox| - 1] == ViewChange(vc) && Blank(vc, k, c.id))
  }

  predicate Blank(vc: ViewChangeMsg, k: nat, i: nat) {
    vc.view == k && vc.sender == i && vc.pset == map[] && vc.qset == map[]
  }

  lemma WaitsOn(c: Config, s: State, k: nat)
    requires c.Scans() && Waiting(c, s, k)
    ensures Waiting(c, Step(c, s, 0, ViewTimeout), k + 1)
  {
    hide Settings.Scans, CalCset;
    var ids := c.scanIds(k + 1, {});
    assert Enumerates(ids, {}) by { ScansIds(c, k + 1, {}); }
    Inhabited(ids);
    assert s.certs.Keys == {};
    assert Blank(ViewChangeOf(c, s.(clock := 0)), k + 1, c.id);
  }

  lemma Inhabited<A>(order: seq<A>)
    ensures order == [] || exists x :: x in order
  {
    if order != [] { assert order[0] in order; }
  }

  lemma ScansIds(c: Config, v: nat, ks: set<MsgId>)
    requires c.Scans()
    ensures Enumerates(c.scanIds(v, ks), ks)
  {}

  /** It enters a view whose new view assigns nothing - nobody checks what a new view contains. */
  lemma EntersBlank(c: Config, s: State, k: nat, nv: NewViewMsg)
    requires 0 < k && Waiting(c, s, k) && nv == NewViewMsg(k, [], map[], c.Primary(k))
    ensures var t := Step(c, s, 0, Deliver(NewView(nv)));
            && !t.panicked && t.certs == map[] && t.marks == s.marks && t.outbox == s.outbox
            && t.views.active && t.views.view == k
  {
    var x := s.(clock := 0);
    var y := x.(views := x.views.(newViews := map[k := nv]));
    assert x.views.newViews[k := nv] == map[k := nv];
    SortedMembers(nv.oset.Keys);
    Inhabited(Sorted(nv.oset.Keys));
  }

  /** The events in the life of replica 3: four timeouts, a new view for the faulty replica's next view, and
      the slow certificate of the first one. */
  function LateLife(nv: NewViewMsg, q: PrepareQc): seq<Event> {
    [ViewTimeout, ViewTimeout, ViewTimeout, ViewTimeout, Deliver(NewView(nv)), Deliver(SlowQc(q))]
  }

  /** The commit is signed, and the view-change sent before reports nothing. */
  ghost predicate CommittedLate(s: State, q: PrepareQc, i: nat) {
    && q in s.commitVotes
    && exists vc :: Blank(vc, 4, i) && ViewChange(vc) in s.outbox && !CommittedBefore(s, vc, q)
  }

  lemma {:induction false} WaitsThrough(c: Config, es: seq<Event>)
    requires c.Scans() && forall k | 0 <= k < |es| :: es[k] == ViewTimeout
    ensures Waiting(c, Lives(c, Init(c), es), |es|)
  {
    hide Step, Settings.Scans;
    if es != [] {
      WaitsThrough(c, es[..|es| - 1]);
      WaitsOn(c, Lives(c, Init(c), es[..|es| - 1]), |es| - 1);
    }
  }

  lemma LastSent(c: Config, s: State, k: nat)
    requires 0 < k && Waiting(c, s, k)
    ensures exists vc :: Blank(vc, k, c.id) && ViewChange(vc) in s.outbox
  {}

  /** A certificate of another view, for which the replica has nothing stored. */
  lemma TakesOld(c: Config, s: State, q: PrepareQc)
    requires !s.panicked && s.certs == map[] && s.views.active && InWatermarks(c, s, q.sn)
    requires q.sender == c.Primary(s.views.view) && Verify(TsKey, ForPrepare(SlowVote(q)), q.sig)
    ensures var t := Step(c, s, 0, Deliver(SlowQc(q))); q in t.commitVotes && s.outbox <= t.outbox
  {
    hide CheckIfPrepared;
    CommitSignedExactly(c, s.(clock := 0), q);
    var id := MsgId(q.sn, q.view);
    var t := PutCert(s.(clock := 0), id, FRESH.(prepareQc := Some(q)));
    Settles(c, t, id);
  }

  /** With a slow certificate only, an entry becomes prepared and nothing is sent. */
  lemma Settles(c: Config, s: State, id: MsgId)
    requires CertOf(s, id).fastQc.None? && CertOf(s, id).commitQc.None?
    ensures CheckIfPrepared(c, s, id).outbox == s.outbox
  {}

  lemma CommitsLate(b: RequestBatch, nv: NewViewMsg)
    requires nv == NewViewMsg(4, [], map[], 0)
    ensures var c := Replica(4, 3); var q := SlowCert(Hash(b));
            CommittedLate(Lives(c, Init(c), LateLife(nv, q)), q, 3)
  {
    hide Step, Waiting, Settings.Scans;
    var c, q := Replica(4, 3), SlowCert(Hash(b));
    ReplicaFits(4, 3);
    var waits := [ViewTimeout, ViewTimeout, ViewTimeout, ViewTimeout];
    WaitsThrough(c, waits);
    var s := Lives(c, Init(c), waits);
    var t := Step(c, s, 0, Deliver(NewView(nv)));
    EntersBlank(c, s, 4, nv);
    LastSent(c, s, 4);
    AtStart(c, s, 4);
    LivesOne(c, s, Deliver(NewView(nv)));
    LivesOne(c, t, Deliver(SlowQc(q)));
    LivesOn(c, s, [Deliver(NewView(nv))], [Deliver(SlowQc(q))]);
    LivesOn(c, Init(c), waits, [Deliver(NewView(nv))] + [Deliver(SlowQc(q))]);
    assert waits + ([Deliver(NewView(nv))] + [Deliver(SlowQc(q))]) == LateLife(nv, q);
    TakesOld(c, t, q);
  }

  lemma AtStart(c: Config, s: State, k: nat)
    requires Waiting(c, s, k)
    ensures s.marks.h == 0
  {}

  /** A backup that has stored the proposal signs a commit for its certificate. */
  lemma CommitsProposal(i: nat, b: RequestBatch)
    requires 0 < i < 4
    ensures var c := Replica(4, i); var q := SlowCert(Hash(b));
            q in Lives(c, Init(c), [Deliver(PrePrepare(Proposal(b))), Deliver(SlowQc(q))]).commitVotes
  {
    hide HandleSlowQc, Lives;
    var c, q := Replica(4, i), SlowCert(Hash(b));
    var p := Deliver(PrePrepare(Proposal(b)));
    assert [p] + [Deliver(SlowQc(q))] == [p, Deliver(SlowQc(q))];
    LivesOn(c, Init(c), [p], [Deliver(SlowQc(q))]);
    LivesOne(c, Init(c), p);
    LivesOne(c, Step(c, Init(c), 0, p), Deliver(SlowQc(q)));
    CommitSignedExactly(c, Step(c, Init(c), 0, p).(clock := 0), q);
  }

  /** Within the fault bound: replicas 1 and 2 vote for b, the faulty primary assembles the certificate, 1
      signs a commit - and so does 3, which has never seen the pre-prepare, in the first view of the faulty
      replica after it has asked for that view. With the faulty replica's share there is a commit
      certificate for b, and every quorum in which 3's view-change takes part holds a correct committer that
      does not report it. */
  lemma CommitsUnreported(b: RequestBatch) returns (tr: seq<Sys>)
    ensures Tolerates(FourReplicas(), MIX) && Run(FourReplicas(), tr) && |tr| > 0
    ensures var g := tr[|tr| - 1].nodes; var q := SlowCert(Hash(b));
            && 3 in g && Legit(FourReplicas(), g, Genuine(TsKey, ForCommit(q)))
            && exists vc :: Blank(vc, 4, 3) && ViewChange(vc) in g[3].outbox
                            && forall vset | vc in vset :: !CommittersReport(g, vset, q)
  {
    hide Step, Lives, Next, Run, MsgSound, Replica, FourReplicas, Legit, Tolerates, CommittedBefore;
    var u, p, q, nv := FourReplicas(), PrePrepare(Proposal(b)), SlowCert(Hash(b)), NewViewMsg(4, [], map[], 0);
    FourAre();
    FourTolerate();
    tr := Started(u);
    Unsigned(u, tr[|tr| - 1].nodes, p);
    Unsigned(u, tr[|tr| - 1].nodes, NewView(nv));
    tr := Sent(u, tr, {p, NewView(nv)});
    tr := Lived(u, tr, 1, [Deliver(p)]);
    tr := Lived(u, tr, 2, [Deliver(p)]);
    VotesProposal(4, 1, b);
    VotesProposal(4, 2, b);
    ThreeBack(tr[|tr| - 1].nodes, 1, 2, ForPrepare(PrepareVote(1, 0, Hash(b))));
    Unsigned(u, tr[|tr| - 1].nodes, SlowQc(q));
    tr := Sent(u, tr, {SlowQc(q)});
    tr := Lived(u, tr, 1, [Deliver(SlowQc(q))]);
    LivesOn(Replica(4, 1), Init(Replica(4, 1)), [Deliver(p)], [Deliver(SlowQc(q))]);
    assert [Deliver(p)] + [Deliver(SlowQc(q))] == [Deliver(p), Deliver(SlowQc(q))];
    tr := Lived(u, tr, 3, LateLife(nv, q));
    CommitsProposal(1, b);
    CommitsLate(b, nv);
    var g := tr[|tr| - 1].nodes;
    ThreeBack(g, 1, 3, ForCommit(q));
    var vc :| Blank(vc, 4, 3) && ViewChange(vc) in g[3].outbox && !CommittedBefore(g[3], vc, q);
    forall vset | vc in vset ensures !CommittersReport(g, vset, q) {}
  }
}
