/** Whole runs under a faulty first primary. With four replicas it makes two correct ones execute different
    batches as number 1, and gets two slow certificates for number 1, one of them for no digest; with three -
    a mix the generator also accepts - it gets two that certify different batches. */
module Divergence {
  import opened Types
  import opened ReplicaState
  import opened Handlers
  import opened Quorum
  import opened Cluster
  import opened Runs
  import opened Agreement
  import opened Delivery
  import opened Findings

  /** Four replicas, one of them - the first primary - faulty: fast quorum 3. */
  const MIX: Mix := Mix(4, 0, 1, 0)

  /** Replica i of n, one of which is an abm: the generator's quorum sizes. */
  ghost function Replica(n: nat, i: nat): Config
    requires 0 < n
  {
    Settings(i, n, n - 1, 2 * (n / 3) + 2, n / 3 + 1, 10, 100, false,
             (v, ks) => ToSeq(ks), (v, ks) => ToSeq(ks), (v, ks) => ToSeq(ks))
  }

  lemma ReplicaFits(n: nat, i: nat)
    requires 0 < n
    ensures var c := Replica(n, i); c.id == i && c.n == n && c.fastQuorum == n - 1 && c.T == 10 && c.Scans()
  {
    forall ks: set<MsgId> ensures Enumerates(ToSeq(ks), ks) { ToSeqEnumerates(ks); }
    forall ks: set<CheckpointMsg> ensures Enumerates(ToSeq(ks), ks) { ToSeqEnumerates(ks); }
    forall ks: set<Vcidx> ensures Enumerates(ToSeq(ks), ks) { ToSeqEnumerates(ks); }
  }

  ghost function FourReplicas(): Setup {
    Setup(4, {0}, 3, 10, map[1 := Replica(4, 1), 2 := Replica(4, 2), 3 := Replica(4, 3)])
  }

  lemma FourTolerate()
    ensures Tolerates(FourReplicas(), MIX)
  {
    hide Replica, Settings.Scans, Below;
    var u := FourReplicas();
    ReplicaFits(4, 1);
    ReplicaFits(4, 2);
    ReplicaFits(4, 3);
    FourIds();
    assert u.replicas.Keys == {1, 2, 3};
    assert |u.faulty| == 1;
  }

  lemma FourIds()
    ensures Below(4) == {0, 1, 2, 3}
  {
    assert forall i: nat :: i in Below(4) <==> i < 4;
  }

  function Proposal(b: RequestBatch): PrePrepareMsg { PrePrepareMsg(1, Hash(b), b, 0, 0) }
  function FastCert(b: RequestBatch): FastPrepareQc {
    FastPrepareQc(1, Hash(b), 0, 0, Genuine(FastKey, ForPrepare(PrepareVote(1, 0, Hash(b)))))
  }

  function ThePlan(b: RequestBatch, d: RequestBatch): Plan { map[1 := Item(Proposal(b), Fast(FastCert(d)))] }

  lemma PlanFits(i: nat, b: RequestBatch, d: RequestBatch)
    ensures Unheard(Replica(4, i), ThePlan(b, d), Init(Replica(4, i)))
  {}

  lemma {:induction false} LivesReceives(c: Config, s: State, es: seq<Event>, arrivals: seq<Arrival>)
    requires |arrivals| == |es| && forall k | 0 <= k < |es| :: arrivals[k].now == 0 && es[k] == Deliver(arrivals[k].m)
    ensures Lives(c, s, es) == Receive(c, s, arrivals)
  {
    hide Step;
    if es != [] { LivesReceives(c, s, es[..|es| - 1], arrivals[..|arrivals| - 1]); }
  }

  /** A backup that gets proposal b and then a fast certificate for d executes b. */
  lemma ExecutesProposal(i: nat, b: RequestBatch, d: RequestBatch)
    requires 0 < i < 4
    ensures var es := [Deliver(PrePrepare(Proposal(b))), Deliver(FastQc(FastCert(d)))];
            var t := Lives(Replica(4, i), Init(Replica(4, i)), es);
            |t.exec.log| > 0 && t.exec.log[0].digest == Hash(b)
  {
    hide Receive, Unheard, Lives;
    var c := Replica(4, i);
    var plan := ThePlan(b, d);
    var p, q := Arrival(0, PrePrepare(Proposal(b))), Arrival(0, FastQc(FastCert(d)));
    PlanFits(i, b, d);
    assert IsPart(plan[1], p.m) && IsPart(plan[1], q.m);
    assert AllInPlan(plan, [p, q]);
    BackupSurvives(c, plan, Init(c), [p, q]);
    CompleteDelivery(c, plan, Init(c), [p, q], 1);
    assert [p, q][0] == p && [p, q][1] == q;
    assert p.m in Messages([p, q]) && q.m in Messages([p, q]);
    assert Ready(plan[1], Messages([p, q]));
    LivesReceives(c, Init(c), [Deliver(p.m), Deliver(q.m)], [p, q]);
  }

  lemma LivesOne(c: Config, s: State, e: Event)
    ensures Lives(c, s, [e]) == Step(c, s, 0, e)
  {
    hide Step;
    assert [e][..0] == [] && Lives(c, s, []) == s;
  }

  lemma VotesProposal(n: nat, i: nat, b: RequestBatch)
    requires 0 < i < n
    ensures var t := Lives(Replica(n, i), Init(Replica(n, i)), [Deliver(PrePrepare(Proposal(b)))]);
            PrepareVote(1, 0, Hash(b)) in t.votes
  {
    hide HandlePrePrepare, Lives;
    var s := Init(Replica(n, i)).(clock := 0);
    LivesOne(Replica(n, i), Init(Replica(n, i)), Deliver(PrePrepare(Proposal(b))));
    VoteNamesProposalExactly(Replica(n, i), s, Proposal(b));
  }

  // ---------------------------------------------------------------- Four replicas

  lemma FourAre()
    ensures FourReplicas().faulty == {0} && FourReplicas().n == 4 && FourReplicas().fastQuorum == 3
    ensures FourReplicas().replicas == map[1 := Replica(4, 1), 2 := Replica(4, 2), 3 := Replica(4, 3)]
  {}

  /** The faulty primary's share and those of two correct voters are enough, for either key. */
  lemma ThreeBack(g: map<nat, State>, i: nat, j: nat, p: Payload)
    requires 0 < i < j < 4 && Signed(g, i, p) && Signed(g, j, p)
    ensures Legit(FourReplicas(), g, Genuine(TsKey, p)) && Legit(FourReplicas(), g, Genuine(FastKey, p))
  {
    hide Replica, Signed;
    assert forall k: nat :: k in Below(4) <==> k < 4;
    assert |{0, i, j}| == 3;
    SubsetSize({0, i, j}, Backers(FourReplicas(), g, p));
  }

  /** The faulty primary may send anything that carries no signature but its own. */
  lemma Unsigned(u: Setup, g: map<nat, State>, m: Msg)
    requires m.Sender() == 0 && 0 < u.n && 0 !in g && Carries(u, g, m)
    ensures MsgSound(u, g, m)
  {}

  /** checkIfPrepared does not compare the certificate's digest with the stored one. In a run within
      the fault bound, a faulty primary sends b to two replicas, d to the third, and a fast certificate
      for b to all: the correct replicas 1 and 3 execute different batches as number 1. */
  lemma LogsCanDiverge(b: RequestBatch, d: RequestBatch) returns (tr: seq<Sys>)
    ensures Tolerates(FourReplicas(), MIX) && Run(FourReplicas(), tr) && |tr| > 0
    ensures var g := tr[|tr| - 1].nodes;
            && 1 in g && 3 in g && |g[1].exec.log| > 0 && |g[3].exec.log| > 0
            && g[1].exec.log[0].digest == Hash(b) && g[3].exec.log[0].digest == Hash(d)
  {
    hide Step, Lives, Next, Run, MsgSound, Replica, FourReplicas, Legit, Tolerates;
    var u, p, w, q := FourReplicas(), PrePrepare(Proposal(b)), PrePrepare(Proposal(d)), FastQc(FastCert(b));
    FourAre();
    FourTolerate();
    tr := Started(u);
    Unsigned(u, tr[|tr| - 1].nodes, p);
    Unsigned(u, tr[|tr| - 1].nodes, w);
    tr := Sent(u, tr, {p, w});
    tr := Lived(u, tr, 1, [Deliver(p)]);
    tr := Lived(u, tr, 2, [Deliver(p)]);
    VotesProposal(4, 1, b);
    VotesProposal(4, 2, b);
    ThreeBack(tr[|tr| - 1].nodes, 1, 2, ForPrepare(PrepareVote(1, 0, Hash(b))));
    Unsigned(u, tr[|tr| - 1].nodes, q);
    tr := Sent(u, tr, {q});
    tr := Lived(u, tr, 1, [Deliver(q)]);
    LivesOn(Replica(4, 1), Init(Replica(4, 1)), [Deliver(p)], [Deliver(q)]);
    assert [Deliver(p)] + [Deliver(q)] == [Deliver(p), Deliver(q)];
    tr := Lived(u, tr, 3, [Deliver(w), Deliver(q)]);
    ExecutesProposal(1, b, b);
    ExecutesProposal(3, d, b);
  }

  function SlowCert(d: Digest): PrepareQc {
    PrepareQc(1, d, 0, 0, Genuine(TsKey, ForPrepare(PrepareVote(1, 0, d))), 0)
  }

  /** A proposal for the same number that names a later view. */
  function Stray(b: RequestBatch): PrePrepareMsg { PrePrepareMsg(1, Hash(b), b, 1, 0) }

  lemma VotesForNothing(i: nat, b: RequestBatch)
    requires 0 < i < 4
    ensures var es := [Deliver(PrePrepare(Stray(b))), Deliver(PrePrepare(Proposal(b)))];
            var t := Lives(Replica(4, i), Init(Replica(4, i)), es);
            PrepareVote(1, 0, Nil) in t.votes && PrepareVote(1, 0, Hash(b)) in t.votes
  {
    hide HandlePrePrepare, Lives;
    var c := Replica(4, i);
    var s := Init(c).(clock := 0);
    var e, f := Deliver(PrePrepare(Stray(b))), Deliver(PrePrepare(Proposal(b)));
    assert [e, f] == [e] + [f];
    LivesOn(c, Init(c), [e], [f]);
    LivesOne(c, Init(c), e);
    LivesOne(c, Step(c, Init(c), 0, e), f);
    VoteNamesProposalExactly(c, s, Stray(b));
    VoteNamesProposalExactly(c, HandlePrePrepare(c, s, Stray(b)).(clock := 0), Proposal(b));
  }

  /** Within the fault bound certificates agree only if both have a digest. In this run two correct
      backups vote first for none, on a pre-prepare of another view, and then for b: it ends with two slow
      certificates that both verify for number 1 of the first view, one for no digest and one for b. */
  lemma CertificateForNothing(b: RequestBatch) returns (tr: seq<Sys>)
    ensures Tolerates(FourReplicas(), MIX) && Run(FourReplicas(), tr) && |tr| > 0
    ensures var net := tr[|tr| - 1].net;
            && SlowQc(SlowCert(Nil)) in net && SlowQc(SlowCert(Hash(b))) in net
            && Verifies(SlowQc(SlowCert(Nil))) && Verifies(SlowQc(SlowCert(Hash(b))))
  {
    hide Step, Lives, Next, Run, MsgSound, Replica, FourReplicas, Legit, Tolerates;
    var u, w, p := FourReplicas(), PrePrepare(Stray(b)), PrePrepare(Proposal(b));
    FourAre();
    FourTolerate();
    tr := Started(u);
    Unsigned(u, tr[|tr| - 1].nodes, w);
    Unsigned(u, tr[|tr| - 1].nodes, p);
    tr := Sent(u, tr, {w, p});
    tr := Lived(u, tr, 1, [Deliver(w), Deliver(p)]);
    tr := Lived(u, tr, 2, [Deliver(w), Deliver(p)]);
    VotesForNothing(1, b);
    VotesForNothing(2, b);
    var g := tr[|tr| - 1].nodes;
    ThreeBack(g, 1, 2, ForPrepare(PrepareVote(1, 0, Nil)));
    ThreeBack(g, 1, 2, ForPrepare(PrepareVote(1, 0, Hash(b))));
    Unsigned(u, g, SlowQc(SlowCert(Nil)));
    Unsigned(u, g, SlowQc(SlowCert(Hash(b))));
    tr := Sent(u, tr, {SlowQc(SlowCert(Nil)), SlowQc(SlowCert(Hash(b)))});
  }

  // ---------------------------------------------------------------- Three replicas

  /** The generator accepts one misbehaving replica in three. */
  const SMALL: Mix := Mix(3, 0, 1, 0)

  ghost function ThreeReplicas(): Setup { Setup(3, {0}, 2, 10, map[1 := Replica(3, 1), 2 := Replica(3, 2)]) }

  lemma ThreeFit()
    ensures ThreeReplicas().Valid() && ThreeReplicas().n == 3 && ThreeReplicas().faulty == {0}
    ensures ThreeReplicas().replicas == map[1 := Replica(3, 1), 2 := Replica(3, 2)]
    ensures SMALL.Accepted() && SMALL.FastNum() == ThreeReplicas().fastQuorum
    ensures |ThreeReplicas().faulty| == 3 / 3 && !Minority(3, 1)
  {
    hide Replica, Settings.Scans, Below;
    var u := ThreeReplicas();
    ReplicaFits(3, 1);
    ReplicaFits(3, 2);
    ThreeIds();
    assert u.replicas.Keys == {1, 2};
    assert |u.faulty| == 1;
  }

  lemma ThreeIds()
    ensures Below(3) == {0, 1, 2}
  {
    assert forall i: nat :: i in Below(3) <==> i < 3;
  }

  /** The faulty primary's share and that of one correct voter are enough: the threshold is 2. */
  lemma TwoBack(g: map<nat, State>, i: nat, p: Payload)
    requires 0 < i < 3 && Signed(g, i, p)
    ensures Legit(ThreeReplicas(), g, Genuine(TsKey, p))
  {
    hide Replica, Signed;
    assert forall k: nat :: k in Below(3) <==> k < 3;
    assert |{0, i}| == 2;
    SubsetSize({0, i}, Backers(ThreeReplicas(), g, p));
  }

  /** With a third of the replicas faulty certificates need not agree: a run of three, in a mix the
      generator accepts, ends with two slow certificates on the network that both verify for number 1 of the
      first view, one for b and one for d. */
  lemma CertificatesCanDisagree(b: RequestBatch, d: RequestBatch) returns (tr: seq<Sys>)
    ensures SMALL.Accepted() && SMALL.n == ThreeReplicas().n && SMALL.FastNum() == ThreeReplicas().fastQuorum
    ensures ThreeReplicas().Valid() && |ThreeReplicas().faulty| == SMALL.n / 3 && Run(ThreeReplicas(), tr) && |tr| > 0
    ensures var net := tr[|tr| - 1].net;
            && SlowQc(SlowCert(Hash(b))) in net && SlowQc(SlowCert(Hash(d))) in net
            && Verifies(SlowQc(SlowCert(Hash(b)))) && Verifies(SlowQc(SlowCert(Hash(d))))
  {
    hide Step, Lives, Next, Run, MsgSound, Replica, ThreeReplicas, Legit, Setup.Valid;
    var u, p, w := ThreeReplicas(), PrePrepare(Proposal(b)), PrePrepare(Proposal(d));
    ThreeFit();
    tr := Started(u);
    Unsigned(u, tr[|tr| - 1].nodes, p);
    Unsigned(u, tr[|tr| - 1].nodes, w);
    tr := Sent(u, tr, {p, w});
    tr := Lived(u, tr, 1, [Deliver(p)]);
    tr := Lived(u, tr, 2, [Deliver(w)]);
    VotesProposal(3, 1, b);
    VotesProposal(3, 2, d);
    var g := tr[|tr| - 1].nodes;
    TwoBack(g, 1, ForPrepare(PrepareVote(1, 0, Hash(b))));
    TwoBack(g, 2, ForPrepare(PrepareVote(1, 0, Hash(d))));
    Unsigned(u, g, SlowQc(SlowCert(Hash(b))));
    Unsigned(u, g, SlowQc(SlowCert(Hash(d))));
    tr := Sent(u, tr, {SlowQc(SlowCert(Hash(b))), SlowQc(SlowCert(Hash(d)))});
  }
}
