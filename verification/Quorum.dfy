/** The quorum sizes config_gen/main.go computes, and what it means for quorums to overlap. */
module Quorum {

  /** A cluster of n replicas in which up to bg + abm + pbm are configured to misbehave. */
  datatype Mix = Mix(n: nat, bg: nat, abm: nat, pbm: nat)
  {
    /** The generator refuses any other mix. */
    predicate Accepted() { bg + abm + pbm <= n / 3 }

    function NumT(): nat { n - n / 3 }
    function FastNum(): int { n - abm - pbm / 2 }
    function ViewChangeQuorum(): nat { 2 * (n / 3) + 1 + abm + pbm }
    function SubsetCount(): nat { n / 3 + 1 + (pbm + 1) / 2 }
  }

  /** Fewer than a third of the replicas are faulty. */
  predicate Minority(n: nat, faulty: nat) { 3 * faulty < n }

  // ---------------------------------------------------------------- Finite sets

  lemma {:induction false} SubsetSize<A>(a: set<A>, b: set<A>)
    requires a <= b
    ensures |a| <= |b|
  {
    if a != {} {
      var x :| x in a;
      SubsetSize(a - {x}, b - {x});
    }
  }

  /** The replica identifiers of a cluster of n. */
  function Below(n: nat): (ids: set<nat>)
    ensures |ids| == n && forall i: nat :: i in ids <==> i < n
  {
    if n == 0 then {} else Below(n - 1) + {n - 1}
  }

  /** |A| + |B| - n replicas are in both; more than |F| of them leaves one outside F. */
  lemma Overlap(n: nat, a: set<nat>, b: set<nat>, faulty: set<nat>)
    requires a <= Below(n) && b <= Below(n)
    ensures |a * b| >= |a| + |b| - n
    ensures |a * b - faulty| >= |a| + |b| - n - |faulty|
    ensures |a| + |b| > n + |faulty| ==> exists i :: i in a && i in b && i !in faulty
  {
    SubsetSize(a + b, Below(n));
    assert |a + b| == |a| + |b| - |a * b|;
    SubsetSize(a * b * faulty, faulty);
    assert a * b == (a * b - faulty) + a * b * faulty;
    if |a| + |b| > n + |faulty| {
      assert a * b - faulty != {};
      var i :| i in a * b - faulty;
    }
  }

  // ---------------------------------------------------------------- Calibration

  /** The sizes fit together exactly: a fast quorum and a view-change quorum share, apart from n/3
      replicas, precisely the number of matching pre-prepares that assignSequenceNumbers asks for. */
  lemma Calibrated(m: Mix)
    requires m.Accepted()
    ensures m.FastNum() + m.ViewChangeQuorum() - m.n - m.n / 3 == m.SubsetCount()
  {}

  /** Any two prepare certificates, slow or fast, share a correct replica - for every n. */
  lemma CertificatesOverlap(m: Mix, faulty: nat)
    requires m.Accepted() && Minority(m.n, faulty)
    ensures 2 * m.NumT() > m.n + faulty
    ensures m.NumT() + m.FastNum() > m.n + faulty
    ensures 2 * m.FastNum() > m.n + faulty
  {}

  /** That needs the minority: the generator also accepts n/3 misbehaving replicas when n is a
      multiple of three, and then two slow certificates need not share a correct replica. */
  lemma SlowOverlapExactly(m: Mix, faulty: nat)
    requires m.Accepted() && faulty <= m.n / 3
    ensures 2 * m.NumT() > m.n + faulty <==> Minority(m.n, faulty)
  {}

  /** `2f+1` shares assemble a signature under the threshold key exactly when n mod 3 is not 2, and
      are just as many as needed exactly when n mod 3 is 1. */
  lemma ShareCount(m: Mix)
    ensures 2 * (m.n / 3) + 1 >= m.NumT() <==> m.n % 3 != 2
    ensures 2 * (m.n / 3) + 1 == m.NumT() <==> m.n % 3 == 1
  {}

  /** A new primary can gather its quorum with every benign-faulty (bg) replica silent. */
  lemma ViewChangeReachable(m: Mix)
    requires m.Accepted()
    ensures m.ViewChangeQuorum() <= m.n - m.bg <==> m.n % 3 != 0 || m.bg + m.abm + m.pbm < m.n / 3
  {}

  /** More than n/3 correct replicas stand behind `2*n/3 + 1` matching checkpoints. */
  lemma CheckpointQuorum(n: nat, senders: set<nat>, faulty: set<nat>)
    requires senders <= Below(n) && |senders| >= 2 * n / 3 + 1 && |faulty| <= n / 3
    ensures |senders - faulty| >= n / 3 + 1
    ensures 3 * |senders| > 2 * n
  {
    assert senders == (senders - faulty) + senders * faulty;
    SubsetSize(senders * faulty, faulty);
  }
}
