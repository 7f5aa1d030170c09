/** What survives a view change: a batch committed in an earlier view is the one the new primary
    assigns to its number. */
module Recovery {
  import opened Types
  import opened ReplicaState
  import opened Assignment
  import opened Handlers
  import opened Quorum
  import opened Cluster
  import opened Invariants
  import opened Soundness
  import opened Reachability
  import opened Agreement
  import opened Frames
  import opened Watermarks

  // ---------------------------------------------------------------- Finite sets of messages

  function SenderSet(vset: seq<ViewChangeMsg>): set<nat> { set i | 0 <= i < |vset| :: vset[i].sender }

  lemma {:induction false} SendersCounted(vset: seq<ViewChangeMsg>)
    requires DistinctSenders(vset)
    ensures |SenderSet(vset)| == |vset|
  {
    if vset == [] {
      assert SenderSet(vset) == {};
    } else {
      var rest := vset[..|vset| - 1];
      var last := vset[|vset| - 1].sender;
      SendersCounted(rest);
      assert SenderSet(vset) == SenderSet(rest) + {last};
      assert last !in SenderSet(rest);
    }
  }

  function SendersAt(vset: seq<ViewChangeMsg>, some: set<nat>): set<nat>
    requires forall i | i in some :: i < |vset|
  { set i | i in some :: vset[i].sender }

  /** The senders of some of the messages are no more than those messages. */
  lemma {:induction false} SendersOfSome(vset: seq<ViewChangeMsg>, some: set<nat>)
    requires forall i | i in some :: i < |vset|
    ensures |SendersAt(vset, some)| <= |some|
  {
    if some != {} {
      var x :| x in some;
      SendersOfSome(vset, some - {x});
      assert SendersAt(vset, some) == SendersAt(vset, some - {x}) + {vset[x].sender};
    }
  }

  // ---------------------------------------------------------------- Assignment is unambiguous

  lemma ThreeOf<A>(w: set<A>) returns (a: A, b: A, d: A)
    requires |w| > 2
    ensures a in w && b in w && d in w && a != b && a != d && b != d
  {
    a :| a in w;
    var w1 := w - {a};
    assert |w1| == |w| - 1;
    b :| b in w1;
    var w2 := w1 - {b};
    assert |w2| == |w| - 2;
    d :| d in w2;
  }

  lemma DisjointSizes(n: nat, a: set<nat>, b: set<nat>, d: set<nat>)
    requires a <= Below(n) && b <= Below(n) && d <= Below(n) && a !! b && a !! d && b !! d
    ensures |a| + |b| + |d| <= n
  {
    assert (a + b) !! d;
    assert |a + b + d| == |a| + |b| + |d|;
    SubsetSize(a + b + d, Below(n));
  }

  /** At most two digests reach the count at any number: three would need more messages than replicas. */
  lemma AtMostTwoWinners(c: Config, vset: seq<ViewChangeMsg>, s: u32)
    requires |vset| <= c.n && c.subsetCount > c.n / 3
    ensures |Winners(c, vset, s)| <= 2
  {
    var w := Winners(c, vset, s);
    if |w| > 2 {
      var a, b, d := ThreeOf(w);
      DisjointSizes(|vset|, Supporters(vset, s, a), Supporters(vset, s, b), Supporters(vset, s, d));
    }
  }

  ghost predicate InRange(s: u32, lo: u32, hi: int) { lo <= s <= hi }

  lemma {:induction false} RangeSpec(c: Config, vset: seq<ViewChangeMsg>, lo: u32, hi: int)
    requires hi < MOD
    ensures var r := AssignRange(c, vset, lo, hi);
            && (r.ok <==> forall s: u32 | InRange(s, lo, hi) :: SlotAt(c, vset, s) != Ambiguous)
            && (forall s: u32 :: s in r.oset <==> InRange(s, lo, hi) && SlotAt(c, vset, s).Assigned?)
            && (forall s: u32 | s in r.oset :: SlotAt(c, vset, s) == Assigned(r.oset[s]))
    decreases hi - lo + 1
  {
    hide SlotAt;
    if lo <= hi {
      RangeSpec(c, vset, lo, hi - 1);
      assert forall s: u32 :: InRange(s, lo, hi) <==> InRange(s, lo, hi - 1) || s == hi;
    }
  }

  /** Where an assigned batch comes from. */
  ghost predicate Origin(c: Config, vset: seq<ViewChangeMsg>, s: u32, batch: RequestBatch) {
    || (exists vc :: vc in vset && Paired(vc, s) && vc.pset[s].batch == batch)
    || (exists k, vc :: Winners(c, vset, s) == {k} && vc in vset && s in vc.pset && vc.pset[s].digest.Key() == k
                        && vc.pset[s].batch == batch)
    || (Winners(c, vset, s) == {} && batch == [])
  }

  lemma {:induction false} LastBatchFrom(vset: seq<ViewChangeMsg>, s: u32, k: Digest)
    requires exists i :: 0 <= i < |vset| && s in vset[i].pset && vset[i].pset[s].digest.Key() == k
    ensures exists vc ::
            vc in vset && s in vc.pset && vc.pset[s].digest.Key() == k && vc.pset[s].batch == LastBatch(vset, s, k)
  {
    var vc := vset[|vset| - 1];
    if !(s in vc.pset && vc.pset[s].digest.Key() == k) {
      var rest := vset[..|vset| - 1];
      var i :| 0 <= i < |vset| && s in vset[i].pset && vset[i].pset[s].digest.Key() == k;
      assert rest[i] == vset[i];
      LastBatchFrom(rest, s, k);
      var w :| w in rest && s in w.pset && w.pset[s].digest.Key() == k && w.pset[s].batch == LastBatch(rest, s, k);
      assert w in vset;
    }
  }

  lemma Singleton<A>(w: set<A>, k: A)
    requires |w| == 1 && k in w
    ensures w == {k}
  {
    assert |w - {k}| == 0;
  }

  lemma SlotOrigin(c: Config, vset: seq<ViewChangeMsg>, s: u32)
    requires SlotAt(c, vset, s).Assigned?
    ensures Origin(c, vset, s, SlotAt(c, vset, s).batch)
  {
    hide Winners;
    var i := FirstPaired(vset, s);
    var w := Winners(c, vset, s);
    if i < |vset| {
      assert vset[i] in vset;
    } else if |w| == 1 {
      var k :| k in w && SlotAt(c, vset, s) == Assigned(LastBatch(vset, s, k));
      Singleton(w, k);
      WinnerSupported(c, vset, s, k);
      LastBatchFrom(vset, s, k);
    }
  }

  lemma WinnerSupported(c: Config, vset: seq<ViewChangeMsg>, s: u32, k: Digest)
    requires k in Winners(c, vset, s)
    ensures exists i :: 0 <= i < |vset| && s in vset[i].pset && vset[i].pset[s].digest.Key() == k
  {
    assert k in Keys(vset, s);
  }

  /** Assignment is total and unambiguous: it fails exactly if some number has two candidate digests
      and no certificate, and otherwise covers sn+1 .. sn+K, each with a batch of known origin. */
  lemma AssignmentTotal(c: Config, vset: seq<ViewChangeMsg>, sn: u32)
    requires |vset| <= c.n && c.subsetCount > c.n / 3 && sn + c.K < MOD - 1
    ensures var r := Assign(c, vset, sn);
            && (r.ok <==> forall s: u32 | sn < s <= sn + c.K ::
                            FirstPaired(vset, s) < |vset| || |Winners(c, vset, s)| < 2)
            && (r.ok ==> forall s: u32 :: s in r.oset <==> sn < s <= sn + c.K)
            && (forall s | s in r.oset :: Origin(c, vset, s, r.oset[s]))
  {
    hide Winners, Origin, AssignRange, SlotAt;
    var r := Assign(c, vset, sn);
    RangeSpec(c, vset, Add(sn, 1), Add(sn, c.K));
    forall s: u32 ensures InRange(s, Add(sn, 1), Add(sn, c.K)) <==> sn < s <= sn + c.K {}
    forall s: u32
      ensures SlotAt(c, vset, s) != Unassigned
      ensures SlotAt(c, vset, s) == Ambiguous <==> FirstPaired(vset, s) == |vset| && |Winners(c, vset, s)| == 2
    {
      SlotKinds(c, vset, s);
    }
    forall s: u32 | sn < s <= sn + c.K ensures FirstPaired(vset, s) < |vset| || |Winners(c, vset, s)| <= 2 {
      AtMostTwoWinners(c, vset, s);
    }
    forall s | s in r.oset ensures Origin(c, vset, s, r.oset[s]) { SlotOrigin(c, vset, s); }
  }

  lemma SlotKinds(c: Config, vset: seq<ViewChangeMsg>, s: u32)
    requires |vset| <= c.n && c.subsetCount > c.n / 3
    ensures SlotAt(c, vset, s) != Unassigned
    ensures SlotAt(c, vset, s) == Ambiguous <==> FirstPaired(vset, s) == |vset| && |Winners(c, vset, s)| == 2
  {
    hide Winners;
    AtMostTwoWinners(c, vset, s);
  }

  // ---------------------------------------------------------------- Who decides

  predicate Reports(vc: ViewChangeMsg, s: u32, k: Digest) { s in vc.pset && vc.pset[s].digest.Key() == k }

  /** Index of the last message that reports digest k at s. */
  function LastReporter(vset: seq<ViewChangeMsg>, s: u32, k: Digest): (i: nat)
    ensures i <= |vset|
    ensures i < |vset| ==> Reports(vset[i], s, k)
    ensures forall j | i < j < |vset| :: !Reports(vset[j], s, k)
    ensures i == |vset| ==> forall j | 0 <= j < |vset| :: !Reports(vset[j], s, k)
  {
    if vset == [] then 0
    else if Reports(vset[|vset| - 1], s, k) then |vset| - 1
    else var i := LastReporter(vset[..|vset| - 1], s, k); if i == |vset| - 1 then |vset| else i
  }

  lemma {:induction false} LastBatchReported(vset: seq<ViewChangeMsg>, s: u32, k: Digest)
    requires LastReporter(vset, s, k) < |vset|
    ensures LastBatch(vset, s, k) == vset[LastReporter(vset, s, k)].pset[s].batch
  {
    if !Reports(vset[|vset| - 1], s, k) { LastBatchReported(vset[..|vset| - 1], s, k); }
  }

  /** The message whose batch is taken for s when digest k is the one to keep: the first with both
      entries, whatever they are, or else the last that reports k. */
  function Decider(vset: seq<ViewChangeMsg>, s: u32, k: Digest): (i: nat)
    ensures i < |vset| ==> s in vset[i].pset
  {
    if FirstPaired(vset, s) < |vset| then FirstPaired(vset, s) else LastReporter(vset, s, k)
  }

  /** The deciding message exists and carries the digest's batch. */
  predicate DeciderHolds(vset: seq<ViewChangeMsg>, s: u32, k: Digest) {
    Decider(vset, s, k) < |vset| && Hash(vset[Decider(vset, s, k)].pset[s].batch) == k
  }

  /** A digest that is a candidate by count, or any pair, leaves the choice to one message. Nothing checks
      that message's batch, so what is assigned is the batch of k exactly if the decider carries it. */
  lemma AssignedByDecider(c: Config, vset: seq<ViewChangeMsg>, s: u32, k: Digest)
    requires |vset| <= c.n && c.subsetCount > c.n / 3 && SlotAt(c, vset, s) != Ambiguous
    requires k in Winners(c, vset, s) || FirstPaired(vset, s) < |vset|
    ensures Decider(vset, s, k) < |vset|
    ensures SlotAt(c, vset, s) == Assigned(vset[Decider(vset, s, k)].pset[s].batch)
    ensures Hash(SlotAt(c, vset, s).batch) == k <==> DeciderHolds(vset, s, k)
  {
    hide Winners;
    SlotKinds(c, vset, s);
    if FirstPaired(vset, s) == |vset| {
      AtMostTwoWinners(c, vset, s);
      Singleton(Winners(c, vset, s), k);
      WinnerSupported(c, vset, s, k);
      LastBatchReported(vset, s, k);
    }
  }

  // ---------------------------------------------------------------- Commits survive

  /** The new primary's configuration is the generator's. */
  ghost predicate Sized(c: Config, m: Mix) {
    c.n == m.n && c.viewChangeQuorum == m.ViewChangeQuorum() && c.subsetCount == m.SubsetCount()
  }

  /** What correct members of the quorum report about the vote's number comes from its view, or is the same
      digest from another. */
  ghost predicate CorrectAgree(u: Setup, vset: seq<ViewChangeMsg>, v: PrepareVote) {
    forall vc | vc in vset && vc.sender !in u.faulty && v.sn in vc.pset ::
      vc.pset[v.sn].view == v.view || vc.pset[v.sn].digest == v.digest
  }

  /** What the whole quorum says about the number is also consistent: where a pre-prepare and a certificate
      come together they are for the vote's digest, or both for one digest in the vote's view; and digests are
      the hashes of the batches. No replica checks this of another. */
  ghost predicate Consistent(u: Setup, vset: seq<ViewChangeMsg>, v: PrepareVote) {
    && CorrectAgree(u, vset, v)
    && (forall vc | vc in vset && Paired(vc, v.sn) ::
          || vc.pset[v.sn].digest == v.digest
          || SlowVote(vc.qset[v.sn]) == PrepareVote(v.sn, v.view, vc.pset[v.sn].digest))
    && (forall vc | vc in vset && v.sn in vc.pset :: vc.pset[v.sn].digest == Hash(vc.pset[v.sn].batch))
  }

  /** A view-change quorum whose messages exist and are accepted. */
  ghost predicate Quorate(u: Setup, g: map<nat, State>, c: Config, vset: seq<ViewChangeMsg>, w: nat) {
    && |vset| >= c.viewChangeQuorum && DistinctSenders(vset)
    && (forall vc | vc in vset :: vc.view == w && MsgSound(u, g, ViewChange(vc)) && CorrectViewChange(c, vc))
  }

  lemma {:induction false} MaxCheckpointSpec(vset: seq<ViewChangeMsg>)
    ensures forall vc | vc in vset :: vc.h <= MaxCheckpoint(vset)
    ensures vset != [] ==> exists vc :: vc in vset && vc.h == MaxCheckpoint(vset)
  {
    if vset != [] {
      var rest := vset[..|vset| - 1];
      MaxCheckpointSpec(rest);
      assert vset == rest + [vset[|vset| - 1]];
      assert vset[|vset| - 1] in vset;
      if rest == [] { assert vset == [vset[0]]; }
    }
  }

  /** A correct replica that voted for d reports it: if its watermark has not passed the number. */
  lemma VoterReports(u: Setup, x: Sys, vc: ViewChangeMsg, v: PrepareVote)
    requires SysInv(u, x) && MsgSound(u, x.nodes, ViewChange(vc)) && vc.sender !in u.faulty
    requires Signed(x.nodes, vc.sender, ForPrepare(v)) && !v.digest.Empty() && v.view < vc.view && vc.h < v.sn
    ensures v.sn in vc.pset && (vc.pset[v.sn].view == v.view ==> vc.pset[v.sn].digest == v.digest)
  {
    hide SysInv, MsgSound;
    FromCorrect(u, x, ViewChange(vc));
    SentFacts(u, x, vc.sender, ViewChange(vc));
    assert VoteReported(vc, v);
  }

  /** The quorum contains enough correct voters for the fast-committed digest to be a candidate. */
  lemma FastDigestWins(u: Setup, m: Mix, x: Sys, c: Config, vset: seq<ViewChangeMsg>, w: nat, v: PrepareVote)
    requires SysInv(u, x) && Tolerates(u, m) && Sized(c, m) && Quorate(u, x.nodes, c, vset, w)
    requires CorrectAgree(u, vset, v) && v.view < w && MaxCheckpoint(vset) < v.sn && !v.digest.Empty()
    requires Legit(u, x.nodes, Genuine(FastKey, ForPrepare(v)))
    ensures v.digest in Winners(c, vset, v.sn)
  {
    hide SysInv, MsgSound, CorrectViewChange, Signed, Setup.Valid;
    var voters := Backers(u, x.nodes, ForPrepare(v));
    var sup := Supporters(vset, v.sn, v.digest);
    SendersCounted(vset);
    forall vc | vc in vset ensures vc.sender in Below(u.n) { SenderBelow(u, x.nodes, ViewChange(vc)); }
    Overlap(u.n, voters, SenderSet(vset), u.faulty);
    Calibrated(m);
    MaxCheckpointSpec(vset);
    forall j | j in voters * SenderSet(vset) - u.faulty ensures j in SendersAt(vset, sup) {
      var i :| 0 <= i < |vset| && vset[i].sender == j;
      assert vset[i] in vset;
      VoterReports(u, x, vset[i], v);
      assert i in sup;
    }
    SubsetSize(voters * SenderSet(vset) - u.faulty, SendersAt(vset, sup));
    SendersOfSome(vset, sup);
    assert sup != {};
    var i :| i in sup;
    assert v.digest in Keys(vset, v.sn);
  }

  lemma SenderBelow(u: Setup, g: map<nat, State>, m: Msg)
    requires MsgSound(u, g, m)
    ensures m.Sender() in Below(u.n)
  {}

  /** A paired entry carries a certificate for the very digest that is certifiable there. */
  lemma PairCarries(u: Setup, m: Mix, x: Sys, c: Config, vset: seq<ViewChangeMsg>, w: nat, v: PrepareVote,
                    vc: ViewChangeMsg)
    requires SysInv(u, x) && Tolerates(u, m) && Quorate(u, x.nodes, c, vset, w) && Consistent(u, vset, v)
    requires Certifiable(u, x.nodes, v) && !v.digest.Empty() && vc in vset && Paired(vc, v.sn)
    ensures Hash(vc.pset[v.sn].batch) == v.digest
  {
    hide SysInv, Legit, Tolerates;
    var q := vc.qset[v.sn];
    assert MsgSound(u, x.nodes, ViewChange(vc));
    assert Legit(u, x.nodes, q.sig) && Verify(TsKey, ForPrepare(SlowVote(q)), q.sig);
    if vc.pset[v.sn].digest != v.digest { CertifiableAgree(u, m, x, SlowVote(q), v); }
  }

  /** With consistent reports, the decider carries the batch of a certifiable digest. */
  lemma DeciderConsistent(u: Setup, m: Mix, x: Sys, c: Config, vset: seq<ViewChangeMsg>, w: nat, v: PrepareVote)
    requires SysInv(u, x) && Tolerates(u, m) && Quorate(u, x.nodes, c, vset, w)
    requires Consistent(u, vset, v) && Certifiable(u, x.nodes, v) && !v.digest.Empty()
    requires Decider(vset, v.sn, v.digest) < |vset|
    ensures DeciderHolds(vset, v.sn, v.digest)
  {
    hide SysInv, Tolerates, Quorate, Certifiable;
    var i := FirstPaired(vset, v.sn);
    if i < |vset| {
      PairCarries(u, m, x, c, vset, w, v, vset[i]);
    } else {
      assert Reports(vset[LastReporter(vset, v.sn, v.digest)], v.sn, v.digest);
    }
  }

  lemma BySize(m: Mix, u: Setup)
    requires Tolerates(u, m)
    ensures m.n == u.n
  {}

  lemma ClusterBound(u: Setup, g: map<nat, State>, c: Config, vset: seq<ViewChangeMsg>, w: nat)
    requires Quorate(u, g, c, vset, w)
    ensures |vset| <= u.n
  {
    hide MsgSound, CorrectViewChange;
    SendersCounted(vset);
    forall vc | vc in vset ensures vc.sender in Below(u.n) { SenderBelow(u, g, ViewChange(vc)); }
    SubsetSize(SenderSet(vset), Below(u.n));
  }

  /** What a correct replica published as a new view is the assignment of a quorate set. */
  lemma PublishedView(u: Setup, x: Sys, i: nat, nv: NewViewMsg)
    requires SysInv(u, x) && i in x.nodes && NewView(nv) in x.nodes[i].outbox
    ensures i in u.replicas
    ensures var c := u.replicas[i];
            && Quorate(u, x.nodes, c, nv.vset, nv.view) && !Diverges(c, MaxCheckpoint(nv.vset))
            && Assign(c, nv.vset, MaxCheckpoint(nv.vset)) == Result(nv.oset, true)
  {
    hide SysInv, Inv, CertsSound, BallotsSound, ViewsSound, MarksSound, Full, MsgSound, CorrectViewChange, Assign,
         MaxCheckpoint;
    SetupOf(u, x);
    NodeFacts(u, x, i);
  }

  /** The range of the new view does not wrap around. */
  predicate Fits(c: Config, vset: seq<ViewChangeMsg>) { MaxCheckpoint(vset) + c.K < MOD }

  /** The number lies in that range. */
  predicate Covered(c: Config, vset: seq<ViewChangeMsg>, s: u32) {
    MaxCheckpoint(vset) < s <= MaxCheckpoint(vset) + c.K < MOD
  }

  /** The batch assigned to s is the decider's. */
  predicate DecidedByOne(nv: NewViewMsg, s: u32, k: Digest) {
    && Decider(nv.vset, s, k) < |nv.vset| && s in nv.oset
    && nv.oset[s] == nv.vset[Decider(nv.vset, s, k)].pset[s].batch
  }

  predicate Keeps(nv: NewViewMsg, s: u32, k: Digest) { s in nv.oset && Hash(nv.oset[s]) == k }

  lemma PublishedSlot(u: Setup, x: Sys, i: nat, nv: NewViewMsg, s: u32)
    requires SysInv(u, x) && i in x.nodes && NewView(nv) in x.nodes[i].outbox && i in u.replicas
    requires Fits(u.replicas[i], nv.vset)
    ensures Covered(u.replicas[i], nv.vset, s) ==> SlotAt(u.replicas[i], nv.vset, s) != Ambiguous
    ensures Covered(u.replicas[i], nv.vset, s) && SlotAt(u.replicas[i], nv.vset, s).Assigned?
            ==> s in nv.oset && nv.oset[s] == SlotAt(u.replicas[i], nv.vset, s).batch
    ensures s in nv.oset ==> Covered(u.replicas[i], nv.vset, s)
  {
    hide SysInv, Quorate, SlotAt, AssignRange, MaxCheckpoint;
    PublishedView(u, x, i, nv);
    var c := u.replicas[i];
    RangeSpec(c, nv.vset, Add(MaxCheckpoint(nv.vset), 1), Add(MaxCheckpoint(nv.vset), c.K));
  }

  /** A number inside the range that is a candidate, or paired, gets the decider's batch; one outside gets none. */
  lemma PublishedDecision(u: Setup, m: Mix, x: Sys, i: nat, nv: NewViewMsg, s: u32, k: Digest)
    requires SysInv(u, x) && Tolerates(u, m) && i in x.nodes && NewView(nv) in x.nodes[i].outbox && i in u.replicas
    requires Sized(u.replicas[i], m) && Fits(u.replicas[i], nv.vset)
    requires Covered(u.replicas[i], nv.vset, s) ==>
               k in Winners(u.replicas[i], nv.vset, s) || FirstPaired(nv.vset, s) < |nv.vset|
    ensures Covered(u.replicas[i], nv.vset, s) ==> DecidedByOne(nv, s, k)
    ensures Keeps(nv, s, k) <==> Covered(u.replicas[i], nv.vset, s) && DeciderHolds(nv.vset, s, k)
  {
    hide SysInv, Quorate, SlotAt, Winners, MaxCheckpoint, Tolerates;
    var c := u.replicas[i];
    PublishedView(u, x, i, nv);
    PublishedSlot(u, x, i, nv, s);
    if Covered(c, nv.vset, s) {
      ClusterBound(u, x.nodes, c, nv.vset, nv.view);
      BySize(m, u);
      AssignedByDecider(c, nv.vset, s, k);
    }
  }

  /** What a fast quorum voted for, in every reachable state and any new view a correct primary has published
      for a later view, if correct replicas report its number from its view or with its digest: inside the
      range, the number gets the decider's batch. So the digest is kept exactly if the number is in the range
      and the decider, which may be a faulty replica, carries its batch. */
  lemma FastCommitSurvivesExactly(u: Setup, m: Mix, tr: seq<Sys>, k: nat, i: nat, nv: NewViewMsg, v: PrepareVote)
    requires Tolerates(u, m) && Run(u, tr) && k < |tr| && i in tr[k].nodes && i in u.replicas && Sized(u.replicas[i], m)
    requires NewView(nv) in tr[k].nodes[i].outbox && v.view < nv.view && Fits(u.replicas[i], nv.vset)
    requires CorrectAgree(u, nv.vset, v)
    requires !v.digest.Empty() && Legit(u, tr[k].nodes, Genuine(FastKey, ForPrepare(v)))
    ensures Covered(u.replicas[i], nv.vset, v.sn) ==> DecidedByOne(nv, v.sn, v.digest)
    ensures Keeps(nv, v.sn, v.digest)
            <==> Covered(u.replicas[i], nv.vset, v.sn) && DeciderHolds(nv.vset, v.sn, v.digest)
  {
    hide Run, SysInv, Legit, CorrectAgree, Quorate, Sized, SlotAt, Winners, MaxCheckpoint, DecidedByOne,
        DeciderHolds,
         FirstPaired;
    ReachableSound(u, tr, k);
    PublishedView(u, tr[k], i, nv);
    if Covered(u.replicas[i], nv.vset, v.sn) { FastDigestWins(u, m, tr[k], u.replicas[i], nv.vset, nv.view, v); }
    PublishedDecision(u, m, tr[k], i, nv, v.sn, v.digest);
  }

  /** In particular it survives whenever the whole quorum's reports are consistent. */
  lemma FastCommitSurvives(u: Setup, m: Mix, tr: seq<Sys>, k: nat, i: nat, nv: NewViewMsg, v: PrepareVote)
    requires Tolerates(u, m) && Run(u, tr) && k < |tr| && i in tr[k].nodes && i in u.replicas && Sized(u.replicas[i], m)
    requires NewView(nv) in tr[k].nodes[i].outbox && v.view < nv.view
    requires Covered(u.replicas[i], nv.vset, v.sn) && Consistent(u, nv.vset, v)
    requires !v.digest.Empty() && Legit(u, tr[k].nodes, Genuine(FastKey, ForPrepare(v)))
    ensures Keeps(nv, v.sn, v.digest)
  {
    hide Run, SysInv, Legit, Quorate, Sized, SlotAt, Winners, MaxCheckpoint, Decider, FirstPaired, DeciderHolds;
    ReachableSound(u, tr, k);
    PublishedView(u, tr[k], i, nv);
    FastCommitSurvivesExactly(u, m, tr, k, i, nv, v);
    DeciderConsistent(u, m, tr[k], u.replicas[i], nv.vset, nv.view, v);
  }

  /** The replica sent its commit for q before this view-change, and still reports the pre-prepare. */
  ghost predicate CommittedBefore(s: State, vc: ViewChangeMsg, q: PrepareQc) {
    && q.sn in vc.pset
    && exists a, b ::
         0 <= a < b < |s.outbox| && s.outbox[a].Commit? && s.outbox[a].cm.vote == q && s.outbox[b] == ViewChange(vc)
  }

  lemma CommitterReports(u: Setup, x: Sys, i: nat, vc: ViewChangeMsg, q: PrepareQc)
    requires SysInv(u, x) && i in x.nodes && CommittedBefore(x.nodes[i], vc, q) && vc.h < q.sn
    ensures Paired(vc, q.sn)
  {
    hide SysInv, CertsOk, ExecOk, CertsSound, BallotsSound, ViewsSound, MarksSound, OutboxSound, Full;
    NodeFacts(u, x, i);
    var o := x.nodes[i].outbox;
    var a, b :| 0 <= a < b < |o| && o[a].Commit? && o[a].cm.vote == q && o[b] == ViewChange(vc);
    assert InOrder(o[a], o[b]);
  }

  /** The prepare certificate a correct replica signed a commit for is itself legitimate. */
  lemma CommittedCertifiable(u: Setup, x: Sys, i: nat, q: PrepareQc)
    requires SysInv(u, x) && i in x.nodes && q in x.nodes[i].commitVotes
    ensures Certifiable(u, x.nodes, SlowVote(q))
  {
    hide SysInv, Legit;
    Backed(u, x, i);
    CertFacts(u, x, i, MsgId(q.sn, q.view));
  }

  /** Every correct member of the quorum that signed a commit for q did so before its view-change. */
  ghost predicate CommittersReport(g: map<nat, State>, vset: seq<ViewChangeMsg>, q: PrepareQc) {
    forall vc | vc in vset && vc.sender in g && q in g[vc.sender].commitVotes :: CommittedBefore(g[vc.sender], vc, q)
  }

  /** A commit quorum and a view-change quorum share a correct replica, which reports both entries. */
  lemma CommitReachesQuorum(u: Setup, m: Mix, x: Sys, c: Config, vset: seq<ViewChangeMsg>, w: nat, q: PrepareQc)
    requires SysInv(u, x) && Tolerates(u, m) && Sized(c, m) && Quorate(u, x.nodes, c, vset, w)
    requires MaxCheckpoint(vset) < q.sn && CommittersReport(x.nodes, vset, q)
    requires Legit(u, x.nodes, Genuine(TsKey, ForCommit(q)))
    ensures Certifiable(u, x.nodes, SlowVote(q)) && exists vc :: vc in vset && Paired(vc, q.sn)
  {
    hide SysInv, MsgSound, CorrectViewChange, CommittedBefore, Certifiable, Paired, MaxCheckpoint;
    var signers := Backers(u, x.nodes, ForCommit(q));
    SendersCounted(vset);
    forall vc | vc in vset ensures vc.sender in Below(u.n) { SenderBelow(u, x.nodes, ViewChange(vc)); }
    Overlap(u.n, signers, SenderSet(vset), u.faulty);
    var j :| j in signers && j in SenderSet(vset) && j !in u.faulty;
    var vc :| vc in vset && vc.sender == j;
    MaxCheckpointSpec(vset);
    CommitterReports(u, x, j, vc, q);
    CommittedCertifiable(u, x, j, q);
  }

  /** What a quorum signed a commit for, if the correct ones among the new primary's quorum did so before
      their view-change and report the pre-prepare: some message has both entries, and the first that has -
      not necessarily that of a correct replica - decides. The digest is kept exactly if its batch hashes to it. */
  lemma SlowCommitSurvivesExactly(u: Setup, m: Mix, tr: seq<Sys>, k: nat, i: nat, nv: NewViewMsg, q: PrepareQc)
    requires Tolerates(u, m) && Run(u, tr) && k < |tr| && i in tr[k].nodes && i in u.replicas && Sized(u.replicas[i], m)
    requires NewView(nv) in tr[k].nodes[i].outbox && Fits(u.replicas[i], nv.vset)
    requires Legit(u, tr[k].nodes, Genuine(TsKey, ForCommit(q))) && CommittersReport(tr[k].nodes, nv.vset, q)
    ensures Covered(u.replicas[i], nv.vset, q.sn) ==>
              FirstPaired(nv.vset, q.sn) < |nv.vset| && DecidedByOne(nv, q.sn, q.digest)
    ensures Keeps(nv, q.sn, q.digest)
            <==> Covered(u.replicas[i], nv.vset, q.sn) && DeciderHolds(nv.vset, q.sn, q.digest)
  {
    hide Run, SysInv, Legit, Quorate, Sized, SlotAt, Winners, CommittersReport, Certifiable, MaxCheckpoint;
    ReachableSound(u, tr, k);
    PublishedView(u, tr[k], i, nv);
    if Covered(u.replicas[i], nv.vset, q.sn) {
      CommitReachesQuorum(u, m, tr[k], u.replicas[i], nv.vset, nv.view, q);
    }
    PublishedDecision(u, m, tr[k], i, nv, q.sn, q.digest);
  }

  /** In particular it survives whenever the whole quorum's reports are consistent. */
  lemma SlowCommitSurvives(u: Setup, m: Mix, tr: seq<Sys>, k: nat, i: nat, nv: NewViewMsg, q: PrepareQc)
    requires Tolerates(u, m) && Run(u, tr) && k < |tr| && i in tr[k].nodes && i in u.replicas && Sized(u.replicas[i], m)
    requires NewView(nv) in tr[k].nodes[i].outbox
    requires Covered(u.replicas[i], nv.vset, q.sn) && Consistent(u, nv.vset, SlowVote(q))
    requires !q.digest.Empty() && Legit(u, tr[k].nodes, Genuine(TsKey, ForCommit(q)))
    requires CommittersReport(tr[k].nodes, nv.vset, q)
    ensures Keeps(nv, q.sn, q.digest)
  {
    hide Run, SysInv, Legit, Consistent, Quorate, Sized, SlotAt, Winners, CommittersReport, Certifiable, Paired,
        MaxCheckpoint;
    ReachableSound(u, tr, k);
    PublishedView(u, tr[k], i, nv);
    SlowCommitSurvivesExactly(u, m, tr, k, i, nv, q);
    CommitReachesQuorum(u, m, tr[k], u.replicas[i], nv.vset, nv.view, q);
    DeciderConsistent(u, m, tr[k], u.replicas[i], nv.vset, nv.view, SlowVote(q));
  }

  // ---------------------------------------------------------------- What one faulty member can do

  /** One faulty member of the quorum, enumerated first, overwrites a commit: it pairs the genuine
      certificate with a pre-prepare that names the committed digest but carries any batch it likes, and
      the message is accepted. */
  lemma ForgedPairDecides(u: Setup, g: map<nat, State>, c: Config, rest: seq<ViewChangeMsg>, w: nat, h: u32,
                          q: PrepareQc,
                          batch: RequestBatch, j: nat)
    requires u.Valid() && g.Keys == u.replicas.Keys && j in u.faulty
    requires Verify(TsKey, ForPrepare(SlowVote(q)), q.sig) && Legit(u, g, q.sig) && q.view < w && h < q.sn < Add(h, c.K)
    ensures CorrectViewChange(c, ForgedPair(w, h, q, batch, j))
            && MsgSound(u, g, ViewChange(ForgedPair(w, h, q, batch, j)))
    ensures SlotAt(c, [ForgedPair(w, h, q, batch, j)] + rest, q.sn) == Assigned(batch)
  {
    hide Legit, Setup.Valid;
    InCluster(u, j);
    ForgedSlot(c, rest, w, h, q, batch, j);
  }

  function ForgedPair(w: nat, h: u32, q: PrepareQc, batch: RequestBatch, j: nat): ViewChangeMsg {
    ViewChangeMsg(w, h, [], map[q.sn := PrePrepareMsg(q.sn, q.digest, batch, q.view, 0)], map[q.sn := q], j)
  }

  lemma ForgedSlot(c: Config, rest: seq<ViewChangeMsg>, w: nat, h: u32, q: PrepareQc, batch: RequestBatch, j: nat)
    ensures SlotAt(c, [ForgedPair(w, h, q, batch, j)] + rest, q.sn) == Assigned(batch)
  {
    hide Winners;
    var vset := [ForgedPair(w, h, q, batch, j)] + rest;
    assert vset[0] == ForgedPair(w, h, q, batch, j) && Paired(vset[0], q.sn);
  }

  lemma InCluster(u: Setup, j: nat)
    requires u.Valid() && j in u.faulty
    ensures j < u.n && j !in u.replicas
  {
    assert j in Below(u.n);
  }

  /** A number falls below the range exactly if some member of the quorum reports a watermark that has
      reached it. If a correct one does, more than n/3 correct replicas have executed the number. */
  lemma BelowRangeExactly(u: Setup, tr: seq<Sys>, k: nat, i: nat, nv: NewViewMsg, s: u32)
    requires u.Valid() && |u.faulty| <= u.n / 3 && Run(u, tr) && k < |tr| && i in tr[k].nodes && 0 < s
    requires NewView(nv) in tr[k].nodes[i].outbox
    ensures s <= MaxCheckpoint(nv.vset) <==> exists vc :: vc in nv.vset && s <= vc.h
    ensures forall vc | vc in nv.vset && s <= vc.h && vc.sender !in u.faulty :: |ExecutedBy(tr[k], s)| >= u.n / 3 + 1
  {
    hide Run, SysInv, Quorate, MaxCheckpoint, ReportedMarks, ExecutedBy, Assign, Setup.Valid;
    ReachableSound(u, tr, k);
    PublishedView(u, tr[k], i, nv);
    MaxReached(nv.vset, s);
    forall vc | vc in nv.vset && s <= vc.h && vc.sender !in u.faulty ensures |ExecutedBy(tr[k], s)| >= u.n / 3 + 1 {
      MemberReports(u, tr[k], u.replicas[i], nv, vc);
      ReportedExecuted(u, tr, k, vc.sender, vc.h);
      ExecutedLess(tr[k], s, vc.h);
    }
  }

  lemma MaxReached(vset: seq<ViewChangeMsg>, s: u32)
    requires 0 < s
    ensures s <= MaxCheckpoint(vset) <==> exists vc :: vc in vset && s <= vc.h
  {
    MaxCheckpointSpec(vset);
  }

  lemma MemberReports(u: Setup, x: Sys, c: Config, nv: NewViewMsg, vc: ViewChangeMsg)
    requires SysInv(u, x) && Quorate(u, x.nodes, c, nv.vset, nv.view) && vc in nv.vset && vc.sender !in u.faulty
    ensures vc.sender in x.nodes && vc.h in ReportedMarks(x.nodes[vc.sender].outbox)
  {
    hide SysInv, MsgSound, CorrectViewChange;
    assert MsgSound(u, x.nodes, ViewChange(vc));
    FromCorrect(u, x, ViewChange(vc));
  }

  lemma ExecutedLess(x: Sys, s: u32, h: u32)
    requires s <= h
    ensures ExecutedBy(x, h) <= ExecutedBy(x, s) && |ExecutedBy(x, h)| <= |ExecutedBy(x, s)|
  {
    SubsetSize(ExecutedBy(x, h), ExecutedBy(x, s));
  }

  /** A view-change without checkpoints is accepted whatever low watermark it claims: one faulty member
      lifts the start of the new view past any number it likes. */
  lemma LiarLifts(u: Setup, g: map<nat, State>, c: Config, rest: seq<ViewChangeMsg>, w: nat, h: u32, j: nat)
    requires u.Valid() && g.Keys == u.replicas.Keys && j in u.faulty
    ensures var vc := ViewChangeMsg(w, h, [], map[], map[], j);
            && CorrectViewChange(c, vc) && MsgSound(u, g, ViewChange(vc))
            && forall s: u32 | s <= h :: !Covered(c, [vc] + rest, s)
  {
    InCluster(u, j);
    var vc := ViewChangeMsg(w, h, [], map[], map[], j);
    MaxCheckpointSpec([vc] + rest);
    assert ([vc] + rest)[0] == vc;
  }

  // ---------------------------------------------------------------- Numbers in the new view

  /** After entering the view, a replica's next fresh number lies above everything the new view
      assigned exactly if its own watermark is not behind the checkpoint the new view starts from. */
  lemma FreshNumbersAboveExactly(c: Config, s: State, vset: seq<ViewChangeMsg>, sn: u32)
    requires |vset| <= c.n && c.subsetCount > c.n / 3 && sn + c.K < MOD - 1 && 0 < c.K && Assign(c, vset, sn).ok
    requires s.marks.h + c.K + 1 < MOD
    ensures (forall k | k in Assign(c, vset, sn).oset :: k < EnterView(c, s).leader.nextSN) <==> sn <= s.marks.h
  {
    hide Assign, Winners, Origin;
    AssignmentTotal(c, vset, sn);
    var last: u32 := sn + c.K;
    assert last in Assign(c, vset, sn).oset;
  }

  /** The entries of a new view are handled in ascending order. */
  lemma {:induction false} HandledAscending(ks: set<u32>, bound: nat, i: nat, j: nat)
    requires bound <= MOD && i < j < |SortedUpTo(ks, bound)|
    ensures SortedUpTo(ks, bound)[i] < SortedUpTo(ks, bound)[j]
    decreases bound
  {
    SortedUpToMembers(ks, bound - 1);
    var rest := SortedUpTo(ks, bound - 1);
    if j < |rest| { HandledAscending(ks, bound - 1, i, j); } else { assert rest[i] in rest; }
  }
}
