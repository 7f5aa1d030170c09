/** Every prepare certificate a replica ever sends: when it goes out, and what stands behind it - over
    every history of one replica, whatever it is fed. */
module IssueHistory {
  import opened Types
  import opened ReplicaState
  import opened Assignment
  import opened Handlers
  import opened Invariants
  import opened Frames
  import opened Delivery
  import opened Numbering
  import opened Recovery
  import opened Issuing

  // ---------------------------------------------------------------- Lawful steps

  ghost predicate TableExtends(a: map<(MsgId, Digest), Shares>, b: map<(MsgId, Digest), Shares>) {
    forall x | x in a :: x in b && a[x].Keys <= b[x].Keys
  }

  ghost predicate BallotsExtend(a: Ballots, b: Ballots) {
    TableExtends(a.prepare, b.prepare) && TableExtends(a.fast, b.fast)
  }

  /** The certificate has its quorum of recorded shares. */
  predicate QuorumRecorded(c: Config, s: State, m: Msg)
    requires IsPrepareCert(m)
  {
    match m
    case SlowQc(q) => |SharesOf(s.ballots.prepare, (CertifiedId(m), q.digest))| >= SlowQuorum(c)
    case FastQc(q) => |SharesOf(s.ballots.fast, (CertifiedId(m), q.digest))| >= c.fastQuorum
  }

  /** A fast one goes out while the timer of its number runs, a slow one after it has stopped. */
  predicate TimerRight(s: State, m: Msg)
    requires IsPrepareCert(m)
  {
    CertifiedId(m) in s.leader.timers && s.leader.timers[CertifiedId(m)] == m.SlowQc?
  }

  /** A fast one verifies, and so does a slow one if the key needs no more than 2f+1 shares. */
  predicate SignatureRight(c: Config, m: Msg)
    requires IsPrepareCert(m)
  {
    match m
    case SlowQc(q) => SlowQuorum(c) >= c.n - c.n / 3 ==> Verify(TsKey, ForPrepare(SlowVote(q)), q.sig)
    case FastQc(q) => Verify(FastKey, ForPrepare(FastVote(q)), q.sig)
  }

  predicate Lawful1(c: Config, t: State, m: Msg) {
    IsPrepareCert(m) && QuorumRecorded(c, t, m) && TimerRight(t, m) && SignatureRight(c, m)
  }

  /** From s to t, votes are only added, and whatever certificates were sent were sent lawfully. */
  ghost predicate Lawful(c: Config, s: State, t: State) {
    && BallotsExtend(s.ballots, t.ballots) && CertsIn(s.outbox) <= CertsIn(t.outbox)
    && forall m | m in CertsIn(t.outbox) - CertsIn(s.outbox) :: Lawful1(c, t, m)
  }

  lemma TableExtendsTwice(a: map<(MsgId, Digest), Shares>, b: map<(MsgId, Digest), Shares>,
                          d: map<(MsgId, Digest), Shares>)
    requires TableExtends(a, b) && TableExtends(b, d)
    ensures TableExtends(a, d)
  {}

  lemma MoreShares(a: map<(MsgId, Digest), Shares>, b: map<(MsgId, Digest), Shares>, x: (MsgId, Digest))
    requires TableExtends(a, b)
    ensures |SharesOf(a, x)| <= |SharesOf(b, x)|
  {
    if x in a {
      Quorum.SubsetSize(a[x].Keys, b[x].Keys);
      assert |a[x]| == |a[x].Keys| && |b[x]| == |b[x].Keys|;
    }
  }

  lemma StillRecorded(c: Config, s: State, t: State, m: Msg)
    requires IsPrepareCert(m) && QuorumRecorded(c, s, m) && BallotsExtend(s.ballots, t.ballots)
    ensures QuorumRecorded(c, t, m)
  {
    hide TableExtends, SharesOf;
    match m
    case SlowQc(q) => MoreShares(s.ballots.prepare, t.ballots.prepare, (CertifiedId(m), q.digest));
    case FastQc(q) => MoreShares(s.ballots.fast, t.ballots.fast, (CertifiedId(m), q.digest));
  }

  /** Two lawful stretches make one, if the timers of what the first sent are left alone by the second. */
  lemma LawfulThen(c: Config, s: State, t: State, w: State)
    requires Lawful(c, s, t) && Lawful(c, t, w)
    requires forall m | m in CertsIn(t.outbox) - CertsIn(s.outbox) :: IsPrepareCert(m) && TimerRight(w, m)
    ensures Lawful(c, s, w)
  {
    hide CertsIn, QuorumRecorded, TimerRight, TableExtends;
    TableExtendsTwice(s.ballots.prepare, t.ballots.prepare, w.ballots.prepare);
    TableExtendsTwice(s.ballots.fast, t.ballots.fast, w.ballots.fast);
    forall m | m in CertsIn(w.outbox) - CertsIn(s.outbox) ensures Lawful1(c, w, m) {
      if m in CertsIn(t.outbox) {
        LawfulMember(c, s, t, m);
        StillRecorded(c, t, w, m);
      }
    }
  }

  lemma LawfulThenSameTimers(c: Config, s: State, t: State, w: State)
    requires Lawful(c, s, t) && Lawful(c, t, w) && w.leader.timers == t.leader.timers
    ensures Lawful(c, s, w)
  {
    hide CertsIn, QuorumRecorded, BallotsExtend;
    LawfulThen(c, s, t, w);
  }

  /** Nothing sent, nothing counted. */
  lemma SilentLawful(c: Config, s: State, t: State)
    requires t.ballots.prepare == s.ballots.prepare && t.ballots.fast == s.ballots.fast
             && CertsIn(t.outbox) == CertsIn(s.outbox)
    ensures Lawful(c, s, t)
  {
    hide CertsIn, Lawful1;
  }

  lemma CalmLawful(c: Config, s: State, t: State)
    requires Calm(s, t)
    ensures Lawful(c, s, t)
  {
    hide Quiet, CertsIn, Lawful;
    SilentLawful(c, s, t);
  }

  // ---------------------------------------------------------------- Votes

  /** Sending one lawful certificate. */
  lemma OneLawful(c: Config, s: State, t: State, m: Msg)
    requires t.ballots == s.ballots && CertsIn(t.outbox) == CertsIn(s.outbox) + {m} && Lawful1(c, t, m)
    ensures Lawful(c, s, t)
  {
    hide CertsIn, Lawful1;
  }

  /** ... for the given number and view. */
  ghost predicate OnlyFor(s: State, t: State, id: MsgId) {
    forall m | m in CertsIn(t.outbox) - CertsIn(s.outbox) :: IsPrepareCert(m) && CertifiedId(m) == id
  }

  lemma CheckLawful(c: Config, s: State, id: MsgId, k: Digest)
    requires id in s.leader.timers && s.leader.timers[id]
    ensures var t := CheckIfPrepareQc(c, s, id, k);
            Lawful(c, s, t) && t.leader == s.leader && OnlyFor(s, t, id)
                && forall m | m in CertsIn(t.outbox) - CertsIn(s.outbox) :: m.SlowQc?
  {
    hide Recoverable, SharesOf, CertsIn, Proposals, ReportedMarks, Lawful;
    var t := CheckIfPrepareQc(c, s, id, k);
    var sent := PutCert(s, id, CertOf(s, id).(qcSent := true));
    var m := SlowQc(PrepareQc(id.sn, k, id.view, c.id,
                              Recover(c, TsKey, ForPrepare(PrepareVote(id.sn, id.view, k)), 2 * c.F() + 1), s.clock));
    ProposalsAfter(sent, m);
    if t.outbox == s.outbox { SilentLawful(c, s, t); } else { OneLawful(c, s, t, m); }
  }

  lemma FastLawful(c: Config, s: State, id: MsgId, k: Digest)
    requires id in s.leader.timers && !s.leader.timers[id] && |SharesOf(s.ballots.fast, (id, k))| >= c.fastQuorum
    ensures var t := IssueFastQc(c, s, id, k); Lawful(c, s, t) && t.leader == s.leader && OnlyFor(s, t, id)
  {
    hide Recoverable, SharesOf, CertsIn, Proposals, ReportedMarks, Lawful;
    var t := IssueFastQc(c, s, id, k);
    var sent := PutCert(s, id, CertOf(s, id).(qcSent := true));
    var m := FastQc(FastPrepareQc(id.sn, k, id.view, c.id,
                                  Recover(c, FastKey, ForPrepare(PrepareVote(id.sn, id.view, k)), c.fastQuorum)));
    ProposalsAfter(sent, m);
    if t.outbox == s.outbox { SilentLawful(c, s, t); } else { OneLawful(c, s, t, m); }
  }

  lemma RecordLawful(c: Config, s: State, id: MsgId, k: Digest, pm: PrepareMsg)
    ensures Lawful(c, s, RecordVote(s, id, k, pm))
  {
    hide CertsIn, Lawful1;
  }

  lemma VoteLawful(c: Config, s: State, pm: PrepareMsg)
    ensures var t := HandlePrepareVote(c, s, pm);
            Lawful(c, s, t) && t.leader == s.leader && OnlyFor(s, t, MsgId(pm.vote.sn, pm.vote.view))
  {
    hide CheckIfPrepareQc, IssueFastQc, SharesOf, CertsIn, Lawful;
    var id := MsgId(pm.vote.sn, pm.vote.view);
    var k := pm.vote.digest.Key();
    var r := RecordVote(s, id, k, pm);
    RecordLawful(c, s, id, k, pm);
    SilentLawful(c, r, r.(panicked := true));
    if id !in s.leader.timers {
      LawfulThenSameTimers(c, s, r, r.(panicked := true));
    } else if s.leader.timers[id] {
      CheckLawful(c, r, id, k);
      LawfulThenSameTimers(c, s, r, CheckIfPrepareQc(c, r, id, k));
    } else if |SharesOf(r.ballots.fast, (id, k))| >= c.fastQuorum {
      FastLawful(c, r, id, k);
      LawfulThenSameTimers(c, s, r, IssueFastQc(c, r, id, k));
    }
  }

  lemma HandlePrepareLawful(c: Config, s: State, pm: PrepareMsg)
    ensures var t := HandlePrepare(c, s, pm);
            Lawful(c, s, t) && t.leader == s.leader && OnlyFor(s, t, MsgId(pm.vote.sn, pm.vote.view))
  {
    hide HandlePrepareVote, CertsIn, Lawful;
    var id := MsgId(pm.vote.sn, s.views.view);
    var t := PutCert(s, id, CertOf(s, id).(prepares := CertOf(s, id).prepares[pm.sender := pm]));
    SilentLawful(c, s, s);
    SilentLawful(c, s, Touch(s, id));
    SilentLawful(c, s, t);
    VoteLawful(c, t, pm);
    LawfulThenSameTimers(c, s, t, HandlePrepareVote(c, t, pm));
  }

  // ---------------------------------------------------------------- Pre-prepares: the replica's own vote

  /** The certificates sent are for number sn, and no timer is touched. */
  ghost predicate LawfulFor(c: Config, s: State, t: State, sn: u32) {
    && Lawful(c, s, t) && t.leader == s.leader
    && forall m | m in CertsIn(t.outbox) - CertsIn(s.outbox) :: IsPrepareCert(m) && CertifiedId(m).sn == sn
  }

  lemma CastVoteLawful(c: Config, s: State, sn: u32)
    ensures LawfulFor(c, s, CastVote(c, s, sn), sn)
  {
    hide HandlePrepare, CertsIn, Proposals, ReportedMarks, Lawful;
    var vote := OwnVote(s, sn);
    var t := SignVote(s, vote);
    SilentLawful(c, s, t);
    HandlePrepareLawful(c, t, PrepareFor(c, vote));
    LawfulThenSameTimers(c, s, t, HandlePrepare(c, t, PrepareFor(c, vote)));
    ProposalsAfter(t, Prepare(PrepareFor(c, vote)));
    SilentLawful(c, s, ReplicaState.Send(t, Prepare(PrepareFor(c, vote))));
  }

  lemma HandlePrePrepareLawful(c: Config, s: State, pp: PrePrepareMsg)
    ensures LawfulFor(c, s, HandlePrePrepare(c, s, pp), pp.sn)
  {
    hide SendViewChange, CheckIfPrepared, CastVote, CertsIn, Lawful, Quiet, InWatermarks;
    var id := MsgId(pp.sn, pp.view);
    SilentLawful(c, s, s);
    SendViewChangeCalm(c, s);
    CalmLawful(c, s, SendViewChange(c, s));
    SendViewChangeCalm(c, Touch(s, id));
    SilentLawful(c, s, SendViewChange(c, Touch(s, id)));
    var t := CheckIfPrepared(c, StorePrePrepare(s, id, pp), id);
    CheckIfPreparedCalm(c, StorePrePrepare(s, id, pp), id);
    SilentLawful(c, s, t);
    CastVoteLawful(c, t, pp.sn);
    LawfulThenSameTimers(c, s, t, CastVote(c, t, pp.sn));
  }

  // ---------------------------------------------------------------- New views: own votes, entry by entry

  ghost predicate LawfulAmong(c: Config, s: State, t: State, keys: seq<u32>) {
    && Lawful(c, s, t)
    && forall m | m in CertsIn(t.outbox) - CertsIn(s.outbox) :: IsPrepareCert(m) && CertifiedId(m).sn in keys
  }

  lemma AcceptEntryLawful(c: Config, s: State, t: State, nv: NewViewMsg, keys: seq<u32>, sn: u32)
    requires sn in nv.oset && sn !in keys && LawfulAmong(c, s, t, keys)
    ensures LawfulAmong(c, s, AcceptEntry(c, t, nv, sn), keys + [sn])
  {
    hide HandlePrePrepare, CertsIn, Lawful, QuorumRecorded;
    var pp := PrePrepareMsg(sn, Hash(nv.oset[sn]), nv.oset[sn], t.views.view, nv.sender);
    var x := if IsPrimary(c, t) then StartTimer(t, MsgId(sn, t.views.view), pp.digest) else t;
    SilentLawful(c, t, x);
    HandlePrePrepareLawful(c, x, pp);
    var w := AcceptEntry(c, t, nv, sn);
    LawfulThenSameTimers(c, t, x, w);
    forall m | m in CertsIn(t.outbox) - CertsIn(s.outbox) ensures IsPrepareCert(m) && TimerRight(w, m) {
      LawfulMember(c, s, t, m);
      assert CertifiedId(m).sn != sn;
    }
    LawfulThen(c, s, t, w);
  }

  lemma LawfulMember(c: Config, s: State, t: State, m: Msg)
    requires Lawful(c, s, t) && m in CertsIn(t.outbox) - CertsIn(s.outbox)
    ensures Lawful1(c, t, m)
  {}

  lemma {:induction false} AcceptAllLawful(c: Config, s: State, nv: NewViewMsg, keys: seq<u32>)
    requires forall k | k in keys :: k in nv.oset
    requires forall i, j | 0 <= i < j < |keys| :: keys[i] != keys[j]
    ensures LawfulAmong(c, s, AcceptAll(c, s, nv, keys), keys)
    decreases |keys|
  {
    hide AcceptEntry, CertsIn, Lawful;
    if keys == [] {
      SilentLawful(c, s, s);
    } else {
      var rest, sn := keys[..|keys| - 1], keys[|keys| - 1];
      AcceptAllLawful(c, s, nv, rest);
      assert keys == rest + [sn] && sn !in rest;
      AcceptEntryLawful(c, s, AcceptAll(c, s, nv, rest), nv, rest, sn);
    }
  }

  lemma ProcessNewViewLawful(c: Config, s: State)
    ensures Lawful(c, s, ProcessNewView(c, s))
  {
    hide AcceptAll, Sorted, CertsIn, Lawful;
    SilentLawful(c, s, s);
    if s.views.view in s.views.newViews {
      var nv := s.views.newViews[s.views.view];
      var x := EnterView(c, s);
      SortedMembers(nv.oset.Keys);
      forall i, j | 0 <= i < j < |Sorted(nv.oset.Keys)| ensures Sorted(nv.oset.Keys)[i] != Sorted(nv.oset.Keys)[j] {
        SortedAscends(nv.oset.Keys, i, j);
      }
      AcceptAllLawful(c, x, nv, Sorted(nv.oset.Keys));
      SameStart(c, s, x, AcceptAll(c, x, nv, Sorted(nv.oset.Keys)));
    }
  }

  lemma SortedAscends(ks: set<u32>, i: nat, j: nat)
    requires i < j < |Sorted(ks)|
    ensures Sorted(ks)[i] < Sorted(ks)[j]
  {
    HandledAscending(ks, MOD, i, j);
  }

  lemma SameStart(c: Config, s: State, x: State, t: State)
    requires x.ballots == s.ballots && x.outbox == s.outbox && Lawful(c, x, t)
    ensures Lawful(c, s, t)
  {}

  // ---------------------------------------------------------------- Every step

  /** No certificate sent, no prepare vote recorded. */
  ghost predicate Silent(s: State, t: State) {
    t.ballots.prepare == s.ballots.prepare && t.ballots.fast == s.ballots.fast && CertsIn(t.outbox) == CertsIn(s.outbox)
  }

  lemma SendCommitSilent(c: Config, s: State, q: PrepareQc)
    ensures Silent(s, SendCommit(c, s, q))
  {
    hide CertsIn, Proposals, ReportedMarks;
    ProposalsAfter(s.(commitVotes := s.commitVotes + {q}),
                   Commit(CommitMsg(q, c.id, PartialSig(TsKey, ForCommit(q), c.id))));
  }

  lemma HandleSlowQcSilent(c: Config, s: State, q: PrepareQc)
    ensures Silent(s, HandleSlowQc(c, s, q))
  {
    hide SendViewChange, CheckIfPrepared, SendCommit, InWatermarks, CertsIn, Quiet;
    var id := MsgId(q.sn, q.view);
    var t := PutCert(s, id, CertOf(s, id).(prepareQc := Some(q)));
    SendViewChangeCalm(c, s);
    CheckIfPreparedCalm(c, t, id);
    SendCommitSilent(c, CheckIfPrepared(c, t, id), q);
  }

  lemma HandleFastQcSilent(c: Config, s: State, q: FastPrepareQc)
    ensures Silent(s, HandleFastQc(c, s, q))
  {
    hide CheckIfPrepared, CertsIn, Quiet;
    var id := MsgId(q.sn, q.view);
    CheckIfPreparedCalm(c, PutCert(s, id, CertOf(s, id).(fastQc := Some(q))), id);
  }

  lemma HandleFinalQcSilent(c: Config, s: State, q: CommitQc)
    ensures Silent(s, HandleFinalQc(c, s, q))
  {
    hide SendViewChange, CheckIfCommitted, InWatermarks, CertsIn, Quiet;
    var id := MsgId(q.sn, q.view);
    SendViewChangeCalm(c, s);
    CheckIfCommittedCalm(c, PutCert(s, id, CertOf(s, id).(commitQc := Some(q))), id);
  }

  lemma IssueFinalQcSilent(c: Config, s: State, id: MsgId, q: PrepareQc)
    ensures Silent(s, IssueFinalQc(c, s, id, q))
  {
    hide Recover, Recoverable, SharesOf, Proposals, ReportedMarks, CertsIn;
    var sig := Recover(c, TsKey, ForCommit(q), 2 * c.F() + 1);
    ProposalsAfter(PutCert(s, id, CertOf(s, id).(commitQcSent := true)),
                   FinalQc(CommitQc(id.sn, q.digest, id.view, c.id, sig)));
  }

  lemma HandleCommitSilent(c: Config, s: State, cm: CommitMsg)
    ensures Silent(s, HandleCommit(c, s, cm))
  {
    hide IssueFinalQc, SharesOf, CertsIn, InWatermarks;
    var id := MsgId(cm.vote.sn, cm.vote.view);
    var cert := CertOf(s, id);
    IssueFinalQcSilent(c, RecordCommit(PutCert(s, id, cert.(commits := cert.commits[cm.sender := cm])), id, cm), id,
                       cm.vote);
  }

  lemma SendNewViewLawful(c: Config, s: State)
    ensures Lawful(c, s, SendNewView(c, s))
  {
    hide ProcessNewView, Vset, Assign, MaxCheckpoint, Proposals, ReportedMarks, CertsIn, Lawful;
    SilentLawful(c, s, s);
    SilentLawful(c, s, s.(panicked := true));
    var vset := Vset(c, s.views);
    var nv := NewViewMsg(s.views.view, vset, Assign(c, vset, MaxCheckpoint(vset)).oset, c.id);
    var x := PublishNewView(c, s, nv);
    ProposalsAfter(s.(views := s.views.(newViews := s.views.newViews[nv.view := nv],
                                        newViewsSent := s.views.newViewsSent + {nv.view})), NewView(nv));
    ProcessNewViewLawful(c, x);
    FromSilent(c, s, x, ProcessNewView(c, x));
  }

  lemma FromSilent(c: Config, s: State, x: State, t: State)
    requires x.ballots == s.ballots && CertsIn(x.outbox) == CertsIn(s.outbox) && Lawful(c, x, t)
    ensures Lawful(c, s, t)
  {
    hide CertsIn;
  }

  lemma HandleViewChangeLawful(c: Config, s: State, vc: ViewChangeMsg)
    ensures Lawful(c, s, HandleViewChange(c, s, vc))
  {
    hide CatchUp, SendNewView, CorrectViewChange, ForView, CertsIn, Lawful, Quiet;
    var x := s.(views := s.views.(store := s.views.store[Vcidx(vc.view, vc.sender) := vc]));
    SilentLawful(c, s, s);
    CatchUpCalm(c, x);
    SilentLawful(c, s, CatchUp(c, x));
    SendNewViewLawful(c, CatchUp(c, x));
    FromSilent(c, s, CatchUp(c, x), SendNewView(c, CatchUp(c, x)));
  }

  lemma HandleNewViewLawful(c: Config, s: State, nv: NewViewMsg)
    ensures Lawful(c, s, HandleNewView(c, s, nv))
  {
    hide ProcessNewView, CertsIn, Lawful;
    var x := s.(views := s.views.(newViews := s.views.newViews[nv.view := nv]));
    SilentLawful(c, s, s);
    ProcessNewViewLawful(c, x);
    FromSilent(c, s, x, ProcessNewView(c, x));
  }

  lemma ProposeLawful(c: Config, s: State, batch: RequestBatch)
    ensures Lawful(c, s, Propose(c, s, batch)) && CertsIn(Propose(c, s, batch).outbox) == CertsIn(s.outbox)
  {
    hide Proposals, ReportedMarks, CertsIn, Lawful;
    var sn := s.leader.nextSN;
    var s1 := StartTimer(s.(leader := s.leader.(nextSN := Add(sn, 1))), MsgId(sn, s.views.view), Hash(batch));
    ProposalsAfter(s1, PrePrepare(PrePrepareMsg(sn, Hash(batch), batch, s.views.view, c.id)));
    SilentLawful(c, s, Propose(c, s, batch));
  }

  lemma FireTimerLawful(c: Config, s: State, id: MsgId, k: Digest)
    ensures var t := FireTimer(c, s, id, k);
            Lawful(c, s, t) && OnlyFor(s, t, id) && forall m | m in CertsIn(t.outbox) - CertsIn(s.outbox) :: m.SlowQc?
  {
    hide CheckIfPrepareQc, CertsIn, Lawful;
    SilentLawful(c, s, s);
    CheckLawful(c, Fired(s, id, k), id, k);
    if (id, k) in s.leader.armed { FromSilent(c, s, Fired(s, id, k), CheckIfPrepareQc(c, Fired(s, id, k), id, k)); }
  }

  /** Which certificates an event can send: a vote's for its own number and view, a pre-prepare's for its
      number, a timeout's a slow one for its own; a view change may bring own votes; no other event sends any. */
  ghost predicate Expected(e: Event, m: Msg) {
    && IsPrepareCert(m)
    && match e
       case Deliver(Prepare(pm)) => CertifiedId(m) == MsgId(pm.vote.sn, pm.vote.view)
       case Deliver(PrePrepare(pp)) => CertifiedId(m).sn == pp.sn
       case Deliver(ViewChange(_)) => true
       case Deliver(NewView(_)) => true
       case FastTimeout(id, _) => m.SlowQc? && CertifiedId(m) == id
       case _ => false
  }

  ghost predicate LawfulOn(c: Config, s: State, t: State, e: Event) {
    Lawful(c, s, t) && forall m | m in CertsIn(t.outbox) - CertsIn(s.outbox) :: Expected(e, m)
  }

  lemma DispatchLawful(c: Config, s: State, m: Msg)
    ensures LawfulOn(c, s, Dispatch(c, s, m), Deliver(m))
  {
    hide HandlePrePrepare, HandlePrepare, HandleCommit, HandleSlowQc, HandleFastQc, HandleFinalQc, HandleViewChange,
        HandleNewView,
         StateDigests, Matching, CertsIn, Lawful;
    match m
    case PrePrepare(pp) => HandlePrePrepareLawful(c, s, pp);
    case Prepare(pm) => HandlePrepareLawful(c, s, pm);
    case Commit(cm) => {
      HandleCommitSilent(c, s, cm);
      SilentLawful(c, s, Dispatch(c, s, m));
    }
    case SlowQc(q) => {
      HandleSlowQcSilent(c, s, q);
      SilentLawful(c, s, Dispatch(c, s, m));
    }
    case FastQc(q) => {
      HandleFastQcSilent(c, s, q);
      SilentLawful(c, s, Dispatch(c, s, m));
    }
    case FinalQc(q) => {
      HandleFinalQcSilent(c, s, q);
      SilentLawful(c, s, Dispatch(c, s, m));
    }
    case Checkpoint(ck) => SilentLawful(c, s, HandleCheckpoint(c, s, ck));
    case ViewChange(vc) => {
      HandleViewChangeLawful(c, s, vc);
      AllCertificates(c, s, Dispatch(c, s, m));
    }
    case NewView(nv) => {
      HandleNewViewLawful(c, s, nv);
      AllCertificates(c, s, Dispatch(c, s, m));
    }
  }

  lemma AllCertificates(c: Config, s: State, t: State)
    requires Lawful(c, s, t)
    ensures forall m | m in CertsIn(t.outbox) - CertsIn(s.outbox) :: IsPrepareCert(m)
  {}

  /** Every step is lawful, and sends no certificate its event does not account for. */
  lemma StepLawful(c: Config, s: State, now: int, e: Event)
    ensures LawfulOn(c, s, Step(c, s, now, e), e)
  {
    hide Dispatch, Propose, FireTimer, SendViewChange, CertsIn, Lawful, Quiet;
    var x := s.(clock := now);
    SilentLawful(c, s, s);
    SilentLawful(c, s, x);
    match e
    case Deliver(m) => {
      DispatchLawful(c, x, m);
      FromSilent(c, s, x, Dispatch(c, x, m));
    }
    case Batch(b) => {
      ProposeLawful(c, x, b);
      FromSilent(c, s, x, Propose(c, x, b));
    }
    case FastTimeout(id, k) => {
      FireTimerLawful(c, x, id, k);
      FromSilent(c, s, x, FireTimer(c, x, id, k));
    }
    case ViewTimeout => {
      SendViewChangeCalm(c, x);
      SilentLawful(c, s, SendViewChange(c, x));
    }
  }

  // ---------------------------------------------------------------- Every history

  /** Step j of the history sent m, lawfully. */
  ghost predicate SentAt(c: Config, ss: seq<State>, j: nat, m: Msg) {
    && 0 < j < |ss| && m in CertsIn(ss[j].outbox) && m !in CertsIn(ss[j - 1].outbox)
    && Lawful1(c, ss[j], m)
  }

  lemma StepToLawful(c: Config, s: State, t: State)
    requires StepTo(c, s, t)
    ensures Lawful(c, s, t)
  {
    hide Step, Lawful, CertsIn;
    var now, e :| t == Step(c, s, now, e);
    StepLawful(c, s, now, e);
  }

  /** Every prepare certificate in the outbox was sent at some step of the history - a fast one while its
      number's timer ran, a slow one after it had stopped - and has its quorum of shares on record still. */
  lemma {:induction false} EveryCertificateLawful(c: Config, ss: seq<State>, k: nat, m: Msg)
    requires History(c, ss) && k < |ss| && m in CertsIn(ss[k].outbox)
    ensures IsPrepareCert(m) && QuorumRecorded(c, ss[k], m)
    ensures exists j: nat :: j <= k && SentAt(c, ss, j, m)
  {
    hide StepTo, CertsIn, Lawful, QuorumRecorded, TimerRight, SentAt, BallotsExtend;
    if k == 0 {
      NothingSent(c, m);
    } else {
      StepToLawful(c, ss[k - 1], ss[k]);
      if m in CertsIn(ss[k - 1].outbox) {
        EveryCertificateLawful(c, ss, k - 1, m);
        StillThere(c, ss[k - 1], ss[k]);
        StillRecorded(c, ss[k - 1], ss[k], m);
      } else {
        LawfulMember(c, ss[k - 1], ss[k], m);
        SentNow(c, ss, k, m);
      }
    }
  }

  lemma NothingSent(c: Config, m: Msg)
    ensures m !in CertsIn(Init(c).outbox)
  {}

  lemma StillThere(c: Config, s: State, t: State)
    requires Lawful(c, s, t)
    ensures BallotsExtend(s.ballots, t.ballots)
  {}

  lemma SentNow(c: Config, ss: seq<State>, k: nat, m: Msg)
    requires 0 < k < |ss| && m in CertsIn(ss[k].outbox) && m !in CertsIn(ss[k - 1].outbox) && Lawful1(c, ss[k], m)
    ensures SentAt(c, ss, k, m)
  {}
}
