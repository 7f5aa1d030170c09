/** What a committed number becomes in a later view: a correct new primary's view certifies and executes
    what that primary assigned, so a commit crosses the view change exactly if the assignment kept it. */
module Succession {
  import opened Types
  import opened ReplicaState
  import opened Assignment
  import opened Handlers
  import opened Quorum
  import opened Cluster
  import opened Invariants
  import opened Preservation
  import opened Soundness
  import opened Reachability
  import opened Frames
  import opened Delivery
  import opened Agreement
  import opened Recovery
  import opened Findings

  // ---------------------------------------------------------------- Where votes and new views come from

  /** The vote is for what the new view of its view assigns to its number. */
  predicate Assigns(newViews: map<nat, NewViewMsg>, v: PrepareVote) {
    && v.view in newViews && v.sn in newViews[v.view].oset
    && v.digest == Hash(newViews[v.view].oset[v.sn])
  }

  /** The event is a pre-prepare for the vote's number from the primary of its view. */
  predicate Prompts(c: Config, e: Event, v: PrepareVote) {
    e.Deliver? && e.m.PrePrepare? && e.m.pp.sn == v.sn && e.m.pp.sender == c.Primary(v.view)
  }

  ghost predicate VotesFrom(c: Config, s: State, t: State, e: Event) {
    forall v | v in t.votes && v !in s.votes :: Assigns(t.views.newViews, v) || Prompts(c, e, v)
  }

  /** A new view is stored as received from the primary of its view, or as published by the replica. */
  ghost predicate NewViewsFrom(c: Config, s: State, t: State, e: Event) {
    && (forall k | k in s.views.newViews :: k in t.views.newViews && t.views.newViews[k] == s.views.newViews[k])
    && (forall k | k in t.views.newViews && k !in s.views.newViews ::
          var nv := t.views.newViews[k];
          && nv.view == k && nv.sender == c.Primary(k)
          && (e == Deliver(NewView(nv)) || (c.Primary(k) == c.id && NewView(nv) in t.outbox)))
  }

  /** Without automatic view changes, a pre-prepare leads to a vote for its number in the view under way,
      and for its digest if that is its view. */
  lemma PrePrepareVotes(c: Config, s: State, pp: PrePrepareMsg)
    requires !c.auto
    ensures var t := HandlePrePrepare(c, s, pp);
            && t.views.newViews == s.views.newViews
            && (t.views.active ==> s.views.active && t.views.view == s.views.view)
            && (forall v | v in t.votes && v !in s.votes ::
                  && v.sn == pp.sn && v.view == s.views.view && pp.sender == c.Primary(v.view)
                  && (pp.view == v.view ==> v.digest == pp.digest))
  {
    hide CheckIfPrepared, HandlePrepare, InWatermarks, ViewChangeOf, CastVote;
    var id := MsgId(pp.sn, pp.view);
    var s1 := StorePrePrepare(s, id, pp);
    var t := CheckIfPrepared(c, s1, id);
    CheckIfPreparedCalm(c, s1, id);
    CheckIfPreparedUndisturbed(c, s1, id);
    CastVoteAlike(c, t, pp.sn);
    CastVoteVotes(c, t, pp.sn);
    assert CertOf(t, id).digest == CertOf(s1, id).digest == pp.digest;
  }

  lemma {:induction false} AcceptAllVotes(c: Config, s: State, nv: NewViewMsg, keys: seq<u32>)
    requires !c.auto && forall k | k in keys :: k in nv.oset
    ensures var t := AcceptAll(c, s, nv, keys);
            && t.views.newViews == s.views.newViews
            && (t.views.active ==> s.views.active && t.views.view == s.views.view)
            && (forall v | v in t.votes && v !in s.votes ::
                  v.view == s.views.view && v.sn in nv.oset && v.digest == Hash(nv.oset[v.sn]))
    decreases |keys|
  {
    hide HandlePrePrepare;
    if keys != [] {
      var rest := keys[..|keys| - 1];
      var t := AcceptAll(c, s, nv, rest);
      var sn := keys[|keys| - 1];
      AcceptAllVotes(c, s, nv, rest);
      var pp := PrePrepareMsg(sn, Hash(nv.oset[sn]), nv.oset[sn], t.views.view, nv.sender);
      PrePrepareVotes(c, t, pp);
      PrePrepareVotes(c, StartTimer(t, MsgId(sn, t.views.view), pp.digest), pp);
      Inactive(c, t, nv, sn);
    }
  }

  lemma Inactive(c: Config, s: State, nv: NewViewMsg, sn: u32)
    requires sn in nv.oset
    ensures !s.views.active ==> AcceptEntry(c, s, nv, sn).votes == s.votes
  {}

  lemma ProcessNewViewVotes(c: Config, s: State)
    requires !c.auto
    ensures var t := ProcessNewView(c, s);
            && t.views.newViews == s.views.newViews
            && forall v | v in t.votes && v !in s.votes :: Assigns(t.views.newViews, v)
  {
    hide AcceptAll, Sorted;
    if s.views.view in s.views.newViews {
      var nv := s.views.newViews[s.views.view];
      SortedMembers(nv.oset.Keys);
      AcceptAllVotes(c, EnterView(c, s), nv, Sorted(nv.oset.Keys));
    }
  }

  lemma PublishVotes(c: Config, s: State, nv: NewViewMsg)
    requires !c.auto && Inv(c, s) && c.Scans() && nv.view == s.views.view && nv.sender == c.id
    requires nv.view !in s.views.newViewsSent
    ensures var t := ProcessNewView(c, PublishNewView(c, s, nv));
            && t.views.newViews == s.views.newViews[nv.view := nv] && NewView(nv) in t.outbox
            && forall v | v in t.votes && v !in s.votes :: Assigns(t.views.newViews, v)
  {
    hide Inv, Settings.Scans, ProcessNewView;
    var p := PublishNewView(c, s, nv);
    ProcessNewViewVotes(c, p);
    PublishNewViewKeeps(c, s, nv);
    ProcessNewViewKeeps(c, p);
    assert NewView(nv) in p.outbox;
  }

  lemma SendNewViewVotes(c: Config, s: State, e: Event)
    requires !c.auto && Inv(c, s) && c.Scans() && IsPrimary(c, s)
    ensures VotesFrom(c, s, SendNewView(c, s), e) && NewViewsFrom(c, s, SendNewView(c, s), e)
  {
    hide Inv, Settings.Scans, ProcessNewView, PublishNewView, Vset, Assign, MaxCheckpoint, Diverges;
    var vset := Vset(c, s.views);
    var nv := NewViewMsg(s.views.view, vset, Assign(c, vset, MaxCheckpoint(vset)).oset, c.id);
    if nv.view !in s.views.newViewsSent { PublishVotes(c, s, nv); }
  }

  lemma HandleViewChangeVotes(c: Config, s: State, vc: ViewChangeMsg, e: Event)
    requires !c.auto && Inv(c, s) && c.Scans()
    ensures VotesFrom(c, s, HandleViewChange(c, s, vc), e) && NewViewsFrom(c, s, HandleViewChange(c, s, vc), e)
  {
    hide Inv, Settings.Scans, CatchUp, SendNewView, ForView, CorrectViewChange;
    var x := s.(views := s.views.(store := s.views.store[Vcidx(vc.view, vc.sender) := vc]));
    if Vcidx(vc.view, vc.sender) !in s.views.store {
      ViewsKeep(c, s, x.views);
      CatchUpKeeps(c, x);
      CatchUpCalm(c, x);
      if IsPrimary(c, CatchUp(c, x)) { SendNewViewVotes(c, CatchUp(c, x), e); }
    }
  }

  lemma HandleNewViewVotes(c: Config, s: State, nv: NewViewMsg)
    requires !c.auto
    ensures var t := HandleNewView(c, s, nv);
            VotesFrom(c, s, t, Deliver(NewView(nv))) && NewViewsFrom(c, s, t, Deliver(NewView(nv)))
  {
    hide ProcessNewView;
    ProcessNewViewVotes(c, s.(views := s.views.(newViews := s.views.newViews[nv.view := nv])));
  }

  lemma PlainVotes(c: Config, s: State, m: Msg)
    requires !c.auto && !m.PrePrepare? && !m.ViewChange? && !m.NewView?
    ensures Dispatch(c, s, m).votes == s.votes && Dispatch(c, s, m).views.newViews == s.views.newViews
  {
    hide HandlePrepare, HandleSlowQc, HandleFastQc, HandleFinalQc, HandleCommitVote, HandleCheckpoint;
    match m
    case Prepare(pm) => HandlePrepareAlike(c, s, pm); HandlePrepareVotes(c, s, pm);
    case Commit(cm) => CommitVotes(c, s, cm);
    case SlowQc(_) => CertificateLeaves(c, s, m);
    case FastQc(_) => CertificateLeaves(c, s, m);
    case FinalQc(_) => CertificateLeaves(c, s, m);
    case Checkpoint(ck) => CheckpointVotes(c, s, ck);
  }

  lemma CheckpointVotes(c: Config, s: State, ck: CheckpointMsg)
    ensures HandleCheckpoint(c, s, ck).votes == s.votes && HandleCheckpoint(c, s, ck).views == s.views
  {
    hide StateDigests, Matching, CheckpointsAt;
  }

  lemma CommitVotes(c: Config, s: State, cm: CommitMsg)
    ensures HandleCommit(c, s, cm).votes == s.votes && HandleCommit(c, s, cm).views == s.views
  {
    hide SharesOf, Recover, Recoverable;
  }

  lemma FireVotes(c: Config, s: State, id: MsgId, k: Digest)
    ensures FireTimer(c, s, id, k).votes == s.votes && FireTimer(c, s, id, k).views == s.views
  {
    hide SharesOf, Recover, Recoverable;
  }

  /** Whatever arrives: without automatic view changes a step casts votes only for what the new view of their
      view assigns, or on a pre-prepare for their number from the primary of their view. */
  lemma StepVotes(c: Config, s: State, now: int, e: Event)
    requires !c.auto && Inv(c, s) && c.Scans()
    ensures VotesFrom(c, s, Step(c, s, now, e), e) && NewViewsFrom(c, s, Step(c, s, now, e), e)
  {
    hide Inv, Settings.Scans, HandlePrePrepare, HandlePrepare, HandleSlowQc, HandleFastQc, HandleFinalQc,
         HandleViewChange, HandleNewView, HandleCommit, HandleCheckpoint, Propose, FireTimer, ViewChangeOf;
    var x := s.(clock := now);
    TickKeeps(c, s, now);
    match e
    case Deliver(m) => {
      match m
      case PrePrepare(pp) => PrePrepareVotes(c, x, pp);
      case ViewChange(vc) => HandleViewChangeVotes(c, x, vc, e);
      case NewView(nv) => HandleNewViewVotes(c, x, nv);
      case _ => PlainVotes(c, x, m);
    }
    case Batch(b) => ProposeLeaves(c, x, b); ProposeVotes(c, x, b);
    case FastTimeout(id, k) => FireVotes(c, x, id, k);
    case ViewTimeout =>
  }

  lemma ProposeVotes(c: Config, s: State, batch: RequestBatch)
    ensures Propose(c, s, batch).votes == s.votes
  {}

  // ---------------------------------------------------------------- Under a correct primary

  /** No replica changes views on its own account after a number of its choice. */
  ghost predicate Unprompted(u: Setup) { forall i | i in u.replicas :: !u.replicas[i].auto }

  ghost predicate HasProposed(s: State, sn: u32) { exists pp :: PrePrepare(pp) in s.outbox && pp.sn == sn }

  /** Replica j's votes of view w are for what the new view of replica i assigns, or for a number i proposed. */
  ghost predicate Guided(x: Sys, j: nat, w: nat, i: nat) {
    && i in x.nodes && j in x.nodes
    && (w in x.nodes[j].views.newViews ==>
          x.nodes[j].views.newViews[w].view == w && NewView(x.nodes[j].views.newViews[w]) in x.nodes[i].outbox)
    && (forall v | v in x.nodes[j].votes && v.view == w ::
          Assigns(x.nodes[j].views.newViews, v) || HasProposed(x.nodes[i], v.sn))
  }

  lemma StillGuided(u: Setup, x: Sys, y: Sys, j: nat, w: nat)
    requires SysInv(u, x) && SysInv(u, y) && Unprompted(u) && Next(u, x, y) && 0 < u.n && Guided(x, j, w, w % u.n)
    ensures Guided(y, j, w, w % u.n)
  {
    hide SysInv, MsgSound, Unprompted, Guided, Acts, Injects;
    GuidedNodes(x, j, w, w % u.n);
    SetupOf(u, x);
    SetupOf(u, y);
    NextGrows(u, x, y, w % u.n);
    if a, now, e :| Acts(u, x, y, a, now, e) {
      if a == j { GuidedStep(u, x, y, j, w, now, e); } else { GuidedBystander(u, x, y, a, now, e, j, w); }
    } else {
      var m :| Injects(u, x, y, m);
      GuidedMeanwhile(u, x, y, m, j, w, w % u.n);
    }
  }

  lemma GuidedNodes(x: Sys, j: nat, w: nat, i: nat)
    requires Guided(x, j, w, i)
    ensures i in x.nodes && j in x.nodes
  {}

  lemma GuidedMeanwhile(u: Setup, x: Sys, y: Sys, m: Msg, j: nat, w: nat, i: nat)
    requires Guided(x, j, w, i) && Injects(u, x, y, m)
    ensures Guided(y, j, w, i)
  {
    hide MsgSound, HasProposed;
  }

  lemma GuidedBystander(u: Setup, x: Sys, y: Sys, a: nat, now: int, e: Event, j: nat, w: nat)
    requires Acts(u, x, y, a, now, e) && a != j && 0 < u.n && Guided(x, j, w, w % u.n)
    requires w % u.n in y.nodes && x.nodes[w % u.n].outbox <= y.nodes[w % u.n].outbox
    ensures Guided(y, j, w, w % u.n)
  {
    hide Step, HasProposed;
    ProposedStill(x.nodes[w % u.n], y.nodes[w % u.n]);
  }

  lemma ProposedStill(s: State, t: State)
    requires s.outbox <= t.outbox
    ensures forall sn | HasProposed(s, sn) :: HasProposed(t, sn)
    ensures forall m | m in s.outbox :: m in t.outbox
  {
    forall sn | HasProposed(s, sn) ensures HasProposed(t, sn) {
      var pp :| PrePrepare(pp) in s.outbox && pp.sn == sn;
      assert PrePrepare(pp) in t.outbox;
    }
  }

  lemma GuidedStep(u: Setup, x: Sys, y: Sys, j: nat, w: nat, now: int, e: Event)
    requires SysInv(u, x) && Unprompted(u) && Acts(u, x, y, j, now, e) && 0 < u.n && Guided(x, j, w, w % u.n)
    requires w % u.n in y.nodes && x.nodes[w % u.n].outbox <= y.nodes[w % u.n].outbox
    ensures Guided(y, j, w, w % u.n)
  {
    hide SysInv, Step, MsgSound, Inv, CertsSound, BallotsSound, ViewsSound, MarksSound, OutboxSound, Full,
         HasProposed, Settings.Scans, Guided, VotesFrom, NewViewsFrom;
    NodeFacts(u, x, j);
    MemberId(u, u.replicas[j]);
    StepVotes(u.replicas[j], x.nodes[j], now, e);
    if e.Deliver? && e.m.Sender() == w % u.n && w % u.n in x.nodes { Heard(u, x, w % u.n, e.m); }
    GuidedAfter(u.replicas[j], x, y, j, w, w % u.n, e);
  }

  lemma GuidedAfter(c: Config, x: Sys, y: Sys, j: nat, w: nat, i: nat, e: Event)
    requires Guided(x, j, w, i) && j in y.nodes && i in y.nodes && x.nodes[i].outbox <= y.nodes[i].outbox
    requires VotesFrom(c, x.nodes[j], y.nodes[j], e) && NewViewsFrom(c, x.nodes[j], y.nodes[j], e)
    requires c.id == j && c.Primary(w) == i
    requires e.Deliver? && e.m.Sender() == i ==> e.m in x.nodes[i].outbox
    requires e.Deliver? && e.m.PrePrepare? && e.m.Sender() == i ==> HasProposed(x.nodes[i], e.m.pp.sn)
    ensures Guided(y, j, w, i)
  {
    hide HasProposed;
    ProposedStill(x.nodes[i], y.nodes[i]);
  }

  /** What bears a correct replica's signature is in its outbox. */
  lemma Heard(u: Setup, x: Sys, i: nat, m: Msg)
    requires SysInv(u, x) && m in x.net && m.Sender() == i && i in x.nodes
    ensures m in x.nodes[i].outbox
    ensures m.PrePrepare? ==> HasProposed(x.nodes[i], m.pp.sn)
  {
    hide SysInv, Carries;
    InNet(u, x, m);
  }

  lemma {:induction false} RunGuided(u: Setup, tr: seq<Sys>, k: nat, j: nat, w: nat)
    requires u.Valid() && 0 < u.n && Run(u, tr) && k < |tr| && Unprompted(u)
    requires j in tr[k].nodes && w % u.n in tr[k].nodes
    ensures Guided(tr[k], j, w, w % u.n)
  {
    hide Next, SysInv, Guided, Unprompted, Setup.Valid, InitSys;
    ReachableSound(u, tr, k);
    SetupOf(u, tr[k]);
    if k == 0 {
      GuidedAtFirst(u, tr, j, w);
    } else {
      ReachableSound(u, tr, k - 1);
      SetupOf(u, tr[k - 1]);
      RunGuided(u, tr, k - 1, j, w);
      StillGuided(u, tr[k - 1], tr[k], j, w);
    }
  }

  lemma GuidedAtFirst(u: Setup, tr: seq<Sys>, j: nat, w: nat)
    requires Run(u, tr) && 0 < u.n && j in u.replicas && w % u.n in u.replicas
    ensures Guided(tr[0], j, w, w % u.n)
  {
    hide Next;
  }

  /** The digest the new view of replica i assigns to the vote's number. */
  ghost predicate AssignedBy(s: State, v: PrepareVote) {
    exists nv :: NewView(nv) in s.outbox && nv.view == v.view && v.sn in nv.oset && v.digest == Hash(nv.oset[v.sn])
  }

  /** Over every run, a prepare certificate of a view with a correct primary - whatever its digest, none
      included - is for a batch which that primary's new view assigned to the number, or for a number the
      primary itself proposed. */
  lemma CertifiedByPrimary(u: Setup, m: Mix, tr: seq<Sys>, k: nat, v: PrepareVote)
    requires Tolerates(u, m) && Run(u, tr) && k < |tr| && Unprompted(u) && 0 < u.n
    requires v.view % u.n in tr[k].nodes && Certifiable(u, tr[k].nodes, v)
    ensures var s := tr[k].nodes[v.view % u.n]; AssignedBy(s, v) || HasProposed(s, v.sn)
  {
    hide Run, SysInv, Legit, Unprompted, Guided, Signed, AssignedBy, HasProposed;
    ReachableSound(u, tr, k);
    SetupOf(u, tr[k]);
    var sig := if Legit(u, tr[k].nodes, Genuine(TsKey, ForPrepare(v))) then Genuine(TsKey, ForPrepare(v))
               else Genuine(FastKey, ForPrepare(v));
    CommonSigner(u, m, tr[k].nodes, sig, sig);
    var j :| j in tr[k].nodes && Signed(tr[k].nodes, j, ForPrepare(v));
    SignedVote(tr[k].nodes, j, ForPrepare(v));
    RunGuided(u, tr, k, j, v.view);
    GuidedVote(tr[k], j, v.view % u.n, v);
  }

  lemma GuidedVote(x: Sys, j: nat, i: nat, v: PrepareVote)
    requires Guided(x, j, v.view, i) && v in x.nodes[j].votes
    ensures i in x.nodes && (AssignedBy(x.nodes[i], v) || HasProposed(x.nodes[i], v.sn))
  {
    hide HasProposed;
  }

  /** So what its new view assigned is all that can be certified for a number it has not proposed. */
  lemma CertifiedAsAssigned(u: Setup, m: Mix, tr: seq<Sys>, k: nat, nv: NewViewMsg, v: PrepareVote)
    requires Tolerates(u, m) && Run(u, tr) && k < |tr| && Unprompted(u) && 0 < u.n && nv.view % u.n in tr[k].nodes
    requires NewView(nv) in tr[k].nodes[nv.view % u.n].outbox && !HasProposed(tr[k].nodes[nv.view % u.n], v.sn)
    requires v.view == nv.view && Certifiable(u, tr[k].nodes, v)
    ensures Keeps(nv, v.sn, v.digest)
  {
    hide Run, SysInv, Certifiable, Unprompted, HasProposed, Tolerates;
    CertifiedByPrimary(u, m, tr, k, v);
    var s := tr[k].nodes[nv.view % u.n];
    var w :| NewView(w) in s.outbox && w.view == v.view && v.sn in w.oset && v.digest == Hash(w.oset[v.sn]);
    OneNewView(u, m, tr, k, nv.view % u.n, nv, w);
  }

  lemma OneNewView(u: Setup, m: Mix, tr: seq<Sys>, k: nat, i: nat, a: NewViewMsg, b: NewViewMsg)
    requires Tolerates(u, m) && Run(u, tr) && k < |tr| && i in tr[k].nodes
    requires NewView(a) in tr[k].nodes[i].outbox && NewView(b) in tr[k].nodes[i].outbox && a.view == b.view
    ensures a == b
  {
    hide Run, SysInv, CertsSound, BallotsSound, ViewsSound, MarksSound, OutboxSound, Full, CertsOk, ExecOk;
    ReachableSound(u, tr, k);
    NodeFacts(u, tr[k], i);
    var o := tr[k].nodes[i].outbox;
    var p, q :| 0 <= p < |o| && 0 <= q < |o| && o[p] == NewView(a) && o[q] == NewView(b);
    assert p == q;
  }

  // ---------------------------------------------------------------- Commits cross the view change

  /** A view change led by a correct replica: it has published nv, within the range of numbers, and has not
      proposed number sn itself. */
  ghost predicate Succeeds(u: Setup, m: Mix, x: Sys, nv: NewViewMsg, sn: u32) {
    && Unprompted(u) && 0 < u.n
    && var i := nv.view % u.n;
       && i in x.nodes && i in u.replicas && Sized(u.replicas[i], m)
       && NewView(nv) in x.nodes[i].outbox && Covered(u.replicas[i], nv.vset, sn) && !HasProposed(x.nodes[i], sn)
  }

  /** A digest a fast quorum voted for is the one certified for its number in the new view exactly if the
      decider carried its batch. */
  lemma FastCommitCrossesExactly(u: Setup, m: Mix, tr: seq<Sys>, k: nat, nv: NewViewMsg, v: PrepareVote, d: Digest)
    requires Tolerates(u, m) && Run(u, tr) && k < |tr| && Succeeds(u, m, tr[k], nv, v.sn)
    requires v.view < nv.view && CorrectAgree(u, nv.vset, v)
    requires !v.digest.Empty() && Legit(u, tr[k].nodes, Genuine(FastKey, ForPrepare(v)))
    requires Certifiable(u, tr[k].nodes, PrepareVote(v.sn, nv.view, d))
    ensures d == v.digest <==> DeciderHolds(nv.vset, v.sn, v.digest)
  {
    hide Run, Legit, Tolerates, CorrectAgree, Sized, Certifiable, DeciderHolds, DecidedByOne, Unprompted, HasProposed,
         MaxCheckpoint;
    FastCommitSurvivesExactly(u, m, tr, k, nv.view % u.n, nv, v);
    CertifiedAsAssigned(u, m, tr, k, nv, PrepareVote(v.sn, nv.view, d));
  }

  /** And likewise one that a quorum signed commits for. */
  lemma SlowCommitCrossesExactly(u: Setup, m: Mix, tr: seq<Sys>, k: nat, nv: NewViewMsg, q: PrepareQc, d: Digest)
    requires Tolerates(u, m) && Run(u, tr) && k < |tr| && Succeeds(u, m, tr[k], nv, q.sn)
    requires Legit(u, tr[k].nodes, Genuine(TsKey, ForCommit(q))) && CommittersReport(tr[k].nodes, nv.vset, q)
    requires Certifiable(u, tr[k].nodes, PrepareVote(q.sn, nv.view, d))
    ensures d == q.digest <==> DeciderHolds(nv.vset, q.sn, q.digest)
  {
    hide Run, Legit, Tolerates, CommittersReport, Sized, Certifiable, DeciderHolds, DecidedByOne, Unprompted,
         HasProposed, MaxCheckpoint;
    SlowCommitSurvivesExactly(u, m, tr, k, nv.view % u.n, nv, q);
    CertifiedAsAssigned(u, m, tr, k, nv, PrepareVote(q.sn, nv.view, d));
  }

  /** The certificate commits its digest, and the view-changes of the correct members of the new primary's
      quorum are in order for it. */
  ghost predicate CommitsFor(u: Setup, g: map<nat, State>, cert: Cert, vset: seq<ViewChangeMsg>, id: MsgId) {
    || (cert.fastQc.Some? && cert.fastQc.value.digest == cert.digest
        && CorrectAgree(u, vset, PrepareVote(id.sn, id.view, cert.digest)))
    || (CommitVerifies(cert) && cert.prepareQc.value.digest == cert.digest
        && CommittersReport(g, vset, cert.prepareQc.value))
  }

  /** Two correct replicas, one that executed a number before the view change and one that executed it in the
      new view, each with a certificate that matches what it stored: they executed the same batch exactly if
      the decider carried the batch committed before. */
  lemma LogsAgreeAcrossViewsExactly(u: Setup, m: Mix, tr: seq<Sys>, k: nat, nv: NewViewMsg, i: nat, a: Executed,
                                    j: nat, b: Executed)
    requires Tolerates(u, m) && Run(u, tr) && k < |tr| && Succeeds(u, m, tr[k], nv, a.sn)
    requires i in tr[k].nodes && j in tr[k].nodes && a in tr[k].nodes[i].exec.log && b in tr[k].nodes[j].exec.log
    requires a.sn == b.sn && a.id.view < nv.view == b.id.view && !a.digest.Empty() && !b.digest.Empty()
    requires a.id in tr[k].nodes[i].certs && b.id in tr[k].nodes[j].certs
    requires CommitsFor(u, tr[k].nodes, tr[k].nodes[i].certs[a.id], nv.vset, a.id)
    requires Matches(tr[k].nodes[j].certs[b.id])
    ensures a.digest == b.digest <==> DeciderHolds(nv.vset, a.sn, a.digest)
  {
    hide Run, SysInv, Legit, Tolerates, CorrectAgree, CommittersReport, Certifiable, DeciderHolds, Succeeds;
    ToleratesValid(u, m);
    ReachableSound(u, tr, k);
    ExecutedCertified(u, m, tr[k], j, b);
    LogFacts(u, tr[k], i, a);
    CertFacts(u, tr[k], i, a.id);
    var cert := tr[k].nodes[i].certs[a.id];
    if cert.fastQc.Some? && cert.fastQc.value.digest == cert.digest
       && CorrectAgree(u, nv.vset, FastVote(cert.fastQc.value)) {
      FastCommitCrossesExactly(u, m, tr, k, nv, FastVote(cert.fastQc.value), b.digest);
    } else {
      SlowCommitCrossesExactly(u, m, tr, k, nv, cert.prepareQc.value, b.digest);
    }
  }

  lemma ToleratesValid(u: Setup, m: Mix)
    requires Tolerates(u, m)
    ensures u.Valid()
  {}

  lemma ExecutedCertified(u: Setup, m: Mix, x: Sys, j: nat, b: Executed)
    requires Tolerates(u, m) && SysInv(u, x) && j in x.nodes && b in x.nodes[j].exec.log && !b.digest.Empty()
    requires b.id in x.nodes[j].certs && Matches(x.nodes[j].certs[b.id])
    ensures b.id.sn == b.sn && Certifiable(u, x.nodes, PrepareVote(b.sn, b.id.view, b.digest))
  {
    hide Legit, SysInv, Tolerates, Certifiable, Matches;
    LogFacts(u, x, j, b);
    CertFacts(u, x, j, b.id);
    MatchedVote(u, x, x.nodes[j].certs[b.id], b.id);
  }
}
