/** When a replica leaves its view, for which, and when a new primary publishes: exactly, for every event. */
module Following {
  import opened Types
  import opened ReplicaState
  import opened Assignment
  import opened Handlers
  import opened Invariants
  import opened Preservation
  import opened Frames
  import opened Numbering
  import opened Delivery
  import opened Recovery
  import opened Findings
  import opened Sending

  // ---------------------------------------------------------------- The f+1 rule

  /** The senders of stored view-changes for views above the given one. */
  function SendersAbove(store: map<Vcidx, ViewChangeMsg>, view: nat): set<nat> {
    set i | i in store && view < i.view :: i.sender
  }

  /** The smallest view above the given one that some stored view-change is for. */
  ghost predicate NextAsked(store: map<Vcidx, ViewChangeMsg>, view: nat, w: nat) {
    && view < w && (exists i :: i in store && i.view == w)
    && (forall i | i in store && view < i.view :: w <= i.view)
  }

  /** How many stored view-changes are for the view. */
  function AskedFor(store: map<Vcidx, ViewChangeMsg>, view: nat): nat { |set i | i in store && i.view == view| }

  /** Of the view-changes stored, f+1 senders are ahead of the view. */
  predicate EnoughAhead(c: Config, store: map<Vcidx, ViewChangeMsg>, view: nat) {
    |SendersAbove(store, view)| >= c.n / 3 + 1
  }

  /** The message is looked at: not for an old view, in order, and the sender's first for its view. */
  ghost predicate Heeded(c: Config, s: State, vc: ViewChangeMsg) {
    s.views.view <= vc.view && CorrectViewChange(c, vc) && Vcidx(vc.view, vc.sender) !in s.views.store
  }

  function Storing(s: State, vc: ViewChangeMsg): map<Vcidx, ViewChangeMsg> {
    s.views.store[Vcidx(vc.view, vc.sender) := vc]
  }

  /** The view the replica is in once it has followed, and whether it is active there. */
  ghost predicate Followed(c: Config, s: State, store: map<Vcidx, ViewChangeMsg>, w: nat, active: bool) {
    if EnoughAhead(c, store, s.views.view) then NextAsked(store, s.views.view, w) && !active
    else w == s.views.view && active == s.views.active
  }

  /** A quorum has asked the replica to lead the view it is in. */
  ghost predicate Leads(c: Config, store: map<Vcidx, ViewChangeMsg>, w: nat, active: bool, vc: ViewChangeMsg) {
    !active && vc.view == w && AskedFor(store, w) >= c.viewChangeQuorum && w % c.n == c.id
  }

  /** What the new primary has to go by lets it publish. */
  ghost predicate Publishable(c: Config, s: State, vset: seq<ViewChangeMsg>, w: nat) {
    && w !in s.views.newViewsSent && w !in s.views.newViews && 0 < MaxCheckpoint(vset)
    && !Diverges(c, MaxCheckpoint(vset))
    && forall x: u32 | InRange(x, Add(MaxCheckpoint(vset), 1), Add(MaxCheckpoint(vset), c.K)) :: Decidable(c, vset, x)
  }

  lemma AheadSenders(v: Views)
    ensures Senders(Ahead(v)) == SendersAbove(v.store, v.view)
    ensures Ahead(v) != {} <==> SendersAbove(v.store, v.view) != {}
  {
    if Ahead(v) != {} {
      var i :| i in Ahead(v);
      assert i.sender in SendersAbove(v.store, v.view);
    }
  }

  lemma MinIsNext(v: Views)
    requires Ahead(v) != {}
    ensures NextAsked(v.store, v.view, MinView(Ahead(v)))
  {
    hide MinView;
    var i :| i in Ahead(v) && i.view == MinView(Ahead(v));
  }

  lemma OneNext(store: map<Vcidx, ViewChangeMsg>, view: nat, w: nat, x: nat)
    requires NextAsked(store, view, w) && NextAsked(store, view, x)
    ensures w == x
  {}

  /** The part of the step before a new primary acts on its quorum. */
  lemma CatchUpFollows(c: Config, s: State, w: nat, active: bool)
    requires Followed(c, s, s.views.store, w, active)
    ensures var t := CatchUp(c, s);
            && t.views.view == w && t.views.active == active && t.views.store == s.views.store
            && t.views.newViews == s.views.newViews && t.views.newViewsSent == s.views.newViewsSent
            && (if EnoughAhead(c, s.views.store, s.views.view) then
                  exists m :: t.outbox == s.outbox + [ViewChange(m)] && m.view == w && m.sender == c.id
                else t == s)
  {
    hide ViewChangeOf, MinView;
    AheadSenders(s.views);
    NobodyAhead(s.views);
    if EnoughAhead(c, s.views.store, s.views.view) {
      MinIsNext(s.views);
      OneNext(s.views.store, s.views.view, w, MinView(Ahead(s.views)));
      var x := s.(views := s.views.(view := MinView(Ahead(s.views)) - 1));
      OwnFields(c, x);
      assert CatchUp(c, s).outbox == s.outbox + [ViewChange(ViewChangeOf(c, x))];
    }
  }

  lemma OwnFields(c: Config, s: State)
    ensures ViewChangeOf(c, s).view == s.views.view + 1 && ViewChangeOf(c, s).sender == c.id
  {}

  lemma CountsForView(v: Views, w: nat)
    ensures |ForView(v, w)| == AskedFor(v.store, w)
  {}

  /** A delivered view-change that is heeded. With f+1 senders ahead of its view, this message included, the
      replica asks for the smallest view they are in, and for no other; otherwise it asks for nothing. It then
      publishes a new view exactly if a quorum has asked it to lead the view it is now in, and what the
      quorum reports lets it; if it does not, it stays in that view. */
  lemma StepFollowsExactly(c: Config, s: State, now: int, vc: ViewChangeMsg, w: nat, active: bool)
    requires Inv(c, s) && c.Scans() && !s.panicked && Heeded(c, s, vc) && Followed(c, s, Storing(s, vc), w, active)
    ensures var t := Step(c, s, now, Deliver(ViewChange(vc)));
            var asks := EnoughAhead(c, Storing(s, vc), s.views.view);
            var vset := GetViewChangeMsgs(Storing(s, vc), w, c.scanViewChanges(w, Storing(s, vc).Keys));
            && t.views.store == Storing(s, vc)
            && (asks ==> exists m :: s.outbox + [ViewChange(m)] <= t.outbox && m.view == w && m.sender == c.id)
            && t.views.newViewsSent
               == s.views.newViewsSent
                  + (if Leads(c, Storing(s, vc), w, active, vc) && Publishable(c, s, vset, w) then {w} else {})
            && (t.views.newViewsSent == s.views.newViewsSent ==>
                  t.views.view == w && t.views.active == active && |t.outbox| == |s.outbox| + (if asks then 1 else 0))
  {
    hide Inv, Settings.Scans, CatchUp, SendNewView, Followed, EnoughAhead, CorrectViewChange, Publishable, ForView,
         AskedFor, GetViewChangeMsgs, Evolves, NextAsked;
    var x := s.(clock := now);
    var y := x.(views := x.views.(store := Storing(s, vc)));
    TickKeeps(c, s, now);
    ViewsKeep(c, x, y.views);
    FollowedFrame(c, s, y, w, active);
    CatchUpFollows(c, y, w, active);
    CatchUpKeeps(c, y);
    CountsForView(CatchUp(c, y).views, w);
    SendNewViewPublishes(c, CatchUp(c, y));
    PublishableFrame(c, s, CatchUp(c, y), w);
  }

  /** So, unless it publishes a new view in the same step, the replica's view grows exactly if f+1 senders are
      ahead of it; it is then in the smallest view they are in, inactive, and has asked for just that one. */
  lemma ViewGrowsExactly(c: Config, s: State, now: int, vc: ViewChangeMsg)
    requires Inv(c, s) && c.Scans() && !s.panicked
    ensures var t := Step(c, s, now, Deliver(ViewChange(vc)));
            !Heeded(c, s, vc) ==> t == s.(clock := now)
    ensures var t := Step(c, s, now, Deliver(ViewChange(vc)));
            var ahead := EnoughAhead(c, Storing(s, vc), s.views.view);
            Heeded(c, s, vc) && t.views.newViewsSent == s.views.newViewsSent ==>
              && (s.views.view < t.views.view <==> ahead)
              && (if ahead then
                    && NextAsked(Storing(s, vc), s.views.view, t.views.view) && !t.views.active
                    && exists m :: t.outbox == s.outbox + [ViewChange(m)] && m.view == t.views.view && m.sender == c.id
                  else t.views.view == s.views.view && t.views.active == s.views.active && t.outbox == s.outbox)
  {
    hide Inv, Settings.Scans, Step, EnoughAhead, CorrectViewChange, Publishable, Leads, NextAsked;
    if Heeded(c, s, vc) {
      var w, active := SomeFollowed(c, s, Storing(s, vc));
      StepFollowsExactly(c, s, now, vc, w, active);
      StepKept(c, s, now, Deliver(ViewChange(vc)));
      if EnoughAhead(c, Storing(s, vc), s.views.view) { NextIsAbove(Storing(s, vc), s.views.view, w); }
    } else {
      Unheeded(c, s, now, vc);
    }
  }

  lemma SomeFollowed(c: Config, s: State, store: map<Vcidx, ViewChangeMsg>) returns (w: nat, active: bool)
    ensures Followed(c, s, store, w, active)
  {
    w, active := s.views.view, s.views.active;
    if EnoughAhead(c, store, s.views.view) {
      var v := s.views.(store := store);
      AheadSenders(v);
      MinIsNext(v);
      w, active := MinView(Ahead(v)), false;
    }
  }

  lemma NextIsAbove(store: map<Vcidx, ViewChangeMsg>, view: nat, w: nat)
    requires NextAsked(store, view, w)
    ensures view < w
  {}

  lemma StepKept(c: Config, s: State, now: int, e: Event)
    requires Inv(c, s) && c.Scans()
    ensures s.outbox <= Step(c, s, now, e).outbox
  {
    hide Inv, Settings.Scans, Step;
    StepKeeps(c, s, now, e);
  }

  lemma Unheeded(c: Config, s: State, now: int, vc: ViewChangeMsg)
    requires !s.panicked && !Heeded(c, s, vc)
    ensures Step(c, s, now, Deliver(ViewChange(vc))) == s.(clock := now)
  {
    hide CorrectViewChange;
  }

  lemma FollowedFrame(c: Config, s: State, y: State, w: nat, active: bool)
    requires Followed(c, s, y.views.store, w, active)
    requires y.views.view == s.views.view && y.views.active == s.views.active
    ensures Followed(c, y, y.views.store, w, active)
  {
    hide EnoughAhead, NextAsked;
  }

  lemma PublishableFrame(c: Config, s: State, y: State, w: nat)
    requires y.views.newViews == s.views.newViews && y.views.newViewsSent == s.views.newViewsSent
    ensures forall vset :: Publishable(c, s, vset, w) <==> Publishable(c, y, vset, w)
  {
    hide MaxCheckpoint, Diverges, Decidable, InRange;
  }

  /** The messages about views that a replica keeps. */
  ghost predicate SameRecords(s: State, t: State) {
    && t.views.store == s.views.store && t.views.newViews == s.views.newViews
    && t.views.newViewsSent == s.views.newViewsSent
  }

  lemma PrePrepareRecords(c: Config, s: State, pp: PrePrepareMsg)
    ensures SameRecords(s, HandlePrePrepare(c, s, pp))
  {
    hide CheckIfPrepared, CastVote, InWatermarks, ViewChangeOf;
    var id := MsgId(pp.sn, pp.view);
    var t := StorePrePrepare(s, id, pp);
    CheckIfPreparedCalm(c, t, id);
    CastVoteAlike(c, CheckIfPrepared(c, t, id), pp.sn);
  }

  lemma {:induction false} AcceptAllRecords(c: Config, s: State, nv: NewViewMsg, keys: seq<u32>)
    requires forall k | k in keys :: k in nv.oset
    ensures SameRecords(s, AcceptAll(c, s, nv, keys))
    decreases |keys|
  {
    hide HandlePrePrepare;
    if keys != [] {
      var t := AcceptAll(c, s, nv, keys[..|keys| - 1]);
      var sn := keys[|keys| - 1];
      AcceptAllRecords(c, s, nv, keys[..|keys| - 1]);
      var pp := PrePrepareMsg(sn, Hash(nv.oset[sn]), nv.oset[sn], t.views.view, nv.sender);
      PrePrepareRecords(c, t, pp);
      PrePrepareRecords(c, StartTimer(t, MsgId(sn, t.views.view), pp.digest), pp);
    }
  }

  lemma ProcessNewViewRecords(c: Config, s: State)
    ensures SameRecords(s, ProcessNewView(c, s))
  {
    hide AcceptAll, Sorted;
    if s.views.view in s.views.newViews {
      var nv := s.views.newViews[s.views.view];
      SortedMembers(nv.oset.Keys);
      AcceptAllRecords(c, EnterView(c, s), nv, Sorted(nv.oset.Keys));
    }
  }

  lemma SendNewViewPublishes(c: Config, s: State)
    requires Inv(c, s) && c.Scans()
    ensures var t := SendNewView(c, s);
            && t.views.store == s.views.store && s.outbox <= t.outbox
            && t.views.newViewsSent
               == s.views.newViewsSent
                  + (if Publishable(c, s, Vset(c, s.views), s.views.view) then {s.views.view} else {})
            && (t.views.newViewsSent == s.views.newViewsSent ==> t.views == s.views && t.outbox == s.outbox)
  {
    hide Inv, Settings.Scans, ProcessNewView, MaxCheckpoint, Vset, Assign, Diverges, Decidable, Evolves;
    var vset := Vset(c, s.views);
    var nv := NewViewMsg(s.views.view, vset, Assign(c, vset, MaxCheckpoint(vset)).oset, c.id);
    NoneReached(vset);
    SendNewViewKeeps(c, s);
    OutboxKept(c, s, SendNewView(c, s));
    if s.views.view !in s.views.newViewsSent {
      NewViewPublishedExactly(c, s);
      PublishNewViewKeeps(c, s, nv);
      ProcessNewViewKeeps(c, PublishNewView(c, s, nv));
      ProcessNewViewRecords(c, PublishNewView(c, s, nv));
    }
  }

  lemma OutboxKept(c: Config, s: State, t: State)
    requires Kept(c, s, t)
    ensures s.outbox <= t.outbox
  {
    hide Inv;
  }

  // ---------------------------------------------------------------- Leaving on any other event

  /** The pre-prepare meets another digest stored under its own number and view. */
  predicate Conflicts(s: State, pp: PrePrepareMsg) {
    var d := CertOf(s, MsgId(pp.sn, pp.view)).digest;
    !d.Empty() && d != pp.digest
  }

  /** What makes a replica give up its view at once: its timer; or, while it is active, a pre-prepare that is
      beyond the number to change after, not from the primary or in conflict with one in the window; or a slow
      or commit certificate in the window that is not from the primary. */
  predicate GivesUp(c: Config, s: State, e: Event) {
    match e
    case ViewTimeout => true
    case Deliver(PrePrepare(pp)) =>
      && s.views.active
      && (|| (c.auto && s.leader.viewChangeSeq < pp.sn)
          || pp.sender != c.Primary(s.views.view)
          || (InWatermarks(c, s, pp.sn) && Conflicts(s, pp)))
    case Deliver(SlowQc(q)) => s.views.active && InWatermarks(c, s, q.sn) && q.sender != c.Primary(s.views.view)
    case Deliver(FinalQc(q)) => s.views.active && InWatermarks(c, s, q.sn) && q.sender != c.Primary(s.views.view)
    case _ => false
  }

  /** The view is left for the next one, for these causes and no others. */
  ghost predicate LeftExactly(c: Config, s: State, t: State, e: Event) {
    t.views.view == s.views.view + (if GivesUp(c, s, e) || Overran(c, s, t) then 1 else 0)
  }

  lemma SendViewChangeLeaves(c: Config, s: State)
    ensures var t := SendViewChange(c, s); t.views.view == s.views.view + 1 && t.exec == s.exec
  {
    hide ViewChangeOf;
  }

  lemma PrePrepareLeft(c: Config, s: State, pp: PrePrepareMsg)
    ensures LeftExactly(c, s, HandlePrePrepare(c, s, pp), Deliver(PrePrepare(pp)))
  {
    hide CheckIfPrepared, CastVote, InWatermarks, SendViewChange;
    var id := MsgId(pp.sn, pp.view);
    var t := StorePrePrepare(s, id, pp);
    SendViewChangeLeaves(c, s);
    SendViewChangeLeaves(c, Touch(s, id));
    CheckIfPreparedTurned(c, t, id);
    CastVoteAlike(c, CheckIfPrepared(c, t, id), pp.sn);
  }

  lemma SlowQcLeft(c: Config, s: State, q: PrepareQc)
    ensures LeftExactly(c, s, HandleSlowQc(c, s, q), Deliver(SlowQc(q)))
  {
    hide CheckIfPrepared, InWatermarks, SendViewChange;
    var id := MsgId(q.sn, q.view);
    SendViewChangeLeaves(c, s);
    CheckIfPreparedTurned(c, PutCert(s, id, CertOf(s, id).(prepareQc := Some(q))), id);
  }

  lemma FastQcLeft(c: Config, s: State, q: FastPrepareQc)
    ensures LeftExactly(c, s, HandleFastQc(c, s, q), Deliver(FastQc(q)))
  {
    hide CheckIfPrepared;
    var id := MsgId(q.sn, q.view);
    CheckIfPreparedTurned(c, PutCert(s, id, CertOf(s, id).(fastQc := Some(q))), id);
  }

  lemma FinalQcLeft(c: Config, s: State, q: CommitQc)
    ensures LeftExactly(c, s, HandleFinalQc(c, s, q), Deliver(FinalQc(q)))
  {
    hide ExecuteRequest, CommitVerifies, InWatermarks, SendViewChange;
    var id := MsgId(q.sn, q.view);
    var t := PutCert(s, id, CertOf(s, id).(commitQc := Some(q)));
    SendViewChangeLeaves(c, s);
    RestagedTurned(c, t, id, Committed);
  }

  lemma CommitStays(c: Config, s: State, cm: CommitMsg)
    ensures HandleCommit(c, s, cm).views == s.views && HandleCommit(c, s, cm).exec == s.exec
  {
    hide SharesOf, Recover, Recoverable, InWatermarks;
  }

  lemma OthersStay(c: Config, s: State, m: Msg)
    requires m.Prepare? || m.Commit? || m.Checkpoint?
    ensures Dispatch(c, s, m).views == s.views && Dispatch(c, s, m).exec == s.exec
  {
    hide HandlePrepare, HandleCommit, Matching, StateDigests, CheckpointsAt, InWatermarks;
    match m
    case Prepare(pm) => HandlePrepareAlike(c, s, pm);
    case Commit(cm) => CommitStays(c, s, cm);
    case Checkpoint(_) =>
  }

  lemma BatchStays(c: Config, s: State, batch: RequestBatch)
    ensures Propose(c, s, batch).views == s.views && Propose(c, s, batch).exec == s.exec
  {}

  lemma TimerStays(c: Config, s: State, id: MsgId, k: Digest)
    ensures FireTimer(c, s, id, k).views == s.views && FireTimer(c, s, id, k).exec == s.exec
  {
    hide SharesOf, Recover, Recoverable;
  }

  /** On any event but a view-change or a new view, a live replica leaves its view for the next exactly if it is
      given cause to, or executes past the number to change after. */
  lemma StepLeavesExactly(c: Config, s: State, now: int, e: Event)
    requires !s.panicked && !(e.Deliver? && (e.m.ViewChange? || e.m.NewView?))
    ensures LeftExactly(c, s, Step(c, s, now, e), e)
  {
    hide HandlePrePrepare, HandlePrepare, HandleSlowQc, HandleFastQc, HandleFinalQc, HandleCommit, HandleCheckpoint,
         Propose, FireTimer, SendViewChange, GivesUp;
    var x := s.(clock := now);
    ClockAside(c, s, now, e);
    match e
    case Deliver(m) => {
      match m
      case PrePrepare(pp) => PrePrepareLeft(c, x, pp);
      case SlowQc(q) => SlowQcLeft(c, x, q);
      case FastQc(q) => FastQcLeft(c, x, q);
      case FinalQc(q) => FinalQcLeft(c, x, q);
      case _ => OthersStay(c, x, m); NoCause(c, x, e);
    }
    case Batch(b) => BatchStays(c, x, b); NoCause(c, x, e);
    case FastTimeout(id, k) => TimerStays(c, x, id, k); NoCause(c, x, e);
    case ViewTimeout => SendViewChangeLeaves(c, x); Cause(c, x);
  }

  lemma ClockAside(c: Config, s: State, now: int, e: Event)
    ensures GivesUp(c, s.(clock := now), e) == GivesUp(c, s, e)
  {}

  lemma NoCause(c: Config, s: State, e: Event)
    requires e.Batch? || e.FastTimeout? || (e.Deliver? && (e.m.Prepare? || e.m.Commit? || e.m.Checkpoint?))
    ensures !GivesUp(c, s, e)
  {}

  lemma Cause(c: Config, s: State)
    ensures GivesUp(c, s, ViewTimeout)
  {}

  // ---------------------------------------------------------------- The end of the first view

  /** The number to change views after is as it was. */
  ghost predicate SameSchedule(s: State, t: State) { t.leader.viewChangeSeq == s.leader.viewChangeSeq }

  lemma CertificateSchedule(c: Config, s: State, m: Msg)
    requires m.PrePrepare? || m.SlowQc? || m.FastQc? || m.FinalQc?
    ensures SameSchedule(s, Dispatch(c, s, m))
  {
    hide CheckIfPrepared, CheckIfCommitted, CastVote, InWatermarks, ViewChangeOf, Quiet, CertsIn, CommitVerifies;
    match m
    case PrePrepare(pp) =>
      var id := MsgId(pp.sn, pp.view);
      CheckIfPreparedCalm(c, StorePrePrepare(s, id, pp), id);
      CastVoteAlike(c, CheckIfPrepared(c, StorePrePrepare(s, id, pp), id), pp.sn);
    case SlowQc(q) =>
      CheckIfPreparedCalm(c, PutCert(s, MsgId(q.sn, q.view), CertOf(s, MsgId(q.sn, q.view)).(prepareQc := Some(q))),
                          MsgId(q.sn, q.view));
    case FastQc(q) =>
      CheckIfPreparedCalm(c, PutCert(s, MsgId(q.sn, q.view), CertOf(s, MsgId(q.sn, q.view)).(fastQc := Some(q))),
                          MsgId(q.sn, q.view));
    case FinalQc(q) =>
      CheckIfCommittedCalm(c, PutCert(s, MsgId(q.sn, q.view), CertOf(s, MsgId(q.sn, q.view)).(commitQc := Some(q))),
                           MsgId(q.sn, q.view));
    case _ =>
  }

  lemma OtherSchedule(c: Config, s: State, m: Msg)
    requires m.Prepare? || m.Commit? || m.Checkpoint?
    ensures SameSchedule(s, Dispatch(c, s, m))
  {
    hide HandlePrepare, SharesOf, Recover, Recoverable, Matching, StateDigests;
    if m.Prepare? { HandlePrepareAlike(c, s, m.pm); }
  }

  /** While the replica is active, only entering a view could reschedule, and that takes leaving this one. */
  lemma StepSchedule(c: Config, s: State, now: int, e: Event)
    requires s.views.active && !s.panicked
    ensures var t := Step(c, s, now, e);
            t.views.view == s.views.view ==>
              SameSchedule(s, t) && (e.Deliver? && (e.m.ViewChange? || e.m.NewView?) ==> t.exec == s.exec)
  {
    hide HandlePrePrepare, HandlePrepare, HandleSlowQc, HandleFastQc, HandleFinalQc, HandleCommit, HandleCheckpoint,
         HandleViewChange, CheckIfPrepareQc, ViewChangeOf;
    var x := s.(clock := now);
    match e
    case Deliver(m) => {
      match m
      case PrePrepare(_) => CertificateSchedule(c, x, m);
      case SlowQc(_) => CertificateSchedule(c, x, m);
      case FastQc(_) => CertificateSchedule(c, x, m);
      case FinalQc(_) => CertificateSchedule(c, x, m);
      case ViewChange(vc) => FollowsOrStays(c, x, vc);
      case NewView(_) =>
      case _ => OtherSchedule(c, x, m);
    }
    case Batch(_) =>
    case FastTimeout(id, k) => FireSchedule(c, x, id, k);
    case ViewTimeout =>
  }

  lemma FireSchedule(c: Config, s: State, id: MsgId, k: Digest)
    ensures SameSchedule(s, FireTimer(c, s, id, k))
  {
    hide SharesOf, Recover, Recoverable;
  }

  /** An active replica that is delivered a view-change follows it or does nothing but store it. */
  lemma FollowsOrStays(c: Config, s: State, vc: ViewChangeMsg)
    requires s.views.active
    ensures var t := HandleViewChange(c, s, vc);
            t.views.view == s.views.view ==> t == s.(views := t.views) && t.views.active
  {
    hide CorrectViewChange, SendNewView, ForView, CatchUp;
    var y := s.(views := s.views.(store := Storing(s, vc)));
    var w, active := SomeFollowed(c, y, y.views.store);
    CatchUpFollows(c, y, w, active);
    if EnoughAhead(c, y.views.store, y.views.view) {
      NextIsAbove(y.views.store, y.views.view, w);
      Left(c, CatchUp(c, y));
    }
  }

  /** A new primary's view never goes back. */
  lemma Left(c: Config, s: State)
    ensures SendNewView(c, s).views.view >= s.views.view
  {
    hide AcceptAll, Sorted, Vset, MaxCheckpoint, Assign, Diverges;
    var vset := Vset(c, s.views);
    var nv := NewViewMsg(s.views.view, vset, Assign(c, vset, MaxCheckpoint(vset)).oset, c.id);
    var x := EnterView(c, PublishNewView(c, s, nv));
    SortedMembers(nv.oset.Keys);
    AcceptAllForward(c, x, nv, Sorted(nv.oset.Keys));
  }

  lemma {:induction false} AcceptAllForward(c: Config, s: State, nv: NewViewMsg, keys: seq<u32>)
    requires forall k | k in keys :: k in nv.oset
    ensures AcceptAll(c, s, nv, keys).views.view >= s.views.view
    decreases |keys|
  {
    hide HandlePrePrepare, GivesUp;
    if keys != [] {
      var t := AcceptAll(c, s, nv, keys[..|keys| - 1]);
      var sn := keys[|keys| - 1];
      AcceptAllForward(c, s, nv, keys[..|keys| - 1]);
      var pp := PrePrepareMsg(sn, Hash(nv.oset[sn]), nv.oset[sn], t.views.view, nv.sender);
      PrePrepareLeft(c, t, pp);
      PrePrepareLeft(c, StartTimer(t, MsgId(sn, t.views.view), pp.digest), pp);
    }
  }

  /** The first view is to end after T + T/2 numbers, and with automatic view changes that many have not been
      executed in it. */
  ghost predicate Scheduled(c: Config, s: State) {
    var end := (c.T + c.T / 2) % MOD;
    s.views.view == 0 ==>
      s.leader.viewChangeSeq == end && (c.auto && 0 < end ==> s.exec.last < end)
  }

  lemma StepScheduled(c: Config, s: State, now: int, e: Event)
    requires Inv(c, s) && c.Scans() && Asked(s) && Scheduled(c, s)
    ensures Scheduled(c, Step(c, s, now, e))
  {
    hide Step, Inv, Settings.Scans, GivesUp;
    var t := Step(c, s, now, e);
    StepKeeps(c, s, now, e);
    NeverBack(c, s, t);
    if s.panicked {
      DeadStep(c, s, now, e);
    } else if t.views.view == 0 {
      ActiveAtFirst(c, s);
      StepSchedule(c, s, now, e);
      if !(e.Deliver? && (e.m.ViewChange? || e.m.NewView?)) { StepLeavesExactly(c, s, now, e); }
    }
  }

  lemma ActiveAtFirst(c: Config, s: State)
    requires Inv(c, s) && Asked(s) && s.views.view == 0
    ensures s.views.active
  {}

  lemma NeverBack(c: Config, s: State, t: State)
    requires Kept(c, s, t)
    ensures s.views.view <= t.views.view
  {
    hide Inv;
  }

  lemma {:induction false} FirstViewScheduled(c: Config, ss: seq<State>, k: nat)
    requires History(c, ss) && c.Scans() && k < |ss|
    ensures Scheduled(c, ss[k])
  {
    hide Step, Settings.Scans, Inv, Told, Asked;
    if k > 0 {
      FirstViewScheduled(c, ss, k - 1);
      AlwaysOpen(c, ss, k - 1);
      assert StepTo(c, ss[k - 1], ss[k]);
      var now, e :| ss[k] == Step(c, ss[k - 1], now, e);
      StepScheduled(c, ss[k - 1], now, e);
    }
  }
}
