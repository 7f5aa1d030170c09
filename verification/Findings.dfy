/** Where the code falls short of what one would want of it: inputs for which it does, and exactly when. */
module Findings {
  import opened Types
  import opened ReplicaState
  import opened Assignment
  import opened Handlers
  import opened Invariants
  import opened Preservation
  import opened Frames
  import opened Delivery
  import opened Agreement
  import opened Recovery

  // ---------------------------------------------------------------- Votes for nothing

  /** The pre-prepare passes the checks of handlePrePrepareMsg, and executing will not end the view. */
  ghost predicate Passes(c: Config, s: State, pp: PrePrepareMsg) {
    && s.views.active && NotDue(c, s, pp.sn) && pp.sender == c.Primary(s.views.view) && InWatermarks(c, s, pp.sn)
    && (CertOf(s, MsgId(pp.sn, pp.view)).digest.Empty() || CertOf(s, MsgId(pp.sn, pp.view)).digest == pp.digest)
  }

  /** What the certificate for the current view holds when the vote is made. */
  function DigestVoted(s: State, pp: PrePrepareMsg): Digest {
    if pp.view == s.views.view then pp.digest else CertOf(s, MsgId(pp.sn, s.views.view)).digest
  }

  /** Same view, window, digests and pre-prepares, and nothing more buffered than number sn. */
  ghost predicate Undisturbed(s: State, t: State, sn: u32) {
    && t.views == s.views && t.marks.h == s.marks.h && t.leader.viewChangeSeq == s.leader.viewChangeSeq
    && t.exec.ids.Keys <= s.exec.ids.Keys + {sn}
    && forall k :: CertOf(t, k).digest == CertOf(s, k).digest && CertOf(t, k).prePrepare == CertOf(s, k).prePrepare
  }

  lemma CommitUndisturbed(c: Config, s: State, id: MsgId)
    requires NotDue(c, s, id.sn)
    ensures Undisturbed(s, ExecuteRequest(c, PutCert(s, id, CertOf(s, id).(stage := Committed)), id), id.sn)
  {
    hide ExecuteRequest;
    ExecuteRequestAlike(c, PutCert(s, id, CertOf(s, id).(stage := Committed)), id);
  }

  lemma RestageUndisturbed(s: State, id: MsgId, stage: Stage)
    ensures Undisturbed(s, PutCert(s, id, CertOf(s, id).(stage := stage)), id.sn)
  {}

  lemma UndisturbedTwice(s: State, t: State, w: State, sn: u32)
    requires Undisturbed(s, t, sn) && Undisturbed(t, w, sn)
    ensures Undisturbed(s, w, sn)
  {}

  lemma CheckIfCommittedUndisturbed(c: Config, s: State, id: MsgId)
    requires NotDue(c, s, id.sn)
    ensures Undisturbed(s, CheckIfCommitted(c, s, id), id.sn)
  {
    hide ExecuteRequest, Undisturbed;
    CommitUndisturbed(c, s, id);
    RestageUndisturbed(s, id, CertOf(s, id).stage);
  }

  /** checkIfPrepared then moves nothing but stages. */
  lemma CheckIfPreparedUndisturbed(c: Config, s: State, id: MsgId)
    requires NotDue(c, s, id.sn)
    ensures Undisturbed(s, CheckIfPrepared(c, s, id), id.sn)
  {
    hide ExecuteRequest, CheckIfCommitted, Undisturbed;
    var p := PutCert(s, id, CertOf(s, id).(stage := Prepared));
    CommitUndisturbed(c, s, id);
    RestageUndisturbed(s, id, CertOf(s, id).stage);
    RestageUndisturbed(s, id, Prepared);
    CheckIfCommittedUndisturbed(c, p, id);
    UndisturbedTwice(s, p, CheckIfCommitted(c, p, id), id.sn);
  }

  /** The pre-prepare is stored under its own view, but the vote is made for the current one: the
      replica signs a vote for the proposed digest exactly if the pre-prepare is of the current view,
      or that view happens to hold the same digest already. */
  lemma VoteNamesProposalExactly(c: Config, s: State, pp: PrePrepareMsg)
    requires Passes(c, s, pp) && !IsPrimary(c, s)
    ensures var t := HandlePrePrepare(c, s, pp);
            && t.votes == s.votes + {PrepareVote(pp.sn, s.views.view, DigestVoted(s, pp))}
            && t.panicked == s.panicked && t.views == s.views && t.marks.h == s.marks.h && NotDue(c, t, pp.sn)
            && CertOf(t, MsgId(pp.sn, pp.view)).digest == pp.digest
               && CertOf(t, MsgId(pp.sn, pp.view)).prePrepare == Some(pp)
            && (forall k | k != MsgId(pp.sn, pp.view) :: CertOf(t, k).prePrepare == CertOf(s, k).prePrepare)
            && (pp.view != s.views.view ==>
                  CertOf(t, MsgId(pp.sn, s.views.view)).digest == CertOf(s, MsgId(pp.sn, s.views.view)).digest)
    ensures var v := PrepareVote(pp.sn, s.views.view, pp.digest);
            v in HandlePrePrepare(c, s, pp).votes
            <==> v in s.votes || pp.view == s.views.view || CertOf(s, MsgId(pp.sn, s.views.view)).digest == pp.digest
  {
    hide SendViewChange, CheckIfPrepared, InWatermarks;
    var id := MsgId(pp.sn, pp.view);
    var t := StorePrePrepare(s, id, pp);
    CheckIfPreparedCalm(c, t, id);
    CheckIfPreparedUndisturbed(c, t, id);
    var w := CheckIfPrepared(c, t, id);
    assert CertOf(w, id).digest == CertOf(t, id).digest == pp.digest
           && CertOf(w, id).prePrepare == CertOf(t, id).prePrepare;
    forall k
      ensures CertOf(HandlePrePrepare(c, s, pp), k).digest == CertOf(w, k).digest
              && CertOf(HandlePrePrepare(c, s, pp), k).prePrepare == CertOf(w, k).prePrepare
    {}
  }

  // With automatic view changes, executing the number may itself end the view before the vote is cast.

  /** Executing has ended the view exactly if it went past the number the primary is to change after. */
  ghost predicate Turned(c: Config, s: State, t: State) {
    && t.views.view == s.views.view + (if Overran(c, s, t) then 1 else 0)
    && t.leader == s.leader && s.exec.last <= t.exec.last
    && forall k :: CertOf(t, k).digest == CertOf(s, k).digest
  }

  predicate Overran(c: Config, s: State, t: State) {
    c.auto && s.exec.last < s.leader.viewChangeSeq <= t.exec.last
  }

  lemma ExecuteNextTurned(c: Config, s: State)
    requires Executable(s.exec)
    ensures Turned(c, s, ExecuteNext(c, s))
  {
    hide ViewChangeOf;
  }

  lemma {:induction false} ExecuteAllTurned(c: Config, s: State)
    ensures Turned(c, s, ExecuteAll(c, s))
    decreases MOD - s.exec.last
  {
    hide ExecuteNext;
    if Executable(s.exec) {
      ExecuteNextTurned(c, s);
      ExecuteAllTurned(c, ExecuteNext(c, s));
    }
  }

  lemma RestagedTurned(c: Config, s: State, id: MsgId, stage: Stage)
    ensures Turned(c, s, ExecuteRequest(c, PutCert(s, id, CertOf(s, id).(stage := stage)), id))
  {
    hide ExecuteAll;
    ExecuteAllTurned(c, Buffer(PutCert(s, id, CertOf(s, id).(stage := stage)), id));
  }

  lemma PutTurned(c: Config, s: State, id: MsgId, stage: Stage, t: State)
    requires Turned(c, PutCert(s, id, CertOf(s, id).(stage := stage)), t)
    ensures Turned(c, s, t)
  {}

  lemma TouchTurned(c: Config, s: State, id: MsgId)
    ensures Turned(c, s, Touch(s, id))
  {}

  lemma CheckIfPreparedTurned(c: Config, s: State, id: MsgId)
    ensures Turned(c, s, CheckIfPrepared(c, s, id))
  {
    hide ExecuteRequest, CommitVerifies, Turned;
    var p := PutCert(s, id, CertOf(s, id).(stage := Prepared));
    RestagedTurned(c, s, id, Committed);
    RestagedTurned(c, p, id, Committed);
    TouchTurned(c, p, id);
    TouchTurned(c, s, id);
    PutTurned(c, s, id, Prepared, CheckIfCommitted(c, p, id));
  }

  /** Whatever the state, a pre-prepare that passes the checks leads to exactly one vote: for the view the
      replica is in after executing - the next one exactly if execution went past the number to change after -
      and for the digest proposed if the pre-prepare names that very view, or else for what is stored there. */
  lemma VoteCastExactly(c: Config, s: State, pp: PrePrepareMsg)
    requires s.views.active && pp.sender == c.Primary(s.views.view) && InWatermarks(c, s, pp.sn)
    requires c.auto ==> pp.sn <= s.leader.viewChangeSeq
    requires CertOf(s, MsgId(pp.sn, pp.view)).digest.Empty() || CertOf(s, MsgId(pp.sn, pp.view)).digest == pp.digest
    ensures var t := HandlePrePrepare(c, s, pp);
            var w := t.views.view;
            && w == s.views.view + (if Overran(c, s, t) then 1 else 0)
            && t.votes == s.votes + {PrepareVote(pp.sn, w, if pp.view == w then pp.digest
                                                           else CertOf(s, MsgId(pp.sn, w)).digest)}
  {
    hide CheckIfPrepared, InWatermarks, SendViewChange, CastVote;
    var id := MsgId(pp.sn, pp.view);
    var t := StorePrePrepare(s, id, pp);
    CheckIfPreparedCalm(c, t, id);
    CheckIfPreparedTurned(c, t, id);
    CastVoteAlike(c, CheckIfPrepared(c, t, id), pp.sn);
    CastVoteVotes(c, CheckIfPrepared(c, t, id), pp.sn);
  }

  /** So a correct backup can be made to sign two votes for one number and view: first for no digest
      at all, on a pre-prepare of another view, then for a proper one. */
  lemma SignsTwice(c: Config, s: State, stray: PrePrepareMsg, proper: PrePrepareMsg)
    requires Passes(c, s, stray) && !IsPrimary(c, s) && stray.view != s.views.view
    requires proper.sn == stray.sn && proper.view == s.views.view && proper.sender == stray.sender
             && !proper.digest.Empty()
    requires CertOf(s, MsgId(stray.sn, s.views.view)).digest == Nil
    ensures var t := HandlePrePrepare(c, HandlePrePrepare(c, s, stray), proper);
            PrepareVote(proper.sn, s.views.view, Nil) in t.votes
                && PrepareVote(proper.sn, s.views.view, proper.digest) in t.votes
  {
    hide HandlePrePrepare;
    VoteNamesProposalExactly(c, s, stray);
    VoteNamesProposalExactly(c, HandlePrePrepare(c, s, stray), proper);
  }

  // ---------------------------------------------------------------- New views that are not published

  /** Number x has a certificate, or not exactly two candidate digests. */
  predicate Decidable(c: Config, vset: seq<ViewChangeMsg>, x: u32) {
    FirstPaired(vset, x) < |vset| || |Winners(c, vset, x)| != 2
  }

  /** With its quorum of view-changes, a new primary that has not published the view yet does so exactly if
      it knows no new view for it, some stable checkpoint is reported, the range has an end, and every
      number in it is decidable. */
  lemma NewViewPublishedExactly(c: Config, s: State)
    requires Inv(c, s) && c.Scans() && s.views.view !in s.views.newViewsSent
    ensures var vset := Vset(c, s.views);
            var sn := MaxCheckpoint(vset);
            s.views.view in SendNewView(c, s).views.newViewsSent <==>
              && s.views.view !in s.views.newViews && 0 < sn && !Diverges(c, sn)
              && forall x: u32 | InRange(x, Add(sn, 1), Add(sn, c.K)) :: Decidable(c, vset, x)
  {
    hide Settings.Scans, Inv, ProcessNewView, MaxCheckpoint, GetViewChangeMsgs, Vset, AssignRange, SlotAt, Diverges,
        Decidable;
    var vset := Vset(c, s.views);
    var sn := MaxCheckpoint(vset);
    NoneReached(vset);
    RangeSpec(c, vset, Add(sn, 1), Add(sn, c.K));
    forall x: u32 ensures Decidable(c, vset, x) <==> SlotAt(c, vset, x) != Ambiguous { DecidableSlot(c, vset, x); }
    var nv := NewViewMsg(s.views.view, vset, Assign(c, vset, sn).oset, c.id);
    PublishNewViewKeeps(c, s, nv);
    ProcessNewViewKeeps(c, PublishNewView(c, s, nv));
  }

  lemma NoneReached(vset: seq<ViewChangeMsg>)
    ensures vset == [] ==> MaxCheckpoint(vset) == 0
  {}

  lemma DecidableSlot(c: Config, vset: seq<ViewChangeMsg>, x: u32)
    ensures Decidable(c, vset, x) <==> SlotAt(c, vset, x) != Ambiguous
  {
    hide Winners;
  }

  lemma {:induction false} CollectedZero(store: map<Vcidx, ViewChangeMsg>, view: nat, order: seq<Vcidx>)
    requires forall i | i in store :: store[i].h == 0
    ensures MaxCheckpoint(GetViewChangeMsgs(store, view, order)) == 0
  {
    if order != [] {
      var rest := GetViewChangeMsgs(store, view, order[..|order| - 1]);
      var x := order[|order| - 1];
      CollectedZero(store, view, order[..|order| - 1]);
      if x in store { assert (rest + [store[x]])[..|rest|] == rest; }
    }
  }

  /** As long as nobody reports a stable checkpoint, a new primary does nothing at all. */
  lemma StuckWithoutCheckpoint(c: Config, s: State)
    requires forall i | i in s.views.store :: s.views.store[i].h == 0
    ensures SendNewView(c, s) == s
  {
    hide MaxCheckpoint, GetViewChangeMsgs, ProcessNewView;
    CollectedZero(s.views.store, s.views.view, c.scanViewChanges(s.views.view, s.views.store.Keys));
  }
}
