/** Sequence numbers: what a primary numbers its proposals with, whatever it is fed. */
module Numbering {
  import opened Types
  import opened ReplicaState
  import opened Assignment
  import opened Handlers
  import opened Frames

  /** h + K + 1 fits a 32-bit counter, so the window does not wrap around. */
  predicate NoWrap(c: Config, s: State) { s.marks.h + c.K + 1 < MOD }

  predicate Ascending(pps: seq<PrePrepareMsg>) { forall i, j :: 0 <= i < j < |pps| ==> pps[i].sn < pps[j].sn }

  /** nextSN stays within one past the window, and every proposal so far has a smaller number. */
  ghost predicate Numbered(c: Config, s: State) {
    && s.leader.nextSN <= s.marks.h + c.K + 1
    && Ascending(Proposals(s.outbox))
    && (forall pp | pp in Proposals(s.outbox) :: pp.sn < s.leader.nextSN)
  }

  /** The wrapping subtraction tests what it is meant to. */
  lemma WatermarksWithoutWrap(c: Config, s: State, sn: u32)
    requires s.marks.h + c.K < MOD
    ensures InWatermarks(c, s, sn) <==> s.marks.h < sn <= s.marks.h + c.K
  {}

  /** Where the window does reach 2^32, entering a view moves nextSN back exactly if the wrapped value falls
      short of it; and a proposal does exactly if it takes the very last number. */
  lemma WrapMovesBackExactly(c: Config, s: State, batch: RequestBatch)
    requires Numbered(c, s)
    ensures EnterView(c, s).leader.nextSN < s.leader.nextSN <==>
            !NoWrap(c, s) && s.marks.h + c.K + 1 - MOD < s.leader.nextSN
    ensures Propose(c, s, batch).leader.nextSN < s.leader.nextSN <==>
            Propose(c, s, batch) != s && s.leader.nextSN == MOD - 1
  {
    hide Proposals, Ascending;
    if Propose(c, s, batch) != s { assert Propose(c, s, batch).leader.nextSN == Add(s.leader.nextSN, 1); }
  }

  /** A batch that reaches a live replica is proposed exactly if the replica is the primary of an active view,
      the next number is in the lower half of its window and, if views change automatically, not past the number
      to change after. Then it goes out under the next number, for the view and with its hash, its timer is
      running, and the next number is one further. Otherwise nothing happens. */
  lemma ProposesExactly(c: Config, s: State, now: int, batch: RequestBatch)
    requires Numbered(c, s) && NoWrap(c, s) && !s.panicked
    ensures var t := Step(c, s, now, Batch(batch));
            var sn := s.leader.nextSN;
            var id := MsgId(sn, s.views.view);
            if s.views.active && s.views.view % c.n == c.id && s.marks.h < sn <= s.marks.h + c.K / 2
               && (c.auto ==> sn <= s.leader.viewChangeSeq)
            then
              && t.outbox == s.outbox + [PrePrepare(PrePrepareMsg(sn, Hash(batch), batch, s.views.view, c.id))]
              && t.leader == s.leader.(nextSN := sn + 1, timers := s.leader.timers[id := false],
                                       armed := s.leader.armed + {(id, Hash(batch))})
              && t == s.(clock := now, outbox := t.outbox, leader := t.leader)
            else t == s.(clock := now)
  {
    WatermarksWithoutWrap(c, s, s.leader.nextSN);
  }

  lemma AscendingNext(pps: seq<PrePrepareMsg>, pp: PrePrepareMsg)
    requires Ascending(pps) && forall p | p in pps :: p.sn < pp.sn
    ensures Ascending(pps + [pp])
  {}

  lemma ProposeNumbered(c: Config, s: State, batch: RequestBatch)
    requires Numbered(c, s) && NoWrap(c, s)
    ensures var t := Propose(c, s, batch);
            Numbered(c, t) && t.leader.nextSN >= s.leader.nextSN && t.marks.h == s.marks.h
  {
    hide Proposals, Ascending;
    var sn := s.leader.nextSN;
    var s1 := StartTimer(s.(leader := s.leader.(nextSN := Add(sn, 1))), MsgId(sn, s.views.view), Hash(batch));
    var pp := PrePrepareMsg(sn, Hash(batch), batch, s.views.view, c.id);
    ProposalsAfter(s1, PrePrepare(pp));
    AscendingNext(Proposals(s.outbox), pp);
  }

  /** Every step keeps the numbering, and neither nextSN nor h ever moves back. */
  lemma StepNumbered(c: Config, s: State, now: int, e: Event)
    requires Numbered(c, s) && NoWrap(c, s)
    ensures var t := Step(c, s, now, e);
            Numbered(c, t) && s.leader.nextSN <= t.leader.nextSN && s.marks.h <= t.marks.h
  {
    hide Proposals, HandlePrePrepare, HandlePrepare, HandleCommit, HandleSlowQc, HandleFastQc, HandleFinalQc,
         HandleViewChange,
         ProcessNewView, Propose, CheckIfPrepareQc, SendViewChange, StateDigests, Matching;
    var x := s.(clock := now);
    match e
    case Deliver(m) => {
      match m
      case PrePrepare(pp) => HandlePrePrepareQuiet(c, x, pp);
      case Prepare(pm) => HandlePrepareQuiet(c, x, pm);
      case Commit(cm) => HandleCommitQuiet(c, x, cm);
      case SlowQc(q) => HandleSlowQcQuiet(c, x, q);
      case FastQc(q) => HandleFastQcQuiet(c, x, q);
      case FinalQc(q) => HandleFinalQcQuiet(c, x, q);
      case Checkpoint(ck) => WatermarksWithoutWrap(c, x, ck.sn);
      case ViewChange(vc) => HandleViewChangeEnters(c, x, vc);
      case NewView(nv) => ProcessNewViewEnters(c, x.(views := x.views.(newViews := x.views.newViews[nv.view := nv])));
    }
    case Batch(b) => ProposeNumbered(c, x, b);
    case FastTimeout(id, k) =>
      CheckIfPrepareQcQuiet(c, x.(leader := x.leader.(timers := x.leader.timers[id := true],
                                                      armed := x.leader.armed - {(id, k)},
                                                      fired := x.leader.fired[id := k])), id, k);
    case ViewTimeout => SendViewChangeCalm(c, x);
  }

  // ---------------------------------------------------------------- Over every run of one replica

  ghost predicate StepTo(c: Config, s: State, t: State) { exists now, e :: t == Step(c, s, now, e) }

  /** Once it has died it does nothing any more. */
  lemma DeadStep(c: Config, s: State, now: int, e: Event)
    requires s.panicked
    ensures Step(c, s, now, e) == s
  {}

  /** A history of one replica under arbitrary events: messages from anyone, forged or not. */
  ghost predicate History(c: Config, ss: seq<State>) {
    && |ss| > 0 && ss[0] == Init(c)
    && forall k :: 0 < k < |ss| ==> StepTo(c, ss[k - 1], ss[k])
  }

  ghost predicate WindowsFit(c: Config, ss: seq<State>) { forall k :: 0 <= k < |ss| ==> NoWrap(c, ss[k]) }

  lemma StepToNumbered(c: Config, s: State, t: State)
    requires StepTo(c, s, t) && Numbered(c, s) && NoWrap(c, s)
    ensures Numbered(c, t) && s.leader.nextSN <= t.leader.nextSN && s.marks.h <= t.marks.h
  {
    hide Step, Proposals;
    var now, e :| t == Step(c, s, now, e);
    StepNumbered(c, s, now, e);
  }

  lemma {:induction false} AlwaysNumbered(c: Config, ss: seq<State>, k: nat)
    requires History(c, ss) && WindowsFit(c, ss) && k < |ss|
    ensures Numbered(c, ss[k])
  {
    hide StepTo, NoWrap;
    if k > 0 {
      AlwaysNumbered(c, ss, k - 1);
      StepToNumbered(c, ss[k - 1], ss[k]);
    } else {
      assert Proposals(ss[0].outbox) == [];
    }
  }

  /** Neither counter ever moves back, and nextSN stays within one past the window. */
  lemma {:induction false} CountersOnlyGrow(c: Config, ss: seq<State>, i: nat, j: nat)
    requires History(c, ss) && WindowsFit(c, ss) && i <= j < |ss|
    ensures ss[i].leader.nextSN <= ss[j].leader.nextSN <= ss[j].marks.h + c.K + 1
    ensures ss[i].marks.h <= ss[j].marks.h
    decreases j
  {
    hide StepTo, NoWrap, Proposals, Ascending;
    AlwaysNumbered(c, ss, j);
    if i < j {
      CountersOnlyGrow(c, ss, i, j - 1);
      AlwaysNumbered(c, ss, j - 1);
      StepToNumbered(c, ss[j - 1], ss[j]);
    }
  }

  /** No fresh proposal ever reuses a number, in any view. */
  lemma ProposalsNeverReuse(c: Config, s: State, a: Msg, b: Msg)
    requires Numbered(c, s)
    requires a in s.outbox && b in s.outbox && a.PrePrepare? && b.PrePrepare? && a.pp.sn == b.pp.sn
    ensures a == b
  {
    hide Proposals;
    ProposalListed(s.outbox, a);
    ProposalListed(s.outbox, b);
  }
}
