/** When a replica's low watermark moves: exactly, for every event, and at the latest when a quorum has
    announced one state. */
module Checkpoints {
  import opened Types
  import opened ReplicaState
  import opened Assignment
  import opened Handlers
  import opened Quorum
  import opened Invariants
  import opened Preservation
  import opened Frames
  import opened Numbering

  /** The checkpoints for the number of ck, with it. */
  function StoredWith(s: State, ck: CheckpointMsg): set<CheckpointMsg> {
    (if ck.sn in s.marks.store then s.marks.store[ck.sn] else {}) + {ck}
  }

  /** Enough replicas announce the state of ck, and not too many states are announced at all. */
  predicate Stabilizes(c: Config, cks: set<CheckpointMsg>, ck: CheckpointMsg) {
    && |set x | x in cks && x.digest == ck.digest| >= 2 * c.n / 3 + 1
    && |set x | x in cks :: x.digest| <= c.n / 3 + 1
  }

  /** A checkpoint in the window is stored, and becomes the low watermark exactly if with it a quorum agrees;
      one outside changes nothing. */
  lemma CheckpointMovesExactly(c: Config, s: State, now: int, ck: CheckpointMsg)
    requires !s.panicked
    ensures var t := Step(c, s, now, Deliver(Checkpoint(ck)));
            && t.marks.h == (if InWatermarks(c, s, ck.sn) && Stabilizes(c, StoredWith(s, ck), ck) then ck.sn
                             else s.marks.h)
            && t.marks.store == (if InWatermarks(c, s, ck.sn) then s.marks.store[ck.sn := StoredWith(s, ck)]
                                 else s.marks.store)
            && t == s.(clock := now, marks := s.marks.(h := t.marks.h, store := t.marks.store))
  {
    var x := s.(clock := now);
    var cks := StoredWith(s, ck);
    assert CheckpointsAt(x.marks, ck.sn) + {ck} == cks;
    assert Matching(cks, ck.digest) == set x | x in cks && x.digest == ck.digest;
    assert StateDigests(cks) == set x | x in cks :: x.digest;
  }

  /** No other event moves it. */
  lemma OtherwiseStays(c: Config, s: State, now: int, e: Event)
    requires !(e.Deliver? && e.m.Checkpoint?)
    ensures var t := Step(c, s, now, e); t.marks.h == s.marks.h && t.marks.store == s.marks.store
  {
    hide Proposals, ReportedMarks, CertsIn, HandlePrePrepare, HandlePrepare, HandleCommit, HandleSlowQc, HandleFastQc,
         HandleFinalQc, HandleViewChange, ProcessNewView, CheckIfPrepareQc, SendViewChange;
    var x := s.(clock := now);
    match e
    case Deliver(m) => {
      match m
      case PrePrepare(pp) => HandlePrePrepareQuiet(c, x, pp);
      case Prepare(pm) => HandlePrepareQuiet(c, x, pm);
      case Commit(cm) => HandleCommitQuiet(c, x, cm);
      case SlowQc(q) => HandleSlowQcQuiet(c, x, q);
      case FastQc(q) => HandleFastQcQuiet(c, x, q);
      case FinalQc(q) => HandleFinalQcQuiet(c, x, q);
      case ViewChange(vc) => HandleViewChangeEnters(c, x, vc);
      case NewView(nv) => ProcessNewViewEnters(c, x.(views := x.views.(newViews := x.views.newViews[nv.view := nv])));
    }
    case Batch(b) =>
    case FastTimeout(id, k) =>
      CheckIfPrepareQcQuiet(c, x.(leader := x.leader.(timers := x.leader.timers[id := true],
                                                      armed := x.leader.armed - {(id, k)},
                                                      fired := x.leader.fired[id := k])), id, k);
    case ViewTimeout => SendViewChangeCalm(c, x);
  }

  // ---------------------------------------------------------------- Over every history

  ghost predicate Uniform(cks: set<CheckpointMsg>, d: string) { forall ck | ck in cks :: ck.digest == d }

  /** Where a quorum has announced one state, and nobody another, the watermark has got there. */
  ghost predicate Settled(c: Config, s: State) {
    forall sn, d | sn in s.marks.store && Uniform(s.marks.store[sn], d) && |s.marks.store[sn]| >= 2 * c.n / 3 + 1 ::
      sn <= s.marks.h
  }

  lemma OneState(cks: set<CheckpointMsg>, ck: CheckpointMsg)
    requires ck in cks && Uniform(cks, ck.digest)
    ensures (set x | x in cks && x.digest == ck.digest) == cks && (set x | x in cks :: x.digest) == {ck.digest}
  {}

  lemma StepSettles(c: Config, s: State, now: int, e: Event)
    requires Settled(c, s) && NoWrap(c, s)
    ensures Settled(c, Step(c, s, now, e)) && s.marks.h <= Step(c, s, now, e).marks.h
    ensures forall sn, ck | sn in s.marks.store && ck in s.marks.store[sn] ::
              sn in Step(c, s, now, e).marks.store && ck in Step(c, s, now, e).marks.store[sn]
  {
    hide Step, InWatermarks, Stabilizes;
    if s.panicked {
      DeadStep(c, s, now, e);
    } else if e.Deliver? && e.m.Checkpoint? {
      CheckpointMovesExactly(c, s, now, e.m.ck);
      WatermarksWithoutWrap(c, s, e.m.ck.sn);
      Arrived(c, s, Step(c, s, now, e), e.m.ck);
    } else {
      OtherwiseStays(c, s, now, e);
    }
  }

  lemma Arrived(c: Config, s: State, t: State, ck: CheckpointMsg)
    requires Settled(c, s) && s.marks.h <= t.marks.h
    requires t.marks.store == s.marks.store
             || (t.marks.store == s.marks.store[ck.sn := StoredWith(s, ck)]
                 && (Stabilizes(c, StoredWith(s, ck), ck) ==> ck.sn <= t.marks.h))
    ensures Settled(c, t)
  {
    forall sn, d | sn in t.marks.store && Uniform(t.marks.store[sn], d) && |t.marks.store[sn]| >= 2 * c.n / 3 + 1
      ensures sn <= t.marks.h
    {
      if t.marks.store != s.marks.store && sn == ck.sn {
        OneState(StoredWith(s, ck), ck);
        assert Stabilizes(c, StoredWith(s, ck), ck);
      }
    }
  }

  /** At step l of the history the live replica took in the checkpoint, or was past its number already. */
  ghost predicate TookIn(c: Config, ss: seq<State>, l: nat, ck: CheckpointMsg) {
    && l + 1 < |ss| && !ss[l].panicked
    && (exists now :: ss[l + 1] == Step(c, ss[l], now, Deliver(Checkpoint(ck))))
    && (InWatermarks(c, ss[l], ck.sn) || ck.sn <= ss[l].marks.h)
  }

  lemma {:induction false} AlwaysSettled(c: Config, ss: seq<State>, l: nat, k: nat)
    requires History(c, ss) && WindowsFit(c, ss) && l <= k < |ss|
    ensures Settled(c, ss[k]) && ss[l].marks.h <= ss[k].marks.h
    ensures forall sn, ck | sn in ss[l].marks.store && ck in ss[l].marks.store[sn] ::
              sn in ss[k].marks.store && ck in ss[k].marks.store[sn]
    decreases k
  {
    hide Step, NoWrap, Settled;
    if k == 0 {
      InitSettled(c);
    } else {
      AlwaysSettled(c, ss, if l < k then l else k - 1, k - 1);
      assert StepTo(c, ss[k - 1], ss[k]);
      var now, e :| ss[k] == Step(c, ss[k - 1], now, e);
      assert NoWrap(c, ss[k - 1]);
      StepSettles(c, ss[k - 1], now, e);
    }
  }

  lemma InitSettled(c: Config)
    ensures Settled(c, Init(c))
  {}

  lemma TakenIn(c: Config, ss: seq<State>, l: nat, k: nat, ck: CheckpointMsg)
    requires History(c, ss) && WindowsFit(c, ss) && TookIn(c, ss, l, ck) && l < k < |ss|
    ensures ck.sn <= ss[k].marks.h || (ck.sn in ss[k].marks.store && ck in ss[k].marks.store[ck.sn])
  {
    hide Step, InWatermarks, History, WindowsFit, Settled, StepTo;
    var now :| ss[l + 1] == Step(c, ss[l], now, Deliver(Checkpoint(ck)));
    CheckpointMovesExactly(c, ss[l], now, ck);
    AlwaysSettled(c, ss, l, k);
    AlwaysSettled(c, ss, l + 1, k);
    if InWatermarks(c, ss[l], ck.sn) {
      assert ck.sn in ss[l + 1].marks.store && ck in ss[l + 1].marks.store[ck.sn];
    }
  }

  /** Once a live replica has taken in checkpoints for a number from 2n/3+1 senders that agree, and none for
      it with another state, its watermark has reached the number - in whatever order they came. */
  lemma QuorumMovesWatermark(c: Config, ss: seq<State>, k: nat, sn: u32, d: string, cks: set<CheckpointMsg>)
    requires History(c, ss) && WindowsFit(c, ss) && k < |ss| && |cks| >= 2 * c.n / 3 + 1
    requires forall ck | ck in cks :: ck.sn == sn && ck.digest == d && exists l: nat :: l < k && TookIn(c, ss, l, ck)
    requires sn in ss[k].marks.store ==> Uniform(ss[k].marks.store[sn], d)
    ensures sn <= ss[k].marks.h
  {
    hide History, WindowsFit, TookIn;
    AlwaysSettled(c, ss, k, k);
    if ss[k].marks.h < sn {
      forall ck | ck in cks ensures sn in ss[k].marks.store && ck in ss[k].marks.store[sn] {
        var l: nat :| l < k && TookIn(c, ss, l, ck);
        TakenIn(c, ss, l, k, ck);
      }
      SubsetSize(cks, ss[k].marks.store[sn]);
    }
  }
}
