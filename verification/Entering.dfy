/** What a replica does with a new view for the view it waits in: exactly, entry by entry. */
module Entering {
  import opened Types
  import opened ReplicaState
  import opened Assignment
  import opened Handlers
  import opened Invariants
  import opened Preservation
  import opened Frames
  import opened Delivery
  import opened Agreement
  import opened Recovery
  import opened Findings
  import opened Sending
  import opened Following

  // ---------------------------------------------------------------- The law

  /** What an entry of the new view stands for: a pre-prepare of its view from its sender. */
  function EntryOf(nv: NewViewMsg, sn: u32): PrePrepareMsg
    requires sn in nv.oset
  { PrePrepareMsg(sn, Hash(nv.oset[sn]), nv.oset[sn], nv.view, nv.sender) }

  function VoteOn(nv: NewViewMsg, sn: u32): PrepareVote
    requires sn in nv.oset
  { PrepareVote(sn, nv.view, Hash(nv.oset[sn])) }

  /** The entries the replica takes up: those above its watermark and in its window. */
  function Taken(c: Config, s: State, nv: NewViewMsg): set<u32> {
    set sn | sn in nv.oset && s.marks.h < sn && InWatermarks(c, s, sn)
  }

  /** Another digest is stored already under the entry's number and the view. */
  predicate Clashes(s: State, nv: NewViewMsg, sn: u32)
    requires sn in nv.oset
  {
    var d := CertOf(s, MsgId(sn, nv.view)).digest;
    !d.Empty() && d != Hash(nv.oset[sn])
  }

  /** The primary's own vote completes a fast quorum with too few genuine shares in it. */
  predicate Doomed(c: Config, s: State, v: PrepareVote) {
    var id := MsgId(v.sn, v.view);
    var shares := SharesOf(s.ballots.fast, (id, v.digest))[c.id := PartialSig(FastKey, ForPrepare(v), c.id)];
    && c.Primary(v.view) == c.id && c.id !in CertOf(s, id).prepares && !CertOf(s, id).qcSent
    && |shares| >= c.fastQuorum && |GenuineSigners(shares, FastKey, ForPrepare(v))| < c.fastQuorum
  }

  /** The number after which the replica is to change views once it has entered. */
  function NextChange(c: Config, s: State): u32 { Add(Add(Add(s.marks.h, c.K + 1), -1), c.K + c.T / 2) }

  /** Neither an entry nor what is buffered reaches that number. */
  predicate FarFromChange(c: Config, s: State, nv: NewViewMsg) {
    c.auto ==> NextChange(c, s) !in s.exec.ids && forall sn | sn in nv.oset :: sn < NextChange(c, s)
  }

  /** The replica holds each of these entries as a pre-prepare, with its batch, and has voted for it. */
  ghost predicate Holds(t: State, nv: NewViewMsg, done: set<u32>)
    requires done <= nv.oset.Keys
  {
    forall sn | sn in done ::
      && CertOf(t, MsgId(sn, nv.view)).prePrepare == Some(EntryOf(nv, sn))
      && CertOf(t, MsgId(sn, nv.view)).digest == Hash(nv.oset[sn])
      && MsgId(sn, nv.view) in t.batches && t.batches[MsgId(sn, nv.view)] == nv.oset[sn]
  }

  function VotesOn(nv: NewViewMsg, done: set<u32>): set<PrepareVote>
    requires done <= nv.oset.Keys
  { set sn | sn in done :: VoteOn(nv, sn) }

  /** The primary waits for the votes: a timer runs for each entry, and its own vote is recorded. */
  ghost predicate Awaits(c: Config, t: State, nv: NewViewMsg, done: set<u32>)
    requires done <= nv.oset.Keys
  {
    forall sn | sn in done ::
      var id := MsgId(sn, nv.view);
      && id in t.leader.timers && !t.leader.timers[id] && (id, Hash(nv.oset[sn])) in t.leader.armed
      && c.id in CertOf(t, id).prepares
  }

  /** What has not been taken up is as it was. */
  ghost predicate Untaken(s: State, t: State, nv: NewViewMsg, done: set<u32>) {
    forall sn: u32 | sn !in done ::
      && CertOf(t, MsgId(sn, nv.view)).digest == CertOf(s, MsgId(sn, nv.view)).digest
      && CertOf(t, MsgId(sn, nv.view)).prepares == CertOf(s, MsgId(sn, nv.view)).prepares
      && CertOf(t, MsgId(sn, nv.view)).qcSent == CertOf(s, MsgId(sn, nv.view)).qcSent
      && forall k ::
           SharesOf(t.ballots.fast, (MsgId(sn, nv.view), k)) == SharesOf(s.ballots.fast, (MsgId(sn, nv.view), k))
  }

  /** From s on, the entries in `done` have been taken up, and nothing else has happened. */
  ghost predicate Took(c: Config, s: State, t: State, nv: NewViewMsg, done: set<u32>)
    requires done <= nv.oset.Keys
  {
    && t.views == s.views && t.marks.h == s.marks.h
    && t.leader.nextSN == s.leader.nextSN && t.leader.viewChangeSeq == s.leader.viewChangeSeq
    && (c.auto ==> t.leader.viewChangeSeq !in t.exec.ids)
    && Holds(t, nv, done) && t.votes == s.votes + VotesOn(nv, done) && Untaken(s, t, nv, done)
    && (c.Primary(nv.view) == c.id ==> Awaits(c, t, nv, done))
  }

  // ---------------------------------------------------------------- What climbing leaves alone

  /** Batches, votes received and the marks of what was sent. */
  ghost predicate SameVotes(s: State, t: State) {
    && t.batches == s.batches
    && forall id :: CertOf(t, id).prepares == CertOf(s, id).prepares && CertOf(t, id).qcSent == CertOf(s, id).qcSent
  }

  lemma ExecuteNextVotes(c: Config, s: State)
    requires Executable(s.exec)
    ensures SameVotes(s, ExecuteNext(c, s))
  {
    hide ViewChangeOf;
  }

  lemma {:induction false} ExecuteAllVotes(c: Config, s: State)
    ensures SameVotes(s, ExecuteAll(c, s))
    decreases MOD - s.exec.last
  {
    hide ExecuteNext;
    if Executable(s.exec) {
      ExecuteNextVotes(c, s);
      ExecuteAllVotes(c, ExecuteNext(c, s));
    }
  }

  lemma RestagedVotes(c: Config, s: State, id: MsgId, stage: Stage)
    ensures SameVotes(s, ExecuteRequest(c, PutCert(s, id, CertOf(s, id).(stage := stage)), id))
  {
    hide ExecuteAll;
    ExecuteAllVotes(c, Buffer(PutCert(s, id, CertOf(s, id).(stage := stage)), id));
  }

  lemma CheckIfPreparedVotes(c: Config, s: State, id: MsgId)
    ensures SameVotes(s, CheckIfPrepared(c, s, id))
  {
    hide ExecuteRequest, CommitVerifies, SameVotes;
    var p := PutCert(s, id, CertOf(s, id).(stage := Prepared));
    RestagedVotes(c, s, id, Committed);
    RestagedVotes(c, p, id, Committed);
    StageOnlyVotes(s, id, Prepared);
    StageOnlyVotes(s, id, CertOf(s, id).stage);
    StageOnlyVotes(p, id, Prepared);
    VotesTwice(s, p, CheckIfCommitted(c, p, id));
  }

  lemma StageOnlyVotes(s: State, id: MsgId, stage: Stage)
    ensures SameVotes(s, PutCert(s, id, CertOf(s, id).(stage := stage)))
  {}

  lemma VotesTwice(s: State, t: State, w: State)
    requires SameVotes(s, t) && SameVotes(t, w)
    ensures SameVotes(s, w)
  {}

  // ---------------------------------------------------------------- The replica's own vote

  /** Counting the vote leaves everything else be: other entries, views, execution, timers and batches. */
  ghost predicate OnlyCounts(s: State, t: State, v: PrepareVote) {
    var id := MsgId(v.sn, v.view);
    && t.views == s.views && t.marks == s.marks && t.exec == s.exec && t.leader == s.leader && t.batches == s.batches
    && CertOf(t, id).digest == CertOf(s, id).digest && CertOf(t, id).prePrepare == CertOf(s, id).prePrepare
    && (forall o | o != id :: CertOf(t, o) == CertOf(s, o))
    && (forall x | x != (id, v.digest) :: SharesOf(t.ballots.fast, x) == SharesOf(s.ballots.fast, x))
  }

  ghost predicate OnlyVotes(s: State, t: State, v: PrepareVote) { OnlyCounts(s, t, v) && t.votes == s.votes + {v} }

  lemma BackupVotes(c: Config, s: State, sn: u32)
    requires !IsPrimary(c, s)
    ensures OnlyVotes(s, CastVote(c, s, sn), OwnVote(s, sn)) && CastVote(c, s, sn).panicked == s.panicked
  {}

  /** A vote counted while the timer runs, of a replica's own. */
  lemma VoteCounted(c: Config, s: State, v: PrepareVote)
    requires var id := MsgId(v.sn, v.view); id in s.leader.timers && !s.leader.timers[id]
    requires !v.digest.Empty() && !s.panicked
    ensures var t := HandlePrepareVote(c, s, PrepareFor(c, v));
            var id := MsgId(v.sn, v.view);
            var shares := SharesOf(s.ballots.fast, (id, v.digest))[c.id := PartialSig(FastKey, ForPrepare(v), c.id)];
            && OnlyCounts(s, t, v) && t.votes == s.votes
            && CertOf(t, id).prepares == CertOf(s, id).prepares
            && (t.panicked <==> !CertOf(s, id).qcSent && |shares| >= c.fastQuorum
                                && |GenuineSigners(shares, FastKey, ForPrepare(v))| < c.fastQuorum)
  {
    hide SharesOf, GenuineSigners, RecordVote;
    var id := MsgId(v.sn, v.view);
    Recorded(s, id, v.digest, PrepareFor(c, v));
    RecordedRest(s, id, v.digest, PrepareFor(c, v));
  }

  /** A primary's own vote while the timer runs: recorded unless it was already, and fatal exactly if doomed. */
  lemma PrimaryVotes(c: Config, s: State, sn: u32)
    requires IsPrimary(c, s) && s.views.active && InWatermarks(c, s, sn) && !s.panicked
    requires !OwnVote(s, sn).digest.Empty()
    requires var id := MsgId(sn, s.views.view); id in s.leader.timers && !s.leader.timers[id]
    ensures var t := CastVote(c, s, sn);
            && OnlyVotes(s, t, OwnVote(s, sn)) && c.id in CertOf(t, MsgId(sn, s.views.view)).prepares
            && (t.panicked <==> Doomed(c, s, OwnVote(s, sn)))
  {
    hide GenuineSigners, HandlePrepareVote;
    var v := OwnVote(s, sn);
    var id := MsgId(sn, s.views.view);
    var x := SignVote(s, v);
    var cert := CertOf(x, id);
    if c.id !in cert.prepares {
      VoteCounted(c, PutCert(x, id, cert.(prepares := cert.prepares[c.id := PrepareFor(c, v)])), v);
    }
  }

  // ---------------------------------------------------------------- One entry

  /** Other entries, as far as the law speaks of them. */
  ghost predicate SameElsewhere(s: State, t: State, id: MsgId, k: Digest) {
    && (forall o | o != id ::
          && CertOf(t, o).digest == CertOf(s, o).digest && CertOf(t, o).prePrepare == CertOf(s, o).prePrepare
          && CertOf(t, o).prepares == CertOf(s, o).prepares && CertOf(t, o).qcSent == CertOf(s, o).qcSent)
    && (forall x | x != (id, k) :: SharesOf(t.ballots.fast, x) == SharesOf(s.ballots.fast, x))
  }

  /** The timers of the primary after the entry; those of a backup do not change. */
  ghost predicate Armed(c: Config, s: State, t: State, id: MsgId, k: Digest) {
    && t.leader.nextSN == s.leader.nextSN && t.leader.viewChangeSeq == s.leader.viewChangeSeq
    && (if IsPrimary(c, s) then
          t.leader.timers == s.leader.timers[id := false] && t.leader.armed == s.leader.armed + {(id, k)}
          && (!t.panicked ==> c.id in CertOf(t, id).prepares)
        else t.leader == s.leader)
  }

  ghost predicate EntryTaken(c: Config, s: State, t: State, pp: PrePrepareMsg) {
    var id := MsgId(pp.sn, pp.view);
    && t.views == s.views && t.marks.h == s.marks.h && Armed(c, s, t, id, pp.digest)
    && t.exec.ids.Keys <= s.exec.ids.Keys + {pp.sn}
    && t.votes == s.votes + {PrepareVote(pp.sn, pp.view, pp.digest)}
    && CertOf(t, id).prePrepare == Some(pp) && CertOf(t, id).digest == pp.digest
    && t.batches == s.batches[id := pp.batch]
    && SameElsewhere(s, t, id, pp.digest)
  }

  /** Stored and climbed, before the vote: from the timer's start on. */
  ghost predicate Stored(c: Config, s: State, t: State, pp: PrePrepareMsg) {
    var id := MsgId(pp.sn, pp.view);
    && t.views == s.views && t.marks.h == s.marks.h && t.leader == s.leader && t.ballots == s.ballots
    && t.votes == s.votes && t.panicked == s.panicked && t.exec.ids.Keys <= s.exec.ids.Keys + {pp.sn}
    && t.batches == s.batches[id := pp.batch]
    && CertOf(t, id).prePrepare == Some(pp) && CertOf(t, id).digest == pp.digest
    && CertOf(t, id).prepares == CertOf(s, id).prepares && CertOf(t, id).qcSent == CertOf(s, id).qcSent
    && SameElsewhere(s, t, id, pp.digest)
  }

  lemma StoresEntry(c: Config, s: State, pp: PrePrepareMsg)
    requires NotDue(c, s, pp.sn)
    ensures var id := MsgId(pp.sn, pp.view); Stored(c, s, CheckIfPrepared(c, StorePrePrepare(s, id, pp), id), pp)
  {
    hide CheckIfPrepared, Proposals, ReportedMarks, CertsIn, CertOf;
    var id := MsgId(pp.sn, pp.view);
    var x := StorePrePrepare(s, id, pp);
    StorePrePrepareFields(s, id, pp);
    CheckIfPreparedCalm(c, x, id);
    CheckIfPreparedUndisturbed(c, x, id);
    CheckIfPreparedVotes(c, x, id);
  }

  lemma StorePrePrepareFields(s: State, id: MsgId, pp: PrePrepareMsg)
    ensures var t := StorePrePrepare(s, id, pp);
            && CertOf(t, id) == CertOf(s, id).(stage := Received, digest := pp.digest, prePrepare := Some(pp))
            && forall o | o != id :: CertOf(t, o) == CertOf(s, o)
  {}

  lemma TimerAside(s: State, t: State)
    requires t.certs == s.certs
    ensures forall o :: CertOf(t, o) == CertOf(s, o)
  {}

  /** What the replica makes of a pre-prepare that passes its checks, its timer running if it is the primary. */
  lemma PassesTaken(c: Config, s: State, x: State, pp: PrePrepareMsg)
    requires Passes(c, s, pp) && pp.view == s.views.view && !pp.digest.Empty() && !s.panicked
    requires x == (if IsPrimary(c, s) then StartTimer(s, MsgId(pp.sn, pp.view), pp.digest) else s)
    ensures var t := HandlePrePrepare(c, x, pp);
            && EntryTaken(c, s, t, pp)
            && (t.panicked <==> Doomed(c, s, PrepareVote(pp.sn, pp.view, pp.digest)))
  {
    hide CheckIfPrepared, CastVote, SharesOf, GenuineSigners, CertOf;
    var id := MsgId(pp.sn, pp.view);
    var y := CheckIfPrepared(c, StorePrePrepare(x, id, pp), id);
    TimerAside(s, x);
    StoresEntry(c, x, pp);
    if IsPrimary(c, s) {
      PrimaryVotes(c, y, pp.sn);
    } else {
      BackupVotes(c, y, pp.sn);
    }
  }

  // ---------------------------------------------------------------- All entries

  lemma VotesGrow(nv: NewViewMsg, done: set<u32>, sn: u32)
    requires done <= nv.oset.Keys && sn in nv.oset
    ensures VotesOn(nv, done + {sn}) == VotesOn(nv, done) + {VoteOn(nv, sn)}
  {}

  lemma HoldsOne(s: State, t: State, nv: NewViewMsg, done: set<u32>, sn: u32, c: Config)
    requires done <= nv.oset.Keys && sn in nv.oset && sn !in done && Holds(s, nv, done)
    requires EntryTaken(c, s, t, EntryOf(nv, sn))
    ensures Holds(t, nv, done + {sn})
  {
    hide CertOf, SharesOf, Armed;
    forall k | k in done + {sn}
      ensures && CertOf(t, MsgId(k, nv.view)).prePrepare == Some(EntryOf(nv, k))
              && CertOf(t, MsgId(k, nv.view)).digest == Hash(nv.oset[k])
              && MsgId(k, nv.view) in t.batches && t.batches[MsgId(k, nv.view)] == nv.oset[k]
    {}
  }

  lemma UntakenOne(s: State, t: State, w: State, nv: NewViewMsg, done: set<u32>, sn: u32, c: Config)
    requires sn in nv.oset && Untaken(s, t, nv, done) && EntryTaken(c, t, w, EntryOf(nv, sn))
    ensures Untaken(s, w, nv, done + {sn})
  {
    hide CertOf, SharesOf, Armed;
  }

  lemma AwaitsOne(c: Config, s: State, t: State, nv: NewViewMsg, done: set<u32>, sn: u32)
    requires done <= nv.oset.Keys && sn in nv.oset && sn !in done && Awaits(c, s, nv, done) && !t.panicked
    requires EntryTaken(c, s, t, EntryOf(nv, sn)) && IsPrimary(c, s)
    ensures Awaits(c, t, nv, done + {sn})
  {
    hide CertOf, SharesOf;
  }

  lemma TookOne(c: Config, s: State, t: State, w: State, nv: NewViewMsg, done: set<u32>, sn: u32)
    requires done <= nv.oset.Keys && sn in nv.oset && sn !in done && Took(c, s, t, nv, done) && s.views.view == nv.view
    requires EntryTaken(c, t, w, EntryOf(nv, sn)) && !w.panicked && (c.auto ==> sn != s.leader.viewChangeSeq)
    ensures Took(c, s, w, nv, done + {sn})
  {
    hide Holds, Untaken, Awaits, SameElsewhere, CertOf, VotesOn;
    HoldsOne(t, w, nv, done, sn, c);
    UntakenOne(s, t, w, nv, done, sn, c);
    VotesGrow(nv, done, sn);
    if IsPrimary(c, t) { AwaitsOne(c, t, w, nv, done, sn); }
  }

  /** An entry that is not taken up at most starts a timer. */
  lemma TookAside(c: Config, s: State, t: State, w: State, nv: NewViewMsg, done: set<u32>, sn: u32)
    requires done <= nv.oset.Keys && sn in nv.oset && sn !in done && Took(c, s, t, nv, done)
    requires w == t || w == StartTimer(t, MsgId(sn, nv.view), Hash(nv.oset[sn]))
    ensures Took(c, s, w, nv, done)
  {
    hide SharesOf, VotesOn;
  }

  /** The replica is where it can take up the entries of nv, none of which ends the view when executed. */
  ghost predicate Receptive(c: Config, s: State, nv: NewViewMsg) {
    && s.views.active && s.views.view == nv.view && nv.sender == c.Primary(nv.view) && !s.panicked
    && (c.auto ==> s.leader.viewChangeSeq !in s.exec.ids && forall sn | sn in nv.oset :: sn < s.leader.viewChangeSeq)
  }

  /** The next entry, after those in `done`. */
  lemma NextEntry(c: Config, s: State, t: State, nv: NewViewMsg, done: set<u32>, sn: u32)
    requires Receptive(c, s, nv) && done <= nv.oset.Keys && sn in nv.oset && sn !in done
    requires Took(c, s, t, nv, done) && !t.panicked && (sn in Taken(c, s, nv) ==> !Clashes(s, nv, sn))
    ensures var w := if sn <= t.marks.h then t else AcceptEntry(c, t, nv, sn);
            var more := if sn in Taken(c, s, nv) then done + {sn} else done;
            && (w.panicked <==> sn in Taken(c, s, nv) && Doomed(c, s, VoteOn(nv, sn)))
            && (!w.panicked ==> Took(c, s, w, nv, more))
  {
    hide SharesOf, GenuineSigners, VotesOn, HandlePrePrepare, Holds, Awaits;
    if sn in Taken(c, s, nv) {
      var pp := EntryOf(nv, sn);
      var x := if IsPrimary(c, t) then StartTimer(t, MsgId(sn, nv.view), pp.digest) else t;
      PassesTaken(c, t, x, pp);
      var w := HandlePrePrepare(c, x, pp);
      if !w.panicked { TookOne(c, s, t, w, nv, done, sn); }
    } else if s.marks.h < sn {
      var x := if IsPrimary(c, t) then StartTimer(t, MsgId(sn, nv.view), Hash(nv.oset[sn])) else t;
      OutOfWindow(c, x, EntryOf(nv, sn));
      TookAside(c, s, t, x, nv, done, sn);
    }
  }

  lemma OutOfWindow(c: Config, s: State, pp: PrePrepareMsg)
    requires !InWatermarks(c, s, pp.sn) && pp.sender == c.Primary(s.views.view)
    requires c.auto ==> pp.sn <= s.leader.viewChangeSeq
    ensures HandlePrePrepare(c, s, pp) == s
  {}

  function TakenOf(c: Config, s: State, nv: NewViewMsg, keys: seq<u32>): (r: set<u32>)
    ensures r <= nv.oset.Keys
  {
    set k | k in keys && k in Taken(c, s, nv)
  }

  lemma TakenNext(c: Config, s: State, nv: NewViewMsg, rest: seq<u32>, sn: u32)
    ensures TakenOf(c, s, nv, rest + [sn])
            == if sn in Taken(c, s, nv) then TakenOf(c, s, nv, rest) + {sn} else TakenOf(c, s, nv, rest)
    ensures sn !in rest ==> sn !in TakenOf(c, s, nv, rest)
    ensures TakenOf(c, s, nv, rest) <= nv.oset.Keys
  {
    hide InWatermarks;
  }

  /** One of the entries dooms the primary. */
  ghost predicate OneDooms(c: Config, s: State, nv: NewViewMsg, done: set<u32>)
    requires done <= nv.oset.Keys
  { exists k :: k in done && Doomed(c, s, VoteOn(nv, k)) }

  lemma {:induction false} AcceptAllTakes(c: Config, s: State, nv: NewViewMsg, keys: seq<u32>)
    requires Receptive(c, s, nv) && (forall k | k in keys :: k in nv.oset)
    requires forall k | k in TakenOf(c, s, nv, keys) :: !Clashes(s, nv, k)
    requires forall i, j | 0 <= i < j < |keys| :: keys[i] != keys[j]
    ensures var t := AcceptAll(c, s, nv, keys);
            var done := TakenOf(c, s, nv, keys);
            && done <= nv.oset.Keys && (t.panicked <==> OneDooms(c, s, nv, done))
            && (!t.panicked ==> Took(c, s, t, nv, done))
    decreases |keys|
  {
    hide Receptive, Took, TakenOf, Taken, Doomed, AcceptEntry;
    if keys == [] {
      NothingTaken(c, s, nv);
    } else {
      var rest, sn := keys[..|keys| - 1], keys[|keys| - 1];
      var t := AcceptAll(c, s, nv, rest);
      assert keys == rest + [sn] && sn !in rest;
      TakenNext(c, s, nv, rest, sn);
      AcceptAllTakes(c, s, nv, rest);
      if !t.panicked { NextEntry(c, s, t, nv, TakenOf(c, s, nv, rest), sn); }
    }
  }

  /** Once inactive, a replica takes up no more entries. */
  lemma StaysOut(c: Config, s: State, nv: NewViewMsg, sn: u32)
    requires sn in nv.oset && !s.views.active
    ensures !AcceptEntry(c, s, nv, sn).views.active
  {}

  lemma ClashLeaves(c: Config, s: State, t: State, nv: NewViewMsg, done: set<u32>, sn: u32)
    requires Receptive(c, s, nv) && done <= nv.oset.Keys && sn in nv.oset && sn !in done
    requires Took(c, s, t, nv, done) && sn in Taken(c, s, nv) && Clashes(s, nv, sn)
    ensures !AcceptEntry(c, t, nv, sn).views.active
  {
    hide SharesOf, ViewChangeOf, VotesOn, Holds, Awaits;
  }

  /** An entry in conflict ends it: the replica leaves the view on the spot - unless it has died before. */
  lemma {:induction false} AcceptAllClashes(c: Config, s: State, nv: NewViewMsg, keys: seq<u32>)
    requires Receptive(c, s, nv) && (forall k | k in keys :: k in nv.oset)
    requires exists k :: k in TakenOf(c, s, nv, keys) && Clashes(s, nv, k)
    requires forall i, j | 0 <= i < j < |keys| :: keys[i] != keys[j]
    ensures var t := AcceptAll(c, s, nv, keys); t.panicked || !t.views.active
    decreases |keys|
  {
    hide Receptive, Took, TakenOf, Taken, Doomed, AcceptEntry, Clashes;
    if keys == [] {
      NothingTaken(c, s, nv);
    } else {
      var rest, sn := keys[..|keys| - 1], keys[|keys| - 1];
      var t := AcceptAll(c, s, nv, rest);
      assert keys == rest + [sn] && sn !in rest;
      TakenNext(c, s, nv, rest, sn);
      if k :| k in TakenOf(c, s, nv, rest) && Clashes(s, nv, k) {
        AcceptAllClashes(c, s, nv, rest);
        if !t.panicked { StaysOut(c, t, nv, sn); }
      } else {
        AcceptAllTakes(c, s, nv, rest);
        if !t.panicked {
          ClashLeaves(c, s, t, nv, TakenOf(c, s, nv, rest), sn);
          AboveMark(c, s, t, nv, TakenOf(c, s, nv, rest), sn);
        }
      }
    }
  }

  lemma AboveMark(c: Config, s: State, t: State, nv: NewViewMsg, done: set<u32>, sn: u32)
    requires done <= nv.oset.Keys && Took(c, s, t, nv, done) && sn in Taken(c, s, nv)
    ensures t.marks.h < sn
  {}

  lemma NothingTaken(c: Config, s: State, nv: NewViewMsg)
    requires Receptive(c, s, nv)
    ensures TakenOf(c, s, nv, []) == {} && !s.panicked && Took(c, s, s, nv, {})
  {}

  // ---------------------------------------------------------------- The whole new view

  /** None of the entries to be taken up is in conflict, or ends the view. */
  ghost predicate Smooth(c: Config, s: State, nv: NewViewMsg) {
    FarFromChange(c, s, nv) && forall sn | sn in Taken(c, s, nv) :: !Clashes(s, nv, sn)
  }

  /** The replica has entered the view of nv: every entry in its window is held and voted for, and awaited by
      the primary; the next fresh number lies past the window. */
  ghost predicate EnteredWith(c: Config, s: State, t: State, nv: NewViewMsg) {
    var done := Taken(c, s, nv);
    && t.views.active && t.views.view == nv.view && t.marks.h == s.marks.h
    && t.leader.nextSN == Add(s.marks.h, c.K + 1) && t.leader.viewChangeSeq == NextChange(c, s)
    && Holds(t, nv, done) && t.votes == s.votes + VotesOn(nv, done)
    && (c.Primary(nv.view) == c.id ==> Awaits(c, t, nv, done))
  }

  lemma ProcessNewViewEntersWith(c: Config, s: State, nv: NewViewMsg)
    requires !s.panicked && !s.views.active && s.views.view == nv.view && nv.sender == c.Primary(nv.view)
    requires nv.view in s.views.newViews && s.views.newViews[nv.view] == nv && Smooth(c, s, nv)
    ensures var t := ProcessNewView(c, s);
            && (t.panicked <==> OneDooms(c, s, nv, Taken(c, s, nv)))
            && (!t.panicked ==> EnteredWith(c, s, t, nv) && t.views.newViews == s.views.newViews)
  {
    hide Sorted, AcceptAll, Doomed, Holds, Awaits, VotesOn, Untaken, InWatermarks;
    var x := EnterView(c, s);
    SortedMembers(nv.oset.Keys);
    forall i, j | 0 <= i < j < |Sorted(nv.oset.Keys)| ensures Sorted(nv.oset.Keys)[i] != Sorted(nv.oset.Keys)[j] {
      SortedOnce(nv.oset.Keys, i, j);
    }
    EnteringAside(c, s, nv);
    assert TakenOf(c, x, nv, Sorted(nv.oset.Keys)) == Taken(c, s, nv);
    AcceptAllTakes(c, x, nv, Sorted(nv.oset.Keys));
  }

  /** With an entry in conflict, the replica is not in the view afterwards. */
  lemma ProcessNewViewClashes(c: Config, s: State, nv: NewViewMsg)
    requires !s.panicked && !s.views.active && s.views.view == nv.view && nv.sender == c.Primary(nv.view)
    requires nv.view in s.views.newViews && s.views.newViews[nv.view] == nv && FarFromChange(c, s, nv)
    requires exists sn :: sn in Taken(c, s, nv) && Clashes(s, nv, sn)
    ensures var t := ProcessNewView(c, s); t.panicked || !t.views.active
  {
    hide Sorted, AcceptAll, InWatermarks;
    var x := EnterView(c, s);
    SortedMembers(nv.oset.Keys);
    forall i, j | 0 <= i < j < |Sorted(nv.oset.Keys)| ensures Sorted(nv.oset.Keys)[i] != Sorted(nv.oset.Keys)[j] {
      SortedOnce(nv.oset.Keys, i, j);
    }
    EnteringAside(c, s, nv);
    assert TakenOf(c, x, nv, Sorted(nv.oset.Keys)) == Taken(c, s, nv);
    var sn :| sn in Taken(c, s, nv) && Clashes(s, nv, sn);
    assert Clashes(x, nv, sn);
    AcceptAllClashes(c, x, nv, Sorted(nv.oset.Keys));
  }

  lemma SortedOnce(ks: set<u32>, i: nat, j: nat)
    requires i < j < |Sorted(ks)|
    ensures Sorted(ks)[i] != Sorted(ks)[j]
  {
    HandledAscending(ks, MOD, i, j);
  }

  /** Entering changes nothing an entry depends on. */
  lemma EnteringAside(c: Config, s: State, nv: NewViewMsg)
    requires nv.sender == c.Primary(nv.view) && s.views.view == nv.view && !s.panicked && FarFromChange(c, s, nv)
    ensures Taken(c, EnterView(c, s), nv) == Taken(c, s, nv) && Receptive(c, EnterView(c, s), nv)
    ensures forall sn | sn in nv.oset ::
              Doomed(c, EnterView(c, s), VoteOn(nv, sn)) <==> Doomed(c, s, VoteOn(nv, sn))
  {
    hide SharesOf, GenuineSigners;
  }

  /** A replica that waits in a view and is delivered the first new view for it from the view's primary: if no
      entry in its window conflicts with what it holds or takes execution to the next change of view, it is
      active in the view, holds and has voted for every entry in its window above its watermark, and - a
      backup - has sent those votes. Only a primary can die of it, exactly if one of the entries dooms it. */
  lemma NewViewEnteredExactly(c: Config, s: State, now: int, nv: NewViewMsg)
    requires !s.panicked && !s.views.active && s.views.view == nv.view && 0 < nv.view
    requires nv.sender == c.Primary(nv.view) && nv.view !in s.views.newViews && Smooth(c, s, nv)
    ensures var t := Step(c, s, now, Deliver(NewView(nv)));
            && (t.panicked <==> OneDooms(c, s, nv, Taken(c, s, nv)))
            && (t.panicked ==> c.Primary(nv.view) == c.id)
            && (!t.panicked ==>
                  && EnteredWith(c, s, t, nv) && t.views.newViews == s.views.newViews[nv.view := nv]
                  && (Open(c, s) && c.Primary(nv.view) != c.id ==>
                        forall sn | sn in Taken(c, s, nv) :: Prepare(PrepareFor(c, VoteOn(nv, sn))) in t.outbox))
  {
    hide ProcessNewView, EnteredWith, Smooth, Doomed, Open, InWatermarks;
    var x := s.(clock := now, views := s.views.(newViews := s.views.newViews[nv.view := nv]));
    LawAside(c, s, x, nv);
    ProcessNewViewEntersWith(c, x, nv);
    var t := Step(c, s, now, Deliver(NewView(nv)));
    assert t == ProcessNewView(c, x);
    if Open(c, s) && !t.panicked && c.Primary(nv.view) != c.id {
      StepOpen(c, s, now, Deliver(NewView(nv)));
      VotesTold(c, s, t, nv);
    }
    BackupsSafe(c, s, nv);
  }

  /** And with one in conflict it has left the view at once, or died. So, if no entry takes execution to the next
      change of view, a live backup is in the view after the new view exactly if none is in conflict. */
  lemma NewViewEndsExactly(c: Config, s: State, now: int, nv: NewViewMsg)
    requires !s.panicked && !s.views.active && s.views.view == nv.view && 0 < nv.view
    requires nv.sender == c.Primary(nv.view) && nv.view !in s.views.newViews && FarFromChange(c, s, nv)
    ensures var t := Step(c, s, now, Deliver(NewView(nv)));
            !t.panicked ==>
              (t.views.active <==> forall sn | sn in Taken(c, s, nv) :: !Clashes(s, nv, sn))
  {
    hide ProcessNewView, InWatermarks, Clashes, EnteredWith, OneDooms, FarFromChange, Open;
    var x := s.(clock := now, views := s.views.(newViews := s.views.newViews[nv.view := nv]));
    LawAside(c, s, x, nv);
    ClashAside(c, s, x, nv);
    if sn :| sn in Taken(c, s, nv) && Clashes(s, nv, sn) {
      ProcessNewViewClashes(c, x, nv);
    } else {
      NewViewEnteredExactly(c, s, now, nv);
      InView(c, s, Step(c, s, now, Deliver(NewView(nv))), nv);
    }
  }

  lemma ClashAside(c: Config, s: State, x: State, nv: NewViewMsg)
    requires x.certs == s.certs && x.marks == s.marks && x.exec == s.exec
    ensures forall sn | sn in nv.oset :: Clashes(x, nv, sn) == Clashes(s, nv, sn)
    ensures FarFromChange(c, x, nv) == FarFromChange(c, s, nv)
  {}

  lemma InView(c: Config, s: State, t: State, nv: NewViewMsg)
    ensures EnteredWith(c, s, t, nv) ==> t.views.active
  {}

  lemma BackupsSafe(c: Config, s: State, nv: NewViewMsg)
    ensures OneDooms(c, s, nv, Taken(c, s, nv)) ==> c.Primary(nv.view) == c.id
  {}

  lemma VotesTold(c: Config, s: State, t: State, nv: NewViewMsg)
    requires Open(c, t) && EnteredWith(c, s, t, nv) && c.Primary(nv.view) != c.id
    ensures forall sn | sn in Taken(c, s, nv) :: Prepare(PrepareFor(c, VoteOn(nv, sn))) in t.outbox
  {
    hide Holds, Awaits, InWatermarks;
    forall sn | sn in Taken(c, s, nv) ensures Prepare(PrepareFor(c, VoteOn(nv, sn))) in t.outbox {
      assert VoteOn(nv, sn) in t.votes;
    }
  }

  /** The law depends on nothing but what is stored, buffered and recorded. */
  lemma LawAside(c: Config, s: State, x: State, nv: NewViewMsg)
    requires x.certs == s.certs && x.marks == s.marks && x.exec == s.exec && x.ballots == s.ballots
             && x.votes == s.votes
    ensures Taken(c, x, nv) == Taken(c, s, nv)
    ensures Smooth(c, s, nv) ==> Smooth(c, x, nv)
    ensures OneDooms(c, x, nv, Taken(c, x, nv)) <==> OneDooms(c, s, nv, Taken(c, s, nv))
    ensures forall t :: EnteredWith(c, x, t, nv) <==> EnteredWith(c, s, t, nv)
  {
    hide SharesOf, GenuineSigners, Holds, Awaits, VotesOn;
    assert Taken(c, x, nv) == Taken(c, s, nv);
  }

  /** A new view that is not the first for a view not yet past, from its primary, is dropped; and one that is
      gets stored and nothing more while the replica is active. */
  lemma NewViewStoredExactly(c: Config, s: State, now: int, nv: NewViewMsg)
    requires !s.panicked
    ensures var t := Step(c, s, now, Deliver(NewView(nv)));
            var fits := 0 < nv.view && s.views.view <= nv.view && nv.sender == c.Primary(nv.view)
                        && nv.view !in s.views.newViews;
            && (!fits ==> t == s.(clock := now))
            && (fits && s.views.active ==>
                  t == s.(clock := now, views := s.views.(newViews := s.views.newViews[nv.view := nv])))
  {}

  /** And a new primary that publishes enters its view in the same way. */
  lemma PublisherEntersExactly(c: Config, s: State, now: int, vc: ViewChangeMsg, w: nat, active: bool)
    requires Inv(c, s) && c.Scans() && !s.panicked && Heeded(c, s, vc) && Followed(c, s, Storing(s, vc), w, active)
    requires Leads(c, Storing(s, vc), w, active, vc)
    requires Publishable(c, s, GetViewChangeMsgs(Storing(s, vc), w, c.scanViewChanges(w, Storing(s, vc).Keys)), w)
    ensures var t := Step(c, s, now, Deliver(ViewChange(vc)));
            var vset := GetViewChangeMsgs(Storing(s, vc), w, c.scanViewChanges(w, Storing(s, vc).Keys));
            var nv := NewViewMsg(w, vset, Assign(c, vset, MaxCheckpoint(vset)).oset, c.id);
            && NewView(nv) in t.outbox
            && (Smooth(c, s, nv) ==>
                  && (t.panicked <==> OneDooms(c, s, nv, Taken(c, s, nv)))
                  && (!t.panicked ==> EnteredWith(c, s, t, nv)))
  {
    hide Inv, Settings.Scans, CatchUp, SendNewView, ProcessNewView, EnoughAhead, CorrectViewChange, ForView,
         AskedFor, GetViewChangeMsgs, Evolves, NextAsked, Publishable, Followed, Smooth, EnteredWith, Doomed, Assign,
         MaxCheckpoint;
    var x := s.(clock := now);
    var y := x.(views := x.views.(store := Storing(s, vc)));
    var vset := GetViewChangeMsgs(Storing(s, vc), w, c.scanViewChanges(w, Storing(s, vc).Keys));
    var nv := NewViewMsg(w, vset, Assign(c, vset, MaxCheckpoint(vset)).oset, c.id);
    TickKeeps(c, s, now);
    ViewsKeep(c, x, y.views);
    FollowedFrame(c, s, y, w, active);
    CatchUpFollows(c, y, w, active);
    CatchUpRest(c, y);
    CatchUpKeeps(c, y);
    var z := CatchUp(c, y);
    CountsForView(z.views, w);
    PublishableFrame(c, s, z, w);
    Publishes(c, z, nv);
    var p := PublishNewView(c, z, nv);
    LawAside(c, s, p, nv);
    if Smooth(c, s, nv) { ProcessNewViewEntersWith(c, p, nv); }
    PublishNewViewKeeps(c, z, nv);
    ProcessNewViewKeeps(c, p);
    OutboxKept(c, p, ProcessNewView(c, p));
    assert NewView(nv) in p.outbox;
  }

  lemma CatchUpRest(c: Config, s: State)
    ensures var t := CatchUp(c, s);
            && t.certs == s.certs && t.marks == s.marks && t.exec == s.exec && t.ballots == s.ballots
            && t.votes == s.votes && t.panicked == s.panicked
  {
    hide ViewChangeOf, MinView;
    NobodyAhead(s.views);
  }

  lemma Publishes(c: Config, s: State, nv: NewViewMsg)
    requires Inv(c, s) && c.Scans() && Publishable(c, s, Vset(c, s.views), s.views.view)
    requires nv == NewViewMsg(s.views.view, Vset(c, s.views),
                              Assign(c, Vset(c, s.views), MaxCheckpoint(Vset(c, s.views))).oset, c.id)
    ensures SendNewView(c, s) == ProcessNewView(c, PublishNewView(c, s, nv)) && nv.view !in s.views.newViewsSent
  {
    hide Inv, Settings.Scans, ProcessNewView, MaxCheckpoint, Vset, Assign, Diverges, Decidable;
    SendNewViewPublishes(c, s);
    NoneReached(Vset(c, s.views));
  }
}
