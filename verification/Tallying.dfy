/** Properly signed votes and commits count: a primary that collects enough of them neither dies of them nor
    keeps them to itself, but sends a certificate that verifies. */
module Tallying {
  import opened Types
  import opened ReplicaState
  import opened Assignment
  import opened Handlers
  import opened Invariants
  import opened Preservation
  import opened Frames
  import opened Numbering
  import opened Delivery
  import opened Agreement
  import opened Issuing
  import opened IssueHistory
  import opened Sending
  import opened Strays

  // ---------------------------------------------------------------- Honest tables

  /** The vote of replica j for v, signed with its own two shares. */
  function VoteBy(v: PrepareVote, j: nat): PrepareMsg {
    PrepareMsg(v, j, PartialSig(TsKey, ForPrepare(v), j), PartialSig(FastKey, ForPrepare(v), j))
  }

  function CommitBy(q: PrepareQc, j: nat): CommitMsg { CommitMsg(q, j, PartialSig(TsKey, ForCommit(q), j)) }

  /** Each share is its owner's over the payload, under the key. */
  ghost predicate AllGenuine(shares: Shares, key: KeyKind, p: Payload) {
    forall j | j in shares :: shares[j] == PartialSig(key, p, j)
  }

  function IdOf(v: PrepareVote): MsgId { MsgId(v.sn, v.view) }

  function SlowShares(s: State, v: PrepareVote): Shares { SharesOf(s.ballots.prepare, (IdOf(v), v.digest)) }
  function FastShares(s: State, v: PrepareVote): Shares { SharesOf(s.ballots.fast, (IdOf(v), v.digest)) }

  /** The same voters in both tables, each with a genuine share under the table's key. */
  ghost predicate HonestTables(s: State, v: PrepareVote) {
    && AllGenuine(SlowShares(s, v), TsKey, ForPrepare(v)) && AllGenuine(FastShares(s, v), FastKey, ForPrepare(v))
    && SlowShares(s, v).Keys == FastShares(s, v).Keys
  }

  /** All shares count. */
  lemma GenuineCounted(shares: Shares, key: KeyKind, p: Payload)
    requires AllGenuine(shares, key, p)
    ensures GenuineSigners(shares, key, p) == shares.Keys && |GenuineSigners(shares, key, p)| == |shares|
  {
    assert |shares.Keys| == |shares|;
  }

  lemma OneMoreGenuine(shares: Shares, key: KeyKind, p: Payload, j: nat)
    requires AllGenuine(shares, key, p)
    ensures AllGenuine(shares[j := PartialSig(key, p, j)], key, p)
    ensures shares[j := PartialSig(key, p, j)].Keys == shares.Keys + {j}
  {}

  // ---------------------------------------------------------------- One vote

  /** The certificate for v: slow or fast, verifying when the key needs no more shares than were collected. */
  predicate CertifiesVote(c: Config, m: Msg, v: PrepareVote, slow: bool) {
    && IsPrepareCert(m) && m.SlowQc? == slow && VoteOf(m) == v && m.Sender() == c.id && SignatureRight(c, m)
  }

  /** Enough voters for the certificate the timer allows, and none sent yet. */
  predicate Due(c: Config, s: State, v: PrepareVote, voters: set<nat>, stopped: bool) {
    !CertOf(s, IdOf(v)).qcSent && |voters| >= (if stopped then 2 * (c.n / 3) + 1 else c.fastQuorum)
  }

  /** A slow certificate says when it was made. */
  predicate StampedAt(m: Msg, now: int) { m.SlowQc? ==> m.pqc.time == now }

  /** Either nothing is sent, or exactly the certificate that is due, which is then marked. */
  ghost predicate Answers(c: Config, s: State, t: State, v: PrepareVote, due: bool, slow: bool) {
    if due then
      && CertOf(t, IdOf(v)).qcSent
      && exists m :: t.outbox == s.outbox + [m] && CertifiesVote(c, m, v, slow) && StampedAt(m, t.clock)
    else t.outbox == s.outbox && CertOf(t, IdOf(v)).qcSent == CertOf(s, IdOf(v)).qcSent
  }

  lemma SlowAnswers(c: Config, s: State, v: PrepareVote)
    requires HonestTables(s, v) && !s.panicked
    ensures var t := CheckIfPrepareQc(c, s, IdOf(v), v.digest);
            && !t.panicked && t.ballots == s.ballots && t.leader == s.leader && t.clock == s.clock
            && (forall id :: CertOf(t, id).prepares == CertOf(s, id).prepares)
            && Answers(c, s, t, v, Due(c, s, v, SlowShares(s, v).Keys, true), true)
  {
    hide SharesOf, GenuineSigners;
    GenuineCounted(SlowShares(s, v), TsKey, ForPrepare(v));
    var t := CheckIfPrepareQc(c, s, IdOf(v), v.digest);
    assert |SlowShares(s, v).Keys| == |SlowShares(s, v)|;
    if t.outbox != s.outbox {
      var m := t.outbox[|s.outbox|];
      assert CertifiesVote(c, m, v, true) && StampedAt(m, t.clock);
    }
  }

  lemma FastAnswers(c: Config, s: State, v: PrepareVote)
    requires HonestTables(s, v) && !s.panicked && |FastShares(s, v)| >= c.fastQuorum && !CertOf(s, IdOf(v)).qcSent
    ensures var t := IssueFastQc(c, s, IdOf(v), v.digest);
            && !t.panicked && t.ballots == s.ballots && t.leader == s.leader && t.clock == s.clock
            && (forall id :: CertOf(t, id).prepares == CertOf(s, id).prepares)
            && Answers(c, s, t, v, true, false)
  {
    hide SharesOf, GenuineSigners;
    GenuineCounted(FastShares(s, v), FastKey, ForPrepare(v));
    var t := IssueFastQc(c, s, IdOf(v), v.digest);
    var m := t.outbox[|s.outbox|];
    assert CertifiesVote(c, m, v, false) && StampedAt(m, t.clock);
  }

  lemma VoteCounts(c: Config, s: State, v: PrepareVote, j: nat)
    requires !s.panicked && !v.digest.Empty() && HonestTables(s, v) && IdOf(v) in s.leader.timers
    ensures var t := HandlePrepareVote(c, s, VoteBy(v, j));
            var voters := SlowShares(s, v).Keys + {j};
            var stopped := s.leader.timers[IdOf(v)];
            && !t.panicked && HonestTables(t, v) && SlowShares(t, v).Keys == voters && t.leader == s.leader
            && t.clock == s.clock && (forall id :: CertOf(t, id).prepares == CertOf(s, id).prepares)
            && Answers(c, s, t, v, Due(c, s, v, voters, stopped), stopped)
  {
    hide SharesOf, RecordVote, CheckIfPrepareQc, IssueFastQc, AllGenuine, CertifiesVote;
    var r := RecordVote(s, IdOf(v), v.digest, VoteBy(v, j));
    Recorded(s, IdOf(v), v.digest, VoteBy(v, j));
    RecordedRest(s, IdOf(v), v.digest, VoteBy(v, j));
    RecordedOutbox(s, IdOf(v), v.digest, VoteBy(v, j));
    OneMoreGenuine(SlowShares(s, v), TsKey, ForPrepare(v), j);
    OneMoreGenuine(FastShares(s, v), FastKey, ForPrepare(v), j);
    assert HonestTables(r, v);
    SlowAnswers(c, r, v);
    assert |FastShares(r, v).Keys| == |FastShares(r, v)|;
    if |FastShares(r, v)| >= c.fastQuorum && !CertOf(r, IdOf(v)).qcSent { FastAnswers(c, r, v); }
  }

  /** A properly signed vote that is admitted, in a state whose tables for it are honest and its timer known:
      the voter is on record under both keys, the replica lives, and it sends the certificate for that vote
      exactly if it is due: a slow one from 2f+1 voters after the timer has stopped, a fast one from a fast
      quorum while it runs. */
  lemma VoteCountsExactly(c: Config, s: State, now: int, v: PrepareVote, j: nat)
    requires !s.panicked && !v.digest.Empty() && HonestTables(s, v) && IdOf(v) in s.leader.timers
    requires Admitted(c, s, v.sn, j)
    ensures var t := Step(c, s, now, Deliver(Prepare(VoteBy(v, j))));
            var voters := SlowShares(s, v).Keys + {j};
            var stopped := s.leader.timers[IdOf(v)];
            && !t.panicked && HonestTables(t, v) && SlowShares(t, v).Keys == voters && t.leader == s.leader
            && t.clock == now && j in CertOf(t, MsgId(v.sn, s.views.view)).prepares
            && Answers(c, s, t, v, Due(c, s, v, voters, stopped), stopped)
  {
    hide SharesOf, HandlePrepareVote, AllGenuine, CertifiesVote;
    var x := s.(clock := now);
    var at := MsgId(v.sn, s.views.view);
    var y := PutCert(x, at, CertOf(x, at).(prepares := CertOf(x, at).prepares[j := VoteBy(v, j)]));
    VoteCounts(c, y, v, j);
  }

  lemma RecordedOutbox(s: State, id: MsgId, k: Digest, pm: PrepareMsg)
    ensures RecordVote(s, id, k, pm).outbox == s.outbox
  {}

  /** And so does the timer's end: the timer is stopped, and the slow certificate sent exactly if it is due. */
  lemma TimeoutAnswersExactly(c: Config, s: State, now: int, v: PrepareVote)
    requires !s.panicked && HonestTables(s, v)
    ensures var t := Step(c, s, now, FastTimeout(IdOf(v), v.digest));
            if (IdOf(v), v.digest) in s.leader.armed then
              && !t.panicked && t.ballots == s.ballots && t.clock == now
              && IdOf(v) in t.leader.timers && t.leader.timers[IdOf(v)]
              && t.leader.armed == s.leader.armed - {(IdOf(v), v.digest)}
              && Answers(c, s, t, v, Due(c, s, v, SlowShares(s, v).Keys, true), true)
            else t == s.(clock := now)
  {
    hide SharesOf, CheckIfPrepareQc;
    var x := s.(clock := now);
    if (IdOf(v), v.digest) in s.leader.armed { SlowAnswers(c, Fired(x, IdOf(v), v.digest), v); }
  }

  // ---------------------------------------------------------------- One commit

  function CommitShares(s: State, q: PrepareQc): Shares { SharesOf(s.ballots.commit, (MsgId(q.sn, q.view), q)) }

  /** Either nothing is sent, or exactly the commit certificate that is due, which is then marked. */
  ghost predicate CommitAnswers(c: Config, s: State, t: State, q: PrepareQc, due: bool) {
    var id := MsgId(q.sn, q.view);
    && CertOf(t, id).commitQcSent == (CertOf(s, id).commitQcSent || due)
    && (if due then
          exists f :: t.outbox == s.outbox + [FinalQc(f)] && f.sn == q.sn && f.view == q.view
                      && f.sender == c.id && f.digest == q.digest
                      && (2 * (c.n / 3) + 1 >= c.n - c.n / 3 ==> Verify(TsKey, ForCommit(q), f.sig))
        else t.outbox == s.outbox)
  }

  /** 2f+1 replicas have committed, and no commit certificate was sent. */
  predicate CommitDue(c: Config, s: State, q: PrepareQc, voters: set<nat>) {
    !CertOf(s, MsgId(q.sn, q.view)).commitQcSent && |voters| >= 2 * (c.n / 3) + 1
  }

  lemma CommitCounts(c: Config, s: State, q: PrepareQc, j: nat)
    requires !s.panicked && AllGenuine(CommitShares(s, q), TsKey, ForCommit(q))
    ensures var t := HandleCommitVote(c, s, CommitBy(q, j));
            var voters := CommitShares(s, q).Keys + {j};
            && !t.panicked && AllGenuine(CommitShares(t, q), TsKey, ForCommit(q)) && CommitShares(t, q).Keys == voters
            && CertOf(t, MsgId(q.sn, q.view)).commits == CertOf(s, MsgId(q.sn, q.view)).commits
            && CommitAnswers(c, s, t, q, CommitDue(c, s, q, voters))
  {
    hide GenuineSigners, AllGenuine;
    var id := MsgId(q.sn, q.view);
    var r := RecordCommit(s, id, CommitBy(q, j));
    assert CommitShares(r, q) == CommitShares(s, q)[j := PartialSig(TsKey, ForCommit(q), j)];
    OneMoreGenuine(CommitShares(s, q), TsKey, ForCommit(q), j);
    GenuineCounted(CommitShares(r, q), TsKey, ForCommit(q));
    assert |CommitShares(r, q).Keys| == |CommitShares(r, q)|;
    var t := HandleCommitVote(c, s, CommitBy(q, j));
    if t.outbox != s.outbox {
      var f := t.outbox[|s.outbox|].cqc;
      assert t.outbox == s.outbox + [FinalQc(f)];
    }
  }

  /** A properly signed commit that is admitted, in a state where those recorded for the same certificate are
      genuine: it is recorded, the replica lives, and it sends the commit certificate exactly if 2f+1 replicas
      have committed and none was sent. */
  lemma CommitCountsExactly(c: Config, s: State, now: int, q: PrepareQc, j: nat)
    requires !s.panicked && AllGenuine(CommitShares(s, q), TsKey, ForCommit(q))
    requires s.views.active && InWatermarks(c, s, q.sn) && j !in CertOf(s, MsgId(q.sn, q.view)).commits
    ensures var t := Step(c, s, now, Deliver(Commit(CommitBy(q, j))));
            var voters := CommitShares(s, q).Keys + {j};
            && !t.panicked && AllGenuine(CommitShares(t, q), TsKey, ForCommit(q)) && CommitShares(t, q).Keys == voters
            && j in CertOf(t, MsgId(q.sn, q.view)).commits
            && CommitAnswers(c, s, t, q, CommitDue(c, s, q, voters))
  {
    hide HandleCommitVote, AllGenuine;
    var x := s.(clock := now);
    var id := MsgId(q.sn, q.view);
    CommitCounts(c, PutCert(x, id, CertOf(x, id).(commits := CertOf(x, id).commits[j := CommitBy(q, j)])), q, j);
  }

  // ---------------------------------------------------------------- Over a history

  /** All that is recorded for the number and view of v are genuine shares for v. */
  ghost predicate OnlyHonest(s: State, v: PrepareVote) {
    && OnlyFor(s.ballots.prepare, TsKey, v) && OnlyFor(s.ballots.fast, FastKey, v)
  }

  ghost predicate OnlyFor(table: map<(MsgId, Digest), Shares>, key: KeyKind, v: PrepareVote) {
    forall x | x in table && x.0 == IdOf(v) && table[x] != map[] ::
      x.1 == v.digest && AllGenuine(table[x], key, ForPrepare(v))
  }

  /** Whoever votes for the number and view votes for v, properly. */
  predicate HonestVote(pm: PrepareMsg, v: PrepareVote) {
    pm.vote.sn == v.sn && pm.vote.view == v.view ==> pm == VoteBy(v, pm.sender)
  }

  predicate HonestEvent(e: Event, v: PrepareVote) { e.Deliver? && e.m.Prepare? ==> HonestVote(e.m.pm, v) }

  /** So does the replica itself. */
  predicate OwnHonest(votes: set<PrepareVote>, v: PrepareVote) {
    forall w | w in votes && w.sn == v.sn && w.view == v.view :: w == v
  }

  /** One more share, for another number and view or for v. */
  lemma OnlyForOneMore(a: map<(MsgId, Digest), Shares>, b: map<(MsgId, Digest), Shares>, key: KeyKind, v: PrepareVote,
                       x: (MsgId, Digest), i: nat, share: PartialSig)
    requires OnlyFor(a, key, v) && b == a[x := SharesOf(a, x)[i := share]]
    requires x.0 == IdOf(v) ==> x.1 == v.digest && share == PartialSig(key, ForPrepare(v), i)
    ensures OnlyFor(b, key, v)
  {}

  lemma RecordedTable(s: State, id: MsgId, k: Digest, pm: PrepareMsg)
    ensures var b := RecordVote(s, id, k, pm).ballots;
            && b.prepare == s.ballots.prepare[(id, k) := SharesOf(s.ballots.prepare, (id, k))[pm.sender := pm.sig]]
            && b.fast == s.ballots.fast[(id, k) := SharesOf(s.ballots.fast, (id, k))[pm.sender := pm.fastSig]]
  {}

  lemma RecordedHonest(s: State, pm: PrepareMsg, v: PrepareVote)
    requires OnlyHonest(s, v) && HonestVote(pm, v) && !v.digest.Empty()
    ensures OnlyHonest(RecordVote(s, MsgId(pm.vote.sn, pm.vote.view), pm.vote.digest.Key(), pm), v)
  {
    hide RecordVote, SharesOf, OnlyFor;
    var x := (MsgId(pm.vote.sn, pm.vote.view), pm.vote.digest.Key());
    RecordedTable(s, x.0, x.1, pm);
    OnlyForOneMore(s.ballots.prepare, RecordVote(s, x.0, x.1, pm).ballots.prepare, TsKey, v, x, pm.sender, pm.sig);
    OnlyForOneMore(s.ballots.fast, RecordVote(s, x.0, x.1, pm).ballots.fast, FastKey, v, x, pm.sender, pm.fastSig);
  }

  lemma HandlePrepareHonest(c: Config, s: State, pm: PrepareMsg, v: PrepareVote)
    requires OnlyHonest(s, v) && HonestVote(pm, v) && !v.digest.Empty()
    ensures OnlyHonest(HandlePrepare(c, s, pm), v) && HandlePrepare(c, s, pm).votes == s.votes
  {
    hide SharesOf, RecordVote, CheckIfPrepareQc, IssueFastQc, OnlyFor, InWatermarks;
    var at := MsgId(pm.vote.sn, s.views.view);
    var y := PutCert(s, at, CertOf(s, at).(prepares := CertOf(s, at).prepares[pm.sender := pm]));
    var id := MsgId(pm.vote.sn, pm.vote.view);
    var k := pm.vote.digest.Key();
    var r := RecordVote(y, id, k, pm);
    RecordedHonest(y, pm, v);
    CheckShape(c, r, id, k);
    if |SharesOf(r.ballots.fast, (id, k))| >= c.fastQuorum && !CertOf(r, id).qcSent { FastIssues(c, r, id, k); }
    HandlePrepareVotes(c, s, pm);
  }

  lemma HandlePrePrepareHonest(c: Config, s: State, pp: PrePrepareMsg, v: PrepareVote)
    requires OnlyHonest(s, v) && !v.digest.Empty() && OwnHonest(HandlePrePrepare(c, s, pp).votes, v)
    ensures OnlyHonest(HandlePrePrepare(c, s, pp), v)
  {
    hide CheckIfPrepared, HandlePrepare, InWatermarks, SendViewChange, OnlyFor;
    var id := MsgId(pp.sn, pp.view);
    var t := CheckIfPrepared(c, StorePrePrepare(s, id, pp), id);
    SendViewChangeCalm(c, s);
    SendViewChangeCalm(c, Touch(s, id));
    CheckIfPreparedCalm(c, StorePrePrepare(s, id, pp), id);
    var x := SignVote(t, OwnVote(t, pp.sn));
    if HandlePrePrepare(c, s, pp) == CastVote(c, t, pp.sn) {
      CastVoteVotes(c, t, pp.sn);
      assert OwnVote(t, pp.sn) in HandlePrePrepare(c, s, pp).votes;
      HandlePrepareHonest(c, x, PrepareFor(c, OwnVote(t, pp.sn)), v);
    }
  }

  lemma HandlePrePrepareVotesGrow(c: Config, s: State, pp: PrePrepareMsg)
    ensures s.votes <= HandlePrePrepare(c, s, pp).votes
  {
    hide CheckIfPrepared, CastVote, InWatermarks, SendViewChange;
    var id := MsgId(pp.sn, pp.view);
    SendViewChangeCalm(c, s);
    SendViewChangeCalm(c, Touch(s, id));
    CheckIfPreparedCalm(c, StorePrePrepare(s, id, pp), id);
    CastVoteVotes(c, CheckIfPrepared(c, StorePrePrepare(s, id, pp), id), pp.sn);
  }

  lemma {:induction false} AcceptAllHonest(c: Config, s: State, nv: NewViewMsg, keys: seq<u32>, v: PrepareVote)
    requires forall k | k in keys :: k in nv.oset
    requires OnlyHonest(s, v) && !v.digest.Empty() && OwnHonest(AcceptAll(c, s, nv, keys).votes, v)
    ensures OnlyHonest(AcceptAll(c, s, nv, keys), v)
    decreases |keys|
  {
    hide HandlePrePrepare, OnlyFor;
    if keys != [] {
      var rest, sn := keys[..|keys| - 1], keys[|keys| - 1];
      var t := AcceptAll(c, s, nv, rest);
      var pp := PrePrepareMsg(sn, Hash(nv.oset[sn]), nv.oset[sn], t.views.view, nv.sender);
      var x := if IsPrimary(c, t) then StartTimer(t, MsgId(sn, t.views.view), pp.digest) else t;
      HandlePrePrepareVotesGrow(c, x, pp);
      assert t.votes <= AcceptAll(c, s, nv, keys).votes;
      AcceptAllHonest(c, s, nv, rest, v);
      if AcceptAll(c, s, nv, keys) != t { HandlePrePrepareHonest(c, x, pp, v); }
    }
  }

  lemma ProcessNewViewHonest(c: Config, s: State, v: PrepareVote)
    requires OnlyHonest(s, v) && !v.digest.Empty() && OwnHonest(ProcessNewView(c, s).votes, v)
    ensures OnlyHonest(ProcessNewView(c, s), v)
  {
    hide AcceptAll, Sorted, OnlyFor;
    if s.views.view in s.views.newViews && !s.views.active {
      var nv := s.views.newViews[s.views.view];
      SortedMembers(nv.oset.Keys);
      AcceptAllHonest(c, EnterView(c, s), nv, Sorted(nv.oset.Keys), v);
    }
  }

  lemma SendNewViewHonest(c: Config, s: State, v: PrepareVote)
    requires OnlyHonest(s, v) && !v.digest.Empty() && OwnHonest(SendNewView(c, s).votes, v)
    ensures OnlyHonest(SendNewView(c, s), v)
  {
    hide ProcessNewView, Vset, MaxCheckpoint, Assign, Diverges, OnlyFor;
    var vset := Vset(c, s.views);
    var p := PublishNewView(c, s, NewViewMsg(s.views.view, vset, Assign(c, vset, MaxCheckpoint(vset)).oset, c.id));
    if SendNewView(c, s) == ProcessNewView(c, p) { ProcessNewViewHonest(c, p, v); }
  }

  lemma HandleViewChangeHonest(c: Config, s: State, vc: ViewChangeMsg, v: PrepareVote)
    requires OnlyHonest(s, v) && !v.digest.Empty() && OwnHonest(HandleViewChange(c, s, vc).votes, v)
    ensures OnlyHonest(HandleViewChange(c, s, vc), v)
  {
    hide CatchUp, SendNewView, CorrectViewChange, ForView, OnlyFor;
    var t := CatchUp(c, s.(views := s.views.(store := s.views.store[Vcidx(vc.view, vc.sender) := vc])));
    CatchUpCalm(c, s.(views := s.views.(store := s.views.store[Vcidx(vc.view, vc.sender) := vc])));
    if HandleViewChange(c, s, vc) == SendNewView(c, t) { SendNewViewHonest(c, t, v); }
  }

  lemma HandleNewViewHonest(c: Config, s: State, nv: NewViewMsg, v: PrepareVote)
    requires OnlyHonest(s, v) && !v.digest.Empty() && OwnHonest(HandleNewView(c, s, nv).votes, v)
    ensures OnlyHonest(HandleNewView(c, s, nv), v)
  {
    hide ProcessNewView, OnlyFor;
    var x := s.(views := s.views.(newViews := s.views.newViews[nv.view := nv]));
    if HandleNewView(c, s, nv) == ProcessNewView(c, x) { ProcessNewViewHonest(c, x, v); }
  }

  /** The other messages leave the tables of votes alone. */
  ghost predicate SameTables(s: State, t: State) {
    t.ballots.prepare == s.ballots.prepare && t.ballots.fast == s.ballots.fast
  }

  lemma CertificateTables(c: Config, s: State, m: Msg)
    requires m.SlowQc? || m.FastQc? || m.FinalQc?
    ensures SameTables(s, Dispatch(c, s, m))
  {
    hide CheckIfPrepared, CheckIfCommitted, InWatermarks, ViewChangeOf, Quiet, CertsIn, CommitVerifies;
    match m
    case SlowQc(q) =>
      CheckIfPreparedCalm(c, PutCert(s, MsgId(q.sn, q.view), CertOf(s, MsgId(q.sn, q.view)).(prepareQc := Some(q))),
                          MsgId(q.sn, q.view));
    case FastQc(q) =>
      CheckIfPreparedCalm(c, PutCert(s, MsgId(q.sn, q.view), CertOf(s, MsgId(q.sn, q.view)).(fastQc := Some(q))),
                          MsgId(q.sn, q.view));
    case FinalQc(q) =>
      CheckIfCommittedCalm(c, PutCert(s, MsgId(q.sn, q.view), CertOf(s, MsgId(q.sn, q.view)).(commitQc := Some(q))),
                           MsgId(q.sn, q.view));
    case _ =>
  }

  lemma TablesAlone(c: Config, s: State, m: Msg)
    requires m.Commit? || m.SlowQc? || m.FastQc? || m.FinalQc? || m.Checkpoint?
    ensures SameTables(s, Dispatch(c, s, m))
  {
    hide HandleSlowQc, HandleFastQc, HandleFinalQc, HandleCommitVote, Matching, StateDigests, InWatermarks,
         CertsGrow;
    match m
    case Commit(cm) =>
      var id := MsgId(cm.vote.sn, cm.vote.view);
      CommitIssues(c, PutCert(s, id, CertOf(s, id).(commits := CertOf(s, id).commits[cm.sender := cm])), cm);
    case Checkpoint(_) =>
    case _ => CertificateTables(c, s, m);
  }

  lemma StepHonest(c: Config, s: State, now: int, e: Event, v: PrepareVote)
    requires OnlyHonest(s, v) && !v.digest.Empty() && HonestEvent(e, v) && OwnHonest(Step(c, s, now, e).votes, v)
    ensures OnlyHonest(Step(c, s, now, e), v)
  {
    hide HandlePrePrepare, HandlePrepare, HandleCommit, HandleSlowQc, HandleFastQc, HandleFinalQc, HandleCheckpoint,
         HandleViewChange, HandleNewView, CheckIfPrepareQc, SendViewChange, OnlyFor;
    var x := s.(clock := now);
    if !s.panicked {
      match e
      case Deliver(m) => {
        match m
        case PrePrepare(pp) => HandlePrePrepareHonest(c, x, pp, v);
        case Prepare(pm) => HandlePrepareHonest(c, x, pm, v);
        case ViewChange(vc) => HandleViewChangeHonest(c, x, vc, v);
        case NewView(nv) => HandleNewViewHonest(c, x, nv, v);
        case _ => TablesAlone(c, x, m);
      }
      case Batch(b) =>
      case FastTimeout(id, k) => CheckShape(c, Fired(x, id, k), id, k);
      case ViewTimeout => SendViewChangeCalm(c, x);
    }
  }

  /** A history in which every vote for the number and view of v - delivered or the replica's own - is a
      properly signed one for v. */
  ghost predicate HonestHistory(c: Config, ss: seq<State>, v: PrepareVote) {
    && |ss| > 0 && ss[0] == Init(c) && (forall k | 0 <= k < |ss| :: OwnHonest(ss[k].votes, v))
    && forall k :: 0 < k < |ss| ==> HonestStep(c, ss[k - 1], ss[k], v)
  }

  ghost predicate HonestStep(c: Config, s: State, t: State, v: PrepareVote) {
    exists now, e :: t == Step(c, s, now, e) && HonestEvent(e, v)
  }

  lemma HonestIsHistory(c: Config, ss: seq<State>, v: PrepareVote)
    requires HonestHistory(c, ss, v)
    ensures History(c, ss)
  {
    hide Step;
    forall k | 0 < k < |ss| ensures StepTo(c, ss[k - 1], ss[k]) { assert HonestStep(c, ss[k - 1], ss[k], v); }
  }

  lemma {:induction false} AlwaysHonest(c: Config, ss: seq<State>, k: nat, v: PrepareVote)
    requires HonestHistory(c, ss, v) && k < |ss| && !v.digest.Empty()
    ensures OnlyHonest(ss[k], v)
  {
    hide Step, OnlyFor, OwnHonest;
    if k == 0 {
      NoneRecorded(c, v);
    } else {
      AlwaysHonest(c, ss, k - 1, v);
      assert HonestStep(c, ss[k - 1], ss[k], v);
      var now, e :| ss[k] == Step(c, ss[k - 1], now, e) && HonestEvent(e, v);
      StepHonest(c, ss[k - 1], now, e, v);
    }
  }

  lemma NoneRecorded(c: Config, v: PrepareVote)
    ensures OnlyHonest(Init(c), v)
  {}

  lemma HonestAreTables(c: Config, s: State, v: PrepareVote)
    requires OnlyHonest(s, v) && Twins(s.ballots)
    ensures HonestTables(s, v)
  {}

  /** In such a history the replica's tables for v are honest - so no vote for v, and no timeout, kills it - and
      once it has on record a fast quorum of voters while its timer runs, or 2f+1 after it stopped for that
      digest, a certificate for v is in its outbox, and verifies if the key needs no more shares. */
  lemma HonestVotesCertify(c: Config, ss: seq<State>, k: nat, v: PrepareVote)
    requires HonestHistory(c, ss, v) && c.Scans() && k < |ss| && !v.digest.Empty() && !ss[k].panicked
    requires 0 < c.fastQuorum
    ensures HonestTables(ss[k], v)
    ensures var s := ss[k];
            var voters := |SlowShares(s, v).Keys|;
            || (voters >= c.fastQuorum && (IdOf(v) !in s.leader.fired || voters >= 2 * (c.n / 3) + 1))
            || (IdOf(v) in s.leader.timers && s.leader.timers[IdOf(v)] && IdOf(v) in s.leader.fired
                && s.leader.fired[IdOf(v)] == v.digest && voters >= 2 * (c.n / 3) + 1)
            ==> exists m :: m in s.outbox && IsPrepareCert(m) && CertifiesVote(c, m, v, m.SlowQc?)
  {
    hide Step, Settings.Scans, Inv, HonestHistory, History, OnlyHonest, SharesOf, CertifiesVote, Served, HonestTables,
         QuorumRecorded, SentAt, CertsIn;
    HonestIsHistory(c, ss, v);
    AlwaysHonest(c, ss, k, v);
    NoQuorumMissed(c, ss, k);
    var s := ss[k];
    ServedTwins(c, s);
    HonestAreTables(c, s, v);
    if CertOf(s, IdOf(v)).qcSent {
      SaidExactly(c, ss, k);
      var m :| m in s.outbox && IsPrepareCert(m) && CertifiedId(m) == IdOf(v);
      InCerts(s, m);
      EveryCertificateLawful(c, ss, k, m);
      var j: nat :| j <= k && SentAt(c, ss, j, m);
      OwnCertificate(c, s, m);
      SentForVote(c, ss, j, m, s, v);
    } else {
      NothingDue(c, s, v);
    }
  }

  lemma ServedTwins(c: Config, s: State)
    requires Served(c, s) && !s.panicked
    ensures Twins(s.ballots)
  {}

  lemma InCerts(s: State, m: Msg)
    requires m in s.outbox && IsPrepareCert(m)
    ensures m in CertsIn(s.outbox)
  {}

  lemma OwnCertificate(c: Config, s: State, m: Msg)
    requires Inv(c, s) && m in s.outbox
    ensures m.Sender() == c.id
  {
    assert OutMsgOk(c, s, m);
  }

  /** A certificate with a quorum in tables that hold nothing but shares for v is for v. */
  lemma SentForVote(c: Config, ss: seq<State>, j: nat, m: Msg, s: State, v: PrepareVote)
    requires SentAt(c, ss, j, m) && IsPrepareCert(m) && QuorumRecorded(c, s, m) && OnlyHonest(s, v)
    requires CertifiedId(m) == IdOf(v) && m.Sender() == c.id && 0 < c.fastQuorum
    ensures CertifiesVote(c, m, v, m.SlowQc?)
  {
    var table := if m.SlowQc? then s.ballots.prepare else s.ballots.fast;
    var x := (IdOf(v), VoteOf(m).digest);
    assert |SharesOf(table, x)| > 0;
    assert x in table && table[x] != map[];
  }

  /** What the replica has served leaves no quorum for v without a certificate. */
  lemma NothingDue(c: Config, s: State, v: PrepareVote)
    requires Served(c, s) && !s.panicked && HonestTables(s, v) && !CertOf(s, IdOf(v)).qcSent
    ensures var voters := |SlowShares(s, v).Keys|;
            && !(0 < c.fastQuorum <= voters && (IdOf(v) !in s.leader.fired || voters >= 2 * (c.n / 3) + 1))
            && !(IdOf(v) in s.leader.timers && s.leader.timers[IdOf(v)] && IdOf(v) in s.leader.fired
                 && s.leader.fired[IdOf(v)] == v.digest && voters >= 2 * (c.n / 3) + 1)
  {
    var x := (IdOf(v), v.digest);
    assert |SlowShares(s, v).Keys| == |SlowShares(s, v)| && |FastShares(s, v).Keys| == |FastShares(s, v)|;
    if x in s.ballots.fast {
      assert s.ballots.fast[x] == FastShares(s, v);
      assert FastDue(c, s.leader, x.0, |s.ballots.fast[x]|) ==> CertOf(s, x.0).qcSent;
    }
  }
}
