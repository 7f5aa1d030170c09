/** The certificates a primary issues, and the quorums it never misses, over every history of one
    replica - whatever it is fed, forged or not. */
module Issuing {
  import opened Types
  import opened ReplicaState
  import opened Assignment
  import opened Handlers
  import opened Invariants
  import opened Preservation
  import opened Frames
  import opened Numbering

  function SlowQuorum(c: Config): nat { 2 * c.F() + 1 }

  // ---------------------------------------------------------------- What issuing leaves

  lemma CheckShape(c: Config, s: State, id: MsgId, k: Digest)
    ensures var t := CheckIfPrepareQc(c, s, id, k);
            && t.ballots == s.ballots && t.leader == s.leader && (s.panicked ==> t.panicked)
               && CertsGrow(s.certs, t.certs)
            && (|SharesOf(s.ballots.prepare, (id, k))| >= SlowQuorum(c) ==> CertOf(t, id).qcSent)
  {
    hide SharesOf, Recoverable, Recover;
  }

  lemma FastIssues(c: Config, s: State, id: MsgId, k: Digest)
    requires |SharesOf(s.ballots.fast, (id, k))| >= c.fastQuorum && !CertOf(s, id).qcSent
    ensures var t := IssueFastQc(c, s, id, k);
            && t.ballots == s.ballots && t.leader == s.leader && (s.panicked ==> t.panicked)
               && CertsGrow(s.certs, t.certs)
            && CertOf(t, id).qcSent
  {
    hide SharesOf, Recoverable;
  }

  function Fired(s: State, id: MsgId, k: Digest): State {
    s.(leader := s.leader.(timers := s.leader.timers[id := true],
                           armed := s.leader.armed - {(id, k)},
                           fired := s.leader.fired[id := k]))
  }

  // ---------------------------------------------------------------- No quorum is missed

  /** Every vote is recorded under both keys. */
  ghost predicate Twins(b: Ballots) {
    b.prepare.Keys == b.fast.Keys && forall x | x in b.prepare :: b.prepare[x].Keys == b.fast[x].Keys
  }

  /** Enough for a fast certificate, and either the timer has never run out or there are enough for a
      slow one too (for n a multiple of three the fast quorum can be smaller than 2f+1). */
  predicate FastDue(c: Config, l: Leader, id: MsgId, votes: nat) {
    votes >= c.fastQuorum && (id !in l.fired || votes >= SlowQuorum(c))
  }

  ghost predicate FastServed(c: Config, s: State) {
    forall x | x in s.ballots.fast && FastDue(c, s.leader, x.0, |s.ballots.fast[x]|) :: CertOf(s, x.0).qcSent
  }

  ghost predicate SlowServed(c: Config, s: State) {
    forall id | id in s.leader.timers && s.leader.timers[id] ::
      && id in s.leader.fired
      && (|SharesOf(s.ballots.prepare, (id, s.leader.fired[id]))| >= SlowQuorum(c) ==> CertOf(s, id).qcSent)
  }

  ghost predicate CommitsServed(c: Config, s: State) {
    forall x | x in s.ballots.commit && |s.ballots.commit[x]| >= SlowQuorum(c) :: CertOf(s, x.0).commitQcSent
  }

  /** Enough votes for a fast certificate, enough for the primary's own digest once its timer has
      stopped, or enough commits for any one certificate: then the certificate has been issued. */
  ghost predicate Served(c: Config, s: State) {
    s.panicked || (Twins(s.ballots) && FastServed(c, s) && SlowServed(c, s) && CommitsServed(c, s))
  }

  lemma ServedFrame(c: Config, s: State, t: State)
    requires Served(c, s) && CertsGrow(s.certs, t.certs) && t.ballots == s.ballots
    requires t.leader.timers == s.leader.timers && t.leader.fired == s.leader.fired && (s.panicked ==> t.panicked)
    ensures Served(c, t)
  {
    hide Twins, FastServed, SlowServed, CommitsServed, CertsGrow;
    if !s.panicked {
      FastFrame(c, s, t);
      SlowFrame(c, s, t);
      CommitsFrame(c, s, t);
    }
  }

  lemma SentStays(s: State, t: State, id: MsgId)
    requires CertsGrow(s.certs, t.certs)
    ensures CertOf(s, id).qcSent ==> CertOf(t, id).qcSent
    ensures CertOf(s, id).commitQcSent ==> CertOf(t, id).commitQcSent
  {}

  lemma FastFrame(c: Config, s: State, t: State)
    requires FastServed(c, s) && CertsGrow(s.certs, t.certs) && t.ballots == s.ballots
    requires s.leader.fired.Keys <= t.leader.fired.Keys
    ensures FastServed(c, t)
  {
    hide CertsGrow, CertOf;
    forall x | x in t.ballots.fast && FastDue(c, t.leader, x.0, |t.ballots.fast[x]|) ensures CertOf(t, x.0).qcSent {
      SentStays(s, t, x.0);
    }
  }

  lemma SlowFrame(c: Config, s: State, t: State)
    requires SlowServed(c, s) && CertsGrow(s.certs, t.certs) && t.ballots == s.ballots
    requires t.leader.timers == s.leader.timers && t.leader.fired == s.leader.fired
    ensures SlowServed(c, t)
  {
    hide CertsGrow, CertOf, SharesOf;
    forall id | id in t.leader.timers && t.leader.timers[id]
      ensures id in t.leader.fired
              && (|SharesOf(t.ballots.prepare, (id, t.leader.fired[id]))| >= SlowQuorum(c) ==> CertOf(t, id).qcSent)
    {
      SentStays(s, t, id);
    }
  }

  lemma CommitsFrame(c: Config, s: State, t: State)
    requires CommitsServed(c, s) && CertsGrow(s.certs, t.certs) && t.ballots == s.ballots
    ensures CommitsServed(c, t)
  {
    hide CertsGrow, CertOf;
    forall x | x in t.ballots.commit && |t.ballots.commit[x]| >= SlowQuorum(c) ensures CertOf(t, x.0).commitQcSent {
      SentStays(s, t, x.0);
    }
  }

  lemma CalmServed(c: Config, s: State, t: State)
    requires Served(c, s) && Calm(s, t) && Kept(c, s, t)
    ensures Served(c, t)
  {
    hide Served, Inv;
    ServedFrame(c, s, t);
  }

  lemma TouchServed(c: Config, s: State, id: MsgId, cert: Cert)
    requires Served(c, s) && CertGrows(CertOf(s, id), cert)
    ensures Served(c, PutCert(s, id, cert))
  {
    hide Served;
    ServedFrame(c, s, PutCert(s, id, cert));
  }

  lemma SendServed(c: Config, s: State, m: Msg)
    requires Served(c, s)
    ensures Served(c, Send(s, m))
  {
    ServedFrame(c, s, Send(s, m));
  }

  // ---------------------------------------------------------------- Votes

  /** The tables after a vote, before the check for a certificate. */
  lemma RecordedTables(s: State, id: MsgId, k: Digest, pm: PrepareMsg)
    requires Twins(s.ballots)
    ensures Twins(RecordVote(s, id, k, pm).ballots)
    ensures |SharesOf(RecordVote(s, id, k, pm).ballots.prepare, (id, k))|
            == |SharesOf(RecordVote(s, id, k, pm).ballots.fast, (id, k))|
  {
    var t := RecordVote(s, id, k, pm);
    assert t.ballots.prepare[(id, k)].Keys == t.ballots.fast[(id, k)].Keys;
    assert |t.ballots.prepare[(id, k)].Keys| == |t.ballots.prepare[(id, k)]|;
    assert |t.ballots.fast[(id, k)].Keys| == |t.ballots.fast[(id, k)]|;
  }

  /** Whatever counts were served stay served if those of the new vote are. */
  lemma VoteServed(c: Config, s: State, id: MsgId, k: Digest, pm: PrepareMsg, t: State)
    requires Served(c, s) && !s.panicked && !t.panicked
    requires t.ballots == RecordVote(s, id, k, pm).ballots && t.leader == s.leader && CertsGrow(s.certs, t.certs)
    requires FastDue(c, t.leader, id, |SharesOf(t.ballots.fast, (id, k))|) ==> CertOf(t, id).qcSent
    requires id in s.leader.timers && s.leader.timers[id] && |SharesOf(t.ballots.prepare, (id, k))| >= SlowQuorum(c)
             ==> CertOf(t, id).qcSent
    ensures Served(c, t)
  {
    RecordedTables(s, id, k, pm);
    FastAfterVote(c, s, id, k, pm, t);
    SlowAfterVote(c, s, id, k, pm, t);
    assert t.ballots.commit == s.ballots.commit;
  }

  lemma FastAfterVote(c: Config, s: State, id: MsgId, k: Digest, pm: PrepareMsg, t: State)
    requires FastServed(c, s) && t.ballots.fast == RecordVote(s, id, k, pm).ballots.fast && CertsGrow(s.certs, t.certs)
    requires t.leader == s.leader
    requires FastDue(c, t.leader, id, |SharesOf(t.ballots.fast, (id, k))|) ==> CertOf(t, id).qcSent
    ensures FastServed(c, t)
  {
    forall x | x in t.ballots.fast && FastDue(c, t.leader, x.0, |t.ballots.fast[x]|) ensures CertOf(t, x.0).qcSent {
      if x != (id, k) { assert t.ballots.fast[x] == s.ballots.fast[x]; }
    }
  }

  lemma SlowAfterVote(c: Config, s: State, id: MsgId, k: Digest, pm: PrepareMsg, t: State)
    requires SlowServed(c, s) && t.ballots.prepare == RecordVote(s, id, k, pm).ballots.prepare && t.leader == s.leader
    requires CertsGrow(s.certs, t.certs)
    requires id in s.leader.timers && s.leader.timers[id] && |SharesOf(t.ballots.prepare, (id, k))| >= SlowQuorum(c)
             ==> CertOf(t, id).qcSent
    ensures SlowServed(c, t)
  {
    forall i | i in t.leader.timers && t.leader.timers[i]
      ensures && i in t.leader.fired
              && (|SharesOf(t.ballots.prepare, (i, t.leader.fired[i]))| >= SlowQuorum(c) ==> CertOf(t, i).qcSent)
    {
      var x := (i, t.leader.fired[i]);
      if x != (id, k) { assert SharesOf(t.ballots.prepare, x) == SharesOf(s.ballots.prepare, x); }
    }
  }

  lemma StoppedFired(c: Config, s: State, id: MsgId)
    requires SlowServed(c, s) && id in s.leader.timers && s.leader.timers[id]
    ensures id in s.leader.fired
  {}

  lemma HandlePrepareVoteServed(c: Config, s: State, pm: PrepareMsg)
    requires Served(c, s) && !s.panicked
    ensures Served(c, HandlePrepareVote(c, s, pm))
  {
    hide Twins, FastServed, SlowServed, CommitsServed, SharesOf, CheckIfPrepareQc, IssueFastQc;
    var id := MsgId(pm.vote.sn, pm.vote.view);
    if id in s.leader.timers && s.leader.timers[id] { StoppedFired(c, s, id); }
    var k := pm.vote.digest.Key();
    var r := RecordVote(s, id, k, pm);
    var t := HandlePrepareVote(c, s, pm);
    assert CertsGrow(s.certs, r.certs);
    RecordedTables(s, id, k, pm);
    CheckShape(c, r, id, k);
    if |SharesOf(r.ballots.fast, (id, k))| >= c.fastQuorum && !CertOf(r, id).qcSent { FastIssues(c, r, id, k); }
    if !t.panicked { VoteServed(c, s, id, k, pm, t); }
  }

  lemma HandlePrepareServed(c: Config, s: State, pm: PrepareMsg)
    requires Served(c, s) && !s.panicked
    ensures Served(c, HandlePrepare(c, s, pm))
  {
    hide Served, HandlePrepareVote;
    var id := MsgId(pm.vote.sn, s.views.view);
    var cert := CertOf(s, id);
    TouchServed(c, s, id, cert);
    TouchServed(c, s, id, cert.(prepares := cert.prepares[pm.sender := pm]));
    HandlePrepareVoteServed(c, PutCert(s, id, cert.(prepares := cert.prepares[pm.sender := pm])), pm);
  }

  lemma FireTimerServed(c: Config, s: State, id: MsgId, k: Digest)
    requires Served(c, s) && !s.panicked
    ensures Served(c, FireTimer(c, s, id, k))
  {
    hide Twins, CheckIfPrepareQc, FastServed, SlowServed, CommitsServed, SharesOf, CertsGrow;
    if (id, k) in s.leader.armed {
      var t := CheckIfPrepareQc(c, Fired(s, id, k), id, k);
      CheckShape(c, Fired(s, id, k), id, k);
      FastFrame(c, s, t);
      CommitsFrame(c, s, t);
      SlowAfterTimeout(c, s, id, k, t);
    }
  }

  lemma SlowAfterTimeout(c: Config, s: State, id: MsgId, k: Digest, t: State)
    requires SlowServed(c, s) && CertsGrow(s.certs, t.certs) && t.ballots == s.ballots
             && t.leader == Fired(s, id, k).leader
    requires |SharesOf(s.ballots.prepare, (id, k))| >= SlowQuorum(c) ==> CertOf(t, id).qcSent
    ensures SlowServed(c, t)
  {
    hide CertsGrow, CertOf, SharesOf;
    forall j | j in t.leader.timers && t.leader.timers[j]
      ensures j in t.leader.fired
              && (|SharesOf(t.ballots.prepare, (j, t.leader.fired[j]))| >= SlowQuorum(c) ==> CertOf(t, j).qcSent)
    {
      SentStays(s, t, j);
    }
  }

  lemma StartTimerServed(c: Config, s: State, id: MsgId, k: Digest)
    requires Served(c, s)
    ensures Served(c, StartTimer(s, id, k))
  {}

  // ---------------------------------------------------------------- Commits

  lemma CommitIssues(c: Config, s: State, cm: CommitMsg)
    ensures var t := HandleCommitVote(c, s, cm);
            var id := MsgId(cm.vote.sn, cm.vote.view);
            && t.ballots == RecordCommit(s, id, cm).ballots && t.leader == s.leader && CertsGrow(s.certs, t.certs)
            && (s.panicked ==> t.panicked)
            && (|SharesOf(t.ballots.commit, (id, cm.vote))| >= SlowQuorum(c)
                ==> CertOf(t, id).commitQcSent || t.panicked)
  {
    hide SharesOf, Recover, Recoverable;
  }

  lemma HandleCommitVoteServed(c: Config, s: State, cm: CommitMsg)
    requires Served(c, s) && !s.panicked
    ensures Served(c, HandleCommitVote(c, s, cm))
  {
    hide HandleCommitVote, CommitsServed;
    var t := HandleCommitVote(c, s, cm);
    CommitIssues(c, s, cm);
    if !t.panicked {
      assert Twins(t.ballots) && FastServed(c, t) && SlowServed(c, t);
      CommitsAfterVote(c, s, cm, t);
    }
  }

  lemma CommitsAfterVote(c: Config, s: State, cm: CommitMsg, t: State)
    requires CommitsServed(c, s) && CertsGrow(s.certs, t.certs)
    requires t.ballots.commit == RecordCommit(s, MsgId(cm.vote.sn, cm.vote.view), cm).ballots.commit
    requires var x := (MsgId(cm.vote.sn, cm.vote.view), cm.vote);
             |SharesOf(t.ballots.commit, x)| >= SlowQuorum(c) ==> CertOf(t, x.0).commitQcSent
    ensures CommitsServed(c, t)
  {
    forall x | x in t.ballots.commit && |t.ballots.commit[x]| >= SlowQuorum(c) ensures CertOf(t, x.0).commitQcSent {
      if x != (MsgId(cm.vote.sn, cm.vote.view), cm.vote) { assert t.ballots.commit[x] == s.ballots.commit[x]; }
    }
  }

  lemma HandleCommitServed(c: Config, s: State, cm: CommitMsg)
    requires Served(c, s) && !s.panicked
    ensures Served(c, HandleCommit(c, s, cm))
  {
    hide Served, HandleCommitVote;
    var id := MsgId(cm.vote.sn, cm.vote.view);
    var cert := CertOf(s, id);
    TouchServed(c, s, id, cert);
    TouchServed(c, s, id, cert.(commits := cert.commits[cm.sender := cm]));
    HandleCommitVoteServed(c, PutCert(s, id, cert.(commits := cert.commits[cm.sender := cm])), cm);
  }

  // ---------------------------------------------------------------- The other handlers

  lemma CastVoteServed(c: Config, s: State, sn: u32)
    requires Served(c, s) && !s.panicked
    ensures Served(c, CastVote(c, s, sn))
  {
    hide Served, HandlePrepare;
    var t := SignVote(s, OwnVote(s, sn));
    assert CertsGrow(s.certs, t.certs);
    ServedFrame(c, s, t);
    HandlePrepareServed(c, t, PrepareFor(c, OwnVote(s, sn)));
    SendServed(c, t, Prepare(PrepareFor(c, OwnVote(s, sn))));
  }

  lemma HandlePrePrepareServed(c: Config, s: State, pp: PrePrepareMsg)
    requires Served(c, s) && Inv(c, s) && c.Scans() && !s.panicked
    ensures Served(c, HandlePrePrepare(c, s, pp))
  {
    hide Served, Inv, Evolves, Settings.Scans, SendViewChange, CheckIfPrepared, CastVote, Proposals;
    var id := MsgId(pp.sn, pp.view);
    TouchKeeps(c, s, id);
    TouchServed(c, s, id, CertOf(s, id));
    SendViewChangeServed(c, s);
    SendViewChangeServed(c, Touch(s, id));
    if CertOf(s, id).digest.Empty() || CertOf(s, id).digest == pp.digest {
      var s1 := StorePrePrepare(s, id, pp);
      StorePrePrepareKeeps(c, s, id, pp);
      TouchServed(c, s, id, CertOf(s, id).(stage := Received, digest := pp.digest, prePrepare := Some(pp)));
      ServedFrame(c, PutCert(s, id, CertOf(s, id).(stage := Received, digest := pp.digest, prePrepare := Some(pp))),
                  s1) by {
        SameCerts(s1.certs);
      }
      CheckIfPreparedServed(c, s1, id);
      CheckIfPreparedCalm(c, s1, id);
      CastVoteServed(c, CheckIfPrepared(c, s1, id), pp.sn);
    }
  }

  lemma SendViewChangeServed(c: Config, s: State)
    requires Served(c, s) && Inv(c, s) && c.Scans()
    ensures Served(c, SendViewChange(c, s))
  {
    hide Served, Inv, Evolves, Settings.Scans, SendViewChange;
    SendViewChangeCalm(c, s);
    SendViewChangeKeeps(c, s);
    CalmServed(c, s, SendViewChange(c, s));
  }

  lemma CheckIfPreparedServed(c: Config, s: State, id: MsgId)
    requires Served(c, s) && Inv(c, s) && c.Scans()
    ensures Served(c, CheckIfPrepared(c, s, id))
  {
    hide Served, Inv, Evolves, Settings.Scans, CheckIfPrepared;
    CheckIfPreparedCalm(c, s, id);
    CheckIfPreparedKeeps(c, s, id);
    CalmServed(c, s, CheckIfPrepared(c, s, id));
  }

  lemma HandleSlowQcServed(c: Config, s: State, q: PrepareQc)
    requires Served(c, s) && Inv(c, s) && c.Scans()
    ensures Served(c, HandleSlowQc(c, s, q))
  {
    hide Served, Inv, Evolves, Settings.Scans, SendViewChange, CheckIfPrepared;
    var id := MsgId(q.sn, q.view);
    TouchServed(c, s, id, CertOf(s, id));
    SendViewChangeServed(c, s);
    if CertOf(s, id).prepareQc.None? && Verify(TsKey, ForPrepare(SlowVote(q)), q.sig) {
      var cert := CertOf(s, id).(prepareQc := Some(q));
      var t := PutCert(s, id, cert);
      StoredOk(c, s, id);
      Put(c, s, id, cert);
      TouchServed(c, s, id, cert);
      CheckIfPreparedServed(c, t, id);
      var t1 := CheckIfPrepared(c, t, id);
      ServedFrame(c, t1, SendCommit(c, t1, q)) by { SameCerts(t1.certs); }
    }
  }

  lemma HandleFastQcServed(c: Config, s: State, q: FastPrepareQc)
    requires Served(c, s) && Inv(c, s) && c.Scans()
    ensures Served(c, HandleFastQc(c, s, q))
  {
    hide Served, Inv, Evolves, Settings.Scans, CheckIfPrepared;
    var id := MsgId(q.sn, q.view);
    TouchServed(c, s, id, CertOf(s, id));
    if CertOf(s, id).fastQc.None? && Verify(FastKey, ForPrepare(FastVote(q)), q.sig) {
      var cert := CertOf(s, id).(fastQc := Some(q));
      StoredOk(c, s, id);
      Put(c, s, id, cert);
      TouchServed(c, s, id, cert);
      CheckIfPreparedServed(c, PutCert(s, id, cert), id);
    }
  }

  lemma HandleFinalQcServed(c: Config, s: State, q: CommitQc)
    requires Served(c, s) && Inv(c, s) && c.Scans()
    ensures Served(c, HandleFinalQc(c, s, q))
  {
    hide Served, Inv, Evolves, Settings.Scans, SendViewChange, CheckIfCommitted, Proposals;
    var id := MsgId(q.sn, q.view);
    TouchServed(c, s, id, CertOf(s, id));
    SendViewChangeServed(c, s);
    if CertOf(s, id).commitQc.None? {
      var cert := CertOf(s, id).(commitQc := Some(q));
      var t := PutCert(s, id, cert);
      StoredOk(c, s, id);
      Put(c, s, id, cert);
      TouchServed(c, s, id, cert);
      CheckIfCommittedCalm(c, t, id);
      CheckIfCommittedKeeps(c, t, id);
      CalmServed(c, t, CheckIfCommitted(c, t, id));
    }
  }

  lemma {:induction false} AcceptAllServed(c: Config, s: State, nv: NewViewMsg, keys: seq<u32>)
    requires Served(c, s) && Inv(c, s) && c.Scans() && forall k | k in keys :: k in nv.oset
    ensures Served(c, AcceptAll(c, s, nv, keys))
    decreases |keys|
  {
    hide Served, Inv, Evolves, Settings.Scans, HandlePrePrepare;
    if keys != [] {
      var t := AcceptAll(c, s, nv, keys[..|keys| - 1]);
      var sn := keys[|keys| - 1];
      AcceptAllServed(c, s, nv, keys[..|keys| - 1]);
      AcceptAllKeeps(c, s, nv, keys[..|keys| - 1]);
      if !t.panicked {
        var pp := PrePrepareMsg(sn, Hash(nv.oset[sn]), nv.oset[sn], t.views.view, nv.sender);
        var t1 := StartTimer(t, MsgId(sn, t.views.view), pp.digest);
        StartTimerServed(c, t, MsgId(sn, t.views.view), pp.digest);
        Unwatched(c, t, t.batches, t.ballots, t1.leader, t.panicked);
        HandlePrePrepareServed(c, t, pp);
        HandlePrePrepareServed(c, t1, pp);
      }
    }
  }

  lemma ProcessNewViewServed(c: Config, s: State)
    requires Served(c, s) && Inv(c, s) && c.Scans()
    ensures Served(c, ProcessNewView(c, s))
  {
    hide Served, Inv, Evolves, Settings.Scans, AcceptAll, Sorted;
    var e := EnterView(c, s);
    EnterViewKeeps(c, s);
    ServedFrame(c, s, e) by { SameCerts(s.certs); }
    if s.views.view in s.views.newViews {
      var nv := s.views.newViews[s.views.view];
      SortedMembers(nv.oset.Keys);
      AcceptAllServed(c, e, nv, Sorted(nv.oset.Keys));
    }
  }

  lemma SendNewViewServed(c: Config, s: State)
    requires Served(c, s) && Inv(c, s) && c.Scans()
    ensures Served(c, SendNewView(c, s))
  {
    hide Served, Inv, Evolves, Settings.Scans, ProcessNewView, Vset, MaxCheckpoint, Assign;
    SameCerts(s.certs);
    ServedFrame(c, s, s.(panicked := true));
    var vset := Vset(c, s.views);
    if s.views.view !in s.views.newViewsSent {
      var nv := NewViewMsg(s.views.view, vset, Assign(c, vset, MaxCheckpoint(vset)).oset, c.id);
      var t := PublishNewView(c, s, nv);
      PublishNewViewKeeps(c, s, nv);
      ServedFrame(c, s, t);
      ProcessNewViewServed(c, t);
    }
  }

  lemma HandleViewChangeServed(c: Config, s: State, vc: ViewChangeMsg)
    requires Served(c, s) && Inv(c, s) && c.Scans()
    ensures Served(c, HandleViewChange(c, s, vc))
  {
    hide Served, Inv, Evolves, Settings.Scans, CatchUp, SendNewView, CorrectViewChange, Proposals;
    var idx := Vcidx(vc.view, vc.sender);
    if idx !in s.views.store {
      var t := s.(views := s.views.(store := s.views.store[idx := vc]));
      ViewsKeep(c, s, t.views);
      SameCerts(s.certs);
      ServedFrame(c, s, t);
      CatchUpCalm(c, t);
      CatchUpKeeps(c, t);
      CalmServed(c, t, CatchUp(c, t));
      SendNewViewServed(c, CatchUp(c, t));
    }
  }

  lemma HandleNewViewServed(c: Config, s: State, nv: NewViewMsg)
    requires Served(c, s) && Inv(c, s) && c.Scans()
    ensures Served(c, HandleNewView(c, s, nv))
  {
    hide Served, Inv, Evolves, Settings.Scans, ProcessNewView;
    var t := s.(views := s.views.(newViews := s.views.newViews[nv.view := nv]));
    ViewsKeep(c, s, t.views);
    SameCerts(s.certs);
    ServedFrame(c, s, t);
    ProcessNewViewServed(c, t);
  }

  lemma SameCertsServed(c: Config, s: State, t: State)
    requires Served(c, s) && t.certs == s.certs && t.ballots == s.ballots && t.leader == s.leader
             && t.panicked == s.panicked
    ensures Served(c, t)
  {
    hide Served;
    SameCerts(s.certs);
    ServedFrame(c, s, t);
  }

  lemma DispatchServed(c: Config, s: State, m: Msg)
    requires Served(c, s) && Inv(c, s) && c.Scans() && !s.panicked
    ensures Served(c, Dispatch(c, s, m))
  {
    hide Served, Inv, Settings.Scans, HandlePrePrepare, HandlePrepare, HandleCommit, HandleSlowQc, HandleFastQc,
         HandleFinalQc,
         HandleViewChange, HandleNewView, StateDigests, Matching;
    match m
    case PrePrepare(pp) => HandlePrePrepareServed(c, s, pp);
    case Prepare(pm) => HandlePrepareServed(c, s, pm);
    case Commit(cm) => HandleCommitServed(c, s, cm);
    case SlowQc(q) => HandleSlowQcServed(c, s, q);
    case FastQc(q) => HandleFastQcServed(c, s, q);
    case FinalQc(q) => HandleFinalQcServed(c, s, q);
    case Checkpoint(ck) => SameCertsServed(c, s, HandleCheckpoint(c, s, ck));
    case ViewChange(vc) => HandleViewChangeServed(c, s, vc);
    case NewView(nv) => HandleNewViewServed(c, s, nv);
  }

  lemma ProposeServed(c: Config, s: State, batch: RequestBatch)
    requires Served(c, s)
    ensures Served(c, Propose(c, s, batch))
  {
    hide Served;
    var sn := s.leader.nextSN;
    var s1 := s.(leader := s.leader.(nextSN := Add(sn, 1)));
    SameCerts(s.certs);
    ServedFrame(c, s, s1);
    StartTimerServed(c, s1, MsgId(sn, s.views.view), Hash(batch));
    SendServed(c, StartTimer(s1, MsgId(sn, s.views.view), Hash(batch)),
               PrePrepare(PrePrepareMsg(sn, Hash(batch), batch, s.views.view, c.id)));
  }

  lemma StepServed(c: Config, s: State, now: int, e: Event)
    requires Served(c, s) && Inv(c, s) && c.Scans()
    ensures Served(c, Step(c, s, now, e))
  {
    hide Served, Inv, Evolves, Settings.Scans, Dispatch, Propose, FireTimer, SendViewChange;
    if !s.panicked {
      var t := s.(clock := now);
      TickKeeps(c, s, now);
      SameCertsServed(c, s, t);
      match e
      case Deliver(m) => DispatchServed(c, t, m);
      case Batch(b) => ProposeServed(c, t, b);
      case FastTimeout(id, k) => FireTimerServed(c, t, id, k);
      case ViewTimeout => SendViewChangeServed(c, t);
    }
  }

  /** Over every history of a replica that has not panicked: every quorum of recorded votes has its
      certificate issued, and no two certificates were issued for one number and view. */
  lemma {:induction false} NoQuorumMissed(c: Config, ss: seq<State>, k: nat)
    requires History(c, ss) && c.Scans() && k < |ss|
    ensures Inv(c, ss[k]) && Served(c, ss[k])
    ensures forall i, j | 0 <= i < j < |ss[k].outbox| && IsPrepareCert(ss[k].outbox[i])
            && IsPrepareCert(ss[k].outbox[j]) ::
              CertifiedId(ss[k].outbox[i]) != CertifiedId(ss[k].outbox[j])
  {
    hide Step, Settings.Scans, CertsOk, ExecOk;
    if k == 0 {
      InitInv(c);
    } else {
      NoQuorumMissed(c, ss, k - 1);
      assert StepTo(c, ss[k - 1], ss[k]);
      var now, e :| ss[k] == Step(c, ss[k - 1], now, e);
      StepKeeps(c, ss[k - 1], now, e);
      StepServed(c, ss[k - 1], now, e);
    }
    forall i, j | 0 <= i < j < |ss[k].outbox| && IsPrepareCert(ss[k].outbox[i]) && IsPrepareCert(ss[k].outbox[j])
      ensures CertifiedId(ss[k].outbox[i]) != CertifiedId(ss[k].outbox[j])
    {
      assert InOrder(ss[k].outbox[i], ss[k].outbox[j]);
    }
  }
}
