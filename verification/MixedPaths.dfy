/** Where the order of delivery does matter: a number that gets both a slow and a fast certificate
    commits or stalls depending on which came first, unless the commit certificate comes as well. */
module MixedPaths {
  import opened Types
  import opened ReplicaState
  import opened Handlers
  import opened Delivery

  /** A pre-prepare with a slow, a fast and a commit certificate. */
  datatype Quartet = Quartet(pp: PrePrepareMsg, q: PrepareQc, f: FastPrepareQc, g: CommitQc)
  {
    function Id(): MsgId { MsgId(pp.sn, pp.view) }

    predicate Has(m: Msg) { m == PrePrepare(pp) || m == SlowQc(q) || m == FastQc(f) || m == FinalQc(g) }
  }

  /** The four belong together, to the active view of the replica, and pass the checks of the handlers. */
  ghost predicate Acceptable(c: Config, s: State, t: Quartet) {
    && NotDue(c, s, t.pp.sn) && s.views.active && InWatermarks(c, s, t.pp.sn)
    && t.pp.view == s.views.view && t.pp.sender == c.Primary(s.views.view) && !t.pp.digest.Empty()
    && t.q.sn == t.pp.sn && t.q.view == t.pp.view && t.q.sender == t.pp.sender
    && Verify(TsKey, ForPrepare(SlowVote(t.q)), t.q.sig)
    && t.f.sn == t.pp.sn && t.f.view == t.pp.view && t.f.sender == t.pp.sender
    && Verify(FastKey, ForPrepare(FastVote(t.f)), t.f.sig)
    && t.g.sn == t.pp.sn && t.g.view == t.pp.view && t.g.sender == t.pp.sender
    && Verify(TsKey, ForCommit(t.q), t.g.sig)
  }

  /** The fast certificate came before any slow one, or a pre-prepare came after the fast certificate. */
  predicate FastLeads(t: Quartet, ms: seq<Msg>) {
    if ms == [] then false
    else
      var rest, m := ms[..|ms| - 1], ms[|ms| - 1];
      || FastLeads(t, rest)
      || (m == FastQc(t.f) && SlowQc(t.q) !in rest)
      || (m == PrePrepare(t.pp) && FastQc(t.f) in rest)
  }

  predicate SlowComplete(t: Quartet, ms: seq<Msg>) { SlowQc(t.q) in ms && FinalQc(t.g) in ms }

  function StageAfter(t: Quartet, ms: seq<Msg>): Stage {
    if FastLeads(t, ms) || SlowComplete(t, ms) then Committed else if SlowQc(t.q) in ms then Prepared else Received
  }

  function MessageList(arrivals: seq<Arrival>): (ms: seq<Msg>)
    ensures |ms| == |arrivals| && forall i | 0 <= i < |ms| :: ms[i] == arrivals[i].m
  {
    seq(|arrivals|, i requires 0 <= i < |arrivals| => arrivals[i].m)
  }

  /** The entry for the number is what the messages so far make it. */
  ghost predicate CertAfter(cert: Cert, t: Quartet, ms: seq<Msg>) {
    && cert.stage == StageAfter(t, ms)
    && cert.prepareQc == (if SlowQc(t.q) in ms then Some(t.q) else None)
    && cert.fastQc == (if FastQc(t.f) in ms then Some(t.f) else None)
    && cert.commitQc == (if FinalQc(t.g) in ms then Some(t.g) else None)
    && cert.digest == (if PrePrepare(t.pp) in ms then t.pp.digest else Nil)
  }

  ghost predicate Follows(c: Config, s: State, t: Quartet, ms: seq<Msg>) {
    Acceptable(c, s, t) && CertAfter(CertOf(s, t.Id()), t, ms)
  }

  // ---------------------------------------------------------------- Climbing

  /** What checkIfPrepared makes of a certificate. */
  function Risen(cert: Cert): Stage {
    if cert.stage == Received && cert.fastQc.Some? then Committed
    else if cert.stage == Received && cert.prepareQc.Some? then (if CommitVerifies(cert) then Committed else Prepared)
    else cert.stage
  }

  /** The replica is where it was, but for the entry and what execution it brought. */
  ghost predicate Beside(s: State, t: State, sn: u32) {
    && t.views == s.views && t.marks.h == s.marks.h && t.leader.viewChangeSeq == s.leader.viewChangeSeq
    && t.exec.ids.Keys <= s.exec.ids.Keys + {sn}
  }

  lemma CommitRises(c: Config, s: State, id: MsgId)
    requires NotDue(c, s, id.sn)
    ensures var t := ExecuteRequest(c, PutCert(s, id, CertOf(s, id).(stage := Committed)), id);
            Beside(s, t, id.sn) && CoreEq(CertOf(t, id), CertOf(s, id).(stage := Committed))
  {
    hide ExecuteRequest;
    ExecuteRequestAlike(c, PutCert(s, id, CertOf(s, id).(stage := Committed)), id);
  }

  /** An entry that has just become prepared. */
  lemma PreparedRises(c: Config, s: State, id: MsgId)
    requires NotDue(c, s, id.sn) && CertOf(s, id).stage == Prepared
    ensures var t := CheckIfCommitted(c, s, id);
            Beside(s, t, id.sn)
            && CoreEq(CertOf(t, id), if CommitVerifies(CertOf(s, id)) then CertOf(s, id).(stage := Committed)
                                     else CertOf(s, id))
  {
    hide ExecuteRequest, CommitVerifies;
    CommitRises(c, s, id);
  }

  lemma Rises(c: Config, s: State, id: MsgId)
    requires NotDue(c, s, id.sn)
    ensures var t := CheckIfPrepared(c, s, id);
            Beside(s, t, id.sn) && CoreEq(CertOf(t, id), CertOf(s, id).(stage := Risen(CertOf(s, id))))
  {
    hide ExecuteRequest, CheckIfCommitted, CommitVerifies;
    var p := PutCert(s, id, CertOf(s, id).(stage := Prepared));
    CommitRises(c, s, id);
    PreparedRises(c, p, id);
    SameVerifies(CertOf(s, id), CertOf(p, id));
  }

  lemma SameVerifies(a: Cert, b: Cert)
    requires b == a.(stage := b.stage)
    ensures CommitVerifies(a) == CommitVerifies(b)
  {}

  lemma StaysAcceptable(c: Config, s: State, w: State, t: Quartet)
    requires Acceptable(c, s, t) && Beside(s, w, t.pp.sn)
    ensures Acceptable(c, w, t)
  {}

  // ---------------------------------------------------------------- Fast leads

  lemma LeadsAfter(t: Quartet, ms: seq<Msg>, m: Msg)
    ensures FastLeads(t, ms + [m]) <==>
            FastLeads(t, ms) || (m == FastQc(t.f) && SlowQc(t.q) !in ms) || (m == PrePrepare(t.pp) && FastQc(t.f) in ms)
  {
    assert (ms + [m])[..|ms|] == ms;
  }

  /** A fast certificate that does not lead came after a slow one. */
  lemma {:induction false} UnlessLed(t: Quartet, ms: seq<Msg>)
    ensures FastLeads(t, ms) ==> FastQc(t.f) in ms
    ensures FastQc(t.f) in ms && !FastLeads(t, ms) ==> SlowQc(t.q) in ms
  {
    if ms != [] {
      var rest := ms[..|ms| - 1];
      assert ms == rest + [ms[|ms| - 1]];
      UnlessLed(t, rest);
    }
  }

  // ---------------------------------------------------------------- One message

  // What becomes of the entry when a message is stored in it and it climbs.

  lemma AfterPrePrepare(t: Quartet, ms: seq<Msg>, cert: Cert)
    requires CertAfter(cert, t, ms) && Verify(TsKey, ForCommit(t.q), t.g.sig)
    ensures var b := cert.(stage := Received, digest := t.pp.digest, prePrepare := Some(t.pp));
            CertAfter(b.(stage := Risen(b)), t, ms + [PrePrepare(t.pp)])
  {
    hide FastLeads;
    UnlessLed(t, ms);
    LeadsAfter(t, ms, PrePrepare(t.pp));
  }

  lemma AfterSlowQc(t: Quartet, ms: seq<Msg>, cert: Cert)
    requires CertAfter(cert, t, ms) && Verify(TsKey, ForCommit(t.q), t.g.sig)
    ensures var b := cert.(prepareQc := Some(t.q));
            SlowQc(t.q) !in ms ==> CertAfter(b.(stage := Risen(b)), t, ms + [SlowQc(t.q)])
    ensures SlowQc(t.q) in ms ==> CertAfter(cert, t, ms + [SlowQc(t.q)])
  {
    hide FastLeads;
    UnlessLed(t, ms);
    LeadsAfter(t, ms, SlowQc(t.q));
  }

  lemma AfterFastQc(t: Quartet, ms: seq<Msg>, cert: Cert)
    requires CertAfter(cert, t, ms)
    ensures var b := cert.(fastQc := Some(t.f));
            FastQc(t.f) !in ms ==> CertAfter(b.(stage := Risen(b)), t, ms + [FastQc(t.f)])
    ensures FastQc(t.f) in ms ==> CertAfter(cert, t, ms + [FastQc(t.f)])
  {
    hide FastLeads;
    UnlessLed(t, ms);
    LeadsAfter(t, ms, FastQc(t.f));
  }

  lemma AfterFinalQc(t: Quartet, ms: seq<Msg>, cert: Cert)
    requires CertAfter(cert, t, ms) && Verify(TsKey, ForCommit(t.q), t.g.sig)
    ensures var b := cert.(commitQc := Some(t.g));
            FinalQc(t.g) !in ms ==>
              && (CommitVerifies(b) <==> SlowQc(t.q) in ms)
              && CertAfter(if SlowQc(t.q) in ms then b.(stage := Committed) else b, t, ms + [FinalQc(t.g)])
    ensures FinalQc(t.g) in ms ==> CertAfter(cert, t, ms + [FinalQc(t.g)])
  {
    hide FastLeads;
    UnlessLed(t, ms);
    LeadsAfter(t, ms, FinalQc(t.g));
  }

  lemma OnPrePrepare(c: Config, s: State, t: Quartet, ms: seq<Msg>)
    requires Follows(c, s, t, ms)
    ensures Follows(c, HandlePrePrepare(c, s, t.pp), t, ms + [PrePrepare(t.pp)])
    ensures Beside(s, HandlePrePrepare(c, s, t.pp), t.pp.sn)
  {
    hide SendViewChange, CheckIfPrepared, CastVote, InWatermarks, StageAfter, Risen;
    var s1 := StorePrePrepare(s, t.Id(), t.pp);
    AfterPrePrepare(t, ms, CertOf(s, t.Id()));
    Rises(c, s1, t.Id());
    CastVoteAlike(c, CheckIfPrepared(c, s1, t.Id()), t.pp.sn);
    StaysAcceptable(c, s, HandlePrePrepare(c, s, t.pp), t);
  }

  lemma OnSlowQc(c: Config, s: State, t: Quartet, ms: seq<Msg>)
    requires Follows(c, s, t, ms)
    ensures Follows(c, HandleSlowQc(c, s, t.q), t, ms + [SlowQc(t.q)]) && Beside(s, HandleSlowQc(c, s, t.q), t.pp.sn)
  {
    hide SendViewChange, CheckIfPrepared, InWatermarks, StageAfter, Risen;
    AfterSlowQc(t, ms, CertOf(s, t.Id()));
    Rises(c, PutCert(s, t.Id(), CertOf(s, t.Id()).(prepareQc := Some(t.q))), t.Id());
    StaysAcceptable(c, s, HandleSlowQc(c, s, t.q), t);
  }

  lemma OnFastQc(c: Config, s: State, t: Quartet, ms: seq<Msg>)
    requires Follows(c, s, t, ms)
    ensures Follows(c, HandleFastQc(c, s, t.f), t, ms + [FastQc(t.f)]) && Beside(s, HandleFastQc(c, s, t.f), t.pp.sn)
  {
    hide CheckIfPrepared, InWatermarks, StageAfter, Risen;
    AfterFastQc(t, ms, CertOf(s, t.Id()));
    Rises(c, PutCert(s, t.Id(), CertOf(s, t.Id()).(fastQc := Some(t.f))), t.Id());
    StaysAcceptable(c, s, HandleFastQc(c, s, t.f), t);
  }

  lemma OnFinalQc(c: Config, s: State, t: Quartet, ms: seq<Msg>)
    requires Follows(c, s, t, ms)
    ensures Follows(c, HandleFinalQc(c, s, t.g), t, ms + [FinalQc(t.g)]) && Beside(s, HandleFinalQc(c, s, t.g), t.pp.sn)
  {
    hide SendViewChange, ExecuteRequest, InWatermarks, CommitVerifies, FastLeads;
    var s1 := PutCert(s, t.Id(), CertOf(s, t.Id()).(commitQc := Some(t.g)));
    AfterFinalQc(t, ms, CertOf(s, t.Id()));
    CommitRises(c, s1, t.Id());
    StaysAcceptable(c, s, HandleFinalQc(c, s, t.g), t);
  }

  lemma OnAny(c: Config, s: State, t: Quartet, ms: seq<Msg>, m: Msg)
    requires Follows(c, s, t, ms) && t.Has(m)
    ensures Follows(c, Dispatch(c, s, m), t, ms + [m]) && Dispatch(c, s, m).views.view == s.views.view
  {
    hide HandlePrePrepare, HandleSlowQc, HandleFastQc, HandleFinalQc, StageAfter, InWatermarks, CertAfter;
    if m.PrePrepare? {
      OnPrePrepare(c, s, t, ms);
    } else if m.SlowQc? {
      OnSlowQc(c, s, t, ms);
    } else if m.FastQc? {
      OnFastQc(c, s, t, ms);
    } else {
      OnFinalQc(c, s, t, ms);
    }
  }

  lemma ClockOff(c: Config, s: State, t: Quartet, ms: seq<Msg>, now: int)
    requires Follows(c, s, t, ms)
    ensures Follows(c, s.(clock := now), t, ms)
  {
    hide StageAfter;
  }

  // ---------------------------------------------------------------- Any deliveries

  /** Over any deliveries of the four messages, the number is committed exactly when the fast certificate
      led or both slow-path certificates are in; otherwise it is prepared exactly when the slow one is. */
  lemma {:induction false} CommitsExactly(c: Config, s: State, t: Quartet, a: seq<Arrival>)
    requires Acceptable(c, s, t) && CoreEq(CertOf(s, t.Id()), FRESH)
    requires (forall x | x in a :: t.Has(x.m)) && !Receive(c, s, a).panicked
    ensures Follows(c, Receive(c, s, a), t, MessageList(a))
    ensures CertOf(Receive(c, s, a), t.Id()).stage == StageAfter(t, MessageList(a))
  {
    hide Dispatch, StageAfter, InWatermarks, CoreEq, Follows, Acceptable, Quartet.Has;
    if a == [] {
      FollowsNothing(c, s, t);
      assert MessageList(a) == [];
    } else {
      var rest, x := a[..|a| - 1], a[|a| - 1];
      assert a == rest + [x];
      CommitsExactly(c, s, t, rest);
      assert MessageList(a) == MessageList(rest) + [x.m];
      ClockOff(c, Receive(c, s, rest), t, MessageList(rest), x.now);
      OnAny(c, Receive(c, s, rest).(clock := x.now), t, MessageList(rest), x.m);
    }
    FollowsStage(c, Receive(c, s, a), t, MessageList(a));
  }

  lemma FollowsStage(c: Config, s: State, t: Quartet, ms: seq<Msg>)
    requires Follows(c, s, t, ms)
    ensures CertOf(s, t.Id()).stage == StageAfter(t, ms)
  {}

  lemma FollowsNothing(c: Config, s: State, t: Quartet)
    requires Acceptable(c, s, t) && CoreEq(CertOf(s, t.Id()), FRESH)
    ensures Follows(c, s, t, [])
  {}

  lemma {:induction false} BackupLives(c: Config, s: State, t: Quartet, a: seq<Arrival>)
    requires Acceptable(c, s, t) && CoreEq(CertOf(s, t.Id()), FRESH) && !s.panicked && !IsPrimary(c, s)
    requires forall x | x in a :: t.Has(x.m)
    ensures !Receive(c, s, a).panicked && Receive(c, s, a).views.view == s.views.view
  {
    hide Dispatch, Follows, CoreEq, InWatermarks;
    if a != [] {
      var rest, x := a[..|a| - 1], a[|a| - 1];
      assert a == rest + [x];
      BackupLives(c, s, t, rest);
      CommitsExactly(c, s, t, rest);
      ClockOff(c, Receive(c, s, rest), t, MessageList(rest), x.now);
      OnAny(c, Receive(c, s, rest).(clock := x.now), t, MessageList(rest), x.m);
      PartHarmless(c, Receive(c, s, rest).(clock := x.now), x.m);
    }
  }

  // ---------------------------------------------------------------- When the order matters

  ghost predicate SameMessages(a: seq<Msg>, b: seq<Msg>) { forall m :: m in a <==> m in b }

  /** Every order and repetition of the messages in ms leads to the same stage. */
  ghost predicate OrderIrrelevant(t: Quartet, ms: seq<Msg>) {
    forall a | SameMessages(a, ms) :: StageAfter(t, a) == StageAfter(t, ms)
  }

  /** The order matters exactly when a slow and a fast certificate are in without the commit certificate.
      In particular, all four messages commit the number in whatever order they come. */
  lemma OrderMattersExactly(t: Quartet, ms: seq<Msg>)
    requires forall m | m in ms :: t.Has(m)
    ensures OrderIrrelevant(t, ms) <==> !(SlowQc(t.q) in ms && FastQc(t.f) in ms && FinalQc(t.g) !in ms)
  {
    hide FastLeads;
    forall a | SameMessages(a, ms)
      ensures StageAfter(t, a) == StageAfter(t, ms) || (SlowQc(t.q) in ms && FastQc(t.f) in ms && FinalQc(t.g) !in ms)
    {
      UnlessLed(t, a);
      UnlessLed(t, ms);
    }
    if SlowQc(t.q) in ms && FastQc(t.f) in ms && FinalQc(t.g) !in ms {
      var first: seq<Msg> := if PrePrepare(t.pp) in ms then [PrePrepare(t.pp)] else [];
      var a, b := first + [FastQc(t.f)] + [SlowQc(t.q)], first + [SlowQc(t.q)] + [FastQc(t.f)];
      BothOrders(t, first);
      assert SameMessages(a, ms) && SameMessages(b, ms);
    }
  }

  lemma BothOrders(t: Quartet, first: seq<Msg>)
    requires first == [] || first == [PrePrepare(t.pp)]
    ensures StageAfter(t, first + [FastQc(t.f)] + [SlowQc(t.q)]) == Committed
    ensures StageAfter(t, first + [SlowQc(t.q)] + [FastQc(t.f)]) == Prepared
  {
    LeadsAfter(t, [], PrePrepare(t.pp));
    assert first == [] || first == [] + [PrePrepare(t.pp)];
    LeadsAfter(t, first, FastQc(t.f));
    LeadsAfter(t, first + [FastQc(t.f)], SlowQc(t.q));
    LeadsAfter(t, first, SlowQc(t.q));
    LeadsAfter(t, first + [SlowQc(t.q)], FastQc(t.f));
  }

  /** So the same three messages can leave one replica committed and another prepared. */
  lemma OrderCanMatter(c: Config, s: State, t: Quartet, now: int)
    requires Acceptable(c, s, t) && CoreEq(CertOf(s, t.Id()), FRESH) && !s.panicked && !IsPrimary(c, s)
    ensures exists a, b :: Messages(a) == Messages(b)
              && CertOf(Receive(c, s, a), t.Id()).stage == Committed
                 && CertOf(Receive(c, s, b), t.Id()).stage == Prepared
  {
    hide Receive, Acceptable, CoreEq, StageAfter, IsPrimary, MessageList;
    var p, q, f := Arrival(now, PrePrepare(t.pp)), Arrival(now, SlowQc(t.q)), Arrival(now, FastQc(t.f));
    ThreeListed(p, q, f);
    BackupLives(c, s, t, [p, f, q]);
    CommitsExactly(c, s, t, [p, f, q]);
    BackupLives(c, s, t, [p, q, f]);
    CommitsExactly(c, s, t, [p, q, f]);
    BothOrders(t, [p.m]);
  }

  lemma ThreeListed(p: Arrival, q: Arrival, f: Arrival)
    ensures MessageList([p, f, q]) == [p.m] + [f.m] + [q.m] && MessageList([p, q, f]) == [p.m] + [q.m] + [f.m]
    ensures Messages([p, f, q]) == Messages([p, q, f])
  {
    assert forall x :: x in [p, f, q] <==> x in [p, q, f];
  }
}
