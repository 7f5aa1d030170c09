/** The order in which messages arrive does not matter: for any set of numbers of one view, each with
    its pre-prepare and either its slow or its fast certificates, a replica's certificates and its
    execution depend only on which messages have arrived, however often and in whatever order. */
module Delivery {
  import opened Types
  import opened ReplicaState
  import opened Assignment
  import opened Handlers
  import opened Frames

  // ---------------------------------------------------------------- The messages

  datatype Path = Slow(pqc: PrepareQc, cqc: CommitQc) | Fast(fqc: FastPrepareQc)
  datatype Item = Item(pp: PrePrepareMsg, path: Path)

  /** One item for each number of the view under way. */
  type Plan = map<u32, Item>

  ghost predicate ItemOk(c: Config, view: nat, sn: u32, item: Item) {
    && item.pp.sn == sn && item.pp.view == view && item.pp.sender == c.Primary(view) && !item.pp.digest.Empty()
    && match item.path
       case Slow(q, f) =>
         && q.sn == sn && q.view == view && q.sender == c.Primary(view) && Verify(TsKey, ForPrepare(SlowVote(q)), q.sig)
         && f.sn == sn && f.view == view && f.sender == c.Primary(view) && Verify(TsKey, ForCommit(q), f.sig)
       case Fast(q) =>
         q.sn == sn && q.view == view && q.sender == c.Primary(view) && Verify(FastKey, ForPrepare(FastVote(q)), q.sig)
  }

  ghost predicate IsPart(item: Item, m: Msg) {
    || m == PrePrepare(item.pp)
    || (item.path.Slow? && (m == SlowQc(item.path.pqc) || m == FinalQc(item.path.cqc)))
    || (item.path.Fast? && m == FastQc(item.path.fqc))
  }

  ghost predicate InPlan(plan: Plan, m: Msg) { exists sn :: sn in plan && IsPart(plan[sn], m) }

  // ---------------------------------------------------------------- What has arrived determines

  /** The certificates that take an item to the committed stage are in. */
  predicate Done(item: Item, got: set<Msg>) {
    match item.path
    case Slow(q, f) => SlowQc(q) in got && FinalQc(f) in got
    case Fast(q) => FastQc(q) in got
  }

  predicate Ready(item: Item, got: set<Msg>) { Done(item, got) && PrePrepare(item.pp) in got }

  function StageOf(item: Item, got: set<Msg>): Stage {
    if Done(item, got) then Committed
    else if item.path.Slow? && SlowQc(item.path.pqc) in got then Prepared
    else Received
  }

  /** The entry of the certificate store, but for its bookkeeping of votes. */
  predicate CertIs(cert: Cert, item: Item, got: set<Msg>) {
    && cert.stage == StageOf(item, got)
    && cert.prePrepare == (if PrePrepare(item.pp) in got then Some(item.pp) else None)
    && cert.digest == (if PrePrepare(item.pp) in got then item.pp.digest else Nil)
    && (match item.path
        case Slow(q, f) =>
          && cert.prepareQc == (if SlowQc(q) in got then Some(q) else None)
          && cert.commitQc == (if FinalQc(f) in got then Some(f) else None) && cert.fastQc == None
        case Fast(q) =>
          cert.fastQc == (if FastQc(q) in got then Some(q) else None) && cert.prepareQc == None
              && cert.commitQc == None)
  }

  ghost predicate CertsAre(s: State, plan: Plan, got: set<Msg>) {
    forall sn | sn in plan :: CertIs(CertOf(s, MsgId(sn, s.views.view)), plan[sn], got)
  }

  function BufferedDigest(item: Item, got: set<Msg>): Digest {
    if PrePrepare(item.pp) in got then item.pp.digest else Nil
  }

  /** The log of what is executed beyond number `from`. */
  function LogOf(plan: Plan, view: nat, from: u32, last: u32): seq<Executed>
    requires from <= last && forall sn: u32 | from < sn <= last :: sn in plan
    decreases last
  {
    if last == from then []
        else LogOf(plan, view, from, last - 1) + [Executed(last, MsgId(last, view), plan[last].pp.digest)]
  }

  /** The buffer beyond `from` holds what is done, and every number up to `last` is ready and logged. */
  ghost predicate Buffered(plan: Plan, view: nat, from: u32, past: seq<Executed>, e: Execution, got: set<Msg>) {
    && e.digests.Keys == e.ids.Keys && from <= e.last
    && (forall sn: u32 | from < sn :: sn in e.ids <==> sn in plan && Done(plan[sn], got))
    && (forall sn: u32 | from < sn && sn in e.ids ::
          e.ids[sn] == MsgId(sn, view) && e.digests[sn] == BufferedDigest(plan[sn], got))
    && (forall sn: u32 | from < sn <= e.last :: sn in plan && Ready(plan[sn], got))
    && e.log == past + LogOf(plan, view, from, e.last)
  }

  /** ... and the next one is not: executed is exactly the longest ready stretch. */
  ghost predicate ExecIs(plan: Plan, view: nat, from: u32, past: seq<Executed>, e: Execution, got: set<Msg>) {
    && Buffered(plan, view, from, past, e, got)
    && (e.last + 1 < MOD ==> !(e.last + 1 in plan && Ready(plan[e.last + 1], got)))
  }

  /** No number of the plan is one after which the primary is to change on its own account. */
  ghost predicate Steady(c: Config, plan: Plan, s: State) {
    c.auto ==> forall sn | sn in plan :: sn < s.leader.viewChangeSeq
  }

  /** A replica, active in the view with every number of the plan in its window, that has received
      exactly `got` of the plan's messages. */
  ghost predicate Tracks(c: Config, plan: Plan, from: u32, past: seq<Executed>, s: State, got: set<Msg>) {
    && s.views.active && Steady(c, plan, s)
    && (forall sn | sn in plan :: from < sn && InWatermarks(c, s, sn) && ItemOk(c, s.views.view, sn, plan[sn]))
    && CertsAre(s, plan, got)
    && ExecIs(plan, s.views.view, from, past, s.exec, got)
  }

  // ---------------------------------------------------------------- Execution

  /** The state differs at most in the bookkeeping of votes, in messages sent and in checkpoints taken. */
  ghost predicate Alike(s: State, t: State) {
    && t.views == s.views && t.marks.h == s.marks.h && t.leader.viewChangeSeq == s.leader.viewChangeSeq
    && forall id :: CoreEq(CertOf(s, id), CertOf(t, id))
  }

  predicate CoreEq(a: Cert, b: Cert) {
    && a.stage == b.stage && a.digest == b.digest && a.prePrepare == b.prePrepare
    && a.prepareQc == b.prepareQc && a.fastQc == b.fastQc && a.commitQc == b.commitQc
  }

  lemma RunsNext(plan: Plan, view: nat, from: u32, past: seq<Executed>, e: Execution, got: set<Msg>)
    requires Buffered(plan, view, from, past, e, got) && Executable(e)
    ensures e.last + 1 in plan && Buffered(plan, view, from, past, LogNext(e), got)
  {
    var sn := e.last + 1;
    assert sn in plan && e.digests[sn] == BufferedDigest(plan[sn], got);
  }

  /** The loop of executeRequest runs exactly to the first number that is not ready. */
  lemma {:induction false} RunsReady(c: Config, plan: Plan, view: nat, from: u32, past: seq<Executed>, s: State,
                                     got: set<Msg>)
    requires Steady(c, plan, s) && Buffered(plan, view, from, past, s.exec, got)
    requires forall sn | sn in plan :: !plan[sn].pp.digest.Empty()
    ensures ExecIs(plan, view, from, past, ExecuteAll(c, s).exec, got) && Alike(s, ExecuteAll(c, s))
    decreases MOD - s.exec.last
  {
    hide LogOf, Ready;
    if Executable(s.exec) {
      RunsNext(plan, view, from, past, s.exec, got);
      NextAlike(c, s);
      RunsReady(c, plan, view, from, past, ExecuteNext(c, s), got);
    } else {
      NothingNext(plan, view, from, past, s.exec, got);
    }
  }

  lemma NextAlike(c: Config, s: State)
    requires Executable(s.exec) && (c.auto ==> s.exec.last + 1 != s.leader.viewChangeSeq)
    ensures Alike(s, ExecuteNext(c, s))
  {}

  /** Executing what is buffered, and number sn, will not bring a view change of the replica's own. */
  predicate NotDue(c: Config, s: State, sn: u32) {
    c.auto ==> s.leader.viewChangeSeq !in s.exec.ids && sn < s.leader.viewChangeSeq
  }

  /** Then executing moves no certificate. */
  lemma {:induction false} ExecuteAllAlike(c: Config, s: State)
    requires c.auto ==> s.leader.viewChangeSeq !in s.exec.ids
    ensures Alike(s, ExecuteAll(c, s)) && ExecuteAll(c, s).exec.ids == s.exec.ids
    decreases MOD - s.exec.last
  {
    hide Alike, ExecuteNext;
    AlikeSelf(s);
    if Executable(s.exec) {
      NextAlike(c, s);
      NextSeq(c, s);
      ExecuteAllAlike(c, ExecuteNext(c, s));
      AlikeTransitive(s, ExecuteNext(c, s), ExecuteAll(c, s));
    }
  }

  lemma NextSeq(c: Config, s: State)
    requires Executable(s.exec)
    ensures ExecuteNext(c, s).leader.viewChangeSeq == s.leader.viewChangeSeq
  {}

  lemma ExecuteRequestAlike(c: Config, s: State, id: MsgId)
    requires NotDue(c, s, id.sn)
    ensures Alike(s, ExecuteRequest(c, s, id)) && ExecuteRequest(c, s, id).exec.ids.Keys <= s.exec.ids.Keys + {id.sn}
  {
    hide ExecuteAll, Alike;
    PutAlike(s, id, CertOf(s, id));
    ExecAside(s, Touch(s, id), Buffer(s, id).exec);
    ExecuteAllAlike(c, Buffer(s, id));
    AlikeTransitive(s, Buffer(s, id), ExecuteAll(c, Buffer(s, id)));
  }

  lemma NothingNext(plan: Plan, view: nat, from: u32, past: seq<Executed>, e: Execution, got: set<Msg>)
    requires Buffered(plan, view, from, past, e, got) && !Executable(e)
    requires forall sn | sn in plan :: !plan[sn].pp.digest.Empty()
    ensures e.last + 1 < MOD ==> !(e.last + 1 in plan && Ready(plan[e.last + 1], got))
  {}

  /** Nothing about the other items changes with the arrival of m. */
  ghost predicate OthersSame(plan: Plan, sn: u32, got: set<Msg>, m: Msg) {
    forall k | k in plan && k != sn ::
      Done(plan[k], got + {m}) == Done(plan[k], got)
          && BufferedDigest(plan[k], got + {m}) == BufferedDigest(plan[k], got)
      && Ready(plan[k], got + {m}) == Ready(plan[k], got)
  }

  lemma BuffersItem(plan: Plan, view: nat, from: u32, past: seq<Executed>, e: Execution, sn: u32, got: set<Msg>, m: Msg)
    requires Buffered(plan, view, from, past, e, got) && OthersSame(plan, sn, got, m)
    requires sn in plan && from < sn && Done(plan[sn], got + {m})
    ensures Buffered(plan, view, from, past, e.(ids := e.ids[sn := MsgId(sn, view)],
                                               digests := e.digests[sn := BufferedDigest(plan[sn], got + {m})]),
                                                   got + {m})
  {
    hide LogOf, BufferedDigest;
  }

  lemma OthersAreSame(c: Config, view: nat, plan: Plan, sn: u32, got: set<Msg>, m: Msg)
    requires sn in plan && IsPart(plan[sn], m) && forall k | k in plan :: ItemOk(c, view, k, plan[k])
    ensures OthersSame(plan, sn, got, m)
  {
    hide ItemOk, IsPart, Done, BufferedDigest;
    forall k | k in plan && k != sn
      ensures Done(plan[k], got + {m}) == Done(plan[k], got)
              && BufferedDigest(plan[k], got + {m}) == BufferedDigest(plan[k], got)
              && Ready(plan[k], got + {m}) == Ready(plan[k], got)
    {
      OtherItem(c, view, plan, sn, k, got, m);
    }
  }

  /** A message that completes an item (or comes again for a complete one) leads to executeRequest. */
  lemma CompletesItem(c: Config, plan: Plan, from: u32, past: seq<Executed>, s: State, sn: u32, got: set<Msg>, m: Msg)
    requires Steady(c, plan, s) && sn in plan && from < sn && IsPart(plan[sn], m) && Done(plan[sn], got + {m})
    requires forall k | k in plan :: ItemOk(c, s.views.view, k, plan[k])
    requires ExecIs(plan, s.views.view, from, past, s.exec, got)
    requires CertOf(s, MsgId(sn, s.views.view)).digest == BufferedDigest(plan[sn], got + {m})
    ensures var t := ExecuteRequest(c, s, MsgId(sn, s.views.view));
            ExecIs(plan, s.views.view, from, past, t.exec, got + {m}) && Alike(s, t)
  {
    hide LogOf, ItemOk, IsPart, Done, BufferedDigest, Ready, ExecuteAll, Alike;
    var view := s.views.view;
    var b := Buffer(s, MsgId(sn, view));
    OthersAreSame(c, view, plan, sn, got, m);
    BuffersItem(plan, view, from, past, s.exec, sn, got, m);
    PutAlike(s, MsgId(sn, view), CertOf(s, MsgId(sn, view)));
    ExecAside(s, Touch(s, MsgId(sn, view)), b.exec);
    forall k | k in plan ensures !plan[k].pp.digest.Empty() { NonEmpty(c, view, k, plan[k]); }
    RunsReady(c, plan, view, from, past, b, got + {m});
    AlikeTransitive(s, b, ExecuteAll(c, b));
  }

  lemma ExecAside(s: State, t: State, e: Execution)
    requires Alike(s, t)
    ensures Alike(s, t.(exec := e))
  {}

  lemma AlikeTransitive(s: State, t: State, w: State)
    requires Alike(s, t) && Alike(t, w)
    ensures Alike(s, w)
  {}

  lemma NonEmpty(c: Config, view: nat, k: u32, item: Item)
    requires ItemOk(c, view, k, item)
    ensures !item.pp.digest.Empty()
  {}

  /** A message of one item says nothing of another. */
  lemma OtherItem(c: Config, view: nat, plan: Plan, sn: u32, k: u32, got: set<Msg>, m: Msg)
    requires sn in plan && k in plan && k != sn && IsPart(plan[sn], m)
    requires ItemOk(c, view, sn, plan[sn]) && ItemOk(c, view, k, plan[k])
    ensures Done(plan[k], got + {m}) == Done(plan[k], got) && StageOf(plan[k], got + {m}) == StageOf(plan[k], got)
    ensures BufferedDigest(plan[k], got + {m}) == BufferedDigest(plan[k], got)
    ensures Ready(plan[k], got + {m}) == Ready(plan[k], got)
    ensures forall cert :: CertIs(cert, plan[k], got + {m}) == CertIs(cert, plan[k], got)
  {}

  // ---------------------------------------------------------------- One message arrives

  /** As Alike, but certificate `id` may have moved. */
  ghost predicate AlikeBut(s: State, t: State, id: MsgId) {
    && t.views == s.views && t.marks.h == s.marks.h && t.leader.viewChangeSeq == s.leader.viewChangeSeq
    && forall k | k != id :: CoreEq(CertOf(s, k), CertOf(t, k))
  }

  /** The handlers of votes move no certificate. */
  lemma CastVoteAlike(c: Config, s: State, sn: u32)
    ensures Alike(s, CastVote(c, s, sn)) && CastVote(c, s, sn).exec == s.exec
    ensures CastVote(c, s, sn).panicked ==> s.panicked || IsPrimary(c, s)
  {
    hide HandlePrepare;
    var t := SignVote(s, OwnVote(s, sn));
    HandlePrepareAlike(c, t, PrepareFor(c, OwnVote(s, sn)));
    AlikeTransitive(s, t, HandlePrepare(c, t, PrepareFor(c, OwnVote(s, sn))));
  }

  lemma HandlePrepareAlike(c: Config, s: State, pm: PrepareMsg)
    ensures Alike(s, HandlePrepare(c, s, pm)) && HandlePrepare(c, s, pm).exec == s.exec
  {
    hide Alike, HandlePrepareVote;
    var id := MsgId(pm.vote.sn, s.views.view);
    var cert := CertOf(s, id);
    AlikeSelf(s);
    PutAlike(s, id, cert);
    var t := PutCert(s, id, cert.(prepares := cert.prepares[pm.sender := pm]));
    PutAlike(s, id, cert.(prepares := cert.prepares[pm.sender := pm]));
    HandlePrepareVoteAlike(c, t, pm);
    AlikeTransitive(s, t, HandlePrepareVote(c, t, pm));
  }

  lemma HandlePrepareVoteAlike(c: Config, s: State, pm: PrepareMsg)
    ensures Alike(s, HandlePrepareVote(c, s, pm)) && HandlePrepareVote(c, s, pm).exec == s.exec
  {
    hide Alike, CheckIfPrepareQc, IssueFastQc, RecordVote;
    var id := MsgId(pm.vote.sn, pm.vote.view);
    var k := pm.vote.digest.Key();
    var t := RecordVote(s, id, k, pm);
    RecordVoteAlike(s, id, k, pm);
    CheckIfPrepareQcAlike(c, t, id, k);
    IssueFastQcAlike(c, t, id, k);
    PanicAlike(s, t);
    AlikeTransitive(s, t, CheckIfPrepareQc(c, t, id, k));
    AlikeTransitive(s, t, IssueFastQc(c, t, id, k));
  }

  lemma RecordVoteAlike(s: State, id: MsgId, k: Digest, pm: PrepareMsg)
    ensures Alike(s, RecordVote(s, id, k, pm)) && RecordVote(s, id, k, pm).exec == s.exec
  {}

  lemma CheckIfPrepareQcAlike(c: Config, s: State, id: MsgId, k: Digest)
    ensures Alike(s, CheckIfPrepareQc(c, s, id, k)) && CheckIfPrepareQc(c, s, id, k).exec == s.exec
  {
    hide Recover, Recoverable, Alike;
    var t := PutCert(s, id, CertOf(s, id).(qcSent := true));
    PutAlike(s, id, CertOf(s, id));
    PutAlike(s, id, CertOf(s, id).(qcSent := true));
    PanicAlike(s, t);
    OutboxAlike(s, t, IssueSlowQc(c, s, id, k).outbox);
  }

  lemma IssueFastQcAlike(c: Config, s: State, id: MsgId, k: Digest)
    ensures Alike(s, IssueFastQc(c, s, id, k)) && IssueFastQc(c, s, id, k).exec == s.exec
  {
    hide Recover, Recoverable, Alike;
    var t := PutCert(s, id, CertOf(s, id).(qcSent := true));
    PutAlike(s, id, CertOf(s, id).(qcSent := true));
    PanicAlike(s, t);
    OutboxAlike(s, t, IssueFastQc(c, s, id, k).outbox);
  }

  lemma OutboxAlike(s: State, t: State, outbox: seq<Msg>)
    requires Alike(s, t)
    ensures Alike(s, t.(outbox := outbox))
  {}

  lemma PutAlike(s: State, id: MsgId, cert: Cert)
    requires CoreEq(CertOf(s, id), cert)
    ensures Alike(s, PutCert(s, id, cert))
  {}

  lemma AlikeSelf(s: State)
    ensures Alike(s, s)
  {}

  lemma PanicAlike(s: State, t: State)
    requires Alike(s, t)
    ensures Alike(s, t.(panicked := true))
  {}

  lemma NotDone(plan: Plan, view: nat, from: u32, past: seq<Executed>, e: Execution, sn: u32, got: set<Msg>, m: Msg)
    requires sn in plan && !Done(plan[sn], got + {m}) && OthersSame(plan, sn, got, m)
    requires ExecIs(plan, view, from, past, e, got)
    ensures ExecIs(plan, view, from, past, e, got + {m})
  {
    hide LogOf, BufferedDigest;
  }

  /** The entry for `sn` is as it should be after m, but still at the received stage. */
  ghost predicate Reset(c: Config, plan: Plan, s: State, sn: u32, got: set<Msg>) {
    && Steady(c, plan, s) && sn in plan
    && (forall k | k in plan :: ItemOk(c, s.views.view, k, plan[k]))
    && var cert := CertOf(s, MsgId(sn, s.views.view));
       cert.stage == Received && CertIs(cert.(stage := StageOf(plan[sn], got)), plan[sn], got)
  }

  /** With its certificates in, it is committed and executeRequest is called. */
  lemma Commits(c: Config, plan: Plan, s: State, sn: u32, got: set<Msg>)
    requires Reset(c, plan, s, sn, got) && Done(plan[sn], got)
    ensures var id := MsgId(sn, s.views.view);
            CheckIfPrepared(c, s, id) == ExecuteRequest(c, PutCert(s, id, CertOf(s, id).(stage := Committed)), id)
  {
    hide ExecuteRequest;
    var id := MsgId(sn, s.views.view);
    assert ItemOk(c, s.views.view, sn, plan[sn]);
    if plan[sn].path.Slow? {
      var t := PutCert(s, id, CertOf(s, id).(stage := Prepared));
      assert PutCert(t, id, CertOf(t, id).(stage := Committed)).certs
             == PutCert(s, id, CertOf(s, id).(stage := Committed)).certs;
    }
  }

  /** Without them it stays below. */
  lemma StaysBelow(c: Config, plan: Plan, s: State, sn: u32, got: set<Msg>)
    requires Reset(c, plan, s, sn, got) && !Done(plan[sn], got)
    ensures var t := CheckIfPrepared(c, s, MsgId(sn, s.views.view));
            && t == s.(certs := t.certs) && CertIs(CertOf(t, MsgId(sn, s.views.view)), plan[sn], got)
            && AlikeBut(s, t, MsgId(sn, s.views.view))
  {
    hide ExecuteRequest;
    assert ItemOk(c, s.views.view, sn, plan[sn]);
  }

  /** From there it climbs exactly as far as what has arrived allows, and executes when it may. */
  lemma Climbs(c: Config, plan: Plan, from: u32, past: seq<Executed>, s: State, sn: u32, got: set<Msg>, m: Msg)
    requires Reset(c, plan, s, sn, got + {m}) && from < sn && IsPart(plan[sn], m)
    requires ExecIs(plan, s.views.view, from, past, s.exec, got)
    ensures var t := CheckIfPrepared(c, s, MsgId(sn, s.views.view));
            && CertIs(CertOf(t, MsgId(sn, s.views.view)), plan[sn], got + {m})
            && ExecIs(plan, s.views.view, from, past, t.exec, got + {m}) && AlikeBut(s, t, MsgId(sn, s.views.view))
  {
    hide ExecIs, IsPart, ExecuteRequest, CheckIfPrepared, ItemOk, Done;
    var id := MsgId(sn, s.views.view);
    if Done(plan[sn], got + {m}) {
      var t := PutCert(s, id, CertOf(s, id).(stage := Committed));
      Commits(c, plan, s, sn, got + {m});
      CompletesItem(c, plan, from, past, t, sn, got, m);
    } else {
      StaysBelow(c, plan, s, sn, got + {m});
      OthersAreSame(c, s.views.view, plan, sn, got, m);
      NotDone(plan, s.views.view, from, past, s.exec, sn, got, m);
    }
  }

  lemma Rebuild(c: Config, plan: Plan, from: u32, past: seq<Executed>, s: State, t: State, sn: u32, got: set<Msg>,
                m: Msg)
    requires Tracks(c, plan, from, past, s, got) && sn in plan && IsPart(plan[sn], m)
    requires AlikeBut(s, t, MsgId(sn, s.views.view))
    requires CertIs(CertOf(t, MsgId(sn, s.views.view)), plan[sn], got + {m})
    requires ExecIs(plan, s.views.view, from, past, t.exec, got + {m})
    ensures Tracks(c, plan, from, past, t, got + {m})
  {
    hide ItemOk, IsPart, ExecIs, CertIs;
    forall k | k in plan ensures CertIs(CertOf(t, MsgId(k, t.views.view)), plan[k], got + {m}) {
      if k != sn {
        OtherItem(c, s.views.view, plan, sn, k, got, m);
        CoreDecides(CertOf(s, MsgId(k, t.views.view)), CertOf(t, MsgId(k, t.views.view)), plan[k], got);
      }
    }
  }

  lemma CoreDecides(a: Cert, b: Cert, item: Item, got: set<Msg>)
    requires CoreEq(a, b)
    ensures CertIs(a, item, got) == CertIs(b, item, got)
  {}

  lemma Again(c: Config, plan: Plan, from: u32, past: seq<Executed>, s: State, sn: u32, got: set<Msg>, m: Msg)
    requires Tracks(c, plan, from, past, s, got) && m in got
    ensures Tracks(c, plan, from, past, Touch(s, MsgId(sn, s.views.view)), got + {m})
  {
    hide ItemOk, ExecIs, CertIs;
    assert got + {m} == got;
  }

  lemma PrePrepareArrives(c: Config, plan: Plan, from: u32, past: seq<Executed>, s: State, sn: u32, got: set<Msg>)
    requires Tracks(c, plan, from, past, s, got) && sn in plan
    ensures HandlePrePrepare(c, s, plan[sn].pp).views == s.views
    ensures Tracks(c, plan, from, past, HandlePrePrepare(c, s, plan[sn].pp), got + {PrePrepare(plan[sn].pp)})
  {
    hide ExecIs, CheckIfPrepared, SendViewChange, CastVote, InWatermarks, StageOf, Done;
    var id := MsgId(sn, s.views.view);
    var m := PrePrepare(plan[sn].pp);
    var t := StorePrePrepare(s, id, plan[sn].pp);
    assert ItemOk(c, s.views.view, sn, plan[sn]) && CertIs(CertOf(s, id), plan[sn], got);
    StoredReset(CertOf(s, id), CertOf(t, id), plan[sn], got);
    Climbs(c, plan, from, past, t, sn, got, m);
    var t1 := CheckIfPrepared(c, t, id);
    var t2 := CastVote(c, t1, sn);
    VotedRebuild(c, plan, from, past, s, t1, sn, got, m);
    assert HandlePrePrepare(c, s, plan[sn].pp) == t2;
  }

  lemma VotedRebuild(c: Config, plan: Plan, from: u32, past: seq<Executed>, s: State, t: State, sn: u32, got: set<Msg>,
                     m: Msg)
    requires Tracks(c, plan, from, past, s, got) && sn in plan && IsPart(plan[sn], m)
    requires AlikeBut(s, t, MsgId(sn, s.views.view))
    requires CertIs(CertOf(t, MsgId(sn, s.views.view)), plan[sn], got + {m})
    requires ExecIs(plan, s.views.view, from, past, t.exec, got + {m})
    ensures CastVote(c, t, sn).views == s.views && Tracks(c, plan, from, past, CastVote(c, t, sn), got + {m})
  {
    hide ExecIs, CertIs, IsPart, Tracks, CastVote;
    var id := MsgId(sn, s.views.view);
    CastVoteAlike(c, t, sn);
    CoreDecides(CertOf(t, id), CertOf(CastVote(c, t, sn), id), plan[sn], got + {m});
    Rebuild(c, plan, from, past, s, CastVote(c, t, sn), sn, got, m);
  }

  lemma StoredReset(a: Cert, b: Cert, item: Item, got: set<Msg>)
    requires CertIs(a, item, got) && b == a.(stage := Received, digest := item.pp.digest, prePrepare := Some(item.pp))
    ensures var after := got + {PrePrepare(item.pp)}; CertIs(b.(stage := StageOf(item, after)), item, after)
  {}

  lemma PutBut(s: State, t: State, id: MsgId, cert: Cert)
    requires AlikeBut(PutCert(s, id, cert), t, id)
    ensures AlikeBut(s, t, id)
  {}

  lemma SentBut(s: State, t: State, id: MsgId, outbox: seq<Msg>, commitVotes: set<PrepareQc>)
    requires AlikeBut(s, t, id)
    ensures AlikeBut(s, t.(outbox := outbox, commitVotes := commitVotes), id)
  {}

  lemma SlowCertified(a: Cert, item: Item, got: set<Msg>)
    requires CertIs(a, item, got) && item.path.Slow?
    ensures a.prepareQc.Some? <==> SlowQc(item.path.pqc) in got
    ensures var after := got + {SlowQc(item.path.pqc)};
            var b := a.(prepareQc := Some(item.path.pqc));
            a.prepareQc.None? ==> b.stage == Received && CertIs(b.(stage := StageOf(item, after)), item, after)
  {}

  lemma SlowQcArrives(c: Config, plan: Plan, from: u32, past: seq<Executed>, s: State, sn: u32, got: set<Msg>)
    requires Tracks(c, plan, from, past, s, got) && sn in plan && plan[sn].path.Slow?
    ensures HandleSlowQc(c, s, plan[sn].path.pqc).views == s.views
    ensures Tracks(c, plan, from, past, HandleSlowQc(c, s, plan[sn].path.pqc), got + {SlowQc(plan[sn].path.pqc)})
  {
    hide ExecIs, CheckIfPrepared, SendViewChange, InWatermarks, CertIs, AlikeBut;
    var id := MsgId(sn, s.views.view);
    var q := plan[sn].path.pqc;
    var m := SlowQc(q);
    assert ItemOk(c, s.views.view, sn, plan[sn]) && CertIs(CertOf(s, id), plan[sn], got);
    SlowCertified(CertOf(s, id), plan[sn], got);
    if m in got {
      Again(c, plan, from, past, s, sn, got, m);
    } else {
      var t := PutCert(s, id, CertOf(s, id).(prepareQc := Some(q)));
      Climbs(c, plan, from, past, t, sn, got, m);
      CommitRebuild(c, plan, from, past, s, CheckIfPrepared(c, t, id), t, sn, got, q);
    }
  }

  lemma CommitRebuild(c: Config, plan: Plan, from: u32, past: seq<Executed>, s: State, t: State, put: State, sn: u32,
                      got: set<Msg>,
                      q: PrepareQc)
    requires Tracks(c, plan, from, past, s, got) && sn in plan && IsPart(plan[sn], SlowQc(q))
    requires put == PutCert(s, MsgId(sn, s.views.view), CertOf(put, MsgId(sn, s.views.view)))
             && AlikeBut(put, t, MsgId(sn, s.views.view))
    requires CertIs(CertOf(t, MsgId(sn, s.views.view)), plan[sn], got + {SlowQc(q)})
    requires ExecIs(plan, s.views.view, from, past, t.exec, got + {SlowQc(q)})
    ensures t.views == s.views && Tracks(c, plan, from, past, SendCommit(c, t, q), got + {SlowQc(q)})
  {
    hide ExecIs, CertIs, IsPart, Tracks;
    var id := MsgId(sn, s.views.view);
    PutBut(s, t, id, CertOf(put, id));
    SentBut(s, t, id, SendCommit(c, t, q).outbox, SendCommit(c, t, q).commitVotes);
    Rebuild(c, plan, from, past, s, SendCommit(c, t, q), sn, got, SlowQc(q));
  }

  lemma FastCertified(a: Cert, item: Item, got: set<Msg>)
    requires CertIs(a, item, got) && item.path.Fast?
    ensures a.fastQc.Some? <==> FastQc(item.path.fqc) in got
    ensures var after := got + {FastQc(item.path.fqc)};
            var b := a.(fastQc := Some(item.path.fqc));
            a.fastQc.None? ==> b.stage == Received && CertIs(b.(stage := StageOf(item, after)), item, after)
  {}

  lemma FastQcArrives(c: Config, plan: Plan, from: u32, past: seq<Executed>, s: State, sn: u32, got: set<Msg>)
    requires Tracks(c, plan, from, past, s, got) && sn in plan && plan[sn].path.Fast?
    ensures HandleFastQc(c, s, plan[sn].path.fqc).views == s.views
    ensures Tracks(c, plan, from, past, HandleFastQc(c, s, plan[sn].path.fqc), got + {FastQc(plan[sn].path.fqc)})
  {
    hide ExecIs, CheckIfPrepared, InWatermarks, CertIs;
    var id := MsgId(sn, s.views.view);
    var q := plan[sn].path.fqc;
    var m := FastQc(q);
    assert ItemOk(c, s.views.view, sn, plan[sn]) && CertIs(CertOf(s, id), plan[sn], got);
    FastCertified(CertOf(s, id), plan[sn], got);
    if m in got {
      Again(c, plan, from, past, s, sn, got, m);
    } else {
      var t := PutCert(s, id, CertOf(s, id).(fastQc := Some(q)));
      Climbs(c, plan, from, past, t, sn, got, m);
      PutBut(s, CheckIfPrepared(c, t, id), id, CertOf(t, id));
      Rebuild(c, plan, from, past, s, CheckIfPrepared(c, t, id), sn, got, m);
    }
  }

  lemma FinalCertified(c: Config, view: nat, sn: u32, a: Cert, item: Item, got: set<Msg>)
    requires CertIs(a, item, got) && item.path.Slow? && ItemOk(c, view, sn, item)
    ensures a.commitQc.Some? <==> FinalQc(item.path.cqc) in got
    ensures a.digest == BufferedDigest(item, got + {FinalQc(item.path.cqc)})
    ensures var after := got + {FinalQc(item.path.cqc)};
            var b := a.(commitQc := Some(item.path.cqc));
            var done := SlowQc(item.path.pqc) in got;
            && (CommitVerifies(b) <==> done) && (Done(item, after) <==> done)
            && (a.commitQc.None? && done ==> b.stage == Prepared && CertIs(b.(stage := Committed), item, after))
            && (a.commitQc.None? && !done ==> CertIs(b, item, after))
  {}

  lemma FinalQcArrives(c: Config, plan: Plan, from: u32, past: seq<Executed>, s: State, sn: u32, got: set<Msg>)
    requires Tracks(c, plan, from, past, s, got) && sn in plan && plan[sn].path.Slow?
    ensures HandleFinalQc(c, s, plan[sn].path.cqc).views == s.views
    ensures Tracks(c, plan, from, past, HandleFinalQc(c, s, plan[sn].path.cqc), got + {FinalQc(plan[sn].path.cqc)})
  {
    hide ExecIs, CheckIfCommitted, SendViewChange, InWatermarks, IsPart, CertIs, CommitVerifies, Done, BufferedDigest;
    var id := MsgId(sn, s.views.view);
    var q := plan[sn].path.cqc;
    var m := FinalQc(q);
    FinalIsPart(plan[sn]);
    assert ItemOk(c, s.views.view, sn, plan[sn]) && CertIs(CertOf(s, id), plan[sn], got);
    FinalCertified(c, s.views.view, sn, CertOf(s, id), plan[sn], got);
    if m in got {
      Again(c, plan, from, past, s, sn, got, m);
    } else {
      var t := PutCert(s, id, CertOf(s, id).(commitQc := Some(q)));
      if SlowQc(plan[sn].path.pqc) in got {
        FinalCommits(c, plan, from, past, s, t, sn, got, m);
      } else {
        OthersAreSame(c, s.views.view, plan, sn, got, m);
        NotDone(plan, s.views.view, from, past, s.exec, sn, got, m);
        Rebuild(c, plan, from, past, s, t, sn, got, m);
      }
    }
  }

  lemma FinalCommits(c: Config, plan: Plan, from: u32, past: seq<Executed>, s: State, put: State, sn: u32,
                     got: set<Msg>, m: Msg)
    requires Tracks(c, plan, from, past, s, got) && sn in plan && IsPart(plan[sn], m) && Done(plan[sn], got + {m})
    requires put == PutCert(s, MsgId(sn, s.views.view), CertOf(put, MsgId(sn, s.views.view)))
    requires var cert := CertOf(put, MsgId(sn, s.views.view));
             && cert.stage == Prepared && CommitVerifies(cert) && cert.digest == BufferedDigest(plan[sn], got + {m})
             && CertIs(cert.(stage := Committed), plan[sn], got + {m})
    ensures var t := CheckIfCommitted(c, put, MsgId(sn, s.views.view));
            t.views == s.views && Tracks(c, plan, from, past, t, got + {m})
  {
    hide ExecIs, IsPart, CertIs, CommitVerifies, Done, BufferedDigest, ExecuteRequest, ItemOk;
    var id := MsgId(sn, s.views.view);
    var t := PutCert(put, id, CertOf(put, id).(stage := Committed));
    CompletesItem(c, plan, from, past, t, sn, got, m);
    CoreDecides(CertOf(t, id), CertOf(ExecuteRequest(c, t, id), id), plan[sn], got + {m});
    Rebuild(c, plan, from, past, s, ExecuteRequest(c, t, id), sn, got, m);
  }

  lemma FinalIsPart(item: Item)
    requires item.path.Slow?
    ensures IsPart(item, FinalQc(item.path.cqc))
  {}

  /** Whatever part of the plan arrives, the replica goes on to track the plan. */
  lemma Arrives(c: Config, plan: Plan, from: u32, past: seq<Executed>, s: State, got: set<Msg>, m: Msg)
    requires Tracks(c, plan, from, past, s, got) && InPlan(plan, m)
    ensures Dispatch(c, s, m).views == s.views
    ensures Tracks(c, plan, from, past, Dispatch(c, s, m), got + {m})
  {
    hide Tracks, HandlePrePrepare, HandleSlowQc, HandleFastQc, HandleFinalQc;
    var sn :| sn in plan && IsPart(plan[sn], m);
    if m.PrePrepare? {
      PrePrepareArrives(c, plan, from, past, s, sn, got);
    } else if m.SlowQc? {
      SlowQcArrives(c, plan, from, past, s, sn, got);
    } else if m.FastQc? {
      FastQcArrives(c, plan, from, past, s, sn, got);
    } else {
      FinalQcArrives(c, plan, from, past, s, sn, got);
    }
  }

  // ---------------------------------------------------------------- Any order, any number of times

  /** A delivery and what the clock read. */
  datatype Arrival = Arrival(now: int, m: Msg)

  ghost function Receive(c: Config, s: State, arrivals: seq<Arrival>): State {
    if arrivals == [] then s
    else
      var a := arrivals[|arrivals| - 1];
      Step(c, Receive(c, s, arrivals[..|arrivals| - 1]), a.now, Deliver(a.m))
  }

  function Messages(arrivals: seq<Arrival>): set<Msg> { set a | a in arrivals :: a.m }

  ghost predicate AllInPlan(plan: Plan, arrivals: seq<Arrival>) { forall a | a in arrivals :: InPlan(plan, a.m) }

  lemma {:induction false} Receives(c: Config, plan: Plan, from: u32, past: seq<Executed>, s: State, got: set<Msg>,
                                    arrivals: seq<Arrival>)
    requires Tracks(c, plan, from, past, s, got) && AllInPlan(plan, arrivals) && !Receive(c, s, arrivals).panicked
    ensures Receive(c, s, arrivals).views == s.views
    ensures Tracks(c, plan, from, past, Receive(c, s, arrivals), got + Messages(arrivals))
  {
    hide Tracks, Dispatch, InPlan;
    if arrivals == [] {
      assert got + Messages(arrivals) == got;
    } else {
      var rest, a := arrivals[..|arrivals| - 1], arrivals[|arrivals| - 1];
      assert arrivals == rest + [a];
      Receives(c, plan, from, past, s, got, rest);
      var t := Receive(c, s, rest);
      ClockAside(c, plan, from, past, t, a.now, got + Messages(rest));
      Arrives(c, plan, from, past, t.(clock := a.now), got + Messages(rest), a.m);
      assert got + Messages(arrivals) == got + Messages(rest) + {a.m};
    }
  }

  lemma ClockAside(c: Config, plan: Plan, from: u32, past: seq<Executed>, s: State, now: int, got: set<Msg>)
    requires Tracks(c, plan, from, past, s, got)
    ensures Tracks(c, plan, from, past, s.(clock := now), got)
  {
    hide ItemOk, ExecIs, CertIs;
  }

  /** A replica that has received nothing of the plan, with a free path of numbers before it. */
  ghost predicate Unheard(c: Config, plan: Plan, s: State) {
    && s.views.active && Steady(c, plan, s)
    && (forall sn | sn in plan ::
          && s.exec.last < sn && InWatermarks(c, s, sn) && ItemOk(c, s.views.view, sn, plan[sn])
          && CoreEq(CertOf(s, MsgId(sn, s.views.view)), FRESH))
    && (forall sn: u32 | s.exec.last < sn :: sn !in s.exec.ids && sn !in s.exec.digests)
    && s.exec.digests.Keys == s.exec.ids.Keys
  }

  lemma UnheardTracks(c: Config, plan: Plan, s: State)
    requires Unheard(c, plan, s)
    ensures Tracks(c, plan, s.exec.last, s.exec.log, s, {})
  {
    hide ItemOk;
  }

  /** The whole outcome: every certificate at the stage its messages allow, and the log extended by
      exactly the stretch of numbers all of whose messages are in. */
  ghost predicate Outcome(plan: Plan, s: State, t: State, got: set<Msg>) {
    && (forall sn | sn in plan :: CertIs(CertOf(t, MsgId(sn, s.views.view)), plan[sn], got))
    && s.exec.last <= t.exec.last
    && (forall sn: u32 | s.exec.last < sn <= t.exec.last :: sn in plan && Ready(plan[sn], got))
    && (t.exec.last + 1 < MOD ==> !(t.exec.last + 1 in plan && Ready(plan[t.exec.last + 1], got)))
    && t.exec.log == s.exec.log + LogOf(plan, s.views.view, s.exec.last, t.exec.last)
  }

  lemma TracksOutcome(c: Config, plan: Plan, s: State, t: State, got: set<Msg>)
    requires Tracks(c, plan, s.exec.last, s.exec.log, t, got) && t.views == s.views
    ensures Outcome(plan, s, t, got)
  {
    hide CertIs, ItemOk, Ready, LogOf;
  }

  lemma CoresAgree(item: Item, a: Cert, b: Cert, got: set<Msg>)
    requires CertIs(a, item, got) && CertIs(b, item, got)
    ensures CoreEq(a, b)
  {}

  lemma OutcomesAgree(c: Config, plan: Plan, s: State, t: State, w: State, got: set<Msg>)
    requires Outcome(plan, s, t, got) && Outcome(plan, s, w, got)
    ensures t.exec.last == w.exec.last && t.exec.log == w.exec.log
    ensures forall sn | sn in plan :: CoreEq(CertOf(t, MsgId(sn, s.views.view)), CertOf(w, MsgId(sn, s.views.view)))
  {
    hide CertIs, CoreEq, Ready, LogOf;
    forall sn | sn in plan ensures CoreEq(CertOf(t, MsgId(sn, s.views.view)), CertOf(w, MsgId(sn, s.views.view))) {
      CoresAgree(plan[sn], CertOf(t, MsgId(sn, s.views.view)), CertOf(w, MsgId(sn, s.views.view)), got);
    }
  }

  /** In an active view and inside the watermarks, any interleaving with any repetition of the
      pre-prepares and certificates of a plan has an outcome that depends on the set of messages alone. */
  lemma DeliveryOrderIrrelevant(c: Config, plan: Plan, s: State, a: seq<Arrival>, b: seq<Arrival>)
    requires Unheard(c, plan, s) && AllInPlan(plan, a) && AllInPlan(plan, b) && Messages(a) == Messages(b)
    requires !Receive(c, s, a).panicked && !Receive(c, s, b).panicked
    ensures Outcome(plan, s, Receive(c, s, a), Messages(a))
    ensures Receive(c, s, b).exec.last == Receive(c, s, a).exec.last
            && Receive(c, s, b).exec.log == Receive(c, s, a).exec.log
    ensures forall sn | sn in plan ::
              CoreEq(CertOf(Receive(c, s, a), MsgId(sn, s.views.view)),
                     CertOf(Receive(c, s, b), MsgId(sn, s.views.view)))
  {
    hide Receive, Unheard, Tracks, Outcome, AllInPlan, CoreEq;
    UnheardTracks(c, plan, s);
    assert {} + Messages(a) == Messages(a);
    Receives(c, plan, s.exec.last, s.exec.log, s, {}, a);
    Receives(c, plan, s.exec.last, s.exec.log, s, {}, b);
    TracksOutcome(c, plan, s, Receive(c, s, a), Messages(a));
    TracksOutcome(c, plan, s, Receive(c, s, b), Messages(a));
    OutcomesAgree(c, plan, s, Receive(c, s, a), Receive(c, s, b), Messages(a));
  }

  /** Once all the messages of a number are in, it is committed; and it is executed - its digest in
      its place in the log - exactly when the messages of every number before it are in as well. */
  lemma CompleteDelivery(c: Config, plan: Plan, s: State, a: seq<Arrival>, sn: u32)
    requires Unheard(c, plan, s) && AllInPlan(plan, a) && !Receive(c, s, a).panicked && sn in plan
    ensures var t := Receive(c, s, a);
      && (Done(plan[sn], Messages(a)) <==> CertOf(t, MsgId(sn, s.views.view)).stage == Committed)
      && (sn <= t.exec.last <==> forall k: u32 | s.exec.last < k <= sn :: k in plan && Ready(plan[k], Messages(a)))
      && (sn <= t.exec.last ==>
            var at := |s.exec.log| + (sn - s.exec.last) - 1;
            at < |t.exec.log| && t.exec.log[at] == Executed(sn, MsgId(sn, s.views.view), plan[sn].pp.digest))
  {
    hide Receive, Unheard, AllInPlan, Ready, LogOf;
    DeliveryOrderIrrelevant(c, plan, s, a, a);
    var t := Receive(c, s, a);
    assert s.exec.last < sn by { AheadOfLast(c, plan, s, sn); }
    assert CertIs(CertOf(t, MsgId(sn, s.views.view)), plan[sn], Messages(a));
    if t.exec.last < sn {
      assert t.exec.last + 1 < MOD;
    } else {
      LogAt(plan, s.views.view, s.exec.last, t.exec.last, sn);
    }
  }

  lemma AheadOfLast(c: Config, plan: Plan, s: State, sn: u32)
    requires Unheard(c, plan, s) && sn in plan
    ensures s.exec.last < sn
  {}

  lemma {:induction false} LogAt(plan: Plan, view: nat, from: u32, last: u32, sn: u32)
    requires from < sn <= last && forall k: u32 | from < k <= last :: k in plan
    ensures |LogOf(plan, view, from, last)| == last - from
    ensures LogOf(plan, view, from, last)[sn - from - 1] == Executed(sn, MsgId(sn, view), plan[sn].pp.digest)
    decreases last
  {
    if sn < last {
      LogAt(plan, view, from, last - 1, sn);
    } else {
      LogLength(plan, view, from, last);
    }
  }

  lemma {:induction false} LogLength(plan: Plan, view: nat, from: u32, last: u32)
    requires from <= last && forall k: u32 | from < k <= last :: k in plan
    ensures |LogOf(plan, view, from, last)| == last - from
    decreases last
  {
    if from < last { LogLength(plan, view, from, last - 1); }
  }

  /** A backup never dies of these messages, so for it nothing more need be asked. */
  lemma {:induction false} BackupSurvives(c: Config, plan: Plan, s: State, a: seq<Arrival>)
    requires Unheard(c, plan, s) && AllInPlan(plan, a) && !s.panicked && !IsPrimary(c, s)
    ensures !Receive(c, s, a).panicked
  {
    hide Tracks, Unheard, Dispatch, InPlan;
    if a != [] {
      var rest, x := a[..|a| - 1], a[|a| - 1];
      assert a == rest + [x];
      BackupSurvives(c, plan, s, rest);
      UnheardTracks(c, plan, s);
      Receives(c, plan, s.exec.last, s.exec.log, s, {}, rest);
      var t := Receive(c, s, rest);
      ClockAside(c, plan, s.exec.last, s.exec.log, t, x.now, {} + Messages(rest));
      Arrives(c, plan, s.exec.last, s.exec.log, t.(clock := x.now), {} + Messages(rest), x.m);
      PartKinds(plan, x.m);
      PartHarmless(c, t.(clock := x.now), x.m);
    }
  }

  lemma PartKinds(plan: Plan, m: Msg)
    requires InPlan(plan, m)
    ensures m.PrePrepare? || m.SlowQc? || m.FastQc? || m.FinalQc?
  {}

  lemma PartHarmless(c: Config, s: State, m: Msg)
    requires m.PrePrepare? || m.SlowQc? || m.FastQc? || m.FinalQc?
    requires !s.panicked && !IsPrimary(c, s) && Dispatch(c, s, m).views.view == s.views.view
    ensures !Dispatch(c, s, m).panicked
  {
    hide HandlePrePrepare, CheckIfPrepared, CheckIfCommitted, SendViewChange, ViewChangeOf, InWatermarks;
    match m
    case PrePrepare(pp) =>
      PrePrepareHarmless(c, s, pp);
    case SlowQc(q) =>
      SendViewChangeCalm(c, s);
      CheckIfPreparedCalm(c, PutCert(s, MsgId(q.sn, q.view), CertOf(s, MsgId(q.sn, q.view)).(prepareQc := Some(q))),
                          MsgId(q.sn, q.view));
    case FastQc(q) =>
      CheckIfPreparedCalm(c, PutCert(s, MsgId(q.sn, q.view), CertOf(s, MsgId(q.sn, q.view)).(fastQc := Some(q))),
                          MsgId(q.sn, q.view));
    case FinalQc(q) =>
      SendViewChangeCalm(c, s);
      CheckIfCommittedCalm(c, PutCert(s, MsgId(q.sn, q.view), CertOf(s, MsgId(q.sn, q.view)).(commitQc := Some(q))),
                           MsgId(q.sn, q.view));
    case _ =>
  }

  lemma PrePrepareHarmless(c: Config, s: State, pp: PrePrepareMsg)
    requires !s.panicked && !IsPrimary(c, s) && HandlePrePrepare(c, s, pp).views.view == s.views.view
    ensures !HandlePrePrepare(c, s, pp).panicked
  {
    hide CheckIfPrepared, SendViewChange, CastVote, InWatermarks;
    var id := MsgId(pp.sn, pp.view);
    var t := CheckIfPrepared(c, StorePrePrepare(s, id, pp), id);
    SendViewChangeCalm(c, s);
    SendViewChangeCalm(c, Touch(s, id));
    CheckIfPreparedCalm(c, StorePrePrepare(s, id, pp), id);
    CastVoteAlike(c, t, pp.sn);
  }
}
