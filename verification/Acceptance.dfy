/** Whether peers accept a correct replica's view-change. correctViewChange wants every reported
    pre-prepare to be of an earlier view and below h+K; inWatermarks lets numbers up to h+K in, and
    handlePrePrepareMsg does not look at the view at all. */
module Acceptance {
  import opened Types
  import opened ReplicaState
  import opened Assignment
  import opened Handlers
  import opened Cluster
  import opened Invariants
  import opened Preservation
  import opened Soundness
  import opened Reachability
  import opened Frames
  import opened Numbering
  import opened Delivery
  import opened Findings

  // ---------------------------------------------------------------- What is reported

  /** The next view-change, if its map of certificates were enumerated in the given order. */
  function ReportOver(c: Config, s: State, order: seq<MsgId>): ViewChangeMsg {
    ViewChangeOf(c, s).(pset := CalPset(s.certs, s.marks.h, order), qset := CalQset(s.certs, s.marks.h, order))
  }

  lemma OwnOrder(c: Config, s: State)
    ensures ViewChangeOf(c, s) == ReportOver(c, s, c.scanIds(s.views.view + 1, s.certs.Keys))
  {
    hide CalPset, CalQset, CalCset;
  }

  /** A stored pre-prepare that a view-change reports. */
  predicate Held(s: State, id: MsgId) { id in s.certs && s.certs[id].prePrepare.Some? && s.marks.h < id.sn }

  /** It is one that peers accept. */
  predicate Welcome(c: Config, s: State, id: MsgId) { id.view <= s.views.view && id.sn < s.marks.h + c.K }

  lemma StoredId(id: MsgId, cert: Cert)
    requires CertOk(id, cert)
    ensures cert.prePrepare.Some? ==> id == MsgId(cert.prePrepare.value.sn, cert.prePrepare.value.view)
    ensures cert.prepareQc.Some? ==> Verify(TsKey, ForPrepare(SlowVote(cert.prepareQc.value)), cert.prepareQc.value.sig)
  {}

  /** The entry reported at a number is one held there, and some entry held there is reported. */
  lemma ReportedHeld(c: Config, s: State, order: seq<MsgId>)
    requires CertsOk(s.certs) && Enumerates(order, s.certs.Keys)
    ensures var pset := CalPset(s.certs, s.marks.h, order);
            && (forall sn | sn in pset :: pset[sn].sn == sn && Held(s, MsgId(sn, pset[sn].view)))
            && (forall id | Held(s, id) :: id.sn in pset)
  {
    hide CalPset, CertOk;
    var pset := CalPset(s.certs, s.marks.h, order);
    CalPsetSpec(s.certs, s.marks.h, order);
    forall sn | sn in pset ensures pset[sn].sn == sn && Held(s, MsgId(sn, pset[sn].view)) {
      var id :| id in s.certs && id.sn == sn && s.certs[id].prePrepare == Some(pset[sn]);
      StoredId(id, s.certs[id]);
    }
  }

  /** The certificates reported verify. */
  lemma ReportedVerify(c: Config, s: State, order: seq<MsgId>)
    requires CertsOk(s.certs) && Enumerates(order, s.certs.Keys)
    ensures var qset := CalQset(s.certs, s.marks.h, order);
            forall q | q in qset :: Verify(TsKey, ForPrepare(SlowVote(qset[q])), qset[q].sig)
  {
    hide CalQset, CertOk, Verify;
    var qset := CalQset(s.certs, s.marks.h, order);
    CalQsetSpec(s.certs, s.marks.h, order);
    forall q | q in qset ensures Verify(TsKey, ForPrepare(SlowVote(qset[q])), qset[q].sig) {
      var id :| id in s.certs && s.certs[id].prepareQc == Some(qset[q]);
      StoredId(id, s.certs[id]);
    }
  }

  lemma {:induction false} CalCsetSpec(order: seq<CheckpointMsg>, digest: string, limit: nat)
    ensures |CalCset(order, digest, limit)| <= limit
    ensures forall ck | ck in CalCset(order, digest, limit) :: ck in order && ck.digest == digest
  {
    if order != [] && limit > 0 {
      if order[0].digest == digest { CalCsetSpec(order[1..], digest, limit - 1); } else {
        CalCsetSpec(order[1..], digest, limit);
      }
    }
  }

  /** And the checkpoints reported are for h. */
  lemma ReportedCheckpoints(u: Setup, g: map<nat, State>, c: Config, s: State)
    requires c.Scans() && MarksSound(u, g, c, s.marks)
    ensures forall ck | ck in ViewChangeOf(c, s).cset :: ck.sn == s.marks.h
  {
    hide CalPset, CalQset, CalCset, MsgSound, Stable;
    var order := c.scanCheckpoints(s.views.view + 1, CheckpointsAt(s.marks, s.marks.h));
    assert Enumerates(order, CheckpointsAt(s.marks, s.marks.h));
    CalCsetSpec(order, if s.marks.h in s.marks.chkpts then s.marks.chkpts[s.marks.h] else "", 2 * c.F() + 1);
  }

  // ---------------------------------------------------------------- When it is accepted

  /** Only the pre-prepares decide: the message is accepted exactly if each one reported is welcome. */
  lemma AcceptedOver(u: Setup, g: map<nat, State>, c: Config, s: State, peer: Config, order: seq<MsgId>)
    requires c.Scans() && peer.K == c.K && CertsOk(s.certs) && MarksSound(u, g, c, s.marks) && s.marks.h + c.K < MOD
    requires Enumerates(order, s.certs.Keys)
    ensures var vc := ReportOver(c, s, order);
            CorrectViewChange(peer, vc) <==> forall sn | sn in vc.pset :: Welcome(c, s, MsgId(sn, vc.pset[sn].view))
  {
    hide Settings.Scans, CalPset, CalQset, CalCset, MarksSound, CertsOk;
    ReportedHeld(c, s, order);
    ReportedVerify(c, s, order);
    ReportedCheckpoints(u, g, c, s);
    ReportFields(c, s, order);
    var vc := ReportOver(c, s, order);
    forall sn | sn in vc.pset
      ensures Welcome(c, s, MsgId(sn, vc.pset[sn].view)) <==>
              vc.pset[sn].view < vc.view && vc.h < vc.pset[sn].sn < Add(vc.h, peer.K)
    {
      assert Held(s, MsgId(sn, vc.pset[sn].view));
    }
  }

  lemma ReportFields(c: Config, s: State, order: seq<MsgId>)
    ensures var vc := ReportOver(c, s, order);
            && vc.pset == CalPset(s.certs, s.marks.h, order) && vc.qset == CalQset(s.certs, s.marks.h, order)
            && vc.h == s.marks.h && vc.view == s.views.view + 1 && vc.cset == ViewChangeOf(c, s).cset
  {}

  lemma ScansList(c: Config, v: nat, ks: set<MsgId>)
    requires c.Scans()
    ensures Enumerates(c.scanIds(v, ks), ks)
  {}

  /** An order in which id comes last. */
  lemma LastInOrder(ks: set<MsgId>, id: MsgId) returns (order: seq<MsgId>)
    requires id in ks
    ensures Enumerates(order, ks) && order != [] && order[|order| - 1] == id
  {
    ToSeqEnumerates(ks - {id});
    order := ToSeq(ks - {id}) + [id];
  }

  lemma LastReported(s: State, order: seq<MsgId>, id: MsgId)
    requires Held(s, id) && order != [] && order[|order| - 1] == id
    ensures id.sn in CalPset(s.certs, s.marks.h, order)
    ensures CalPset(s.certs, s.marks.h, order)[id.sn] == s.certs[id].prePrepare.value
  {}

  /** Go enumerates the certificates in any order it likes. A correct replica's next view-change is sure to
      be accepted - whatever the order - exactly if every pre-prepare it holds above h is of a view it has
      reached and for a number before h+K. With the order it has, it is accepted exactly if those it
      reports are, one per number. */
  lemma OwnViewChangeAccepted(u: Setup, tr: seq<Sys>, k: nat, i: nat, peer: Config)
    requires u.Valid() && Run(u, tr) && k < |tr| && i in tr[k].nodes && i in u.replicas && peer.K == u.replicas[i].K
    requires tr[k].nodes[i].marks.h + peer.K < MOD
    ensures var c, s := u.replicas[i], tr[k].nodes[i];
            (forall order | Enumerates(order, s.certs.Keys) :: CorrectViewChange(peer, ReportOver(c, s, order)))
            <==> forall id | Held(s, id) :: Welcome(c, s, id)
    ensures var c, s := u.replicas[i], tr[k].nodes[i];
            var vc := ViewChangeOf(c, s);
            CorrectViewChange(peer, vc) <==> forall sn | sn in vc.pset :: Welcome(c, s, MsgId(sn, vc.pset[sn].view))
  {
    hide Run, SysInv, ExecOk, OutboxOk, CertsOk, CertsSound, BallotsSound, ViewsSound, MarksSound, OutboxSound, Full,
        Held, Welcome,
         CorrectViewChange, ReportOver, ViewChangeOf;
    ReachableSound(u, tr, k);
    NodeFacts(u, tr[k], i);
    var c, s := u.replicas[i], tr[k].nodes[i];
    SureExactly(u, tr[k].nodes, c, s, peer);
    OwnOrder(c, s);
    ScansList(c, s.views.view + 1, s.certs.Keys);
    AcceptedOver(u, tr[k].nodes, c, s, peer, c.scanIds(s.views.view + 1, s.certs.Keys));
  }

  lemma SureExactly(u: Setup, g: map<nat, State>, c: Config, s: State, peer: Config)
    requires c.Scans() && peer.K == c.K && CertsOk(s.certs) && MarksSound(u, g, c, s.marks) && s.marks.h + c.K < MOD
    ensures (forall order | Enumerates(order, s.certs.Keys) :: CorrectViewChange(peer, ReportOver(c, s, order)))
            <==> forall id | Held(s, id) :: Welcome(c, s, id)
  {
    hide Settings.Scans, CertsOk, MarksSound, CorrectViewChange, Held, Welcome, Enumerates, ReportOver, CalPset,
        CalQset;
    if id :| Held(s, id) && !Welcome(c, s, id) {
      UnwelcomeRejected(u, g, c, s, peer, id);
    } else {
      forall order | Enumerates(order, s.certs.Keys) ensures CorrectViewChange(peer, ReportOver(c, s, order)) {
        AcceptedOver(u, g, c, s, peer, order);
        ReportedHeld(c, s, order);
        ReportFields(c, s, order);
      }
    }
  }

  lemma UnwelcomeRejected(u: Setup, g: map<nat, State>, c: Config, s: State, peer: Config, id: MsgId)
    requires c.Scans() && peer.K == c.K && CertsOk(s.certs) && MarksSound(u, g, c, s.marks) && s.marks.h + c.K < MOD
    requires Held(s, id) && !Welcome(c, s, id)
    ensures exists order :: Enumerates(order, s.certs.Keys) && !CorrectViewChange(peer, ReportOver(c, s, order))
  {
    hide Settings.Scans, MarksSound, CorrectViewChange, CalPset, CalQset, CalCset;
    var order := LastInOrder(s.certs.Keys, id);
    LastReported(s, order, id);
    StoredId(id, s.certs[id]);
    AcceptedOver(u, g, c, s, peer, order);
  }

  // ---------------------------------------------------------------- Two ways to be rejected

  /** An entry at or past h+K: rejected whatever the order. */
  lemma EndRejected(c: Config, s: State, peer: Config, id: MsgId)
    requires c.Scans() && peer.K == c.K && CertsOk(s.certs) && s.marks.h + c.K < MOD
    requires Held(s, id) && s.marks.h + c.K <= id.sn
    ensures !CorrectViewChange(peer, ViewChangeOf(c, s))
  {
    hide Settings.Scans, CalPset, CalQset, CalCset, CertsOk;
    OwnOrder(c, s);
    ScansList(c, s.views.view + 1, s.certs.Keys);
    ReportedHeld(c, s, c.scanIds(s.views.view + 1, s.certs.Keys));
  }

  /** An entry of a view not yet reached, alone at its number: rejected too. */
  lemma LaterViewRejected(c: Config, s: State, peer: Config, id: MsgId)
    requires c.Scans() && peer.K == c.K && CertsOk(s.certs) && Held(s, id) && s.views.view < id.view
    requires forall other | Held(s, other) && other.sn == id.sn :: other == id
    ensures !CorrectViewChange(peer, ViewChangeOf(c, s))
  {
    hide Settings.Scans, CalPset, CalQset, CalCset, CertsOk;
    OwnOrder(c, s);
    ScansList(c, s.views.view + 1, s.certs.Keys);
    ReportedHeld(c, s, c.scanIds(s.views.view + 1, s.certs.Keys));
  }

  /** The primary can bring that about in a correct backup with a single pre-prepare of a later view. */
  lemma LaterProposalBlocks(c: Config, s: State, peer: Config, pp: PrePrepareMsg)
    requires Inv(c, s) && c.Scans() && peer.K == c.K && Passes(c, s, pp) && !IsPrimary(c, s)
    requires s.views.view < pp.view && s.marks.h < pp.sn
    requires forall id | Held(s, id) && id.sn == pp.sn :: id.view == pp.view
    ensures !CorrectViewChange(peer, ViewChangeOf(c, HandlePrePrepare(c, s, pp)))
  {
    hide Settings.Scans, Inv, HandlePrePrepare, Passes, CorrectViewChange, ViewChangeOf, Evolves;
    var t := HandlePrePrepare(c, s, pp);
    VoteNamesProposalExactly(c, s, pp);
    HandlePrePrepareKeeps(c, s, pp);
    CertsInOrder(c, t);
    var id := MsgId(pp.sn, pp.view);
    forall other | Held(t, other) && other.sn == id.sn ensures other == id {
      assert other == id || CertOf(t, other).prePrepare == CertOf(s, other).prePrepare;
    }
    LaterViewRejected(c, t, peer, id);
  }

  lemma CertsInOrder(c: Config, s: State)
    requires Inv(c, s)
    ensures CertsOk(s.certs)
  {}

  // ---------------------------------------------------------------- After a new view

  /** A replica that is active was active, in the same view. */
  ghost predicate Stays(s: State, t: State) { t.views.active ==> s.views.active && t.views.view == s.views.view }

  lemma ExecuteNextStays(c: Config, s: State)
    requires Executable(s.exec)
    ensures Stays(s, ExecuteNext(c, s))
  {
    hide ViewChangeOf;
  }

  lemma {:induction false} ExecuteAllStays(c: Config, s: State)
    ensures Stays(s, ExecuteAll(c, s))
    decreases MOD - s.exec.last
  {
    hide ExecuteNext;
    if Executable(s.exec) {
      ExecuteNextStays(c, s);
      ExecuteAllStays(c, ExecuteNext(c, s));
    }
  }

  lemma CheckIfPreparedStays(c: Config, s: State, id: MsgId)
    ensures Stays(s, CheckIfPrepared(c, s, id))
  {
    hide ExecuteAll;
    var p := PutCert(s, id, CertOf(s, id).(stage := Prepared));
    ExecuteAllStays(c, Buffer(PutCert(s, id, CertOf(s, id).(stage := Committed)), id));
    ExecuteAllStays(c, Buffer(PutCert(p, id, CertOf(p, id).(stage := Committed)), id));
  }

  /** A replica that handles a pre-prepare and is still active either ignored it or stored it. */
  lemma PrePrepareStored(c: Config, s: State, pp: PrePrepareMsg)
    requires Inv(c, s) && c.Scans()
    ensures var t := HandlePrePrepare(c, s, pp);
            && Stays(s, t)
            && (t.views.active && InWatermarks(c, s, pp.sn) ==> CertOf(t, MsgId(pp.sn, pp.view)).prePrepare.Some?)
  {
    hide Settings.Scans, Inv, CheckIfPrepared, CastVote, InWatermarks, ViewChangeOf, StorePrePrepare;
    var id := MsgId(pp.sn, pp.view);
    if CertOf(s, id).digest.Empty() || CertOf(s, id).digest == pp.digest {
      var t := StorePrePrepare(s, id, pp);
      StorePrePrepareKeeps(c, s, id, pp);
      CheckIfPreparedKeeps(c, t, id);
      CheckIfPreparedStays(c, t, id);
      CastVoteKeeps(c, CheckIfPrepared(c, t, id), pp.sn);
      CastVoteAlike(c, CheckIfPrepared(c, t, id), pp.sn);
      StoresIt(s, id, pp);
    }
  }

  lemma StoresIt(s: State, id: MsgId, pp: PrePrepareMsg)
    ensures var t := StorePrePrepare(s, id, pp);
            t.views == s.views && id in t.certs && t.certs[id].prePrepare == Some(pp)
  {}

  /** A replica that has entered the view, and is in it still, holds all the entries it was to handle. */
  lemma {:induction false} AcceptAllStores(c: Config, s: State, nv: NewViewMsg, keys: seq<u32>)
    requires Inv(c, s) && c.Scans() && s.marks.h + c.K < MOD
    requires forall k | k in keys :: k in nv.oset && k <= s.marks.h + c.K
    ensures var t := AcceptAll(c, s, nv, keys);
            && Kept(c, s, t) && Stays(s, t) && t.marks.h == s.marks.h
            && (t.views.active && !t.panicked ==>
                  forall k | k in keys && s.marks.h < k :: CertOf(t, MsgId(k, s.views.view)).prePrepare.Some?)
    decreases |keys|
  {
    hide Settings.Scans, Inv, HandlePrePrepare, InWatermarks, CertGrows;
    AcceptAllKeeps(c, s, nv, keys);
    if keys != [] {
      var rest, sn := keys[..|keys| - 1], keys[|keys| - 1];
      var t := AcceptAll(c, s, nv, rest);
      AcceptAllStores(c, s, nv, rest);
      assert keys == rest + [sn];
      if !t.panicked && t.marks.h < sn { EntryStores(c, t, nv, sn); }
    }
  }

  lemma EntryStores(c: Config, s: State, nv: NewViewMsg, sn: u32)
    requires Inv(c, s) && c.Scans() && s.marks.h + c.K < MOD && sn in nv.oset && s.marks.h < sn <= s.marks.h + c.K
    ensures var t := AcceptEntry(c, s, nv, sn);
            && Stays(s, t) && t.marks.h == s.marks.h
            && (t.views.active ==> CertOf(t, MsgId(sn, s.views.view)).prePrepare.Some?)
            && (forall id | CertOf(s, id).prePrepare.Some? :: CertOf(t, id).prePrepare.Some?)
            && (s.panicked ==> t.panicked)
  {
    hide Settings.Scans, Inv, HandlePrePrepare, InWatermarks;
    var pp := PrePrepareMsg(sn, Hash(nv.oset[sn]), nv.oset[sn], s.views.view, nv.sender);
    var x := if IsPrimary(c, s) then StartTimer(s, MsgId(sn, s.views.view), pp.digest) else s;
    Unwatched(c, s, s.batches, s.ballots, x.leader, s.panicked);
    WatermarksWithoutWrap(c, x, sn);
    PrePrepareStored(c, x, pp);
    HandlePrePrepareKeeps(c, x, pp);
    HandlePrePrepareQuiet(c, x, pp);
  }

  /** Every new view assigns numbers up to the end of the window that starts at its checkpoint. So a replica
      whose own watermark is that checkpoint, once it has entered the view and is still in it, holds an entry
      at h+K; and every view-change it sends from then on is rejected by all its peers, until its watermark moves. */
  lemma NewViewBlocksViewChange(c: Config, s: State, peer: Config, nv: NewViewMsg, later: State)
    requires Inv(c, s) && c.Scans() && peer.K == c.K && 0 < c.K && s.marks.h + c.K < MOD
    requires !s.views.active && s.views.view in s.views.newViews && s.views.newViews[s.views.view] == nv
    requires forall k: u32 :: k in nv.oset <==> s.marks.h < k <= s.marks.h + c.K
    requires var t := ProcessNewView(c, s);
             t.views.active && !t.panicked && Kept(c, t, later) && later.marks.h == s.marks.h
    ensures !CorrectViewChange(peer, ViewChangeOf(c, later))
  {
    hide Settings.Scans, Inv, AcceptAll, CorrectViewChange, ViewChangeOf, Sorted, EnterView;
    var x := EnterView(c, s);
    SortedMembers(nv.oset.Keys);
    EnterViewKeeps(c, s);
    EnteredFields(c, s);
    AcceptAllStores(c, x, nv, Sorted(nv.oset.Keys));
    var end: u32 := s.marks.h + c.K;
    assert end in Sorted(nv.oset.Keys);
    var id := MsgId(end, s.views.view);
    assert CertOf(ProcessNewView(c, s), id).prePrepare.Some?;
    CertsInOrder(c, later);
    EndRejected(c, later, peer, id);
  }

  lemma EnteredFields(c: Config, s: State)
    ensures EnterView(c, s).marks == s.marks && EnterView(c, s).views.view == s.views.view
  {}
}
