/** The loops of core/core.go, core/viewchange.go and core/utils.go that compute something and leave
    the node alone, proved against the functions of Assignment and Handlers. */
module Computations {
  import opened Types
  import opened ReplicaState
  import opened Assignment
  import opened Handlers

  // ---------------------------------------------------------------- recvCheckpoint

  /** How many stored checkpoints carry the digest, and which digests there are. */
  method CountCheckpoints(cks: set<CheckpointMsg>, digest: string) returns (matching: nat, diffValues: set<string>)
    requires exists ck :: ck in cks && ck.digest == digest
    ensures matching == |Matching(cks, digest)| && diffValues == StateDigests(cks)
  {
    matching, diffValues := 0, {digest};
    var left := cks;
    while left != {}
      invariant left <= cks && matching == |Matching(cks - left, digest)|
      invariant diffValues == StateDigests(cks - left) + {digest}
      decreases left
    {
      var ck :| ck in left;
      var rest := left - {ck};
      assert cks - rest == (cks - left) + {ck};
      if ck.digest == digest {
        assert Matching(cks - rest, digest) == Matching(cks - left, digest) + {ck};
        matching := matching + 1;
      } else {
        assert Matching(cks - rest, digest) == Matching(cks - left, digest);
        diffValues := diffValues + {ck.digest};
      }
      assert StateDigests(cks - rest) == StateDigests(cks - left) + {ck.digest};
      left := rest;
    }
    assert cks - left == cks;
  }

  // ---------------------------------------------------------------- sendViewChange

  /** The first `limit` checkpoints of the enumeration with the given state. */
  method CollectCheckpoints(order: seq<CheckpointMsg>, digest: string, limit: nat) returns (cset: seq<CheckpointMsg>)
    requires limit > 0
    ensures cset == CalCset(order, digest, limit)
  {
    var count := 0;
    cset := [];
    for i := 0 to |order|
      invariant 0 <= count < limit
      invariant CalCset(order, digest, limit) == cset + CalCset(order[i..], digest, limit - count)
    {
      assert order[i..][0] == order[i] && order[i..][1..] == order[i + 1..];
      if order[i].digest == digest {
        cset := cset + [order[i]];
        count := count + 1;
        if count == limit { break; }
      }
    }
  }

  // ---------------------------------------------------------------- correctViewChange

  method CheckViewChange(c: Config, vc: ViewChangeMsg) returns (ok: bool)
    ensures ok == CorrectViewChange(c, vc)
  {
    var left := vc.pset.Keys;
    while left != {}
      invariant left <= vc.pset.Keys
      invariant forall k | k in vc.pset && k !in left ::
                  vc.pset[k].view < vc.view && vc.h < vc.pset[k].sn < Add(vc.h, c.K)
      decreases left
    {
      var k :| k in left;
      var p := vc.pset[k];
      if !(p.view < vc.view && p.sn > vc.h && p.sn < Add(vc.h, c.K)) { return false; }
      left := left - {k};
    }
    left := vc.qset.Keys;
    while left != {}
      invariant left <= vc.qset.Keys
      invariant forall k | k in vc.qset && k !in left :: Verify(TsKey, ForPrepare(SlowVote(vc.qset[k])), vc.qset[k].sig)
      decreases left
    {
      var k :| k in left;
      var pqc := vc.qset[k];
      if !Verify(TsKey, ForPrepare(SlowVote(pqc)), pqc.sig) { return false; }
      left := left - {k};
    }
    for i := 0 to |vc.cset|
      invariant forall j | 0 <= j < i :: vc.cset[j].sn == vc.h
    {
      if vc.cset[i].sn != vc.h { return false; }
    }
    return true;
  }

  // ---------------------------------------------------------------- recvViewChange

  /** The senders of view-changes for later views, and the smallest of those views (0 for none). */
  method ScanAhead(v: Views) returns (replicas: set<nat>, minView: nat)
    ensures replicas == Senders(Ahead(v))
    ensures minView == 0 <==> Ahead(v) == {}
    ensures Ahead(v) != {} ==> minView == MinView(Ahead(v))
  {
    replicas, minView := {}, 0;
    var left := v.store.Keys;
    ghost var seen: set<Vcidx> := {};
    while left != {}
      invariant left <= v.store.Keys && seen == Ahead(v) - left
      invariant replicas == Senders(seen)
      invariant minView == 0 <==> seen == {}
      invariant seen != {} ==> exists i :: i in seen && i.view == minView
      invariant forall i | i in seen :: minView <= i.view
      decreases left
    {
      var idx :| idx in left;
      left := left - {idx};
      if idx.view <= v.view {
        assert seen == Ahead(v) - left;
        continue;
      }
      assert Senders(seen + {idx}) == Senders(seen) + {idx.sender};
      seen := seen + {idx};
      replicas := replicas + {idx.sender};
      if minView == 0 || idx.view < minView {
        minView := idx.view;
        assert idx in seen && idx.view == minView;
      }
    }
    assert seen == Ahead(v);
  }

  method CountForView(store: map<Vcidx, ViewChangeMsg>, view: nat) returns (quorum: nat)
    ensures quorum == |set i | i in store && i.view == view|
  {
    quorum := 0;
    var left := store.Keys;
    ghost var seen: set<Vcidx> := {};
    while left != {}
      invariant left <= store.Keys && seen == (set i | i in store && i !in left && i.view == view) && quorum == |seen|
      decreases left
    {
      var idx :| idx in left;
      left := left - {idx};
      if idx.view == view {
        seen := seen + {idx};
        quorum := quorum + 1;
      }
    }
    assert seen == set i | i in store && i.view == view;
  }

  method CollectViewChanges(store: map<Vcidx, ViewChangeMsg>, view: nat, order: seq<Vcidx>)
    returns (vset: seq<ViewChangeMsg>)
    ensures vset == GetViewChangeMsgs(store, view, order)
  {
    vset := [];
    for i := 0 to |order|
      invariant vset == GetViewChangeMsgs(store, view, order[..i])
    {
      assert order[..i + 1][..i] == order[..i];
      if order[i] in store && store[order[i]].view == view { vset := vset + [store[order[i]]]; }
    }
    assert order[..|order|] == order;
  }

  // ---------------------------------------------------------------- selectInitialSequence

  method SelectInitialSequence(vset: seq<ViewChangeMsg>) returns (sn: u32, ok: bool)
    ensures sn == MaxCheckpoint(vset) && ok == (vset != [])
  {
    sn, ok := 0, false;
    for i := 0 to |vset|
      invariant sn == MaxCheckpoint(vset[..i]) && ok == (0 < i)
    {
      assert vset[..i + 1][..i] == vset[..i];
      if sn <= vset[i].h { sn, ok := vset[i].h, true; }
    }
    assert vset[..|vset|] == vset;
  }

  // ---------------------------------------------------------------- assignSequenceNumbers

  /** What the scan has counted after the first messages: per digest, how many and the last batch. */
  ghost predicate Counted(vset: seq<ViewChangeMsg>, s: u32, counts: map<Digest, nat>,
                          batches: map<Digest, RequestBatch>) {
    && counts.Keys == Keys(vset, s) && batches.Keys == counts.Keys
    && (forall k | k in counts :: counts[k] == |Supporters(vset, s, k)| && batches[k] == LastBatch(vset, s, k))
  }

  lemma SupportersNext(vset: seq<ViewChangeMsg>, s: u32, vc: ViewChangeMsg, k: Digest)
    ensures |Supporters(vset + [vc], s, k)|
            == |Supporters(vset, s, k)| + (if s in vc.pset && vc.pset[s].digest.Key() == k then 1 else 0)
    ensures LastBatch(vset + [vc], s, k)
            == if s in vc.pset && vc.pset[s].digest.Key() == k then vc.pset[s].batch else LastBatch(vset, s, k)
  {
    var more := Supporters(vset + [vc], s, k);
    var counted := s in vc.pset && vc.pset[s].digest.Key() == k;
    assert more == if counted then Supporters(vset, s, k) + {|vset|} else Supporters(vset, s, k);
    assert (vset + [vc])[..|vset|] == vset;
  }

  lemma KeysNext(vset: seq<ViewChangeMsg>, s: u32, vc: ViewChangeMsg)
    ensures Keys(vset + [vc], s) == Keys(vset, s) + (if s in vc.pset then {vc.pset[s].digest.Key()} else {})
  {
    var all := vset + [vc];
    forall k | k in Keys(vset, s) ensures k in Keys(all, s) {
      var i :| 0 <= i < |vset| && s in vset[i].pset && vset[i].pset[s].digest.Key() == k;
      assert all[i] == vset[i];
    }
    if s in vc.pset { assert all[|vset|] == vc; }
  }

  lemma NewKey(vset: seq<ViewChangeMsg>, s: u32, k: Digest)
    requires k !in Keys(vset, s)
    ensures |Supporters(vset, s, k)| == 0
  {
    assert Supporters(vset, s, k) == {};
  }

  lemma CountedNext(vset: seq<ViewChangeMsg>, s: u32, vc: ViewChangeMsg, counts: map<Digest, nat>,
                    batches: map<Digest, RequestBatch>)
    requires Counted(vset, s, counts, batches) && s in vc.pset
    ensures var k := vc.pset[s].digest.Key();
            Counted(vset + [vc], s, counts[k := (if k in counts then counts[k] else 0) + 1],
                    batches[k := vc.pset[s].batch])
  {
    hide Supporters, LastBatch, Keys;
    var k := vc.pset[s].digest.Key();
    KeysNext(vset, s, vc);
    forall d | d == k || d in counts
      ensures |Supporters(vset + [vc], s, d)| == (if d in counts then counts[d] else 0) + (if d == k then 1 else 0)
      ensures LastBatch(vset + [vc], s, d) == if d == k then vc.pset[s].batch else batches[d]
    {
      SupportersNext(vset, s, vc, d);
      if d !in counts { NewKey(vset, s, d); }
    }
  }

  lemma CountedSkip(vset: seq<ViewChangeMsg>, s: u32, vc: ViewChangeMsg, counts: map<Digest, nat>,
                    batches: map<Digest, RequestBatch>)
    requires Counted(vset, s, counts, batches) && s !in vc.pset
    ensures Counted(vset + [vc], s, counts, batches)
  {
    hide Supporters, LastBatch, Keys;
    KeysNext(vset, s, vc);
    forall d | d in counts
      ensures |Supporters(vset + [vc], s, d)| == |Supporters(vset, s, d)|
              && LastBatch(vset + [vc], s, d) == LastBatch(vset, s, d)
    {
      SupportersNext(vset, s, vc, d);
    }
  }

  lemma CountedNone(s: u32)
    ensures Counted([], s, map[], map[])
  {}

  /** The scan of the quorum for number s: stops at a message with both entries, else has counted all. */
  method ScanQuorum(vset: seq<ViewChangeMsg>, s: u32)
    returns (findQC: bool, batch: RequestBatch, diffValues: map<Digest, nat>,
             diffValuesReqBatch: map<Digest, RequestBatch>)
    ensures findQC <==> FirstPaired(vset, s) < |vset|
    ensures findQC ==> batch == vset[FirstPaired(vset, s)].pset[s].batch
    ensures !findQC ==> Counted(vset, s, diffValues, diffValuesReqBatch)
  {
    hide FirstPaired, Counted;
    CountedNone(s);
    findQC, batch, diffValues, diffValuesReqBatch := false, [], map[], map[];
    for i := 0 to |vset|
      invariant !findQC && Counted(vset[..i], s, diffValues, diffValuesReqBatch)
      invariant forall j | 0 <= j < i :: !Paired(vset[j], s)
    {
      assert vset[..i + 1] == vset[..i] + [vset[i]];
      if s in vset[i].pset {
        var batchHash := vset[i].pset[s].digest.Key();
        CountedNext(vset[..i], s, vset[i], diffValues, diffValuesReqBatch);
        diffValues := diffValues[batchHash := (if batchHash in diffValues then diffValues[batchHash] else 0) + 1];
        diffValuesReqBatch := diffValuesReqBatch[batchHash := vset[i].pset[s].batch];
        if s in vset[i].qset {
          batch := vset[i].pset[s].batch;
          findQC := true;
          assert FirstPaired(vset, s) == i;
          return;
        }
      } else {
        CountedSkip(vset[..i], s, vset[i], diffValues, diffValuesReqBatch);
      }
    }
    assert vset[..|vset|] == vset;
  }

  /** The digests with enough pre-prepares behind them. */
  method CountSubsets(c: Config, diffValues: map<Digest, nat>) returns (diffSubset: nat, last: Digest)
    ensures var w := set k | k in diffValues && diffValues[k] >= c.subsetCount;
            diffSubset == |w| && (diffSubset > 0 ==> last in w)
  {
    diffSubset, last := 0, Nil;
    var left := diffValues.Keys;
    ghost var seen: set<Digest> := {};
    while left != {}
      invariant left <= diffValues.Keys && diffSubset == |seen|
      invariant seen == set k | k in diffValues && k !in left && diffValues[k] >= c.subsetCount
      invariant diffSubset > 0 ==> last in seen
      decreases left
    {
      var k :| k in left;
      left := left - {k};
      if diffValues[k] >= c.subsetCount {
        seen := seen + {k};
        diffSubset, last := diffSubset + 1, k;
      }
    }
    assert seen == set k | k in diffValues && diffValues[k] >= c.subsetCount;
  }

  lemma OnlyMember<A>(w: set<A>, a: A, b: A)
    requires |w| == 1 && a in w && b in w
    ensures a == b
  {
    assert |w - {a}| == 0;
  }

  lemma SlotOfScan(c: Config, vset: seq<ViewChangeMsg>, s: u32, counts: map<Digest, nat>,
                   batches: map<Digest, RequestBatch>, last: Digest)
    requires FirstPaired(vset, s) == |vset| && Counted(vset, s, counts, batches)
    requires var w := set k | k in counts && counts[k] >= c.subsetCount; |w| > 0 ==> last in w
    ensures var w := set k | k in counts && counts[k] >= c.subsetCount;
            && (|w| == 0 ==> SlotAt(c, vset, s) == Assigned([]))
            && (|w| == 1 ==> last in batches && SlotAt(c, vset, s) == Assigned(batches[last]))
            && (|w| == 2 ==> SlotAt(c, vset, s) == Ambiguous)
            && (|w| > 2 ==> SlotAt(c, vset, s) == Unassigned)
  {
    hide FirstPaired, Supporters, LastBatch, Keys;
    var w := set k | k in counts && counts[k] >= c.subsetCount;
    assert w == Winners(c, vset, s);
    if |w| == 1 {
      var k :| k in w && SlotAt(c, vset, s) == Assigned(LastBatch(vset, s, k));
      OnlyMember(w, k, last);
    }
  }

  /** The batches of a new view. A loop bound of 2^32-1 would never be passed. */
  method AssignSequenceNumbers(c: Config, vset: seq<ViewChangeMsg>, sn: u32)
    returns (msgList: map<u32, RequestBatch>, ok: bool)
    requires !Diverges(c, sn)
    ensures Result(msgList, ok) == Assign(c, vset, sn)
  {
    hide SlotAt, FirstPaired, Counted;
    msgList, ok := map[], true;
    var minS, maxS := Add(sn, 1), Add(sn, c.K);
    var s := minS;
    while s <= maxS
      invariant minS <= s && (s <= maxS + 1 || s == minS)
      invariant AssignRange(c, vset, minS, s as int - 1) == Result(msgList, ok)
    {
      var findQC, batch, diffValues, diffValuesReqBatch := ScanQuorum(vset, s);
      if findQC {
        SlotOfPair(c, vset, s);
        msgList := msgList[s := batch];
        s := s + 1;
        continue;
      }
      var diffSubset, key := CountSubsets(c, diffValues);
      assert FirstPaired(vset, s) == |vset|;
      SlotOfScan(c, vset, s, diffValues, diffValuesReqBatch, key);
      if diffSubset == 1 { msgList := msgList[s := diffValuesReqBatch[key]]; }
      if diffSubset == 2 { ok := false; }
      if diffSubset == 0 { msgList := msgList[s := []]; }
      s := s + 1;
    }
  }

  lemma SlotOfPair(c: Config, vset: seq<ViewChangeMsg>, s: u32)
    requires FirstPaired(vset, s) < |vset|
    ensures SlotAt(c, vset, s) == Assigned(vset[FirstPaired(vset, s)].pset[s].batch)
  {}

  // ---------------------------------------------------------------- GetMapkey

  predicate Increasing(keys: seq<u32>) { forall i, j :: 0 <= i < j < |keys| ==> keys[i] < keys[j] }

  lemma MemberAt(keys: seq<u32>, i: nat)
    ensures i < |keys| ==> keys[i] in keys
  {}

  ghost predicate Lists(keys: seq<u32>, ks: set<u32>, bound: nat) {
    forall k: u32 :: k in keys <==> k in ks && k < bound
  }

  /** The greatest key comes last. */
  lemma LastKey(keys: seq<u32>, ks: set<u32>, last: u32)
    requires Increasing(keys) && Lists(keys, ks, last + 1) && last in ks
    ensures keys != [] && keys == keys[..|keys| - 1] + [last]
  {
    assert last in keys;
    var i :| 0 <= i < |keys| && keys[i] == last;
    MemberAt(keys, i + 1);
  }

  lemma WithoutLast(keys: seq<u32>, ks: set<u32>, last: u32)
    requires Increasing(keys + [last]) && Lists(keys + [last], ks, last + 1)
    ensures Lists(keys, ks, last)
  {
    var all := keys + [last];
    forall k: u32 ensures k in keys <==> k in ks && k < last {
      assert k in all <==> k in keys || k == last;
      if k in keys {
        var i :| 0 <= i < |keys| && keys[i] == k;
        assert all[i] == k && all[|keys|] == last;
      }
    }
  }

  lemma NoneListed(keys: seq<u32>, ks: set<u32>)
    requires Lists(keys, ks, 0)
    ensures keys == []
  {
    MemberAt(keys, 0);
  }

  lemma NotListed(keys: seq<u32>, ks: set<u32>, bound: nat)
    requires 0 < bound <= MOD && Lists(keys, ks, bound) && bound - 1 !in ks
    ensures Lists(keys, ks, bound - 1)
  {}

  lemma IncreasingPrefix(keys: seq<u32>, n: nat)
    requires Increasing(keys) && n <= |keys|
    ensures Increasing(keys[..n])
  {}

  /** There is only one ascending enumeration of a set of keys. */
  lemma {:induction false} AscendingUnique(keys: seq<u32>, ks: set<u32>, bound: nat)
    requires bound <= MOD && Increasing(keys) && Lists(keys, ks, bound)
    ensures keys == SortedUpTo(ks, bound)
    decreases bound
  {
    hide Increasing, Lists;
    if bound == 0 {
      NoneListed(keys, ks);
    } else if bound - 1 in ks {
      LastKey(keys, ks, bound - 1);
      WithoutLast(keys[..|keys| - 1], ks, bound - 1);
      IncreasingPrefix(keys, |keys| - 1);
      AscendingUnique(keys[..|keys| - 1], ks, bound - 1);
    } else {
      NotListed(keys, ks, bound);
      AscendingUnique(keys, ks, bound - 1);
    }
  }

  /** Insert a key where it belongs. */
  method InsertKey(keys: seq<u32>, key: u32) returns (r: seq<u32>)
    requires Increasing(keys) && key !in keys
    ensures Increasing(r) && forall k :: k in r <==> k in keys || k == key
  {
    var i := |keys|;
    while i > 0 && key < keys[i - 1]
      invariant 0 <= i <= |keys| && forall j | i <= j < |keys| :: key < keys[j]
    {
      i := i - 1;
    }
    r := keys[..i] + [key] + keys[i..];
    InsertedOrder(keys, key, i);
    InsertedMembers(keys, key, i);
  }

  lemma InsertedOrder(keys: seq<u32>, key: u32, i: nat)
    requires Increasing(keys) && key !in keys && i <= |keys|
    requires (i > 0 ==> keys[i - 1] <= key) && forall j | i <= j < |keys| :: key < keys[j]
    ensures Increasing(keys[..i] + [key] + keys[i..])
  {
    if i > 0 { assert keys[i - 1] in keys; }
    forall j | 0 <= j < i ensures keys[j] < key {}
  }

  lemma InsertedMembers(keys: seq<u32>, key: u32, i: nat)
    requires i <= |keys|
    ensures forall k :: k in keys[..i] + [key] + keys[i..] <==> k in keys || k == key
  {
    assert keys == keys[..i] + keys[i..];
  }

  method GetMapkey(result: map<u32, RequestBatch>) returns (keys: seq<u32>)
    ensures keys == Sorted(result.Keys)
  {
    keys := [];
    var left := result.Keys;
    while left != {}
      invariant left <= result.Keys && Increasing(keys)
      invariant forall k :: k in keys <==> k in result && k !in left
      decreases left
    {
      var key :| key in left;
      keys := InsertKey(keys, key);
      left := left - {key};
    }
    assert Lists(keys, result.Keys, MOD);
    AscendingUnique(keys, result.Keys, MOD);
  }
}
