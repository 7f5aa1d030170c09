/** The computations of core/viewchange.go that leave the node alone: what a view-change message
    carries, when it is accepted, and how a new primary turns a quorum of them into batches. */
module Assignment {
  import opened Types
  import opened ReplicaState

  // ---------------------------------------------------------------- calPQset

  function CalPset(certs: map<MsgId, Cert>, h: u32, ids: seq<MsgId>): map<u32, PrePrepareMsg> {
    if ids == [] then map[] else
      var m := CalPset(certs, h, ids[..|ids| - 1]);
      var id := ids[|ids| - 1];
      if id in certs && id.sn > h && certs[id].prePrepare.Some? then m[id.sn := certs[id].prePrepare.value] else m
  }

  function CalQset(certs: map<MsgId, Cert>, h: u32, ids: seq<MsgId>): map<u32, PrepareQc> {
    if ids == [] then map[] else
      var m := CalQset(certs, h, ids[..|ids| - 1]);
      var id := ids[|ids| - 1];
      if id in certs && id.sn > h && certs[id].prepareQc.Some? then m[id.sn := certs[id].prepareQc.value] else m
  }

  /** The first `limit` checkpoints of the enumeration whose state matches. */
  function CalCset(order: seq<CheckpointMsg>, digest: string, limit: nat): seq<CheckpointMsg> {
    if order == [] || limit == 0 then []
    else if order[0].digest == digest then [order[0]] + CalCset(order[1..], digest, limit - 1)
    else CalCset(order[1..], digest, limit)
  }

  // ---------------------------------------------------------------- correctViewChange

  predicate CorrectViewChange(c: Config, vc: ViewChangeMsg) {
    && (forall k | k in vc.pset ::
          vc.pset[k].view < vc.view && vc.h < vc.pset[k].sn < Add(vc.h, c.K))
    && (forall k | k in vc.qset :: Verify(TsKey, ForPrepare(SlowVote(vc.qset[k])), vc.qset[k].sig))
    && (forall ck | ck in vc.cset :: ck.sn == vc.h)
  }

  // ---------------------------------------------------------------- selectInitialSequence

  function MaxCheckpoint(vset: seq<ViewChangeMsg>): u32 {
    if vset == [] then 0 else
      var m := MaxCheckpoint(vset[..|vset| - 1]);
      if m <= vset[|vset| - 1].h then vset[|vset| - 1].h else m
  }

  // ---------------------------------------------------------------- assignSequenceNumbers

  predicate Paired(vc: ViewChangeMsg, s: u32) { s in vc.pset && s in vc.qset }

  /** Index of the first message that carries both a pre-prepare and a prepare certificate for s. */
  function FirstPaired(vset: seq<ViewChangeMsg>, s: u32): (i: nat)
    ensures i <= |vset|
    ensures i < |vset| ==> Paired(vset[i], s)
    ensures forall j | 0 <= j < i :: !Paired(vset[j], s)
  {
    if vset == [] then 0
    else if Paired(vset[0], s) then 0
    else FirstPaired(vset[1..], s) + 1
  }

  /** The messages (by index) whose pre-prepare for s has the digest key k. */
  function Supporters(vset: seq<ViewChangeMsg>, s: u32, k: Digest): set<nat> {
    set i: nat | i < |vset| && s in vset[i].pset && vset[i].pset[s].digest.Key() == k
  }

  function Keys(vset: seq<ViewChangeMsg>, s: u32): set<Digest> {
    set i | 0 <= i < |vset| && s in vset[i].pset :: vset[i].pset[s].digest.Key()
  }

  function Winners(c: Config, vset: seq<ViewChangeMsg>, s: u32): set<Digest> {
    set k | k in Keys(vset, s) && |Supporters(vset, s, k)| >= c.subsetCount
  }

  /** The batch of the last pre-prepare for s with digest key k. */
  function LastBatch(vset: seq<ViewChangeMsg>, s: u32, k: Digest): RequestBatch {
    if vset == [] then []
    else
      var vc := vset[|vset| - 1];
      if s in vc.pset && vc.pset[s].digest.Key() == k then vc.pset[s].batch
      else LastBatch(vset[..|vset| - 1], s, k)
  }

  datatype Slot = Assigned(batch: RequestBatch) | Ambiguous | Unassigned

  ghost function SlotAt(c: Config, vset: seq<ViewChangeMsg>, s: u32): Slot {
    var i := FirstPaired(vset, s);
    if i < |vset| then Assigned(vset[i].pset[s].batch)
    else
      var w := Winners(c, vset, s);
      if |w| == 0 then Assigned([])
      else if |w| == 1 then var k :| k in w; Assigned(LastBatch(vset, s, k))
      else if |w| == 2 then Ambiguous
      else Unassigned
  }

  datatype Assigned = Result(oset: map<u32, RequestBatch>, ok: bool)

  /** The loop `for s := lo; s <= hi; s++`. */
  ghost function AssignRange(c: Config, vset: seq<ViewChangeMsg>, lo: u32, hi: int): Assigned
    requires hi < MOD
    decreases hi - lo + 1
  {
    if hi < lo then Result(map[], true) else
      var r := AssignRange(c, vset, lo, hi - 1);
      match SlotAt(c, vset, hi)
      case Assigned(b) => r.(oset := r.oset[hi as u32 := b])
      case Ambiguous => r.(ok := false)
      case Unassigned => r
  }

  /** With `max_s` at 2^32-1 the source's loop never ends. */
  predicate Diverges(c: Config, sn: u32) { Add(sn, c.K) == MOD - 1 }

  ghost function Assign(c: Config, vset: seq<ViewChangeMsg>, sn: u32): Assigned {
    AssignRange(c, vset, Add(sn, 1), Add(sn, c.K))
  }

  // ---------------------------------------------------------------- GetMapkey

  /** The members of a set of sequence numbers in ascending order. */
  ghost function SortedUpTo(ks: set<u32>, bound: nat): seq<u32>
    requires bound <= MOD
    decreases bound
  {
    if bound == 0 then []
    else SortedUpTo(ks, bound - 1) + (if bound - 1 in ks then [bound - 1] else [])
  }

  ghost function Sorted(ks: set<u32>): seq<u32> { SortedUpTo(ks, MOD) }
}
