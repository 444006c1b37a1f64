/** The conflict resolver: from a local record, a remote record and the
    configured strategy to a verdict. */
module ConflictResolver {
  import opened SyncTypes

  /** `resolveConflict`. The fixed strategies pass through; `newest` compares
      timestamps and lets the local record win a tie. */
  function ResolveConflict(local: CloudSaveSlot, remote: CloudSaveSlot, strategy: Strategy): (r: Strategy)
    ensures strategy != Newest ==> r == strategy
    ensures strategy == Newest ==> (r == Local <==> local.timestamp >= remote.timestamp)
    ensures strategy == Newest ==> (r == Remote <==> local.timestamp < remote.timestamp)
    ensures r != Newest
  {
    if strategy.Local? || strategy.Remote? || strategy.Ask? then strategy
    else if local.timestamp == remote.timestamp then Local
    else if local.timestamp > remote.timestamp then Local
    else Remote
  }

  /** Under `newest` the verdict depends on the two timestamps only: neither
      checksum, payload nor any other field changes it. */
  lemma NewestDependsOnlyOnTimestamps(l1: CloudSaveSlot, r1: CloudSaveSlot, l2: CloudSaveSlot, r2: CloudSaveSlot)
    requires l1.timestamp == l2.timestamp && r1.timestamp == r2.timestamp
    ensures ResolveConflict(l1, r1, Newest) == ResolveConflict(l2, r2, Newest)
  {
  }

  /** Swapping the two records under `newest` swaps the verdict, except on a
      tie, where both orders favour the record passed as local. */
  lemma NewestSwap(a: CloudSaveSlot, b: CloudSaveSlot)
    ensures a.timestamp != b.timestamp ==>
      (ResolveConflict(a, b, Newest) == Local <==> ResolveConflict(b, a, Newest) == Remote)
    ensures a.timestamp == b.timestamp ==>
      ResolveConflict(a, b, Newest) == Local && ResolveConflict(b, a, Newest) == Local
  {
  }
}
