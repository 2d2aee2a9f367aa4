/** Mutual exclusion through the uniqueness constraints of the manifest and hash tables, over whole runs. */
module ClaimExclusion {
  import opened Wrappers
  import opened ImportTables
  import opened Fencing

  /****** manifests ******/

  function ManifestRowOf(s: System, k: ManifestKey): Option<ManifestRow> {
    if k in s.tables.manifests then Some(s.tables.manifests[k]) else None
  }

  predicate IsClaimOf(op: SystemOp, k: ManifestKey) {
    op.OnTables? && op.write.Claim? && ManifestOf(op.write.c) == k
  }

  predicate IsMarkOf(op: SystemOp, k: ManifestKey, job: JobId) {
    op.OnTables? && op.write.Mark? && ManifestOf(op.write.c) == k && op.write.c.job == job
  }

  // The claim went through: the repository returns the row together with "claimed".
  predicate Wins(s: System, op: SystemOp)
    requires op.OnTables?
  {
    var r := ApplyTableOp(s.tables, op.write, op.owner, s.now);
    r.Done? && r.changed
  }

  /**
  A claim hands a manifest out only to an owner with a live lease, and only when there is none yet
  or the last one failed or was released; never a succeeded or split one, and never a released row
  whose chunk is a split parent.  The winner's row is claimed in its name with one more attempt.
   */
  lemma ClaimHandsOut(s: System, op: SystemOp, k: ManifestKey)
    requires IsClaimOf(op, k)
    ensures var c, row := op.write.c, ManifestRowOf(s, k);
            && (Wins(s, op) ==>
                  && Active(s, c.job, op.owner)
                  && (row.Some? ==> row.value.status in {ManifestFailed, Released})
                  && (row.Some? && row.value.status == Released && row.value.chunk in s.tables.chunks ==>
                        s.tables.chunks[row.value.chunk].status != ChunkSplit)
                  && var after := ManifestRowOf(Next(s, op), k);
                  && after.Some? && after.value.chunk == c && after.value.status == Claimed
                  && after.value.attempts == (if row.Some? then row.value.attempts else 0) + 1)
            && (!Wins(s, op) ==>
                  var after := ManifestRowOf(Next(s, op), k);
                  after == row || (row.Some? && row.value.status == Released && after == Some(row.value.(status := Split))))
  {
  }

  lemma StepKeepsClaimed(s: System, op: SystemOp, k: ManifestKey)
    requires k in s.tables.manifests && s.tables.manifests[k].status == Claimed
    requires !IsMarkOf(op, k, s.tables.manifests[k].chunk.job)
    ensures ManifestRowOf(Next(s, op), k) == ManifestRowOf(s, k)
  {
  }

  /** From a successful claim to the holder's own mark the row stays as it is, whatever else runs. */
  lemma {:induction false} ClaimedStays(s: System, ops: seq<SystemOp>, k: ManifestKey)
    requires k in s.tables.manifests && s.tables.manifests[k].status == Claimed
    requires forall i :: 0 <= i < |ops| ==> !IsMarkOf(ops[i], k, s.tables.manifests[k].chunk.job)
    ensures ManifestRowOf(Exec(s, ops), k) == ManifestRowOf(s, k)
    decreases |ops|
  {
    if ops != [] {
      StepKeepsClaimed(s, ops[0], k);
      ClaimedStays(Next(s, ops[0]), ops[1..], k);
    }
  }

  /** Claim exclusion: between a successful claim and the holder's own mark no other claim succeeds. */
  lemma OneClaimAtATime(s: System, won: SystemOp, between: seq<SystemOp>, later: SystemOp, k: ManifestKey)
    requires IsClaimOf(won, k) && Wins(s, won) && IsClaimOf(later, k)
    requires forall i :: 0 <= i < |between| ==> !IsMarkOf(between[i], k, won.write.c.job)
    ensures !Wins(Exec(Next(s, won), between), later)
  {
    ClaimHandsOut(s, won, k);
    ClaimedStays(Next(s, won), between, k);
    ClaimHandsOut(Exec(Next(s, won), between), later, k);
  }

  /****** memory hashes ******/

  function HashRowOf(s: System, h: HashKey): Option<HashRow> {
    if h in s.tables.hashes then Some(s.tables.hashes[h]) else None
  }

  predicate IsTakeOf(op: SystemOp, h: HashKey) {
    op.OnTables? && op.write.TakeHash? && op.write.h == h
  }

  // The holder settling or dropping its hash claims
  predicate EndsClaimsOf(op: SystemOp, c: ChunkId) {
    op.OnTables? && op.write.c == c && (op.write.DropHashes? || op.write.SettleHashes?)
  }

  lemma StepKeepsHash(s: System, op: SystemOp, h: HashKey)
    requires h in s.tables.hashes && s.tables.hashes[h].status != HashReleased
    requires s.tables.hashes[h].status == HashClaimed ==> !EndsClaimsOf(op, s.tables.hashes[h].chunk)
    ensures HashRowOf(Next(s, op), h) == HashRowOf(s, h)
  {
  }

  /** A hash claim stays with its holder until the holder ends it; a succeeded hash stays for good. */
  lemma {:induction false} HashStays(s: System, ops: seq<SystemOp>, h: HashKey)
    requires h in s.tables.hashes && s.tables.hashes[h].status != HashReleased
    requires s.tables.hashes[h].status == HashClaimed ==>
               forall i :: 0 <= i < |ops| ==> !EndsClaimsOf(ops[i], s.tables.hashes[h].chunk)
    ensures HashRowOf(Exec(s, ops), h) == HashRowOf(s, h)
    decreases |ops|
  {
    if ops != [] {
      StepKeepsHash(s, ops[0], h);
      HashStays(Next(s, ops[0]), ops[1..], h);
    }
  }

  /** So two chunks never hold one hash, and a memory that was stored is never handed out again. */
  lemma OneHolderPerHash(s: System, ops: seq<SystemOp>, take: SystemOp, h: HashKey)
    requires IsTakeOf(take, h) && h in s.tables.hashes && s.tables.hashes[h].status != HashReleased
    requires s.tables.hashes[h].status == HashClaimed ==>
               forall i :: 0 <= i < |ops| ==> !EndsClaimsOf(ops[i], s.tables.hashes[h].chunk)
    ensures !Wins(Exec(s, ops), take) && Next(Exec(s, ops), take) == Exec(s, ops)
  {
    HashStays(s, ops, h);
  }

  /** Taking a hash that is free or was released makes the taker its holder. */
  lemma TakeWins(s: System, take: SystemOp, h: HashKey)
    requires IsTakeOf(take, h) && Active(s, take.write.c.job, take.owner)
    ensures Wins(s, take) <==> (h in s.tables.hashes ==> s.tables.hashes[h].status == HashReleased)
    ensures Wins(s, take) ==> HashRowOf(Next(s, take), h) == Some(HashRow(take.write.c, HashClaimed, None))
  {
  }
}
