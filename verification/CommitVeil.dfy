/** Tables in which the success of some chunk rows is veiled: no operation but an upsert of such a row notices. */
module CommitVeil {
  import opened Wrappers
  import opened ImportTables
  import opened CommitSafety

  function VeiledRow(row: ChunkRow): ChunkRow {
    if row.status == ChunkSucceeded then row.(status := Pending) else row
  }

  function VeiledChunks(chunks: map<ChunkId, ChunkRow>, gone: set<ChunkId>): (r: map<ChunkId, ChunkRow>)
    ensures r.Keys == chunks.Keys
    ensures forall c :: c in chunks ==> r[c] == if c in gone then VeiledRow(chunks[c]) else chunks[c]
  {
    map c | c in chunks :: if c in gone then VeiledRow(chunks[c]) else chunks[c]
  }

  function VeiledTables(t: Tables, gone: set<ChunkId>): Tables {
    t.(chunks := VeiledChunks(t.chunks, gone))
  }

  function VeiledResult(r: Fenced, gone: set<ChunkId>): Fenced {
    if r.Done? then Done(VeiledTables(r.tables, gone), r.changed) else LeaseLost
  }

  // No chunk row is taken away, and no lease changes.
  predicate Grown(t: Tables, t': Tables) {
    t.chunks.Keys <= t'.chunks.Keys && SameLeases(t.jobs, t'.jobs)
  }

  predicate GrownBy(t: Tables, r: Fenced) {
    r.Done? ==> Grown(t, r.tables)
  }

  /****** table operations ******/

  lemma VeilPut(chunks: map<ChunkId, ChunkRow>, gone: set<ChunkId>, c: ChunkId, row: ChunkRow)
    ensures row.status != ChunkSucceeded ==> VeiledChunks(chunks[c := row], gone) == VeiledChunks(chunks, gone)[c := row]
    ensures VeiledChunks(chunks[c := row], gone - {c}) == VeiledChunks(chunks, gone)[c := row]
  {
  }

  lemma VeilUpdate(t: Tables, gone: set<ChunkId>, c: ChunkId, status: ChunkStatus, ids: Option<seq<MemoryId>>, owner: Owner, now: Time)
    ensures var r, r' := UpdateChunk(t, c, status, ids, owner, now), UpdateChunk(VeiledTables(t, gone), c, status, ids, owner, now);
            && (status != ChunkSucceeded ==> r' == VeiledResult(r, gone))
            && (c in t.chunks ==> r' == VeiledResult(r, gone - {c}))
    ensures GrownBy(t, UpdateChunk(t, c, status, ids, owner, now))
  {
    if c in t.chunks {
      VeilPut(t.chunks, gone, c, ChunkRow(status, if ids.Some? then ids.value else t.chunks[c].memoryIds));
    }
  }

  // A row that is not veiled is upserted as it would be without the veil.
  lemma VeilUpsert(t: Tables, gone: set<ChunkId>, c: ChunkId, owner: Owner, now: Time)
    requires c in gone && c in t.chunks ==> t.chunks[c].status != ChunkSucceeded
    ensures UpsertChunk(VeiledTables(t, gone), c, owner, now) == VeiledResult(UpsertChunk(t, c, owner, now), gone)
    ensures GrownBy(t, UpsertChunk(t, c, owner, now))
  {
    if c in t.chunks {
      VeilPut(t.chunks, gone, c, t.chunks[c].(status := Pending));
    } else {
      VeilPut(t.chunks, gone, c, ChunkRow(Pending, []));
    }
  }

  lemma VeilClaim(t: Tables, gone: set<ChunkId>, c: ChunkId, owner: Owner, now: Time)
    ensures ClaimManifest(VeiledTables(t, gone), c, owner, now) == VeiledResult(ClaimManifest(t, c, owner, now), gone)
    ensures GrownBy(t, ClaimManifest(t, c, owner, now))
  {
  }

  lemma VeilMark(t: Tables, gone: set<ChunkId>, c: ChunkId, mark: ManifestStatus, ids: Option<seq<MemoryId>>, owner: Owner, now: Time)
    ensures MarkManifest(VeiledTables(t, gone), c, mark, ids, owner, now) == VeiledResult(MarkManifest(t, c, mark, ids, owner, now), gone)
    ensures GrownBy(t, MarkManifest(t, c, mark, ids, owner, now))
  {
  }

  lemma VeilTake(t: Tables, gone: set<ChunkId>, h: HashKey, c: ChunkId, owner: Owner, now: Time)
    ensures ClaimHash(VeiledTables(t, gone), h, c, owner, now) == VeiledResult(ClaimHash(t, h, c, owner, now), gone)
    ensures GrownBy(t, ClaimHash(t, h, c, owner, now))
  {
  }

  lemma VeilRelease(t: Tables, gone: set<ChunkId>, c: ChunkId, only: Option<set<Hash>>, owner: Owner, now: Time)
    ensures ReleaseHashes(VeiledTables(t, gone), c, only, owner, now) == VeiledResult(ReleaseHashes(t, c, only, owner, now), gone)
    ensures GrownBy(t, ReleaseHashes(t, c, only, owner, now))
  {
  }

  lemma VeilSettle(t: Tables, gone: set<ChunkId>, c: ChunkId, v: nat, only: set<Hash>, ids: map<Hash, MemoryId>, owner: Owner, now: Time)
    ensures MarkHashes(VeiledTables(t, gone), c, v, only, ids, owner, now) == VeiledResult(MarkHashes(t, c, v, only, ids, owner, now), gone)
    ensures GrownBy(t, MarkHashes(t, c, v, only, ids, owner, now))
  {
  }

  lemma VeilQueue(t: Tables, gone: set<ChunkId>, c: ChunkId, ids: seq<MemoryId>, owner: Owner, now: Time)
    ensures AddGraphItems(VeiledTables(t, gone), c, ids, owner, now) == VeiledResult(AddGraphItems(t, c, ids, owner, now), gone)
    ensures GrownBy(t, AddGraphItems(t, c, ids, owner, now))
  {
  }
}
