/**
How workers commit chunks.  Every worker walks through the code of one chunk; each of its
transactions, each read and the (unfenced) vector write is one step, any worker may stop
between two steps, leases change hands at any time, and a worker whose lease is gone keeps
running until a fenced operation tells it so.
 */
module CommitProtocol {
  import opened Wrappers
  import opened ImportTables
  import opened Fencing

  /** What a worker does once a chunk row was closed. */
  datatype Then = Stop | TryAgain | ClaimAfresh

  datatype Pc =
    | Ensuring                                // upsert the chunk row
    | Claiming                                // claim the manifest
    | Peeking                                 // own claim found: are there vector rows already?
    | Reclaiming                              // no: release the manifest ...
    | ReclaimingHashes                        // ... and the hash claims ...
    | ClaimingAgain                           // ... and claim once more
    | Resuming(ids: seq<MemoryId>)            // copy a finished manifest to the chunk row
    | Beginning                               // an attempt starts
    | Storing                                 // reconcile or extract?
    | Extracting                              // model call and hash claims
    | Inserting(ids: seq<MemoryId>)           // lease guard passed, vector rows not yet written
    | Settling(ids: seq<MemoryId>)            // hash claims to succeeded
    | Queueing(ids: seq<MemoryId>)            // graph items
    | Marking(ids: seq<MemoryId>)             // manifest to succeeded
    | Recording(ids: seq<MemoryId>)           // chunk row to succeeded
    | Reporting                               // recompute the job's progress
    | Unclaiming                              // the store raised: release the hashes it claimed
    | Handling                                // exception handler
    | Undoing(mark: ManifestStatus)           // split, failed or cancelled: manifest ...
    | UndoingHashes(mark: ManifestStatus)     // ... hash claims ...
    | Closing(status: ChunkStatus, write: Option<seq<MemoryId>>, next: Then)   // ... chunk row
    | SkipEnsuring(superseded: bool)          // a chunk known to be a duplicate or superseded
    | SkipHashes
    | SkipLooking(superseded: bool)
    | SkipClaiming(superseded: bool)
    | SkipMarking(superseded: bool)

  datatype Worker = Worker(owner: Owner, chunk: ChunkId, pc: Pc, attempt: nat, reconcile: bool)

  /** The keys one run decided to skip when it started; the flag tells superseded leaves from duplicates. */
  datatype Plan = Plan(project: ProjectId, job: JobId, skip: map<Key, bool>)

  /**
  `committed` remembers, for the statements below only, the manifest row under which a chunk was
  recorded as succeeded.
   */
  datatype World = World(
    sys: System,
    vectors: map<MemoryId, ManifestKey>,
    plans: map<Owner, Plan>,
    listed: map<Owner, set<ChunkId>>,
    workers: map<nat, Worker>,
    committed: map<ManifestKey, ManifestRow>)

  /** Everything the model does not decide: model output, exceptions, cancellation. */
  datatype Choice =
    | Go
    | Busy(again: bool)
    | Rows(ids: seq<MemoryId>)
    | Take(h: HashKey)
    | Ready(ids: seq<MemoryId>)
    | Settle(conversation: nat, settled: set<Hash>, found: map<Hash, MemoryId>)
    | Raise(inStore: bool)
    | Give(up: ManifestStatus)
    | Drop(claimed: set<Hash>)

  datatype Step =
    | Env(op: SystemOp)
    | Load(owner: Owner, job: JobId, skip: map<Key, bool>)
    | List(owner: Owner, job: JobId)
    | Reset(owner: Owner, c: ChunkId)
    | Start(id: nat, owner: Owner, c: ChunkId)
    | Work(id: nat, choice: Choice)
    | Crash(id: nat)
    | LateError(id: nat)

  function With(s: World, t: Tables): (s': World)
    ensures s'.sys.tables == t && s'.committed == s.committed
  {
    s.(sys := s.sys.(tables := t))
  }

  function Halt(s: World, id: nat): (s': World)
    ensures s'.sys == s.sys && s'.committed == s.committed
  {
    s.(workers := s.workers - {id})
  }

  function Move(s: World, id: nat, pc: Pc): (s': World)
    requires id in s.workers
    ensures s'.sys == s.sys && s'.committed == s.committed
  {
    s.(workers := s.workers[id := s.workers[id].(pc := pc)])
  }

  // A fenced write followed by a move, or the end of the worker when the lease is gone
  function WriteThen(s: World, id: nat, r: Fenced, pc: Pc): (s': World)
    requires id in s.workers
    ensures s'.sys.tables == (if r.Done? then r.tables else s.sys.tables) && s'.committed == s.committed
  {
    if r.LeaseLost? then Halt(s, id) else Move(With(s, r.tables), id, pc)
  }

  // A claim handed the manifest to the worker: from the second attempt on it must reconcile.
  function HoldClaim(s: World, id: nat, t: Tables): (s': World)
    requires id in s.workers && ManifestOf(s.workers[id].chunk) in t.manifests
    ensures s'.sys.tables == t && s'.committed == s.committed
  {
    var w := s.workers[id];
    var again := t.manifests[ManifestOf(w.chunk)].attempts > 1;
    With(s, t).(workers := s.workers[id := w.(pc := Beginning, attempt := 1, reconcile := again)])
  }

  function BusyThen(s: World, id: nat, t: Tables, choice: Choice): (s': World)
    requires id in s.workers
    ensures s'.sys.tables == t && s'.committed == s.committed
  {
    Move(With(s, t), id, if choice.Busy? && choice.again then Closing(Retrying, None, ClaimAfresh)
                         else Closing(ChunkFailed, None, Stop))
  }

  // `_claim_import_chunk` after the claim
  function ClaimThen(s: World, id: nat, r: Fenced, choice: Choice): (s': World)
    requires id in s.workers
    requires r.Done? ==> ManifestOf(s.workers[id].chunk) in r.tables.manifests
    ensures s'.sys.tables == (if r.Done? then r.tables else s.sys.tables) && s'.committed == s.committed
  {
    if r.LeaseLost? then Halt(s, id) else
    var c := s.workers[id].chunk;
    var m := r.tables.manifests[ManifestOf(c)];
    if r.changed then HoldClaim(s, id, r.tables)
    else if m.status == Split then Move(With(s, r.tables), id, Undoing(Split))
    else if m.status == Succeeded then
      Move(With(s, r.tables), id, if m.chunk.job == c.job then Resuming(m.memoryIds) else Closing(Skipped, None, Stop))
    else if m.status == Claimed && m.chunk == c then Move(With(s, r.tables), id, Peeking)
    else BusyThen(s, id, r.tables, choice)
  }

  function RowsOf(s: World, k: ManifestKey): set<MemoryId> {
    set i | i in s.vectors && s.vectors[i] == k
  }

  predicate Distinct(ids: seq<MemoryId>) {
    forall i, j :: 0 <= i < j < |ids| ==> ids[i] != ids[j]
  }

  function SkipIds(superseded: bool): Option<seq<MemoryId>> {
    if superseded then Some([]) else None
  }

  // `_claim_import_chunk`
  function DoClaim(s: World, id: nat, choice: Choice): World
    requires id in s.workers
  {
    var w := s.workers[id];
    var c, k, t, now := w.chunk, ManifestOf(w.chunk), s.sys.tables, s.sys.now;
    match w.pc
    case Ensuring =>
      var r := UpsertChunk(t, c, w.owner, now);
      if r.Done? && r.tables.chunks[c].status == ChunkSucceeded then Halt(s, id) else WriteThen(s, id, r, Claiming)
    case Claiming => ClaimThen(s, id, ClaimManifest(t, c, w.owner, now), choice)
    case Peeking =>
      if RowsOf(s, k) != {} then s.(workers := s.workers[id := w.(pc := Beginning, attempt := 1, reconcile := true)])
      else Move(s, id, Reclaiming)
    case Reclaiming => WriteThen(s, id, MarkManifest(t, c, Released, None, w.owner, now), ReclaimingHashes)
    case ReclaimingHashes => WriteThen(s, id, ReleaseHashes(t, c, None, w.owner, now), ClaimingAgain)
    case ClaimingAgain =>
      var r := ClaimManifest(t, c, w.owner, now);
      if r.LeaseLost? then Halt(s, id)
      else if r.changed then HoldClaim(s, id, r.tables)
      else BusyThen(s, id, r.tables, choice)
    case _ => s
  }

  // The head of an attempt, up to and including the vector write
  function DoStore(s: World, id: nat, choice: Choice): World
    requires id in s.workers
  {
    var w := s.workers[id];
    var c, k, t, now := w.chunk, ManifestOf(w.chunk), s.sys.tables, s.sys.now;
    match w.pc
    case Beginning =>
      if choice.Give? then Move(s, id, Undoing(Released))
      else WriteThen(s, id, UpdateChunk(t, c, Processing, None, w.owner, now), Storing)
    case Storing =>
      if choice.Raise? then Move(s, id, Handling)
      else if !(w.reconcile || w.attempt > 1) then Move(s, id, Extracting)
      else if !LeaseActive(t.jobs, c.job, w.owner, now) then Halt(s, id)
      else if RowsOf(s, k) == {} then Move(s, id, Extracting)
      else if choice.Rows? && Distinct(choice.ids) && (set i | i in choice.ids) == RowsOf(s, k)
      then Move(s, id, Settling(choice.ids))
      else s
    case Extracting =>
      (match choice
       case Take(h) =>
         var r := ClaimHash(t, h, c, w.owner, now);
         if r.LeaseLost? then Halt(s, id) else With(s, r.tables)
       case Ready(ids) =>
         if !LeaseActive(t.jobs, c.job, w.owner, now) then Halt(s, id)
         else if ids == [] then Move(s, id, Settling([]))
         else if Distinct(ids) then Move(s, id, Inserting(ids))
         else Move(s, id, Unclaiming)
       case _ => Move(s, id, Unclaiming))
    case Inserting(ids) =>
      if choice.Raise? || (exists i :: i in ids && i in s.vectors) then Move(s, id, Unclaiming)
      else Move(s.(vectors := s.vectors + map i | i in ids :: k), id, Settling(ids))
    case _ => s
  }

  // The tail of an attempt: everything after the vector rows exist, and the resumption of a finished manifest
  function DoFinish(s: World, id: nat, choice: Choice): World
    requires id in s.workers
  {
    var w := s.workers[id];
    var c, k, t, now := w.chunk, ManifestOf(w.chunk), s.sys.tables, s.sys.now;
    match w.pc
    case Settling(ids) =>
      (match choice
       case Settle(v, settled, found) => WriteThen(s, id, MarkHashes(t, c, v, settled, found, w.owner, now), Queueing(ids))
       case Raise(inStore) => Move(s, id, if inStore then Unclaiming else Handling)
       case _ => s)
    case Queueing(ids) =>
      if choice.Raise? then Move(s, id, Handling)
      else WriteThen(s, id, AddGraphItems(t, c, ids, w.owner, now), Marking(ids))
    case Marking(ids) =>
      if choice.Raise? then Move(s, id, Handling)
      else WriteThen(s, id, MarkManifest(t, c, Succeeded, Some(ids), w.owner, now), Recording(ids))
    case Recording(ids) =>
      if choice.Raise? then Move(s, id, Handling)
      else
        var r := UpdateChunk(t, c, ChunkSucceeded, Some(ids), w.owner, now);
        if r.LeaseLost? then Halt(s, id) else Move(Commit(With(s, r.tables), k), id, Reporting)
    case Resuming(ids) =>
      var r := UpdateChunk(t, c, ChunkSucceeded, Some(ids), w.owner, now);
      if r.LeaseLost? then Halt(s, id) else Halt(Commit(With(s, r.tables), k), id)
    case Reporting => Halt(s, id)
    case _ => s
  }

  // Exceptions, splits, failures and cancellation, and the final write to the chunk row
  function DoUndo(s: World, id: nat, choice: Choice): World
    requires id in s.workers
  {
    var w := s.workers[id];
    var c, t, now := w.chunk, s.sys.tables, s.sys.now;
    match w.pc
    // the hashes this attempt took
    case Unclaiming =>
      WriteThen(s, id, ReleaseHashes(t, c, Some(if choice.Drop? then choice.claimed else {}), w.owner, now), Handling)
    case Handling =>
      if choice.Give? && choice.up in {Split, ManifestFailed, Released} then Move(s, id, Undoing(choice.up))
      else Move(s, id, Closing(Retrying, None, TryAgain))
    case Undoing(mark) =>
      WriteThen(s, id, MarkManifest(t, c, mark, None, w.owner, now),
                if mark == ManifestFailed then Closing(ChunkFailed, None, Stop) else UndoingHashes(mark))
    case UndoingHashes(mark) =>
      WriteThen(s, id, ReleaseHashes(t, c, None, w.owner, now),
                Closing(if mark == Split then ChunkSplit else ChunkCancelled, None, Stop))
    case Closing(status, ids, next) =>
      var r := UpdateChunk(t, c, status, ids, w.owner, now);
      if r.LeaseLost? then Halt(s, id) else
      (match next
       case Stop => Halt(With(s, r.tables), id)
       case TryAgain => With(s, r.tables).(workers := s.workers[id := w.(pc := Beginning, attempt := w.attempt + 1)])
       case ClaimAfresh => Move(With(s, r.tables), id, Ensuring))
    case _ => s
  }

  // `_update_import_chunk(..., "skipped")`
  function DoSkip(s: World, id: nat): World
    requires id in s.workers
  {
    var w := s.workers[id];
    var c, k, t, now := w.chunk, ManifestOf(w.chunk), s.sys.tables, s.sys.now;
    match w.pc
    case SkipEnsuring(superseded) =>
      var next := if superseded then SkipHashes else SkipLooking(false);
      if c in t.chunks then Move(s, id, next) else WriteThen(s, id, UpsertChunk(t, c, w.owner, now), next)
    case SkipHashes => WriteThen(s, id, ReleaseHashes(t, c, None, w.owner, now), SkipLooking(true))
    case SkipLooking(superseded) =>
      if k !in t.manifests then Move(s, id, SkipClaiming(superseded))
      else if superseded && t.manifests[k].status != Succeeded then
        Move(s, id, if t.manifests[k].chunk.job == c.job then SkipMarking(superseded) else SkipClaiming(superseded))
      else Move(s, id, Closing(Skipped, SkipIds(superseded), Stop))
    case SkipClaiming(superseded) =>
      var r := ClaimManifest(t, c, w.owner, now);
      if r.LeaseLost? then Halt(s, id)
      else Move(With(s, r.tables), id, if r.changed then SkipMarking(superseded)
                                       else Closing(Skipped, SkipIds(superseded), Stop))
    case SkipMarking(superseded) =>
      WriteThen(s, id, MarkManifest(t, c, Succeeded, Some([]), w.owner, now), Closing(Skipped, SkipIds(superseded), Stop))
    case _ => s
  }

  function DoWork(s: World, id: nat, choice: Choice): World
    requires id in s.workers
  {
    var pc := s.workers[id].pc;
    if pc.Ensuring? || pc.Claiming? || pc.Peeking? || pc.Reclaiming? || pc.ReclaimingHashes? || pc.ClaimingAgain? then
      DoClaim(s, id, choice)
    else if pc.Beginning? || pc.Storing? || pc.Extracting? || pc.Inserting? then
      DoStore(s, id, choice)
    else if pc.Settling? || pc.Queueing? || pc.Marking? || pc.Recording? || pc.Resuming? || pc.Reporting? then
      DoFinish(s, id, choice)
    else if pc.Unclaiming? || pc.Handling? || pc.Undoing? || pc.UndoingHashes? || pc.Closing? then
      DoUndo(s, id, choice)
    else
      DoSkip(s, id)
  }

  // Remember the manifest row under which a chunk row became succeeded.
  function Commit(s: World, k: ManifestKey): World {
    if k in s.sys.tables.manifests then s.(committed := s.committed[k := s.sys.tables.manifests[k]]) else s
  }

  // `load_existing` never returns a key whose manifest belongs to this job, and a superseded leaf
  // is only collected when its own chunk row is not succeeded.
  predicate MaySkip(t: Tables, c: ChunkId, superseded: bool) {
    if superseded then c in t.chunks ==> t.chunks[c].status != ChunkSucceeded
    else ManifestOf(c) in t.manifests ==> t.manifests[ManifestOf(c)].chunk.job != c.job
  }

  predicate CanLoad(s: World, owner: Owner, job: JobId, skip: map<Key, bool>) {
    && owner in s.sys.used && owner !in s.plans && job in s.sys.tables.jobs
    && forall k :: k in skip ==> MaySkip(s.sys.tables, ChunkId(s.sys.tables.jobs[job].project, job, k), skip[k])
  }

  // One run works on equal keys one after the other: they belong to one conversation.
  predicate CanStart(s: World, id: nat, owner: Owner, c: ChunkId) {
    && id !in s.workers && owner in s.plans
    && c.project == s.plans[owner].project && c.job == s.plans[owner].job
    && forall i :: i in s.workers ==> s.workers[i].owner != owner || s.workers[i].chunk != c
  }

  // `list_chunks(job_id, statuses="failed")`
  function FailedChunks(t: Tables, job: JobId): set<ChunkId> {
    set c | c in t.chunks && c.job == job && t.chunks[c].status == ChunkFailed
  }

  ghost function Advance(s: World, step: Step): World {
    match step
    case Env(op) => if op.OnTables? then s else s.(sys := Next(s.sys, op))
    case Load(owner, job, skip) =>
      if CanLoad(s, owner, job, skip)
      then s.(plans := s.plans[owner := Plan(s.sys.tables.jobs[job].project, job, skip)]) else s
    case List(owner, job) =>
      s.(listed := s.listed[owner := FailedChunks(s.sys.tables, job)])
    case Reset(owner, c) =>
      if owner in s.listed && c in s.listed[owner] then
        var r := UpdateChunk(s.sys.tables, c, Pending, None, owner, s.sys.now);
        if r.Done? then With(s, r.tables) else s
      else s
    case Start(id, owner, c) =>
      if CanStart(s, id, owner, c) then
        var skip := s.plans[owner].skip;
        s.(workers := s.workers[id := Worker(owner, c, if c.key in skip then SkipEnsuring(skip[c.key]) else Ensuring, 0, false)])
      else s
    case Work(id, choice) => if id in s.workers then DoWork(s, id, choice) else s
    case Crash(id) => Halt(s, id)
    case LateError(id) => if id in s.workers && s.workers[id].pc.Reporting? then Move(s, id, Handling) else s
  }

  ghost function Run(s: World, steps: seq<Step>): World
    decreases |steps|
  {
    if steps == [] then s else Run(Advance(s, steps[0]), steps[1..])
  }

  const EMPTY: World :=
    World(System(Tables(map[], map[], map[], map[], map[]), 0, {}), map[], map[], map[], map[], map[])
}
