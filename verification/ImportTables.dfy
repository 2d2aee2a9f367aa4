/**
The tables behind a resumable chat import and the meaning of every repository
operation on them.  One operation is one short SQL transaction, so each is given
here as a function from the tables before it to the tables after it; the class in
`ImportRepository` performs the same operations step by step on its own fields.
 */
module ImportTables {
  import opened Wrappers

  type ProjectId = nat
  type JobId = nat
  type Owner = nat
  type Key = nat
  type Hash = nat
  type MemoryId = nat
  type Time = int

  datatype JobStatus =
    | Uploading | Queued | Discovering | Parsing | Importing | SyncingGraph | Cancelling
    | Cancelled | Completed | CompletedWithErrors | Failed

  // `_ACTIVE_JOB_STATUSES`: everything that has not ended
  predicate IsActive(s: JobStatus) {
    s !in {Cancelled, Completed, CompletedWithErrors, Failed}
  }

  // `_LEASEABLE_JOB_STATUSES`
  predicate IsLeaseable(s: JobStatus) {
    IsActive(s) && s != Cancelling
  }

  // A retry of the graph queue has a phase name of its own; every other phase repeats the status.
  datatype Phase = Discarding | GraphSync | InStatus(status: JobStatus)

  // `_terminal_phase`: both completed statuses share one phase name
  function TerminalPhase(s: JobStatus): Phase {
    if s == CompletedWithErrors then InStatus(Completed) else InStatus(s)
  }

  datatype GraphStatus = GraphPending | GraphSyncing | GraphCompleted | GraphFailed | GraphDisabled | GraphSkipped

  datatype JobRow = JobRow(
    project: ProjectId,
    status: JobStatus,
    phase: Phase,
    cancelRequested: bool,
    graphStatus: GraphStatus,
    leaseOwner: Option<Owner>,
    leaseExpires: Option<Time>,
    workspace: bool,
    workspaceBytes: nat)

  type Jobs = map<JobId, JobRow>

  /** A chunk row is unique per job and import key; the job fixes the project. */
  datatype ChunkId = ChunkId(project: ProjectId, job: JobId, key: Key)

  datatype ChunkStatus =
    | Pending | Processing | Retrying | ChunkSucceeded | Skipped | ChunkSplit | ChunkCancelled | ChunkFailed

  datatype ChunkRow = ChunkRow(status: ChunkStatus, memoryIds: seq<MemoryId>)

  /** The unique constraint of the manifest table. */
  datatype ManifestKey = ManifestKey(project: ProjectId, key: Key)

  datatype ManifestStatus = Claimed | Succeeded | Split | Released | ManifestFailed

  // The row's job_id column is `chunk.job`: both columns are always written together.
  datatype ManifestRow = ManifestRow(chunk: ChunkId, status: ManifestStatus, attempts: nat, memoryIds: seq<MemoryId>)

  // `_RECLAIMABLE_STATUSES` of a manifest
  predicate Reclaimable(s: ManifestStatus) {
    s == ManifestFailed || s == Released
  }

  /** The unique constraint of the hash table; `conversation` is the scoped conversation hash. */
  datatype HashKey = HashKey(project: ProjectId, conversation: nat, hash: Hash)

  datatype HashStatus = HashClaimed | HashSucceeded | HashReleased

  datatype HashRow = HashRow(chunk: ChunkId, status: HashStatus, memoryId: Option<MemoryId>)

  /** The unique constraint of the graph queue; imports use the memory id as item key. */
  datatype GraphKey = GraphKey(chunk: ChunkId, itemKey: MemoryId)

  datatype Tables = Tables(
    jobs: Jobs,
    chunks: map<ChunkId, ChunkRow>,
    manifests: map<ManifestKey, ManifestRow>,
    hashes: map<HashKey, HashRow>,
    graph: map<GraphKey, GraphStatus>)

  /** What a fenced operation reports: new tables and its row count, or `ImportLeaseLost`. */
  datatype Fenced = Done(tables: Tables, changed: bool) | LeaseLost

  function ManifestOf(c: ChunkId): ManifestKey {
    ManifestKey(c.project, c.key)
  }

  /****** leases ******/

  // `_active_lease_conditions`
  predicate LeaseActive(jobs: Jobs, job: JobId, owner: Owner, now: Time) {
    && job in jobs
    && jobs[job].leaseOwner == Some(owner)
    && jobs[job].leaseExpires.Some?
    && jobs[job].leaseExpires.value > now
  }

  predicate LeaseFree(r: JobRow, now: Time) {
    r.leaseOwner.None? || r.leaseExpires.None? || r.leaseExpires.value <= now
  }

  function Lease(r: JobRow, owner: Owner, expires: Time): JobRow {
    r.(leaseOwner := Some(owner), leaseExpires := Some(expires))
  }

  function Unlease(r: JobRow): JobRow {
    r.(leaseOwner := None, leaseExpires := None)
  }

  predicate CanAcquire(jobs: Jobs, job: JobId, now: Time) {
    && job in jobs
    && IsLeaseable(jobs[job].status)
    && !jobs[job].cancelRequested
    && LeaseFree(jobs[job], now)
  }

  function AcquireLease(jobs: Jobs, job: JobId, owner: Owner, now: Time, expires: Time): Jobs {
    if CanAcquire(jobs, job, now) then jobs[job := Lease(jobs[job], owner, expires)] else jobs
  }

  function RenewLease(jobs: Jobs, job: JobId, owner: Owner, now: Time, expires: Time): Jobs {
    if LeaseActive(jobs, job, owner, now)
    then jobs[job := jobs[job].(leaseExpires := Some(expires))]
    else jobs
  }

  // Note that, unlike every other fenced operation, this does not look at the expiry time.
  function ReleaseLease(jobs: Jobs, job: JobId, owner: Owner): Jobs {
    if job in jobs && jobs[job].leaseOwner == Some(owner)
    then jobs[job := Unlease(jobs[job])]
    else jobs
  }

  /****** active jobs ******/

  ghost function ActiveJobs(jobs: Jobs, project: ProjectId): set<JobId> {
    set j | j in jobs && jobs[j].project == project && IsActive(jobs[j].status)
  }

  ghost function TotalBytes(jobs: Jobs): nat {
    if jobs == map[] then 0 else
    var j :| j in jobs;
    jobs[j].workspaceBytes + TotalBytes(jobs - {j})
  }

  // `retained` is the optional workspace budget checked in the same transaction
  ghost predicate CanCreate(jobs: Jobs, job: JobId, project: ProjectId, limit: nat, retained: nat) {
    job !in jobs && |ActiveJobs(jobs, project)| < limit && TotalBytes(jobs) < retained
  }

  ghost function CreateJob(jobs: Jobs, job: JobId, project: ProjectId, owner: Owner, expires: Time,
                           limit: nat, retained: nat): Jobs {
    if CanCreate(jobs, job, project, limit, retained)
    then jobs[job := JobRow(project, Uploading, InStatus(Uploading), false, GraphPending,
                            Some(owner), Some(expires), true, 0)]
    else jobs
  }

  predicate IsRetryable(s: JobStatus) {
    s in {Cancelled, CompletedWithErrors, Failed}
  }

  ghost predicate CanRetry(jobs: Jobs, job: JobId, limit: nat) {
    && job in jobs
    && IsRetryable(jobs[job].status)
    && jobs[job].phase != Discarding
    && |ActiveJobs(jobs, jobs[job].project)| < limit
  }

  // Takes the lease whether or not the previous one has expired.
  ghost function RetryLease(jobs: Jobs, job: JobId, owner: Owner, expires: Time, limit: nat): Jobs {
    if CanRetry(jobs, job, limit)
    then jobs[job := Lease(jobs[job], owner, expires).(status := Queued, phase := InStatus(Queued), cancelRequested := false)]
    else jobs
  }

  ghost predicate CanRetryGraph(jobs: Jobs, job: JobId, limit: nat) {
    && job in jobs
    && jobs[job].status in {Completed, CompletedWithErrors}
    && jobs[job].graphStatus in {GraphFailed, GraphPending, GraphDisabled}
    && jobs[job].phase != Discarding
    && |ActiveJobs(jobs, jobs[job].project)| < limit
  }

  ghost function ActivateGraphRetry(jobs: Jobs, job: JobId, owner: Owner, expires: Time, limit: nat): Jobs {
    if CanRetryGraph(jobs, job, limit)
    then jobs[job := Lease(jobs[job], owner, expires)
                     .(status := SyncingGraph, phase := GraphSync, graphStatus := GraphSyncing)]
    else jobs
  }

  function RequestCancel(jobs: Jobs, job: JobId): Jobs {
    if job in jobs && jobs[job].status in {Queued, Discovering, Parsing, Importing, SyncingGraph}
    then jobs[job := jobs[job].(cancelRequested := true, status := Cancelling, phase := InStatus(Cancelling))]
    else jobs
  }

  // `update_job(status=..., phase=..., lease_owner=owner)`
  function UpdateJob(jobs: Jobs, job: JobId, owner: Owner, now: Time, status: JobStatus, graph: GraphStatus): Jobs {
    if LeaseActive(jobs, job, owner, now)
    then jobs[job := jobs[job].(status := status, phase := InStatus(status), graphStatus := graph)]
    else jobs
  }

  /****** workspaces ******/

  predicate CanDiscard(jobs: Jobs, job: JobId, now: Time) {
    && job in jobs
    && !IsActive(jobs[job].status)
    && jobs[job].workspace
    && (jobs[job].phase != Discarding || LeaseFree(jobs[job], now))
  }

  function DiscardLease(jobs: Jobs, job: JobId, owner: Owner, now: Time, expires: Time): Jobs {
    if CanDiscard(jobs, job, now)
    then jobs[job := Lease(jobs[job], owner, expires).(phase := Discarding)]
    else jobs
  }

  // The guard shared by completing and aborting a discard; it does not look at the expiry time.
  predicate HoldsDiscard(jobs: Jobs, job: JobId, owner: Owner) {
    && job in jobs
    && !IsActive(jobs[job].status)
    && jobs[job].phase == Discarding
    && jobs[job].leaseOwner == Some(owner)
  }

  function CompleteDiscard(jobs: Jobs, job: JobId, owner: Owner): Jobs {
    if HoldsDiscard(jobs, job, owner)
    then jobs[job := Unlease(jobs[job])
                     .(phase := TerminalPhase(jobs[job].status), workspace := false, workspaceBytes := 0)]
    else jobs
  }

  function AbortDiscard(jobs: Jobs, job: JobId, owner: Owner): Jobs {
    if HoldsDiscard(jobs, job, owner)
    then jobs[job := Unlease(jobs[job]).(phase := TerminalPhase(jobs[job].status))]
    else jobs
  }

  ghost predicate CanReserve(jobs: Jobs, job: JobId, owner: Owner, now: Time, bytes: nat, budget: nat) {
    LeaseActive(jobs, job, owner, now) && TotalBytes(jobs) + bytes <= budget
  }

  ghost function ReserveBytes(jobs: Jobs, job: JobId, owner: Owner, now: Time, expires: Time,
                              bytes: nat, budget: nat): Jobs {
    if CanReserve(jobs, job, owner, now, bytes, budget)
    then jobs[job := jobs[job].(workspaceBytes := jobs[job].workspaceBytes + bytes, leaseExpires := Some(expires))]
    else jobs
  }

  function ReconcileBytes(jobs: Jobs, job: JobId, now: Time, bytes: nat): Jobs {
    if job in jobs && LeaseFree(jobs[job], now)
    then jobs[job := jobs[job].(workspaceBytes := bytes)]
    else jobs
  }

  predicate CanDeleteUploading(jobs: Jobs, job: JobId, owner: Owner, now: Time) {
    LeaseActive(jobs, job, owner, now) && jobs[job].status == Uploading
  }

  function DeleteUploading(jobs: Jobs, job: JobId, owner: Owner, now: Time): Jobs {
    if CanDeleteUploading(jobs, job, owner, now) then jobs - {job} else jobs
  }

  // `update_job(workspace=None, workspace_bytes=0)`; the startup scan calls it without an owner
  function ClearWorkspace(jobs: Jobs, job: JobId, owner: Option<Owner>, now: Time): Jobs {
    if job in jobs && (owner.Some? ==> LeaseActive(jobs, job, owner.value, now))
    then jobs[job := jobs[job].(workspace := false, workspaceBytes := 0)]
    else jobs
  }

  /****** chunks and manifests ******/

  // At most the row of one chunk changed.
  predicate RowOnly(t: Tables, t': Tables, c: ChunkId) {
    t' == t || (c in t'.chunks && t' == t.(chunks := t.chunks[c := t'.chunks[c]]))
  }

  function UpsertChunk(t: Tables, c: ChunkId, owner: Owner, now: Time): (r: Fenced)
    ensures r.Done? ==> LeaseActive(t.jobs, c.job, owner, now) && RowOnly(t, r.tables, c)
  {
    if !LeaseActive(t.jobs, c.job, owner, now) then LeaseLost
    else if c !in t.chunks then Done(t.(chunks := t.chunks[c := ChunkRow(Pending, [])]), true)
    else if t.chunks[c].status in {ChunkSucceeded, ChunkSplit} then Done(t, true)
    else Done(t.(chunks := t.chunks[c := t.chunks[c].(status := Pending)]), true)
  }

  function UpdateChunk(t: Tables, c: ChunkId, status: ChunkStatus, ids: Option<seq<MemoryId>>, owner: Owner, now: Time): (r: Fenced)
    ensures r.Done? ==> LeaseActive(t.jobs, c.job, owner, now) && RowOnly(t, r.tables, c)
  {
    if !LeaseActive(t.jobs, c.job, owner, now) then LeaseLost
    else if c !in t.chunks then Done(t, false)
    else
      var row := ChunkRow(status, if ids.Some? then ids.value else t.chunks[c].memoryIds);
      Done(t.(chunks := t.chunks[c := row]), true)
  }

  // A released manifest whose chunk is a split parent comes from an older version of the import.
  predicate LegacyReleasedSplit(t: Tables, m: ManifestRow) {
    m.status == Released && m.chunk in t.chunks && t.chunks[m.chunk].status == ChunkSplit
  }

  predicate CanClaim(t: Tables, k: ManifestKey) {
    k !in t.manifests || (Reclaimable(t.manifests[k].status) && !LegacyReleasedSplit(t, t.manifests[k]))
  }

  function ClaimManifest(t: Tables, c: ChunkId, owner: Owner, now: Time): (r: Fenced)
    ensures r.Done? ==> LeaseActive(t.jobs, c.job, owner, now) && r.tables == t.(manifests := r.tables.manifests)
  {
    var k := ManifestOf(c);
    if !LeaseActive(t.jobs, c.job, owner, now) then LeaseLost
    else if k !in t.manifests then
      Done(t.(manifests := t.manifests[k := ManifestRow(c, Claimed, 1, [])]), true)
    else
      var m := t.manifests[k];
      if CanClaim(t, k) then
        Done(t.(manifests := t.manifests[k := m.(chunk := c, status := Claimed, attempts := m.attempts + 1)]), true)
      else if LegacyReleasedSplit(t, m) then
        Done(t.(manifests := t.manifests[k := m.(status := Split)]), false)
      else Done(t, false)
  }

  // The update's condition names the job, so it never touches a manifest held by another job.
  function MarkManifest(t: Tables, c: ChunkId, status: ManifestStatus, ids: Option<seq<MemoryId>>, owner: Owner, now: Time): (r: Fenced)
    ensures r.Done? ==> LeaseActive(t.jobs, c.job, owner, now) && r.tables == t.(manifests := r.tables.manifests)
  {
    var k := ManifestOf(c);
    if !LeaseActive(t.jobs, c.job, owner, now) then LeaseLost
    else if k in t.manifests && t.manifests[k].chunk.job == c.job then
      var m := t.manifests[k];
      Done(t.(manifests := t.manifests[k := m.(status := status, memoryIds := if ids.Some? then ids.value else m.memoryIds)]), true)
    else Done(t, false)
  }

  /****** memory hashes ******/

  predicate CanClaimHash(t: Tables, h: HashKey) {
    h !in t.hashes || t.hashes[h].status == HashReleased
  }

  function ClaimHash(t: Tables, h: HashKey, c: ChunkId, owner: Owner, now: Time): (r: Fenced)
    ensures r.Done? ==> LeaseActive(t.jobs, c.job, owner, now) && r.tables == t.(hashes := r.tables.hashes)
  {
    if !LeaseActive(t.jobs, c.job, owner, now) then LeaseLost
    else if CanClaimHash(t, h) then Done(t.(hashes := t.hashes[h := HashRow(c, HashClaimed, None)]), true)
    else Done(t, false)
  }

  predicate ReleasesHash(r: HashRow, c: ChunkId, h: Hash, only: Option<set<Hash>>) {
    r.chunk == c && r.status == HashClaimed && (only.Some? ==> h in only.value)
  }

  function ReleaseHashes(t: Tables, c: ChunkId, only: Option<set<Hash>>, owner: Owner, now: Time): (r: Fenced)
    ensures r.Done? ==> LeaseActive(t.jobs, c.job, owner, now) && r.tables == t.(hashes := r.tables.hashes)
  {
    if !LeaseActive(t.jobs, c.job, owner, now) then LeaseLost
    else
      Done(t.(hashes := map h | h in t.hashes && !ReleasesHash(t.hashes[h], c, h.hash, only) :: t.hashes[h]),
           exists h :: h in t.hashes && ReleasesHash(t.hashes[h], c, h.hash, only))
  }

  predicate MarksHash(h: HashKey, r: HashRow, c: ChunkId, conversation: nat, only: set<Hash>) {
    && h.project == c.project && h.conversation == conversation && h.hash in only
    && r.chunk == c && r.status == HashClaimed
  }

  function Lookup(ids: map<Hash, MemoryId>, h: Hash): Option<MemoryId> {
    if h in ids then Some(ids[h]) else None
  }

  function MarkHashes(t: Tables, c: ChunkId, conversation: nat, only: set<Hash>, ids: map<Hash, MemoryId>,
                      owner: Owner, now: Time): (r: Fenced)
    ensures r.Done? ==> LeaseActive(t.jobs, c.job, owner, now) && r.tables == t.(hashes := r.tables.hashes)
  {
    if !LeaseActive(t.jobs, c.job, owner, now) then LeaseLost
    else
      var hashes := map h | h in t.hashes ::
                      if MarksHash(h, t.hashes[h], c, conversation, only)
                      then t.hashes[h].(status := HashSucceeded, memoryId := Lookup(ids, h.hash))
                      else t.hashes[h];
      Done(t.(hashes := hashes), true)
  }

  /****** graph queue ******/

  function AddGraphItems(t: Tables, c: ChunkId, ids: seq<MemoryId>, owner: Owner, now: Time): (r: Fenced)
    ensures r.Done? ==> r.tables == t.(graph := r.tables.graph, jobs := r.tables.jobs)
  {
    if ids == [] then Done(t, false)
    else if !LeaseActive(t.jobs, c.job, owner, now) then LeaseLost
    else
      var missing := map i | i in ids && GraphKey(c, i) !in t.graph :: GraphKey(c, i) := GraphPending;
      Done(t.(graph := t.graph + missing, jobs := if missing == map[] then t.jobs else
                                                t.jobs[c.job := t.jobs[c.job].(graphStatus := GraphPending)]), true)
  }
}
