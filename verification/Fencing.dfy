/**
Lease fencing over whole runs.  Every process takes a lease under an owner id nobody
used before, time never goes back, and every operation below is one transaction.
 */
module Fencing {
  import opened Wrappers
  import opened ImportTables

  /** Operations on the job table, with the lease length in seconds where one is taken. */
  datatype JobOp =
    | Create(job: JobId, project: ProjectId, owner: Owner, seconds: nat, limit: nat, retained: nat)
    | Acquire(job: JobId, owner: Owner, seconds: nat)
    | Retry(job: JobId, owner: Owner, seconds: nat, limit: nat)
    | RetryGraph(job: JobId, owner: Owner, seconds: nat, limit: nat)
    | Discard(job: JobId, owner: Owner, seconds: nat)
    | FinishDiscard(job: JobId, owner: Owner)
    | GiveUpDiscard(job: JobId, owner: Owner)
    | Renew(job: JobId, owner: Owner, seconds: nat)
    | Release(job: JobId, owner: Owner)
    | Cancel(job: JobId)
    | Update(job: JobId, owner: Owner, status: JobStatus, graph: GraphStatus)
    | Reserve(job: JobId, owner: Owner, seconds: nat, bytes: nat, budget: nat)
    | Reconcile(job: JobId, bytes: nat)
    | DeleteUpload(job: JobId, owner: Owner)
    | Clear(job: JobId, onBehalf: Option<Owner>)

  // The owner id an operation introduces
  function Introduces(op: JobOp): Option<Owner> {
    match op
    case Create(_, _, o, _, _, _) => Some(o)
    case Acquire(_, o, _) => Some(o)
    case Retry(_, o, _, _) => Some(o)
    case RetryGraph(_, o, _, _) => Some(o)
    case Discard(_, o, _) => Some(o)
    case _ => None
  }

  // The owner an operation acts for
  function Actor(op: JobOp): Option<Owner> {
    match op
    case Cancel(_) => None
    case Reconcile(_, _) => None
    case Clear(_, o) => o
    case _ => Some(op.owner)
  }

  ghost function ApplyJobOp(jobs: Jobs, op: JobOp, now: Time): Jobs {
    match op
    case Create(j, p, o, s, limit, retained) => CreateJob(jobs, j, p, o, now + s, limit, retained)
    case Acquire(j, o, s) => AcquireLease(jobs, j, o, now, now + s)
    case Retry(j, o, s, limit) => RetryLease(jobs, j, o, now + s, limit)
    case RetryGraph(j, o, s, limit) => ActivateGraphRetry(jobs, j, o, now + s, limit)
    case Discard(j, o, s) => DiscardLease(jobs, j, o, now, now + s)
    case FinishDiscard(j, o) => CompleteDiscard(jobs, j, o)
    case GiveUpDiscard(j, o) => AbortDiscard(jobs, j, o)
    case Renew(j, o, s) => RenewLease(jobs, j, o, now, now + s)
    case Release(j, o) => ReleaseLease(jobs, j, o)
    case Cancel(j) => RequestCancel(jobs, j)
    case Update(j, o, status, graph) => UpdateJob(jobs, j, o, now, status, graph)
    case Reserve(j, o, s, bytes, budget) => ReserveBytes(jobs, j, o, now, now + s, bytes, budget)
    case Reconcile(j, bytes) => ReconcileBytes(jobs, j, now, bytes)
    case DeleteUpload(j, o) => DeleteUploading(jobs, j, o, now)
    case Clear(j, o) => ClearWorkspace(jobs, j, o, now)
  }

  /** Fenced writes to the other tables. */
  datatype TableOp =
    | Upsert(c: ChunkId)
    | SetChunk(c: ChunkId, status: ChunkStatus, ids: Option<seq<MemoryId>>)
    | Claim(c: ChunkId)
    | Mark(c: ChunkId, mark: ManifestStatus, ids: Option<seq<MemoryId>>)
    | TakeHash(c: ChunkId, h: HashKey)
    | DropHashes(c: ChunkId, only: Option<set<Hash>>)
    | SettleHashes(c: ChunkId, conversation: nat, settled: set<Hash>, found: map<Hash, MemoryId>)
    | Queue(c: ChunkId, items: seq<MemoryId>)

  function ApplyTableOp(t: Tables, op: TableOp, owner: Owner, now: Time): Fenced {
    match op
    case Upsert(c) => UpsertChunk(t, c, owner, now)
    case SetChunk(c, status, ids) => UpdateChunk(t, c, status, ids, owner, now)
    case Claim(c) => ClaimManifest(t, c, owner, now)
    case Mark(c, mark, ids) => MarkManifest(t, c, mark, ids, owner, now)
    case TakeHash(c, h) => ClaimHash(t, h, c, owner, now)
    case DropHashes(c, only) => ReleaseHashes(t, c, only, owner, now)
    case SettleHashes(c, v, settled, found) => MarkHashes(t, c, v, settled, found, owner, now)
    case Queue(c, items) => AddGraphItems(t, c, items, owner, now)
  }

  /** The database with the clock and the owner ids already handed out. */
  datatype System = System(tables: Tables, now: Time, used: set<Owner>)

  datatype SystemOp = OnJobs(op: JobOp) | OnTables(write: TableOp, owner: Owner) | Tick(seconds: nat)

  predicate Enabled(s: System, op: SystemOp) {
    op.OnJobs? && Introduces(op.op).Some? ==> Introduces(op.op).value !in s.used
  }

  ghost function Next(s: System, op: SystemOp): System {
    if !Enabled(s, op) then s else
    match op
    case Tick(d) => s.(now := s.now + d)
    case OnJobs(jop) =>
      var jobs := ApplyJobOp(s.tables.jobs, jop, s.now);
      var used := if Introduces(jop).Some? then s.used + {Introduces(jop).value} else s.used;
      s.(tables := s.tables.(jobs := jobs), used := used)
    case OnTables(write, owner) =>
      var r := ApplyTableOp(s.tables, write, owner, s.now);
      if r.Done? then s.(tables := r.tables) else s
  }

  ghost function Exec(s: System, ops: seq<SystemOp>): System
    decreases |ops|
  {
    if ops == [] then s else Exec(Next(s, ops[0]), ops[1..])
  }

  /** Lease holders are owners that were handed out. */
  predicate OwnersUsed(s: System) {
    forall j :: j in s.tables.jobs && s.tables.jobs[j].leaseOwner.Some? ==> s.tables.jobs[j].leaseOwner.value in s.used
  }

  predicate Holds(s: System, job: JobId, owner: Owner) {
    job in s.tables.jobs && s.tables.jobs[job].leaseOwner == Some(owner)
  }

  predicate Active(s: System, job: JobId, owner: Owner) {
    LeaseActive(s.tables.jobs, job, owner, s.now)
  }

  /** A job operation never gives a lease, nor a longer live one, to an owner id already in use. */
  lemma JobOpGivesNoLease(jobs: Jobs, op: JobOp, now: Time, job: JobId, owner: Owner)
    requires Introduces(op) != Some(owner)
    ensures LeaseActive(ApplyJobOp(jobs, op, now), job, owner, now) ==> LeaseActive(jobs, job, owner, now)
    ensures var after := ApplyJobOp(jobs, op, now);
            job in after && after[job].leaseOwner == Some(owner) ==> job in jobs && jobs[job].leaseOwner == Some(owner)
  {
  }

  lemma StepKeepsOwnersUsed(s: System, op: SystemOp)
    requires OwnersUsed(s)
    ensures OwnersUsed(Next(s, op)) && s.used <= Next(s, op).used && s.now <= Next(s, op).now
  {
    var s' := Next(s, op);
    if op.OnJobs? && Enabled(s, op) {
      forall j | j in s'.tables.jobs && s'.tables.jobs[j].leaseOwner.Some?
        ensures s'.tables.jobs[j].leaseOwner.value in s'.used
      {
        var o := s'.tables.jobs[j].leaseOwner.value;
        if Introduces(op.op) != Some(o) {
          JobOpGivesNoLease(s.tables.jobs, op.op, s.now, j, o);
        }
      }
    }
  }

  lemma StepNeverRevives(s: System, op: SystemOp, job: JobId, owner: Owner)
    requires owner in s.used
    ensures Active(Next(s, op), job, owner) ==> Active(s, job, owner)
    ensures Holds(Next(s, op), job, owner) ==> Holds(s, job, owner)
  {
    if op.OnJobs? && Enabled(s, op) {
      JobOpGivesNoLease(s.tables.jobs, op.op, s.now, job, owner);
    }
  }

  /** A dead lease stays dead: once expired or taken, the owner is never active again. */
  lemma {:induction false} DeadStaysDead(s: System, ops: seq<SystemOp>, job: JobId, owner: Owner)
    requires OwnersUsed(s) && owner in s.used
    ensures OwnersUsed(Exec(s, ops)) && s.used <= Exec(s, ops).used
    ensures Active(Exec(s, ops), job, owner) ==> Active(s, job, owner)
    ensures Holds(Exec(s, ops), job, owner) ==> Holds(s, job, owner)
    decreases |ops|
  {
    if ops != [] {
      StepKeepsOwnersUsed(s, ops[0]);
      StepNeverRevives(s, ops[0], job, owner);
      DeadStaysDead(Next(s, ops[0]), ops[1..], job, owner);
    }
  }

  predicate WritesTo(op: SystemOp, job: JobId, owner: Owner) {
    op.OnTables? && op.owner == owner && op.write.c.job == job
  }

  // The fenced job operations look at owner and expiry
  predicate FencedJobOp(op: JobOp, job: JobId, owner: Owner) {
    && op.job == job && Actor(op) == Some(owner)
    && (op.Renew? || op.Update? || op.Reserve? || op.DeleteUpload? || op.Clear?)
  }

  // These three look at the owner only
  predicate UnexpiringOp(op: JobOp, job: JobId, owner: Owner) {
    op.job == job && Actor(op) == Some(owner) && (op.Release? || op.FinishDiscard? || op.GiveUpDiscard?)
  }

  predicate FencedOp(op: SystemOp, job: JobId, owner: Owner) {
    WritesTo(op, job, owner) || (op.OnJobs? && FencedJobOp(op.op, job, owner))
  }

  /** Fencing: without a live lease no fenced operation changes any row of any table. */
  lemma FencedOpNeedsLease(s: System, op: SystemOp, job: JobId, owner: Owner)
    requires FencedOp(op, job, owner) && !Active(s, job, owner)
    ensures Next(s, op) == s
  {
  }

  /** The whole-run form: after the lease died, nothing the old owner sends ever lands. */
  lemma FencedForever(s: System, ops: seq<SystemOp>, op: SystemOp, job: JobId, owner: Owner)
    requires OwnersUsed(s) && owner in s.used && !Active(s, job, owner)
    requires FencedOp(op, job, owner)
    ensures Next(Exec(s, ops), op) == Exec(s, ops)
  {
    DeadStaysDead(s, ops, job, owner);
    FencedOpNeedsLease(Exec(s, ops), op, job, owner);
  }

  /**
  Fenced writes of two owners of one job never interleave: when `first` could write at the
  start and another owner could write after `between`, then at no later time, that is after
  `between + after`, does any fenced operation of `first` change anything.
   */
  lemma WritesNeverInterleave(s: System, between: seq<SystemOp>, after: seq<SystemOp>, op: SystemOp,
                              job: JobId, first: Owner, second: Owner)
    requires OwnersUsed(s) && Active(s, job, first) && first != second
    requires Active(Exec(s, between), job, second)
    requires FencedOp(op, job, first)
    ensures Next(Exec(s, between + after), op) == Exec(s, between + after)
  {
    ExecConcat(s, between, after);
    DeadStaysDead(s, between, job, first);
    FencedForever(Exec(s, between), after, op, job, first);
  }

  lemma {:induction false} ExecConcat(s: System, a: seq<SystemOp>, b: seq<SystemOp>)
    ensures Exec(s, a + b) == Exec(Exec(s, a), b)
    decreases |a|
  {
    if a == [] {
      assert a + b == b;
    } else {
      assert (a + b)[0] == a[0] && (a + b)[1..] == a[1..] + b;
      ExecConcat(Next(s, a[0]), a[1..], b);
    }
  }

  /**
  Releasing a lease and ending a discard skip the expiry test.  They change a row exactly when
  the row still names the owner (for a discard: and is still being discarded), expired or not.
   */
  lemma UnexpiringOpChangesIff(s: System, op: JobOp, job: JobId, owner: Owner)
    requires UnexpiringOp(op, job, owner)
    ensures Next(s, OnJobs(op)) != s <==>
              if op.Release? then Holds(s, job, owner) else HoldsDiscard(s.tables.jobs, job, owner)
  {
    var s' := Next(s, OnJobs(op));
    if (if op.Release? then Holds(s, job, owner) else HoldsDiscard(s.tables.jobs, job, owner)) {
      assert s'.tables.jobs[job].leaseOwner == None;
    }
  }

  /** So an expired but untaken owner does still change the row ... */
  lemma ExpiredReleaseStillLands() returns (s: System, op: JobOp)
    ensures OwnersUsed(s) && UnexpiringOp(op, 1, 7) && 7 in s.used
    ensures !Active(s, 1, 7) && Next(s, OnJobs(op)) != s
  {
    var row := JobRow(0, Importing, InStatus(Importing), false, GraphPending, Some(7), Some(10), true, 0);
    s := System(Tables(map[1 := row], map[], map[], map[], map[]), 10, {7});
    op := Release(1, 7);
    assert Next(s, OnJobs(op)).tables.jobs[1].leaseOwner == None;
  }

  /** ... but once another owner took the job, not even these operations land, ever again. */
  lemma TakenForever(s: System, ops: seq<SystemOp>, op: JobOp, job: JobId, owner: Owner)
    requires OwnersUsed(s) && owner in s.used && !Holds(s, job, owner)
    requires UnexpiringOp(op, job, owner)
    ensures Next(Exec(s, ops), OnJobs(op)) == Exec(s, ops)
  {
    DeadStaysDead(s, ops, job, owner);
    UnexpiringOpChangesIff(Exec(s, ops), op, job, owner);
  }
}
