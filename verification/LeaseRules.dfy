/**
What an owner can rely on: when a lease is given and how long it lasts, and that each operation sent
under a live lease takes effect.
 */
module LeaseRules {
  import opened Wrappers
  import opened ImportTables
  import opened Fencing

  /****** taking a lease ******/

  // A job exists and nobody has a running lease on it.
  ghost predicate Unheld(s: System, job: JobId) {
    job in s.tables.jobs && forall o: Owner :: !Active(s, job, o)
  }

  lemma UnheldIsFree(s: System, job: JobId)
    requires job in s.tables.jobs
    ensures Unheld(s, job) <==> LeaseFree(s.tables.jobs[job], s.now)
  {
    var row := s.tables.jobs[job];
    if !LeaseFree(row, s.now) {
      assert Active(s, job, row.leaseOwner.value);
    }
  }

  /** When a run may take the job: it is not ending or cancelled, and nobody holds it. */
  lemma AcquiredIff(s: System, job: JobId, owner: Owner, seconds: nat)
    requires owner !in s.used && seconds > 0 && OwnersUsed(s)
    ensures var s' := Next(s, OnJobs(Acquire(job, owner, seconds)));
            && (Active(s', job, owner) <==>
                  && Unheld(s, job) && !s.tables.jobs[job].cancelRequested
                  && s.tables.jobs[job].status in {Uploading, Queued, Discovering, Parsing, Importing, SyncingGraph})
            && (!Active(s', job, owner) ==> s'.tables == s.tables)
            && (Active(s', job, owner) ==>
                  s'.tables.jobs == s.tables.jobs[job := s.tables.jobs[job].(leaseOwner := Some(owner), leaseExpires := Some(s.now + seconds))])
  {
    if job in s.tables.jobs {
      UnheldIsFree(s, job);
    }
  }

  /** A retry queues an ended job again and clears its cancellation, whoever holds it. */
  lemma RetriedIff(s: System, job: JobId, owner: Owner, seconds: nat, limit: nat)
    requires owner !in s.used && seconds > 0 && OwnersUsed(s)
    ensures var s' := Next(s, OnJobs(Retry(job, owner, seconds, limit)));
            && (Active(s', job, owner) <==>
                  && job in s.tables.jobs && s.tables.jobs[job].status in {Cancelled, CompletedWithErrors, Failed}
                  && s.tables.jobs[job].phase != Discarding
                  && |set j | j in s.tables.jobs && s.tables.jobs[j].project == s.tables.jobs[job].project
                             && s.tables.jobs[j].status !in {Cancelled, Completed, CompletedWithErrors, Failed}| < limit)
            && (!Active(s', job, owner) ==> s'.tables == s.tables)
            && (Active(s', job, owner) ==>
                  var row, row' := s.tables.jobs[job], s'.tables.jobs[job];
                  && row'.status == Queued && row'.phase == InStatus(Queued) && !row'.cancelRequested
                  && row'.workspaceBytes == row.workspaceBytes && row'.workspace == row.workspace && row'.graphStatus == row.graphStatus)
  {
    if job in s.tables.jobs {
      var p := s.tables.jobs[job].project;
      assert ActiveJobs(s.tables.jobs, p) == set j | j in s.tables.jobs && s.tables.jobs[j].project == p
                                                     && s.tables.jobs[j].status !in {Cancelled, Completed, CompletedWithErrors, Failed};
    }
  }

  /** A graph retry takes up a completed job whose graph is not complete. */
  lemma GraphRetriedIff(s: System, job: JobId, owner: Owner, seconds: nat, limit: nat)
    requires owner !in s.used && seconds > 0 && OwnersUsed(s)
    ensures var s' := Next(s, OnJobs(RetryGraph(job, owner, seconds, limit)));
            && (Active(s', job, owner) <==>
                  && job in s.tables.jobs && s.tables.jobs[job].status in {Completed, CompletedWithErrors}
                  && s.tables.jobs[job].graphStatus in {GraphFailed, GraphPending, GraphDisabled}
                  && s.tables.jobs[job].phase != Discarding && |ActiveJobs(s.tables.jobs, s.tables.jobs[job].project)| < limit)
            && (!Active(s', job, owner) ==> s'.tables == s.tables)
            && (Active(s', job, owner) ==>
                  var row, row' := s.tables.jobs[job], s'.tables.jobs[job];
                  && row'.status == SyncingGraph && row'.phase == GraphSync && row'.graphStatus == GraphSyncing
                  && row'.workspaceBytes == row.workspaceBytes && row'.workspace == row.workspace)
  {
  }

  /** A discard takes an ended job with a workspace, unless another discard of it is running. */
  lemma DiscardedIff(s: System, job: JobId, owner: Owner, seconds: nat)
    requires owner !in s.used && seconds > 0 && OwnersUsed(s)
    ensures var s' := Next(s, OnJobs(Discard(job, owner, seconds)));
            && (Active(s', job, owner) <==>
                  && job in s.tables.jobs && s.tables.jobs[job].workspace
                  && s.tables.jobs[job].status in {Cancelled, Completed, CompletedWithErrors, Failed}
                  && (s.tables.jobs[job].phase == Discarding ==> Unheld(s, job)))
            && (!Active(s', job, owner) ==> s'.tables == s.tables)
            && (Active(s', job, owner) ==>
                  s'.tables.jobs[job] == s.tables.jobs[job].(phase := Discarding, leaseOwner := Some(owner), leaseExpires := Some(s.now + seconds)))
  {
    if job in s.tables.jobs {
      UnheldIsFree(s, job);
    }
  }

  /****** keeping it ******/

  // Nothing the owner itself sends to the job
  predicate Silent(ops: seq<SystemOp>, job: JobId, owner: Owner) {
    forall i :: 0 <= i < |ops| ==> !(ops[i].OnJobs? && ops[i].op.job == job && Actor(ops[i].op) == Some(owner))
  }

  lemma OpSparesLease(jobs: Jobs, op: JobOp, now: Time, job: JobId, owner: Owner)
    requires LeaseActive(jobs, job, owner, now) && IsActive(jobs[job].status) && !(op.job == job && Actor(op) == Some(owner))
    ensures var jobs' := ApplyJobOp(jobs, op, now);
            && job in jobs' && IsActive(jobs'[job].status)
            && jobs'[job].leaseOwner == Some(owner) && jobs'[job].leaseExpires == jobs[job].leaseExpires
  {
  }

  lemma StepSparesLease(s: System, op: SystemOp, job: JobId, owner: Owner)
    requires job in s.tables.jobs && Active(s, job, owner) && IsActive(s.tables.jobs[job].status)
    requires !(op.OnJobs? && op.op.job == job && Actor(op.op) == Some(owner))
    ensures var s' := Next(s, op);
            && job in s'.tables.jobs && IsActive(s'.tables.jobs[job].status)
            && s'.tables.jobs[job].leaseOwner == Some(owner) && s'.tables.jobs[job].leaseExpires == s.tables.jobs[job].leaseExpires
  {
    hide ApplyJobOp, IsActive;
    if op.OnJobs? {
      OpSparesLease(s.tables.jobs, op.op, s.now, job, owner);
    }
  }

  lemma {:induction false} TimeGrows(s: System, ops: seq<SystemOp>)
    ensures s.now <= Exec(s, ops).now
    decreases |ops|
  {
    if ops != [] {
      TimeGrows(Next(s, ops[0]), ops[1..]);
    }
  }

  /**
  A live lease on a job that has not ended lasts until it expires: nobody else can take, shorten or end it,
  nor end the job, whatever they send.
   */
  lemma {:induction false} LeaseLasts(s: System, ops: seq<SystemOp>, job: JobId, owner: Owner)
    requires job in s.tables.jobs && Active(s, job, owner) && IsActive(s.tables.jobs[job].status) && Silent(ops, job, owner)
    requires Exec(s, ops).now < s.tables.jobs[job].leaseExpires.value
    ensures Active(Exec(s, ops), job, owner) && IsActive(Exec(s, ops).tables.jobs[job].status)
    decreases |ops|
  {
    if ops != [] {
      var s' := Next(s, ops[0]);
      StepSparesLease(s, ops[0], job, owner);
      TimeGrows(s', ops[1..]);
      assert Silent(ops[1..], job, owner);
      hide Next;
      LeaseLasts(s', ops[1..], job, owner);
    }
  }

  /** Renewed in time, it lasts for the whole new length from then on. */
  lemma RenewedLasts(s: System, ops: seq<SystemOp>, job: JobId, owner: Owner, seconds: nat)
    requires job in s.tables.jobs && Active(s, job, owner) && IsActive(s.tables.jobs[job].status) && Silent(ops, job, owner)
    requires var e := Exec(Next(s, OnJobs(Renew(job, owner, seconds))), ops); e.now < s.now + seconds
    ensures Active(Exec(Next(s, OnJobs(Renew(job, owner, seconds))), ops), job, owner)
  {
    var s' := Next(s, OnJobs(Renew(job, owner, seconds)));
    TimeGrows(s', ops);
    assert s'.now == s.now && s'.tables.jobs[job].leaseExpires == Some(s.now + seconds);
    LeaseLasts(s', ops, job, owner);
  }

  /** Given back, the job can be taken at once, by a run under a new owner id. */
  lemma ReleasedIsFree(s: System, job: JobId, owner: Owner, other: Owner, seconds: nat)
    requires OwnersUsed(s) && Holds(s, job, owner) && other !in s.used && seconds > 0
    requires IsLeaseable(s.tables.jobs[job].status) && !s.tables.jobs[job].cancelRequested
    ensures Active(Next(Next(s, OnJobs(Release(job, owner))), OnJobs(Acquire(job, other, seconds))), job, other)
  {
    var s' := Next(s, OnJobs(Release(job, owner)));
    assert s'.tables.jobs[job].leaseOwner == None;
    assert LeaseFree(s'.tables.jobs[job], s'.now);
  }

  /****** cancelling ******/

  predicate Revokes(op: SystemOp, job: JobId) {
    op.OnJobs? && op.op.job == job && (op.op.Retry? || op.op.Create?)
  }

  predicate Stopped(s: System, job: JobId) {
    job in s.tables.jobs ==> s.tables.jobs[job].cancelRequested
  }

  lemma StepKeepsStopped(s: System, op: SystemOp, job: JobId)
    requires Stopped(s, job) && !Revokes(op, job)
    ensures Stopped(Next(s, op), job)
  {
  }

  lemma {:induction false} StaysStopped(s: System, ops: seq<SystemOp>, job: JobId)
    requires Stopped(s, job) && forall i :: 0 <= i < |ops| ==> !Revokes(ops[i], job)
    ensures Stopped(Exec(s, ops), job)
    decreases |ops|
  {
    if ops != [] {
      StepKeepsStopped(s, ops[0], job);
      StaysStopped(Next(s, ops[0]), ops[1..], job);
    }
  }

  /**
  A request to cancel reaches exactly the jobs that are queued or running; from then on, until the job is
  retried, no run can take it, whatever its status becomes.
   */
  lemma CancelStops(s: System, job: JobId, ops: seq<SystemOp>, owner: Owner, seconds: nat)
    requires job in s.tables.jobs && forall i :: 0 <= i < |ops| ==> !Revokes(ops[i], job)
    ensures var row, s' := s.tables.jobs[job], Next(s, OnJobs(Cancel(job)));
            if row.status in {Queued, Discovering, Parsing, Importing, SyncingGraph} then
              && s'.tables.jobs == s.tables.jobs[job := row.(status := Cancelling, phase := InStatus(Cancelling), cancelRequested := true)]
              && var e := Exec(s', ops); Next(e, OnJobs(Acquire(job, owner, seconds))).tables == e.tables
            else s' == s
  {
    var s' := Next(s, OnJobs(Cancel(job)));
    if s.tables.jobs[job].status in {Queued, Discovering, Parsing, Importing, SyncingGraph} {
      StaysStopped(s', ops, job);
      hide Exec;
      var e := Exec(s', ops);
      assert AcquireLease(e.tables.jobs, job, owner, e.now, e.now + seconds) == e.tables.jobs;
    }
  }

  /****** what lands ******/

  /**
  The end of a discard: completed, the job has no workspace and no bytes any more and can be retried; given up,
  it keeps both, and the next discard can start at once.
   */
  lemma DiscardEnds(s: System, job: JobId, owner: Owner, other: Owner, seconds: nat)
    requires OwnersUsed(s) && HoldsDiscard(s.tables.jobs, job, owner) && s.tables.jobs[job].workspace
    requires other !in s.used && seconds > 0
    ensures var done := Next(s, OnJobs(FinishDiscard(job, owner)));
            var row, row' := s.tables.jobs[job], done.tables.jobs[job];
            && !row'.workspace && row'.workspaceBytes == 0 && row'.status == row.status && row'.leaseOwner == None
            && row'.phase == InStatus(if row.status == CompletedWithErrors then Completed else row.status)
            && !CanDiscard(done.tables.jobs, job, done.now)
    ensures var back := Next(s, OnJobs(GiveUpDiscard(job, owner)));
            var row, row' := s.tables.jobs[job], back.tables.jobs[job];
            && row'.workspace && row'.workspaceBytes == row.workspaceBytes && row'.status == row.status
            && row'.phase == InStatus(if row.status == CompletedWithErrors then Completed else row.status)
            && Active(Next(back, OnJobs(Discard(job, other, seconds))), job, other)
  {
  }

  // The other rows are as they were.
  ghost predicate OnlyJob(jobs: Jobs, jobs': Jobs, job: JobId) {
    forall j :: j != job ==> (j in jobs <==> j in jobs') && (j in jobs ==> jobs'[j] == jobs[j])
  }

  /**
  Under a live lease a reported status is recorded, the deletion of an upload deletes the job, clearing frees its
  workspace, and a reservation the budget has room for is added to its bytes and prolongs the lease.
   */
  lemma ReportsLand(s: System, job: JobId, owner: Owner, status: JobStatus, graph: GraphStatus)
    requires Active(s, job, owner)
    ensures var row := s.tables.jobs[job];
            && Next(s, OnJobs(Update(job, owner, status, graph))).tables.jobs
               == s.tables.jobs[job := row.(status := status, phase := InStatus(status), graphStatus := graph)]
            && (job in Next(s, OnJobs(DeleteUpload(job, owner))).tables.jobs <==> row.status != Uploading)
            && OnlyJob(s.tables.jobs, Next(s, OnJobs(DeleteUpload(job, owner))).tables.jobs, job)
            && Next(s, OnJobs(Clear(job, Some(owner)))).tables.jobs == s.tables.jobs[job := row.(workspace := false, workspaceBytes := 0)]
            && Next(s, OnJobs(Clear(job, None))).tables.jobs == s.tables.jobs[job := row.(workspace := false, workspaceBytes := 0)]
  {
  }

  lemma ReservationLands(s: System, job: JobId, owner: Owner, seconds: nat, bytes: nat, budget: nat)
    requires Active(s, job, owner)
    ensures var row, s' := s.tables.jobs[job], Next(s, OnJobs(Reserve(job, owner, seconds, bytes, budget)));
            if TotalBytes(s.tables.jobs) + bytes <= budget then
              s'.tables.jobs == s.tables.jobs[job := row.(workspaceBytes := row.workspaceBytes + bytes, leaseExpires := Some(s.now + seconds))]
            else s' == s
  {
  }

  /** Bytes are corrected exactly when nobody holds the job. */
  lemma MeasuredIff(s: System, job: JobId, bytes: nat)
    requires job in s.tables.jobs
    ensures Next(s, OnJobs(Reconcile(job, bytes))).tables.jobs
            == if Unheld(s, job) then s.tables.jobs[job := s.tables.jobs[job].(workspaceBytes := bytes)] else s.tables.jobs
  {
    UnheldIsFree(s, job);
  }

  ghost function After(s: System, write: TableOp, owner: Owner): Tables {
    Next(s, OnTables(write, owner)).tables
  }

  /**
  Chunk rows: an upsert adds a pending row, or resets one, but never a succeeded or split one; an update sets the
  status and keeps the memory ids unless it is given others.
   */
  lemma ChunkWritesLand(s: System, c: ChunkId, owner: Owner, status: ChunkStatus, ids: Option<seq<MemoryId>>)
    requires Active(s, c.job, owner)
    ensures var t, t' := s.tables, After(s, Upsert(c), owner);
            && t' == t.(chunks := t'.chunks) && c in t'.chunks
            && (forall d :: d != c ==> (d in t.chunks <==> d in t'.chunks) && (d in t.chunks ==> t'.chunks[d] == t.chunks[d]))
            && (c !in t.chunks ==> t'.chunks[c] == ChunkRow(Pending, []))
            && (c in t.chunks ==>
                  && t'.chunks[c].memoryIds == t.chunks[c].memoryIds
                  && t'.chunks[c].status == if t.chunks[c].status in {ChunkSucceeded, ChunkSplit} then t.chunks[c].status else Pending)
    ensures var t, t' := s.tables, After(s, SetChunk(c, status, ids), owner);
            if c !in t.chunks then t' == t
            else t' == t.(chunks := t.chunks[c := ChunkRow(status, if ids == None then t.chunks[c].memoryIds else ids.value)])
  {
  }

  /**
  Manifests: a claim that is won keeps the memory ids of the row it takes over; a mark lands exactly on the job's
  own manifest, and keeps its attempts, and its memory ids unless it is given others.
   */
  lemma ManifestWritesLand(s: System, c: ChunkId, owner: Owner, mark: ManifestStatus, ids: Option<seq<MemoryId>>)
    requires Active(s, c.job, owner)
    ensures var t, t', k := s.tables, After(s, Mark(c, mark, ids), owner), ManifestKey(c.project, c.key);
            if k in t.manifests && t.manifests[k].chunk.job == c.job then
              var m := t.manifests[k];
              t' == t.(manifests := t.manifests[k := ManifestRow(m.chunk, mark, m.attempts, if ids == None then m.memoryIds else ids.value)])
            else t' == t
    ensures var t, t', k := s.tables, After(s, Claim(c), owner), ManifestKey(c.project, c.key);
            && t' == t.(manifests := t'.manifests) && k in t'.manifests
            && t'.manifests[k].memoryIds == (if k in t.manifests then t.manifests[k].memoryIds else [])
            && forall l :: l != k ==> (l in t.manifests <==> l in t'.manifests) && (l in t.manifests ==> t'.manifests[l] == t.manifests[l])
  {
  }

  /** Queueing adds exactly the missing items as pending, changes no item that is there, and then the job's graph is pending again. */
  lemma QueueLands(s: System, c: ChunkId, owner: Owner, items: seq<MemoryId>)
    requires Active(s, c.job, owner)
    ensures var t, t' := s.tables, After(s, Queue(c, items), owner);
            && t' == t.(graph := t'.graph, jobs := t'.jobs)
            && (forall g :: g in t'.graph <==> g in t.graph || (g.chunk == c && g.itemKey in items))
            && (forall g :: g in t.graph ==> t'.graph[g] == t.graph[g])
            && (forall g :: g in t'.graph && g !in t.graph ==> t'.graph[g] == GraphPending)
            && t'.jobs == if t'.graph == t.graph then t.jobs else t.jobs[c.job := t.jobs[c.job].(graphStatus := GraphPending)]
  {
    hide LeaseActive;
    var t, t' := s.tables, After(s, Queue(c, items), owner);
    if items != [] {
      var missing := map i | i in items && GraphKey(c, i) !in t.graph :: GraphKey(c, i) := GraphPending;
      assert t'.graph == t.graph + missing;
      if missing != map[] {
        var g :| g in missing;
        assert g in t'.graph && g !in t.graph;
      }
    }
  }
}
