/**
The repository itself: five tables that its methods update in place.  Every method is one
transaction, written in the order of its statements and proved equal to the operation of
`ImportTables` that the statements about whole runs are made of.  A method that raises
leaves every table as it was.  Operations that are a single guarded update are in
`ImportTables` only.
 */
module ImportRepository {
  import opened Wrappers
  import T = ImportTables
  import opened ImportTables
  import opened WorkspaceSum

  datatype Refusal =
    | ImportLeaseLost
    | ActiveJobLimitExceeded(limit: nat, active: nat)
    | WorkspaceBudgetExceeded(limit: nat, used: nat, requested: nat)
    | DuplicateJob

  // A fenced method did what its operation says, or raised and did nothing.
  predicate Did(spec: Fenced, before: Tables, after: Tables, r: Result<bool, Refusal>) {
    match r
    case Success(changed) => spec == Done(after, changed)
    case Failure(e) => spec.LeaseLost? && e.ImportLeaseLost? && after == before
  }

  class ImportRepository {
    var jobs: Jobs
    var chunks: map<ChunkId, ChunkRow>
    var manifests: map<ManifestKey, ManifestRow>
    var hashes: map<HashKey, HashRow>
    var graph: map<GraphKey, GraphStatus>

    function Snapshot(): Tables
      reads this
    {
      Tables(jobs, chunks, manifests, hashes, graph)
    }

    constructor ()
      ensures Snapshot() == Tables(map[], map[], map[], map[], map[])
    {
      jobs, chunks, manifests, hashes, graph := map[], map[], map[], map[], map[];
    }

    /****** jobs ******/

    method CountActiveJobs(project: ProjectId) returns (n: nat)
      ensures n == |ActiveJobs(jobs, project)|
    {
      var active := set j | j in jobs && jobs[j].project == project && IsActive(jobs[j].status);
      assert active == ActiveJobs(jobs, project);
      n := |active|;
    }

    method SumWorkspaceBytes() returns (sum: nat)
      ensures sum == TotalBytes(jobs)
    {
      sum := 0;
      var rest := jobs;
      while rest.Keys != {}
        invariant sum + TotalBytes(rest) == TotalBytes(jobs)
        decreases |rest|
      {
        var j :| j in rest.Keys;
        TakeOut(rest, j);
        Smaller(rest, j);
        sum := sum + rest[j].workspaceBytes;
        rest := rest - {j};
      }
      assert rest == map[];
    }

    method CreateJobWithActiveLimit(job: JobId, project: ProjectId, owner: Owner, expires: Time, limit: nat, retained: nat)
      returns (r: Result<bool, Refusal>)
      modifies this`jobs
      ensures r.Success? <==> CanCreate(old(jobs), job, project, limit, retained)
      ensures jobs == CreateJob(old(jobs), job, project, owner, expires, limit, retained)
      ensures r.Failure? && |ActiveJobs(old(jobs), project)| >= limit ==>
                r.error == ActiveJobLimitExceeded(limit, |ActiveJobs(old(jobs), project)|)
      ensures r.Failure? && |ActiveJobs(old(jobs), project)| < limit && TotalBytes(old(jobs)) >= retained ==>
                r.error == WorkspaceBudgetExceeded(retained, TotalBytes(old(jobs)), 0)
    {
      var active := CountActiveJobs(project);
      if active >= limit {
        return Failure(ActiveJobLimitExceeded(limit, active));
      }
      var used := SumWorkspaceBytes();
      if used >= retained {
        return Failure(WorkspaceBudgetExceeded(retained, used, 0));
      }
      if job in jobs {
        return Failure(DuplicateJob);
      }
      jobs := jobs[job := JobRow(project, Uploading, InStatus(Uploading), false, GraphPending,
                                 Some(owner), Some(expires), true, 0)];
      r := Success(true);
    }

    method AcquireJobRetryLease(job: JobId, owner: Owner, expires: Time, limit: nat) returns (r: Result<bool, Refusal>)
      modifies this`jobs
      ensures jobs == RetryLease(old(jobs), job, owner, expires, limit)
      ensures r == Success(true) <==> CanRetry(old(jobs), job, limit)
      ensures r.Failure? ==>
                && job in old(jobs) && IsRetryable(old(jobs)[job].status) && old(jobs)[job].phase != Discarding
                && r.error == ActiveJobLimitExceeded(limit, |ActiveJobs(old(jobs), old(jobs)[job].project)|)
    {
      if job !in jobs || !IsRetryable(jobs[job].status) || jobs[job].phase == Discarding {
        return Success(false);
      }
      var active := CountActiveJobs(jobs[job].project);
      if active >= limit {
        return Failure(ActiveJobLimitExceeded(limit, active));
      }
      jobs := jobs[job := jobs[job].(status := Queued, phase := InStatus(Queued), cancelRequested := false,
                                     leaseOwner := Some(owner), leaseExpires := Some(expires))];
      r := Success(true);
    }

    /****** workspaces ******/

    method ReserveWorkspaceBytes(job: JobId, owner: Owner, now: Time, expires: Time, requested: nat, budget: nat)
      returns (r: Result<bool, Refusal>)
      modifies this`jobs
      ensures r.Success? <==> CanReserve(old(jobs), job, owner, now, requested, budget)
      ensures r.Failure? ==> r.error == if !LeaseActive(old(jobs), job, owner, now) then ImportLeaseLost
                                        else WorkspaceBudgetExceeded(budget, TotalBytes(old(jobs)), requested)
      ensures jobs == ReserveBytes(old(jobs), job, owner, now, expires, requested, budget)
    {
      if !LeaseActive(jobs, job, owner, now) {
        return Failure(ImportLeaseLost);
      }
      var used := SumWorkspaceBytes();
      if used + requested > budget {
        return Failure(WorkspaceBudgetExceeded(budget, used, requested));
      }
      jobs := jobs[job := jobs[job].(workspaceBytes := jobs[job].workspaceBytes + requested, leaseExpires := Some(expires))];
      r := Success(true);
    }

    /****** chunks and manifests ******/

    // Insert; on a conflict update a reclaimable row; failing that, upgrade an old released split.
    method ClaimManifest(c: ChunkId, owner: Owner, now: Time) returns (r: Result<bool, Refusal>)
      modifies this`manifests
      ensures Did(T.ClaimManifest(old(Snapshot()), c, owner, now), old(Snapshot()), Snapshot(), r)
    {
      if !LeaseActive(jobs, c.job, owner, now) {
        return Failure(ImportLeaseLost);
      }
      var k := ManifestOf(c);
      if k !in manifests {
        manifests := manifests[k := ManifestRow(c, Claimed, 1, [])];
        return Success(true);
      }
      var row := manifests[k];
      var legacy := row.chunk in chunks && chunks[row.chunk].status == ChunkSplit;
      if (row.status == ManifestFailed || row.status == Released) && !(row.status == Released && legacy) {
        manifests := manifests[k := row.(chunk := c, status := Claimed, attempts := row.attempts + 1)];
        return Success(true);
      }
      if row.status == Released && legacy {
        manifests := manifests[k := row.(status := Split)];
      }
      r := Success(false);
    }

    /****** memory hashes ******/

    method ReleaseMemoryHashes(c: ChunkId, only: Option<set<Hash>>, owner: Owner, now: Time) returns (r: Result<bool, Refusal>)
      modifies this`hashes
      ensures Did(T.ReleaseHashes(old(Snapshot()), c, only, owner, now), old(Snapshot()), Snapshot(), r)
    {
      if !LeaseActive(jobs, c.job, owner, now) {
        return Failure(ImportLeaseLost);
      }
      var dropped := set h | h in hashes && ReleasesHash(hashes[h], c, h.hash, only);
      r := Success(dropped != {});
      assert (exists h :: h in hashes && ReleasesHash(hashes[h], c, h.hash, only)) ==> dropped != {} by {
        if h :| h in hashes && ReleasesHash(hashes[h], c, h.hash, only) {
          assert h in dropped;
        }
      }
      hashes := map h | h in hashes && h !in dropped :: hashes[h];
    }

    // One update per hash, in the order given
    method MarkMemoryHashesSucceeded(c: ChunkId, conversation: nat, settled: seq<Hash>, ids: map<Hash, MemoryId>,
                                     owner: Owner, now: Time)
      returns (r: Result<bool, Refusal>)
      modifies this`hashes
      ensures Did(T.MarkHashes(old(Snapshot()), c, conversation, (set h | h in settled), ids, owner, now),
                  old(Snapshot()), Snapshot(), r)
    {
      if !LeaseActive(jobs, c.job, owner, now) {
        return Failure(ImportLeaseLost);
      }
      var rows := hashes;
      for i := 0 to |settled|
        invariant rows.Keys == hashes.Keys && hashes == old(hashes)
        invariant forall h :: h in rows ==>
                    rows[h] == if MarksHash(h, hashes[h], c, conversation, (set x | x in settled[..i]))
                               then hashes[h].(status := HashSucceeded, memoryId := Lookup(ids, h.hash))
                               else hashes[h]
      {
        var key := HashKey(c.project, conversation, settled[i]);
        assert settled[..i + 1] == settled[..i] + [settled[i]];
        if key in rows && rows[key].chunk == c && rows[key].status == HashClaimed {
          rows := rows[key := rows[key].(status := HashSucceeded, memoryId := Lookup(ids, settled[i]))];
        }
      }
      assert settled[..|settled|] == settled;
      hashes := rows;
      r := Success(true);
    }

    /****** graph queue ******/

    // One insert per item, existing items kept; the job is flagged when anything was inserted.
    method AddGraphItems(c: ChunkId, ids: seq<MemoryId>, owner: Owner, now: Time) returns (r: Result<bool, Refusal>)
      modifies this`graph, this`jobs
      ensures Did(T.AddGraphItems(old(Snapshot()), c, ids, owner, now), old(Snapshot()), Snapshot(), r)
    {
      if ids == [] {
        return Success(false);
      }
      if !LeaseActive(jobs, c.job, owner, now) {
        return Failure(ImportLeaseLost);
      }
      var rows, inserted := graph, 0;
      ghost var missing := map i | i in ids && GraphKey(c, i) !in graph :: GraphKey(c, i) := GraphPending;
      for n := 0 to |ids|
        invariant forall g :: g in rows <==> g in graph || (g in missing && g.itemKey in ids[..n])
        invariant forall g :: g in rows ==> rows[g] == if g in graph then graph[g] else GraphPending
        invariant inserted == 0 <==> forall g :: g in missing ==> g.itemKey !in ids[..n]
        invariant graph == old(graph) && jobs == old(jobs)
      {
        assert ids[..n + 1] == ids[..n] + [ids[n]];
        var g := GraphKey(c, ids[n]);
        if g !in rows {
          assert g in missing && g.itemKey in ids[..n + 1];
          rows, inserted := rows[g := GraphPending], inserted + 1;
        }
      }
      assert ids[..|ids|] == ids;
      assert inserted == 0 <==> missing == map[];
      assert rows == graph + missing;
      graph := rows;
      if inserted > 0 {
        jobs := jobs[c.job := jobs[c.job].(graphStatus := GraphPending)];
      }
      r := Success(true);
    }
  }
}
