/**
The storage budget of uploaded sources.  Uploads write files, several processes erase directories
and give the bytes of a row back afterwards without looking at the disk again, and everything
interleaves between any two of these steps.  A block of an upload is reserved and written in one
step, and so is measuring a directory and correcting its row.
 */
module WorkspaceBudget {
  import opened Wrappers
  import opened ImportTables
  import opened Fencing
  import opened WorkspaceSum

  /**
  The job table, the clock, the owner ids handed out and the bytes below each job's upload directory.
  `uploads` holds the uploading requests that still write, `aborted` those that gave up, `erased` the
  directories each owner has erased, `looked` the jobs the startup scan found completed, `scanned` those
  it has erased since, and `ids` every job id ever used.
   */
  datatype Storage = Storage(
    jobs: Jobs,
    now: Time,
    used: set<Owner>,
    ids: set<JobId>,
    disk: map<JobId, nat>,
    uploads: map<Owner, JobId>,
    aborted: map<Owner, JobId>,
    erased: set<(Owner, JobId)>,
    looked: set<JobId>,
    scanned: set<JobId>)

  datatype StorageStep =
    | Begin(job: JobId, project: ProjectId, owner: Owner, seconds: nat, limit: nat, retained: nat)
    | Write(owner: Owner, seconds: nat, bytes: nat, budget: nat)
    | Enqueue(owner: Owner)
    | Quit(owner: Owner)
    | EraseUpload(owner: Owner)
    | DropUpload(owner: Owner)
    | Erase(owner: Owner, job: JobId)
    | Clear(owner: Owner, job: JobId)
    | FinishDiscard(owner: Owner, job: JobId)
    | ScanLook(job: JobId)
    | ScanErase(job: JobId)
    | ScanClear(job: JobId)
    | EraseSome(job: JobId, left: nat)
    | Measure(job: JobId)
    | Other(op: JobOp)
    | Wait(seconds: nat)

  function OnDisk(disk: map<JobId, nat>, job: JobId): nat {
    if job in disk then disk[job] else 0
  }

  // The operations with no step of their own.  An upload touches its row by its own steps only, and
  // no process ever sets a job back to uploading.
  predicate Elsewhere(s: Storage, op: JobOp) {
    && (op.Acquire? || op.Retry? || op.RetryGraph? || op.Discard? || op.GiveUpDiscard? || op.Renew? || op.Release?
        || op.Cancel? || op.Update?)
    && (Introduces(op).Some? ==> Introduces(op).value !in s.used)
    && (op.Update? ==> op.owner !in s.uploads && op.status != Uploading)
  }

  function NowUsed(s: Storage, op: JobOp): set<Owner> {
    if Introduces(op).Some? then s.used + {Introduces(op).value} else s.used
  }

  ghost predicate Possible(s: Storage, step: StorageStep) {
    match step
    case Begin(job, _, owner, _, _, _) => owner !in s.used && job !in s.ids
    case Write(owner, _, _, _) => owner in s.uploads
    case Enqueue(owner) => owner in s.uploads
    case Quit(owner) => owner in s.uploads
    case EraseUpload(owner) => owner in s.aborted
    case DropUpload(owner) => owner in s.aborted && (owner, s.aborted[owner]) in s.erased
    case Erase(owner, _) => owner in s.used && owner !in s.uploads
    case Clear(owner, job) => (owner, job) in s.erased
    case FinishDiscard(owner, job) => (owner, job) in s.erased
    case ScanLook(job) => job in s.jobs && s.jobs[job].status in {Completed, CompletedWithErrors}
    case ScanErase(job) => job in s.looked
    case ScanClear(job) => job in s.scanned
    case EraseSome(job, left) => left <= OnDisk(s.disk, job)
    case Other(op) => Elsewhere(s, op)
    case _ => true
  }

  ghost function Act(s: Storage, step: StorageStep): Storage {
    if !Possible(s, step) then s else
    match step
    case Begin(job, project, owner, seconds, limit, retained) =>
      s.(jobs := CreateJob(s.jobs, job, project, owner, s.now + seconds, limit, retained),
         used := s.used + {owner}, ids := s.ids + {job},
         uploads := if CanCreate(s.jobs, job, project, limit, retained) then s.uploads[owner := job] else s.uploads)
    case Write(owner, seconds, bytes, budget) =>
      var job := s.uploads[owner];
      if CanReserve(s.jobs, job, owner, s.now, bytes, budget)
      then s.(jobs := ReserveBytes(s.jobs, job, owner, s.now, s.now + seconds, bytes, budget),
              disk := s.disk[job := OnDisk(s.disk, job) + bytes])
      else s
    // The upload is complete; when the row cannot be updated any more it is given up.
    case Enqueue(owner) =>
      var job := s.uploads[owner];
      if LeaseActive(s.jobs, job, owner, s.now)
      then s.(jobs := UpdateJob(s.jobs, job, owner, s.now, Queued, s.jobs[job].graphStatus), uploads := s.uploads - {owner})
      else s.(uploads := s.uploads - {owner}, aborted := s.aborted[owner := job])
    case Quit(owner) => s.(uploads := s.uploads - {owner}, aborted := s.aborted[owner := s.uploads[owner]])
    case EraseUpload(owner) => s.(disk := s.disk - {s.aborted[owner]}, erased := s.erased + {(owner, s.aborted[owner])})
    case DropUpload(owner) => s.(jobs := DeleteUploading(s.jobs, s.aborted[owner], owner, s.now))
    case Erase(owner, job) => s.(disk := s.disk - {job}, erased := s.erased + {(owner, job)})
    case Clear(owner, job) => s.(jobs := ClearWorkspace(s.jobs, job, Some(owner), s.now))
    case FinishDiscard(owner, job) => s.(jobs := CompleteDiscard(s.jobs, job, owner))
    case ScanLook(job) => s.(looked := s.looked + {job})
    case ScanErase(job) => s.(disk := s.disk - {job}, scanned := s.scanned + {job})
    case ScanClear(job) => s.(jobs := ClearWorkspace(s.jobs, job, None, s.now))
    case EraseSome(job, left) => s.(disk := s.disk[job := left])
    case Measure(job) => s.(jobs := ReconcileBytes(s.jobs, job, s.now, OnDisk(s.disk, job)))
    case Other(op) => s.(jobs := ApplyJobOp(s.jobs, op, s.now), used := NowUsed(s, op))
    case Wait(d) => s.(now := s.now + d)
  }

  ghost function ActAll(s: Storage, steps: seq<StorageStep>): Storage
    decreases |steps|
  {
    if steps == [] then s else ActAll(Act(s, steps[0]), steps[1..])
  }

  const UNUSED: Storage := Storage(map[], 0, {}, {}, map[], map[], map[], {}, {}, {})

  /****** whose directory is empty ******/

  predicate Holding(s: Storage, owner: Owner, job: JobId) {
    job in s.jobs && s.jobs[job].leaseOwner == Some(owner)
  }

  // An owner is handed out once, and an upload is one job's.
  predicate OwnersOk(s: Storage) {
    && (forall j :: j in s.jobs && s.jobs[j].leaseOwner.Some? ==> s.jobs[j].leaseOwner.value in s.used)
    && s.uploads.Keys <= s.used && s.aborted.Keys <= s.used && s.uploads.Keys !! s.aborted.Keys
    && (forall p :: p in s.erased ==> p.0 in s.used && p.0 !in s.uploads)
    && s.jobs.Keys <= s.ids && s.looked <= s.ids
    && (forall o :: o in s.uploads ==> s.uploads[o] in s.ids)
  }

  // As long as an upload holds its job, the job says so.
  predicate UploadsOk(s: Storage) {
    forall o :: o in s.uploads && Holding(s, o, s.uploads[o]) ==> s.jobs[s.uploads[o]].status == Uploading
  }

  // What an owner erased stays empty while the row names it.
  predicate ErasedOk(s: Storage) {
    forall p :: p in s.erased && Holding(s, p.0, p.1) ==> OnDisk(s.disk, p.1) == 0
  }

  // What the startup scan found completed is never uploaded to again, so what it erased stays empty.
  predicate ScannedOk(s: Storage) {
    && (forall j :: j in s.looked ==> j in s.jobs && s.jobs[j].status != Uploading)
    && (forall j :: j in s.scanned ==> j in s.looked && OnDisk(s.disk, j) == 0)
  }

  /** No job has more bytes on disk than its row says, and the rows together stay within the budget. */
  ghost predicate WithinBudget(s: Storage, budget: nat) {
    && (forall j :: OnDisk(s.disk, j) > 0 ==> j in s.jobs && s.disk[j] <= s.jobs[j].workspaceBytes)
    && TotalBytes(s.jobs) <= budget
  }

  ghost predicate Sound(s: Storage, budget: nat) {
    OwnersOk(s) && UploadsOk(s) && ErasedOk(s) && ScannedOk(s) && WithinBudget(s, budget)
  }

  /****** one step ******/

  // What the operations without a step of their own do to rows
  predicate Quiet(jobs: Jobs, after: Jobs, op: JobOp) {
    && after.Keys == jobs.Keys
    && (forall j :: j in jobs && j != op.job ==> after[j] == jobs[j])
    && (op.job in jobs ==>
          var row, row' := jobs[op.job], after[op.job];
          && row'.workspaceBytes == row.workspaceBytes
          && (row'.leaseOwner.Some? ==> row'.leaseOwner == row.leaseOwner || row'.leaseOwner == Introduces(op))
          && (row.status == Uploading && row'.status != Uploading && row'.leaseOwner.Some? ==>
                row'.leaseOwner == Introduces(op) || (op.Update? && row'.leaseOwner == Some(op.owner)))
          && (row'.status == Uploading ==> row.status == Uploading))
  }

  lemma OtherIsQuiet(s: Storage, op: JobOp)
    requires Elsewhere(s, op)
    ensures Quiet(s.jobs, ApplyJobOp(s.jobs, op, s.now), op)
  {
  }

  lemma QuietOwners(s: Storage, after: Jobs, op: JobOp)
    requires Elsewhere(s, op) && Quiet(s.jobs, after, op) && OwnersOk(s)
    ensures OwnersOk(s.(jobs := after, used := NowUsed(s, op)))
  {
  }

  lemma QuietUploads(s: Storage, after: Jobs, op: JobOp)
    requires Elsewhere(s, op) && Quiet(s.jobs, after, op) && OwnersOk(s) && UploadsOk(s)
    ensures UploadsOk(s.(jobs := after, used := NowUsed(s, op)))
  {
  }

  lemma QuietErased(s: Storage, after: Jobs, op: JobOp)
    requires Elsewhere(s, op) && Quiet(s.jobs, after, op) && OwnersOk(s) && ErasedOk(s) && ScannedOk(s)
    ensures var s' := s.(jobs := after, used := NowUsed(s, op)); ErasedOk(s') && ScannedOk(s')
  {
  }

  lemma QuietBytes(s: Storage, after: Jobs, op: JobOp, budget: nat)
    requires Quiet(s.jobs, after, op) && WithinBudget(s, budget)
    ensures WithinBudget(s.(jobs := after, used := NowUsed(s, op)), budget)
  {
    if op.job in s.jobs {
      PutRow(s.jobs, op.job, after[op.job]);
      assert after == s.jobs[op.job := after[op.job]];
    } else {
      assert after == s.jobs;
    }
  }

  lemma OtherKeeps(s: Storage, op: JobOp, budget: nat)
    requires Sound(s, budget) && Elsewhere(s, op)
    ensures Sound(Act(s, Other(op)), budget)
  {
    var after := ApplyJobOp(s.jobs, op, s.now);
    OtherIsQuiet(s, op);
    hide ApplyJobOp, Quiet, Elsewhere, OwnersOk, UploadsOk, ErasedOk, ScannedOk, WithinBudget;
    QuietOwners(s, after, op);
    QuietUploads(s, after, op);
    QuietErased(s, after, op);
    QuietBytes(s, after, op, budget);
  }

  // A new job under a new owner, with nothing on disk
  lemma NewJob(s: Storage, job: JobId, owner: Owner, row: JobRow, budget: nat)
    requires Sound(s, budget) && job !in s.ids && owner !in s.used
    requires row.status == Uploading && row.leaseOwner == Some(owner) && row.workspaceBytes == 0
    ensures Sound(s.(jobs := s.jobs[job := row], used := s.used + {owner}, ids := s.ids + {job}, uploads := s.uploads[owner := job]), budget)
  {
    PutRow(s.jobs, job, row);
  }

  lemma NoJob(s: Storage, job: JobId, owner: Owner, budget: nat)
    requires Sound(s, budget)
    ensures Sound(s.(used := s.used + {owner}, ids := s.ids + {job}), budget)
  {
  }

  lemma BeginKeeps(s: Storage, step: StorageStep, budget: nat)
    requires Sound(s, budget) && step.Begin?
    ensures Sound(Act(s, step), budget)
  {
    hide Sound, CanCreate;
    if Possible(s, step) {
      if CanCreate(s.jobs, step.job, step.project, step.limit, step.retained) {
        NewJob(s, step.job, step.owner, Act(s, step).jobs[step.job], budget);
      } else {
        NoJob(s, step.job, step.owner, budget);
      }
    }
  }

  lemma WriteKeeps(s: Storage, step: StorageStep, budget: nat)
    requires Sound(s, budget) && step.Write? && step.budget <= budget
    ensures Sound(Act(s, step), budget)
  {
    var s' := Act(s, step);
    if s' != s {
      PutRow(s.jobs, s.uploads[step.owner], s'.jobs[s.uploads[step.owner]]);
    }
  }

  // An upload ends: it is given up, or its job is queued.
  lemma QuitKeeps(s: Storage, owner: Owner, budget: nat)
    requires Sound(s, budget)
    ensures Sound(Act(s, Quit(owner)), budget)
  {
  }

  lemma EnqueueKeeps(s: Storage, owner: Owner, budget: nat)
    requires Sound(s, budget)
    ensures Sound(Act(s, Enqueue(owner)), budget)
  {
    if owner in s.uploads && LeaseActive(s.jobs, s.uploads[owner], owner, s.now) {
      var job := s.uploads[owner];
      PutRow(s.jobs, job, Act(s, Enqueue(owner)).jobs[job]);
    } else {
      hide Sound;
      assert Act(s, Enqueue(owner)) == Act(s, Quit(owner));
      QuitKeeps(s, owner, budget);
    }
  }

  lemma EraseUploadKeeps(s: Storage, owner: Owner, budget: nat)
    requires Sound(s, budget)
    ensures Sound(Act(s, EraseUpload(owner)), budget)
  {
  }

  lemma EraseKeeps(s: Storage, owner: Owner, job: JobId, budget: nat)
    requires Sound(s, budget)
    ensures Sound(Act(s, Erase(owner, job)), budget)
  {
  }

  lemma ScanLookKeeps(s: Storage, job: JobId, budget: nat)
    requires Sound(s, budget)
    ensures Sound(Act(s, ScanLook(job)), budget)
  {
  }

  lemma ScanEraseKeeps(s: Storage, job: JobId, budget: nat)
    requires Sound(s, budget)
    ensures Sound(Act(s, ScanErase(job)), budget)
  {
  }

  // Erasing that fails halfway
  lemma EraseSomeKeeps(s: Storage, job: JobId, left: nat, budget: nat)
    requires Sound(s, budget)
    ensures Sound(Act(s, EraseSome(job, left)), budget)
  {
  }

  // Giving bytes back: nothing looks at the disk, and yet the directory is still empty.
  lemma ClearKeeps(s: Storage, owner: Owner, job: JobId, budget: nat)
    requires Sound(s, budget)
    ensures var s' := Act(s, StorageStep.Clear(owner, job)); Sound(s', budget) && (s'.jobs != s.jobs ==> OnDisk(s.disk, job) == 0)
  {
    var s' := Act(s, StorageStep.Clear(owner, job));
    if s'.jobs != s.jobs {
      assert Holding(s, owner, job);
      PutRow(s.jobs, job, s'.jobs[job]);
    }
  }

  lemma DiscardKeeps(s: Storage, owner: Owner, job: JobId, budget: nat)
    requires Sound(s, budget)
    ensures var s' := Act(s, StorageStep.FinishDiscard(owner, job)); Sound(s', budget) && (s'.jobs != s.jobs ==> OnDisk(s.disk, job) == 0)
  {
    var s' := Act(s, StorageStep.FinishDiscard(owner, job));
    if s'.jobs != s.jobs {
      assert Holding(s, owner, job);
      PutRow(s.jobs, job, s'.jobs[job]);
    }
  }

  lemma ScanKeeps(s: Storage, job: JobId, budget: nat)
    requires Sound(s, budget)
    ensures var s' := Act(s, ScanClear(job)); Sound(s', budget) && (s'.jobs != s.jobs ==> OnDisk(s.disk, job) == 0)
  {
    var s' := Act(s, ScanClear(job));
    if s'.jobs != s.jobs {
      PutRow(s.jobs, job, s'.jobs[job]);
    }
  }

  lemma GiveBackKeeps(s: Storage, step: StorageStep, budget: nat)
    requires Sound(s, budget) && (step.Clear? || step.FinishDiscard? || step.ScanClear?)
    ensures Sound(Act(s, step), budget)
    ensures Act(s, step).jobs != s.jobs ==> OnDisk(s.disk, step.job) == 0
  {
    hide *;
    match step
    case Clear(owner, job) => ClearKeeps(s, owner, job, budget);
    case FinishDiscard(owner, job) => DiscardKeeps(s, owner, job, budget);
    case ScanClear(job) => ScanKeeps(s, job, budget);
  }

  lemma DropKeeps(s: Storage, owner: Owner, budget: nat)
    requires Sound(s, budget)
    ensures Sound(Act(s, DropUpload(owner)), budget)
    ensures Act(s, DropUpload(owner)).jobs != s.jobs ==> owner in s.aborted && OnDisk(s.disk, s.aborted[owner]) == 0
  {
    if owner in s.aborted {
      DropRow(s.jobs, s.aborted[owner]);
    }
  }

  lemma MeasureKeeps(s: Storage, job: JobId, budget: nat)
    requires Sound(s, budget)
    ensures Sound(Act(s, Measure(job)), budget)
  {
    var s' := Act(s, Measure(job));
    if s'.jobs != s.jobs {
      PutRow(s.jobs, job, s'.jobs[job]);
    }
  }

  lemma StepWithinBudget(s: Storage, step: StorageStep, budget: nat)
    requires Sound(s, budget) && (step.Write? ==> step.budget <= budget)
    ensures Sound(Act(s, step), budget)
  {
    if step.Wait? {
      return;
    }
    hide Act, Sound;
    match step
    case Other(op) =>
      hide *;
      if Elsewhere(s, op) {
        OtherKeeps(s, op, budget);
      } else {
        Idle(s, step);
      }
    case Begin(_, _, _, _, _, _) => BeginKeeps(s, step, budget);
    case Write(_, _, _, _) => WriteKeeps(s, step, budget);
    case Enqueue(owner) => EnqueueKeeps(s, owner, budget);
    case Quit(owner) => QuitKeeps(s, owner, budget);
    case Clear(_, _) => GiveBackKeeps(s, step, budget);
    case FinishDiscard(_, _) => GiveBackKeeps(s, step, budget);
    case ScanClear(_) => GiveBackKeeps(s, step, budget);
    case DropUpload(owner) => DropKeeps(s, owner, budget);
    case Measure(job) => MeasureKeeps(s, job, budget);
    case EraseUpload(owner) => EraseUploadKeeps(s, owner, budget);
    case Erase(owner, job) => EraseKeeps(s, owner, job, budget);
    case ScanLook(job) => ScanLookKeeps(s, job, budget);
    case ScanErase(job) => ScanEraseKeeps(s, job, budget);
    case EraseSome(job, left) => EraseSomeKeeps(s, job, left, budget);
  }

  lemma Idle(s: Storage, step: StorageStep)
    requires step.Other? && !Elsewhere(s, step.op)
    ensures Act(s, step) == s
  {
  }

  lemma {:induction false} RunWithinBudget(s: Storage, steps: seq<StorageStep>, budget: nat)
    requires Sound(s, budget)
    requires forall i :: 0 <= i < |steps| && steps[i].Write? ==> steps[i].budget <= budget
    ensures Sound(ActAll(s, steps), budget)
    decreases |steps|
  {
    if steps != [] {
      StepWithinBudget(s, steps[0], budget);
      RunWithinBudget(Act(s, steps[0]), steps[1..], budget);
    }
  }

  /** All bytes on disk. */
  ghost function DiskTotal(disk: map<JobId, nat>): nat
    decreases |disk|
  {
    if disk == map[] then 0 else
    var j :| j in disk;
    assert (disk - {j}).Keys == disk.Keys - {j};
    disk[j] + DiskTotal(disk - {j})
  }

  lemma {:induction false} DiskBelowRows(disk: map<JobId, nat>, jobs: Jobs)
    requires forall j :: j in disk && disk[j] > 0 ==> j in jobs && disk[j] <= jobs[j].workspaceBytes
    ensures DiskTotal(disk) <= TotalBytes(jobs)
    decreases |disk|
  {
    if disk != map[] {
      var j :| j in disk && DiskTotal(disk) == disk[j] + DiskTotal(disk - {j});
      assert (disk - {j}).Keys == disk.Keys - {j};
      DiskBelowRows(disk - {j}, jobs - {j});
      DropRow(jobs, j);
    }
  }

  lemma UnusedIsSound(budget: nat)
    ensures Sound(UNUSED, budget)
  {
    assert TotalBytes(UNUSED.jobs) == 0;
  }

  /**
  Workspace budget: over all runs of create, upload, abort, expiry, run, discard, startup scan and
  measurement, the files of a job never exceed its reservation, nor all files together the budget.
   */
  lemma FilesWithinBudget(steps: seq<StorageStep>, budget: nat)
    requires forall i :: 0 <= i < |steps| && steps[i].Write? ==> steps[i].budget <= budget
    ensures var s := ActAll(UNUSED, steps);
            && (forall j :: j in s.disk && s.disk[j] > 0 ==> j in s.jobs && s.disk[j] <= s.jobs[j].workspaceBytes)
            && DiskTotal(s.disk) <= TotalBytes(s.jobs) <= budget
  {
    UnusedIsSound(budget);
    RunWithinBudget(UNUSED, steps, budget);
    var s := ActAll(UNUSED, steps);
    assert forall j :: j in s.disk && s.disk[j] > 0 ==> OnDisk(s.disk, j) > 0;
    DiskBelowRows(s.disk, s.jobs);
  }

  /** No process ever takes the bytes of a job out of the books while there are files: it erased them, and nobody wrote since. */
  lemma GivenBackMeansGone(steps: seq<StorageStep>, step: StorageStep, budget: nat)
    requires forall i :: 0 <= i < |steps| && steps[i].Write? ==> steps[i].budget <= budget
    requires step.Clear? || step.FinishDiscard? || step.ScanClear?
    ensures var s := ActAll(UNUSED, steps); Act(s, step).jobs != s.jobs ==> OnDisk(s.disk, step.job) == 0
  {
    UnusedIsSound(budget);
    RunWithinBudget(UNUSED, steps, budget);
    GiveBackKeeps(ActAll(UNUSED, steps), step, budget);
  }

  /****** what the steps do ******/

  /** A block is written exactly when the lease is live and all rows together leave room for it, and then it is booked as well. */
  lemma WriteLands(s: Storage, owner: Owner, seconds: nat, bytes: nat, budget: nat)
    requires owner in s.uploads
    ensures var job, s' := s.uploads[owner], Act(s, Write(owner, seconds, bytes, budget));
            if LeaseActive(s.jobs, job, owner, s.now) && TotalBytes(s.jobs) + bytes <= budget then
              && OnDisk(s'.disk, job) == OnDisk(s.disk, job) + bytes && s'.uploads == s.uploads
              && s'.jobs == s.jobs[job := s.jobs[job].(workspaceBytes := s.jobs[job].workspaceBytes + bytes, leaseExpires := Some(s.now + seconds))]
            else s' == s
  {
  }

  /** What is on disk changes by a block of an upload, and by erasing, and by nothing else. */
  lemma DiskAfter(s: Storage, step: StorageStep, j: JobId)
    requires Possible(s, step)
    ensures var before, after := OnDisk(s.disk, j), OnDisk(Act(s, step).disk, j);
            match step
            case Write(owner, _, bytes, budget) =>
              after == before + if j == s.uploads[owner] && CanReserve(s.jobs, j, owner, s.now, bytes, budget) then bytes else 0
            case EraseUpload(owner) => after == if j == s.aborted[owner] then 0 else before
            case Erase(_, job) => after == if j == job then 0 else before
            case ScanErase(job) => after == if j == job then 0 else before
            case EraseSome(job, left) => after == if j == job then left else before
            case _ => after == before
  {
  }

  /** A measurement brings the row of a job that nobody holds to what is on disk, and touches no other. */
  lemma MeasureLands(s: Storage, job: JobId)
    ensures var s' := Act(s, Measure(job));
            && s'.disk == s.disk
            && (job in s.jobs && LeaseFree(s.jobs[job], s.now) ==>
                  s'.jobs == s.jobs[job := s.jobs[job].(workspaceBytes := OnDisk(s.disk, job))])
            && (job in s.jobs && !LeaseFree(s.jobs[job], s.now) ==> s'.jobs == s.jobs)
  {
  }

  /** An upload ends by queueing its job while its lease is live, and is given up otherwise. */
  lemma EnqueueLands(s: Storage, owner: Owner)
    requires owner in s.uploads
    ensures var job, s' := s.uploads[owner], Act(s, Enqueue(owner));
            && owner !in s'.uploads
            && if LeaseActive(s.jobs, job, owner, s.now) then s'.jobs[job].status == Queued && s'.aborted == s.aborted
               else s'.jobs == s.jobs && s'.aborted == s.aborted[owner := job]
  {
  }

  /** An upload that gives up in time leaves neither files nor a job. */
  lemma AbortEnds(s: Storage, owner: Owner)
    requires owner in s.uploads && LeaseActive(s.jobs, s.uploads[owner], owner, s.now) && s.jobs[s.uploads[owner]].status == Uploading
    ensures var job, e := s.uploads[owner], Act(Act(Act(s, Quit(owner)), EraseUpload(owner)), DropUpload(owner));
            && job !in e.jobs && OnDisk(e.disk, job) == 0 && owner !in e.uploads
            && forall j :: j != job ==> (j in e.jobs <==> j in s.jobs) && (j in s.jobs ==> e.jobs[j] == s.jobs[j]) && OnDisk(e.disk, j) == OnDisk(s.disk, j)
  {
    var job := s.uploads[owner];
    var s1 := Act(s, Quit(owner));
    assert s1.jobs == s.jobs && s1.disk == s.disk && s1.now == s.now && s1.aborted[owner] == job && owner !in s1.uploads;
    var s2 := Act(s1, EraseUpload(owner));
    assert s2.jobs == s.jobs && s2.now == s.now && s2.disk == s.disk - {job} && s2.aborted == s1.aborted && (owner, job) in s2.erased;
  }

  /** Whoever erased a directory gives its bytes back: the holder of the job, the holder of its discard, the startup scan. */
  lemma BytesComeBack(s: Storage, owner: Owner, job: JobId)
    requires job in s.jobs
    ensures (owner, job) in s.erased && LeaseActive(s.jobs, job, owner, s.now) ==>
              var row := Act(s, StorageStep.Clear(owner, job)).jobs[job]; row.workspaceBytes == 0 && !row.workspace
    ensures (owner, job) in s.erased && HoldsDiscard(s.jobs, job, owner) ==>
              var row := Act(s, StorageStep.FinishDiscard(owner, job)).jobs[job]; row.workspaceBytes == 0 && !row.workspace && row.leaseOwner == None
    ensures job in s.scanned ==> var row := Act(s, ScanClear(job)).jobs[job]; row.workspaceBytes == 0 && !row.workspace
  {
  }
}
