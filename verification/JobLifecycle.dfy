/**
The life of a job over whole runs: the limit on active jobs per project, and the exclusion
between discarding a workspace and starting the job again.
 */
module JobLifecycle {
  import opened Wrappers
  import opened ImportTables
  import opened Fencing

  /****** the limit on active jobs ******/

  /** The owners that reported a final status, or that only came to discard. */
  function EndedBy(ended: set<Owner>, op: SystemOp): set<Owner> {
    if op.OnJobs? && ((op.op.Update? && !IsActive(op.op.status)) || op.op.Discard?) then ended + {op.op.owner} else ended
  }

  /**
  Every process respects the configured limit, and reports no further progress once it has
  reported a final status or taken the job only to discard it.
   */
  predicate Orderly(op: SystemOp, ended: set<Owner>, limit: nat) {
    op.OnJobs? ==>
      && (op.op.Create? || op.op.Retry? || op.op.RetryGraph? ==> op.op.limit <= limit)
      && (op.op.Update? && IsActive(op.op.status) ==> op.op.owner !in ended)
  }

  predicate OrderlyRun(ops: seq<SystemOp>, ended: set<Owner>, limit: nat)
    decreases |ops|
  {
    ops != [] ==> Orderly(ops[0], ended, limit) && OrderlyRun(ops[1..], EndedBy(ended, ops[0]), limit)
  }

  // Whoever holds a job that has ended has ended itself.
  predicate EndedJobs(jobs: Jobs, ended: set<Owner>) {
    forall j :: j in jobs && !IsActive(jobs[j].status) && jobs[j].leaseOwner.Some? ==> jobs[j].leaseOwner.value in ended
  }

  lemma FewerActive(before: Jobs, after: Jobs, project: ProjectId)
    requires ActiveJobs(after, project) <= ActiveJobs(before, project)
    ensures |ActiveJobs(after, project)| <= |ActiveJobs(before, project)|
  {
    Subset(ActiveJobs(after, project), ActiveJobs(before, project));
  }

  lemma Subset<T>(a: set<T>, b: set<T>)
    requires a <= b
    ensures |a| <= |b|
  {
    assert b == a + (b - a);
  }

  // A progress report that brings an ended job of the project back to life
  predicate Revives(jobs: Jobs, op: JobOp, now: Time, project: ProjectId) {
    && op.Update? && IsActive(op.status) && LeaseActive(jobs, op.job, op.owner, now)
    && jobs[op.job].project == project && !IsActive(jobs[op.job].status)
  }

  lemma QuietOpKeepsLimit(jobs: Jobs, op: JobOp, now: Time, project: ProjectId, limit: nat)
    requires |ActiveJobs(jobs, project)| <= limit && !op.Update?
    requires op.Create? || op.Retry? || op.RetryGraph? ==> op.limit <= limit
    ensures |ActiveJobs(ApplyJobOp(jobs, op, now), project)| <= limit
  {
    var after := ApplyJobOp(jobs, op, now);
    if op.Create? || op.Retry? || op.RetryGraph? {
      assert ActiveJobs(after, project) <= ActiveJobs(jobs, project) + {op.job};
      if op.job in after && after[op.job].project == project && after != jobs {
        assert |ActiveJobs(jobs, project)| < limit;
        Subset(ActiveJobs(after, project), ActiveJobs(jobs, project) + {op.job});
      } else {
        FewerActive(jobs, after, project);
      }
    } else {
      FewerActive(jobs, after, project);
    }
  }

  /**
  From any table within the limit, one operation of a process that respects the limit takes the
  project over it if and only if the project is full and the operation revives one of its ended jobs.
   */
  lemma LimitExceededIff(jobs: Jobs, op: JobOp, now: Time, project: ProjectId, limit: nat)
    requires |ActiveJobs(jobs, project)| <= limit
    requires op.Create? || op.Retry? || op.RetryGraph? ==> op.limit <= limit
    ensures |ActiveJobs(ApplyJobOp(jobs, op, now), project)| > limit
        <==> |ActiveJobs(jobs, project)| == limit && Revives(jobs, op, now, project)
  {
    var after := ApplyJobOp(jobs, op, now);
    if Revives(jobs, op, now, project) {
      assert ActiveJobs(after, project) == ActiveJobs(jobs, project) + {op.job};
    } else if op.Update? {
      FewerActive(jobs, after, project);
    } else {
      QuietOpKeepsLimit(jobs, op, now, project, limit);
    }
  }

  // An orderly job operation activates at most one job, and that one only below the limit.
  lemma OpKeepsLimit(jobs: Jobs, op: JobOp, now: Time, ended: set<Owner>, project: ProjectId, limit: nat)
    requires EndedJobs(jobs, ended) && Orderly(OnJobs(op), ended, limit)
    requires |ActiveJobs(jobs, project)| <= limit
    ensures |ActiveJobs(ApplyJobOp(jobs, op, now), project)| <= limit
  {
    LimitExceededIff(jobs, op, now, project, limit);
  }

  lemma OpKeepsEnded(jobs: Jobs, op: JobOp, now: Time, ended: set<Owner>)
    requires EndedJobs(jobs, ended)
    ensures EndedJobs(ApplyJobOp(jobs, op, now), EndedBy(ended, OnJobs(op)))
  {
  }

  lemma StepKeepsEnded(s: System, op: SystemOp, ended: set<Owner>)
    requires EndedJobs(s.tables.jobs, ended)
    ensures EndedJobs(Next(s, op).tables.jobs, EndedBy(ended, op))
  {
    hide ApplyJobOp;
    if op.OnJobs? {
      OpKeepsEnded(s.tables.jobs, op.op, s.now, ended);
    }
  }

  lemma StepKeepsLimit(s: System, op: SystemOp, ended: set<Owner>, project: ProjectId, limit: nat)
    requires EndedJobs(s.tables.jobs, ended) && Orderly(op, ended, limit)
    requires |ActiveJobs(s.tables.jobs, project)| <= limit
    ensures |ActiveJobs(Next(s, op).tables.jobs, project)| <= limit
  {
    match op
    case OnJobs(jop) =>
      hide ApplyJobOp;
      OpKeepsLimit(s.tables.jobs, jop, s.now, ended, project, limit);
    case OnTables(write, owner) =>
      assert ActiveJobs(Next(s, op).tables.jobs, project) == ActiveJobs(s.tables.jobs, project);
    case Tick(_) =>
  }

  /** In every orderly run no project ever has more active jobs than the limit. */
  lemma {:induction false} ActiveJobsWithinLimit(s: System, ops: seq<SystemOp>, ended: set<Owner>, project: ProjectId, limit: nat)
    requires EndedJobs(s.tables.jobs, ended) && OrderlyRun(ops, ended, limit)
    requires |ActiveJobs(s.tables.jobs, project)| <= limit
    ensures |ActiveJobs(Exec(s, ops).tables.jobs, project)| <= limit
    decreases |ops|
  {
    if ops != [] {
      StepKeepsLimit(s, ops[0], ended, project, limit);
      StepKeepsEnded(s, ops[0], ended);
      ActiveJobsWithinLimit(Next(s, ops[0]), ops[1..], EndedBy(ended, ops[0]), project, limit);
    }
  }

  /** Without that order a job update revives an ended job beside a full project. */
  lemma LateProgressExceedsLimit() returns (s: System, op: SystemOp)
    ensures op.OnJobs? && op.op.Update? && |ActiveJobs(s.tables.jobs, 0)| == 1 && |ActiveJobs(Next(s, op).tables.jobs, 0)| == 2
  {
    var done := JobRow(0, Failed, InStatus(Failed), false, GraphPending, Some(1), Some(100), true, 0);
    var live := JobRow(0, Importing, InStatus(Importing), false, GraphPending, Some(2), Some(100), true, 0);
    s := System(Tables(map[1 := done, 2 := live], map[], map[], map[], map[]), 0, {1, 2});
    op := OnJobs(Update(1, 1, Importing, GraphPending));
    assert ActiveJobs(s.tables.jobs, 0) == {2};
    assert ActiveJobs(Next(s, op).tables.jobs, 0) == {1, 2};
  }

  /****** discarding a workspace ******/

  predicate Starts(op: JobOp, job: JobId) {
    op.job == job && (op.Acquire? || op.Retry? || op.RetryGraph?)
  }

  predicate Discarded(jobs: Jobs, job: JobId, holders: set<Owner>) {
    && job in jobs && jobs[job].phase == Discarding && !IsActive(jobs[job].status)
    && (jobs[job].leaseOwner.Some? ==> jobs[job].leaseOwner.value in holders)
  }

  function HoldersAfter(holders: set<Owner>, op: SystemOp): set<Owner> {
    if op.OnJobs? && op.op.Discard? then holders + {op.op.owner} else holders
  }

  // Until the discard is completed or given up, and as long as its holder reports no status
  predicate StillDiscarding(ops: seq<SystemOp>, job: JobId, holders: set<Owner>)
    decreases |ops|
  {
    ops != [] ==>
      && (ops[0].OnJobs? && ops[0].op.job == job ==>
            && !ops[0].op.FinishDiscard? && !ops[0].op.GiveUpDiscard?
            && (ops[0].op.Update? ==> ops[0].op.owner !in holders))
      && StillDiscarding(ops[1..], job, HoldersAfter(holders, ops[0]))
  }

  lemma OpKeepsDiscarded(jobs: Jobs, op: JobOp, now: Time, job: JobId, holders: set<Owner>)
    requires Discarded(jobs, job, holders)
    requires op.job == job ==> !op.FinishDiscard? && !op.GiveUpDiscard? && (op.Update? ==> op.owner !in holders)
    ensures Discarded(ApplyJobOp(jobs, op, now), job, if op.Discard? then holders + {op.owner} else holders)
  {
  }

  lemma StepKeepsDiscarded(s: System, op: SystemOp, job: JobId, holders: set<Owner>)
    requires Discarded(s.tables.jobs, job, holders) && StillDiscarding([op], job, holders)
    ensures Discarded(Next(s, op).tables.jobs, job, HoldersAfter(holders, op))
  {
    hide ApplyJobOp;
    if op.OnJobs? {
      OpKeepsDiscarded(s.tables.jobs, op.op, s.now, job, holders);
    }
  }

  lemma {:induction false} StaysDiscarded(s: System, ops: seq<SystemOp>, job: JobId, holders: set<Owner>) returns (holders': set<Owner>)
    requires Discarded(s.tables.jobs, job, holders) && StillDiscarding(ops, job, holders)
    ensures Discarded(Exec(s, ops).tables.jobs, job, holders')
    decreases |ops|
  {
    holders' := holders;
    if ops != [] {
      assert StillDiscarding([ops[0]], job, holders);
      StepKeepsDiscarded(s, ops[0], job, holders);
      holders' := StaysDiscarded(Next(s, ops[0]), ops[1..], job, HoldersAfter(holders, ops[0]));
    }
  }

  /**
  From a successful discard lease to its completion or abandonment no run lease, retry or graph
  retry of the job succeeds, however many discarders follow one another when leases expire.
   */
  lemma NothingStartsWhileDiscarding(s: System, discard: JobOp, ops: seq<SystemOp>, start: JobOp, now: Time)
    requires discard.Discard? && Enabled(s, OnJobs(discard)) && CanDiscard(s.tables.jobs, discard.job, s.now)
    requires StillDiscarding(ops, discard.job, {discard.owner}) && Starts(start, discard.job)
    ensures var jobs := Exec(Next(s, OnJobs(discard)), ops).tables.jobs; ApplyJobOp(jobs, start, now) == jobs
  {
    var _ := StaysDiscarded(Next(s, OnJobs(discard)), ops, discard.job, {discard.owner});
  }

  // Nothing is left to discard.
  predicate Gone(jobs: Jobs, job: JobId) {
    job in jobs ==> !jobs[job].workspace && jobs[job].phase != Discarding
  }

  lemma StepKeepsGone(s: System, op: SystemOp, job: JobId)
    requires Gone(s.tables.jobs, job) && !(op.OnJobs? && op.op.Create? && op.op.job == job)
    ensures Gone(Next(s, op).tables.jobs, job)
  {
  }

  lemma {:induction false} GoneForGood(s: System, ops: seq<SystemOp>, job: JobId)
    requires Gone(s.tables.jobs, job)
    requires forall i :: 0 <= i < |ops| ==> !(ops[i].OnJobs? && ops[i].op.Create? && ops[i].op.job == job)
    ensures Gone(Exec(s, ops).tables.jobs, job)
    decreases |ops|
  {
    if ops != [] {
      StepKeepsGone(s, ops[0], job);
      GoneForGood(Next(s, ops[0]), ops[1..], job);
    }
  }

  /** A discard completes at most once: job ids are never reused, and whoever tries later finds the lease lost. */
  lemma DiscardCompletesOnce(s: System, job: JobId, first: Owner, ops: seq<SystemOp>, second: Owner)
    requires HoldsDiscard(s.tables.jobs, job, first)
    requires forall i :: 0 <= i < |ops| ==> !(ops[i].OnJobs? && ops[i].op.Create? && ops[i].op.job == job)
    ensures !HoldsDiscard(Exec(Next(s, OnJobs(FinishDiscard(job, first))), ops).tables.jobs, job, second)
  {
    GoneForGood(Next(s, OnJobs(FinishDiscard(job, first))), ops, job);
  }
}
