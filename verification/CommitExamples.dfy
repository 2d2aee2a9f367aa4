/**
Where a chunk row that had been succeeded does not stay so: an error raised after the success
commit, and the retry endpoint's outdated list of failed chunks.
 */
module CommitExamples {
  import opened Wrappers
  import opened ImportTables
  import opened Fencing
  import opened CommitProtocol
  import opened CommitSafety
  import opened CommitTheorems
  import opened CommitLate
  import opened CommitPromise

  /****** an error after the success commit ******/

  /**
  Whenever the progress recomputation after a success commit raises and the exception handler
  gives the chunk up, the row still says succeeded but its manifest does not: not durable.
   */
  lemma LateErrorBreaksCommit(steps: seq<Step>, id: nat, up: ManifestStatus)
    requires up in {Split, ManifestFailed, Released}
    requires var s := Run(EMPTY, steps);
             && id in s.workers && s.workers[id].chunk !in LooseAt(steps).gone && s.workers[id].pc.Reporting? && Act(s, s.workers[id])
             && SucceededIn(s, s.workers[id].chunk)
    ensures var c := Run(EMPTY, steps).workers[id].chunk;
            var s' := Run(EMPTY, steps + [LateError(id), Work(id, Give(up)), Work(id, Go)]);
            SucceededIn(s', c) && !Durable(s', c)
  {
    var s := Run(EMPTY, steps);
    var c := s.workers[id].chunk;
    RunConcat(EMPTY, steps, [LateError(id), Work(id, Give(up)), Work(id, Go)]);
    RunOfThree(s, LateError(id), Work(id, Give(up)), Work(id, Go));
    CommitIsDurable(steps, c);
    hide Whole, LooseAt;
    GiveUp(s, id, up);
  }

  lemma RunOfThree(s: World, a: Step, b: Step, c: Step)
    ensures Run(s, [a, b, c]) == Advance(Advance(Advance(s, a), b), c)
  {
    assert Run(s, [a, b, c]) == Run(Advance(s, a), [b, c]);
    assert Run(Advance(s, a), [b, c]) == Run(Advance(Advance(s, a), b), [c]);
    assert Run(Advance(Advance(s, a), b), [c]) == Run(Advance(Advance(Advance(s, a), b), c), []);
  }

  lemma GiveUp(s: World, id: nat, up: ManifestStatus)
    requires id in s.workers && s.workers[id].pc.Reporting? && Act(s, s.workers[id]) && up in {Split, ManifestFailed, Released}
    requires SucceededIn(s, s.workers[id].chunk) && Durable(s, s.workers[id].chunk)
    ensures var s' := Advance(Advance(Advance(s, LateError(id)), Work(id, Give(up))), Work(id, Go));
            SucceededIn(s', s.workers[id].chunk) && !Durable(s', s.workers[id].chunk)
  {
    var s1 := Move(s, id, Handling);
    assert Advance(s, LateError(id)) == s1;
    var s2 := Move(s1, id, Undoing(up));
    assert Advance(s1, Work(id, Give(up))) == s2;
    var s3 := Advance(s2, Work(id, Go));
    assert s3.sys.tables.manifests[ManifestOf(s.workers[id].chunk)].status == up;
  }

  /****** runs step by step ******/

  const C := ChunkId(0, 0, 5)
  const K := ManifestOf(C)

  // One more step of a run under construction
  lemma Do(steps: seq<Step>, s: World, step: Step) returns (steps': seq<Step>, s': World)
    requires s == Run(EMPTY, steps) && LateFree(steps) && !step.LateError?
    ensures steps' == steps + [step] && s' == Advance(s, step) && s' == Run(EMPTY, steps') && LateFree(steps')
  {
    steps', s' := steps + [step], Advance(s, step);
    RunConcat(EMPTY, steps, [step]);
    assert Run(s, [step]) == Run(s', []);
  }

  // Worker `id` moved on to `pc`; besides it at most chunk rows, manifests and hash claims changed.
  predicate Moved(s: World, s': World, id: nat, pc: Pc) {
    && id in s.workers && id in s'.workers && s'.workers.Keys == s.workers.Keys
    && s'.workers[id].owner == s.workers[id].owner && s'.workers[id].chunk == s.workers[id].chunk && s'.workers[id].pc == pc
    && s'.sys.tables.jobs == s.sys.tables.jobs && s'.sys.now == s.sys.now && s'.sys.used == s.sys.used
    && s'.sys.tables.chunks.Keys == s.sys.tables.chunks.Keys + {s.workers[id].chunk}
    && s'.plans == s.plans && s'.listed == s.listed && s'.vectors == s.vectors
  }

  // A worker with a live lease whose manifest was claimed by it
  predicate ClaimHeld(s: World, id: nat) {
    && id in s.workers && Act(s, s.workers[id]) && HasManifest(s, s.workers[id])
    && s.workers[id].chunk in s.sys.tables.chunks
  }

  lemma StepClaim(s: World, id: nat)
    requires id in s.workers && s.workers[id].pc.Ensuring? && Act(s, s.workers[id]) && NotSucceeded(s, s.workers[id].chunk)
    ensures var s' := Advance(s, Work(id, Go));
            Moved(s, s', id, Claiming) && s'.sys.tables.manifests == s.sys.tables.manifests && Act(s', s'.workers[id])
  {
  }

  lemma StepHold(s: World, id: nat)
    requires id in s.workers && s.workers[id].pc.Claiming? && Act(s, s.workers[id]) && s.workers[id].chunk in s.sys.tables.chunks
    requires var k, ms := ManifestOf(s.workers[id].chunk), s.sys.tables.manifests; k in ms ==> ms[k].status == ManifestFailed
    ensures var s' := Advance(s, Work(id, Go)); Moved(s, s', id, Beginning) && ClaimHeld(s', id)
  {
  }

  lemma StepStore(s: World, id: nat)
    requires ClaimHeld(s, id) && s.workers[id].pc.Beginning?
    ensures var s' := Advance(s, Work(id, Go)); Moved(s, s', id, Storing) && ClaimHeld(s', id)
  {
  }

  lemma StepExtract(s: World, id: nat)
    requires ClaimHeld(s, id) && s.workers[id].pc.Storing? && s.vectors == map[]
    ensures var s' := Advance(s, Work(id, Go)); Moved(s, s', id, Extracting) && ClaimHeld(s', id)
  {
    assert RowsOf(s, ManifestOf(s.workers[id].chunk)) == {};
  }

  // A fresh worker claims its chunk and goes on to the model call.
  lemma ToExtracting(steps: seq<Step>, s: World, id: nat) returns (steps': seq<Step>, s': World)
    requires s == Run(EMPTY, steps) && LateFree(steps) && s.vectors == map[]
    requires id in s.workers && s.workers[id].pc.Ensuring? && Act(s, s.workers[id]) && NotSucceeded(s, s.workers[id].chunk)
    requires var k, ms := ManifestOf(s.workers[id].chunk), s.sys.tables.manifests; k in ms ==> ms[k].status == ManifestFailed
    ensures s' == Run(EMPTY, steps') && LateFree(steps')
    ensures Moved(s, s', id, Extracting) && ClaimHeld(s', id)
  {
    hide Advance;
    StepClaim(s, id);
    steps', s' := Do(steps, s, Work(id, Go));
    StepHold(s', id);
    steps', s' := Do(steps', s', Work(id, Go));
    StepStore(s', id);
    steps', s' := Do(steps', s', Work(id, Go));
    StepExtract(s', id);
    steps', s' := Do(steps', s', Work(id, Go));
  }

  lemma StepSettle(s: World, id: nat)
    requires ClaimHeld(s, id) && s.workers[id].pc.Extracting?
    ensures var s' := Advance(s, Work(id, Ready([]))); Moved(s, s', id, Settling([])) && ClaimHeld(s', id)
  {
  }

  lemma StepQueue(s: World, id: nat)
    requires ClaimHeld(s, id) && s.workers[id].pc == Settling([])
    ensures var s' := Advance(s, Work(id, Settle(0, {}, map[]))); Moved(s, s', id, Queueing([])) && ClaimHeld(s', id)
  {
  }

  lemma StepMark(s: World, id: nat)
    requires ClaimHeld(s, id) && s.workers[id].pc == Queueing([])
    ensures var s' := Advance(s, Work(id, Go)); Moved(s, s', id, Marking([])) && ClaimHeld(s', id)
  {
  }

  lemma StepRecord(s: World, id: nat)
    requires ClaimHeld(s, id) && s.workers[id].pc == Marking([])
    ensures var s' := Advance(s, Work(id, Go)); Moved(s, s', id, Recording([])) && ClaimHeld(s', id)
  {
  }

  lemma StepReport(s: World, id: nat)
    requires ClaimHeld(s, id) && s.workers[id].pc == Recording([])
    ensures var s' := Advance(s, Work(id, Go)); Moved(s, s', id, Reporting) && SucceededIn(s', s.workers[id].chunk)
  {
  }

  // From the model call, which finds nothing to remember, to the success commit
  lemma ToSuccess(steps: seq<Step>, s: World, id: nat) returns (steps': seq<Step>, s': World)
    requires s == Run(EMPTY, steps) && LateFree(steps)
    requires ClaimHeld(s, id) && s.workers[id].pc.Extracting?
    ensures s' == Run(EMPTY, steps') && LateFree(steps')
    ensures Moved(s, s', id, Reporting) && SucceededIn(s', s.workers[id].chunk)
  {
    hide Advance;
    StepSettle(s, id);
    steps', s' := Do(steps, s, Work(id, Ready([])));
    StepQueue(s', id);
    steps', s' := Do(steps', s', Work(id, Settle(0, {}, map[])));
    StepMark(s', id);
    steps', s' := Do(steps', s', Work(id, Go));
    StepRecord(s', id);
    steps', s' := Do(steps', s', Work(id, Go));
    StepReport(s', id);
    steps', s' := Do(steps', s', Work(id, Go));
  }

  // Owner 1 runs job 0 and has just started a worker on chunk C.
  lemma Begin() returns (steps: seq<Step>, s: World)
    ensures s == Run(EMPTY, steps) && LateFree(steps)
    ensures s.workers == map[0 := Worker(1, C, Ensuring, 0, false)]
    ensures s.sys.tables.chunks == map[] && s.sys.tables.manifests == map[] && s.vectors == map[] && s.listed == map[]
    ensures s.sys.used == {1} && s.sys.now == 0 && s.plans.Keys == {1}
    ensures s.sys.tables.jobs == JobIn(Importing, 1)
  {
    var jobs: Jobs := map[];
    assert ActiveJobs(jobs, 0) == {};
    assert TotalBytes(jobs) == 0;
    steps, s := [], EMPTY;
    steps, s := Do(steps, s, Env(OnJobs(Create(0, 0, 1, 100, 1, 1))));
    steps, s := Do(steps, s, Env(OnJobs(Update(0, 1, Importing, GraphPending))));
    steps, s := Do(steps, s, Load(1, 0, map[]));
    steps, s := Do(steps, s, Start(0, 1, C));
  }

  /** The situation of `LateErrorBreaksCommit` does come up. */
  lemma LateErrorHappens() returns (steps: seq<Step>, s: World)
    ensures s == Run(EMPTY, steps) && LateFree(steps) && LooseAt(steps).gone == {}
    ensures 0 in s.workers && s.workers[0].pc.Reporting? && Act(s, s.workers[0]) && SucceededIn(s, s.workers[0].chunk)
  {
    hide Advance;
    steps, s := Begin();
    steps, s := ToExtracting(steps, s, 0);
    steps, s := ToSuccess(steps, s, 0);
    CalmGivesUpNone(EMPTY, steps);
  }

  /****** an outdated list ******/

  lemma StepRaise(s: World, id: nat)
    requires ClaimHeld(s, id) && s.workers[id].pc.Extracting?
    ensures var s' := Advance(s, Work(id, Raise(false))); Moved(s, s', id, Unclaiming) && ClaimHeld(s', id)
  {
  }

  lemma StepHandle(s: World, id: nat)
    requires ClaimHeld(s, id) && s.workers[id].pc.Unclaiming?
    ensures var s' := Advance(s, Work(id, Go)); Moved(s, s', id, Handling) && ClaimHeld(s', id)
  {
  }

  lemma StepFail(s: World, id: nat)
    requires ClaimHeld(s, id) && s.workers[id].pc.Handling?
    ensures var s' := Advance(s, Work(id, Give(ManifestFailed))); Moved(s, s', id, Undoing(ManifestFailed)) && ClaimHeld(s', id)
  {
  }

  lemma StepClose(s: World, id: nat)
    requires ClaimHeld(s, id) && s.workers[id].pc == Undoing(ManifestFailed)
    ensures var s', k := Advance(s, Work(id, Go)), ManifestOf(s.workers[id].chunk);
            && Moved(s, s', id, Closing(ChunkFailed, None, Stop)) && Act(s', s'.workers[id])
            && k in s'.sys.tables.manifests && s'.sys.tables.manifests[k].status == ManifestFailed
  {
  }

  lemma StepStop(s: World, id: nat)
    requires id in s.workers && Act(s, s.workers[id]) && s.workers[id].chunk in s.sys.tables.chunks
    requires s.workers[id].pc == Closing(ChunkFailed, None, Stop)
    ensures var s', c := Advance(s, Work(id, Go)), s.workers[id].chunk;
            && s'.workers == s.workers - {id} && s'.sys == s.sys.(tables := s.sys.tables.(chunks := s'.sys.tables.chunks))
            && s'.sys.tables.chunks.Keys == s.sys.tables.chunks.Keys && s'.sys.tables.chunks[c].status == ChunkFailed
            && s'.plans == s.plans && s'.listed == s.listed && s'.vectors == s.vectors
  {
  }

  // From a model call that raises to the last write of a failed chunk
  lemma ToClosing(steps: seq<Step>, s: World, id: nat) returns (steps': seq<Step>, s': World)
    requires s == Run(EMPTY, steps) && LateFree(steps)
    requires ClaimHeld(s, id) && s.workers[id].pc.Extracting?
    ensures s' == Run(EMPTY, steps') && LateFree(steps')
    ensures Moved(s, s', id, Closing(ChunkFailed, None, Stop)) && Act(s', s'.workers[id])
    ensures var k := ManifestOf(s.workers[id].chunk);
            k in s'.sys.tables.manifests && s'.sys.tables.manifests[k].status == ManifestFailed
  {
    hide Advance;
    StepRaise(s, id);
    steps', s' := Do(steps, s, Work(id, Raise(false)));
    StepHandle(s', id);
    steps', s' := Do(steps', s', Work(id, Go));
    StepFail(s', id);
    steps', s' := Do(steps', s', Work(id, Give(ManifestFailed)));
    StepClose(s', id);
    steps', s' := Do(steps', s', Work(id, Go));
  }

  // The chunk and its manifest are both failed.
  predicate BothFailed(s: World) {
    && s.sys.tables.chunks.Keys == {C} && s.sys.tables.chunks[C].status == ChunkFailed
    && K in s.sys.tables.manifests && s.sys.tables.manifests[K].status == ManifestFailed
    && s.sys.now == 0 && s.vectors == map[]
  }

  function JobIn(status: JobStatus, owner: Owner): Jobs {
    map[0 := JobRow(0, status, InStatus(status), false, GraphPending, Some(owner), Some(100), true, 0)]
  }

  // Chunk C fails, and so does its job.
  lemma Fails() returns (steps: seq<Step>, s: World)
    ensures s == Run(EMPTY, steps) && LateFree(steps) && BothFailed(s)
    ensures s.workers == map[] && s.listed == map[] && s.sys.used == {1} && s.plans.Keys == {1}
    ensures s.sys.tables.jobs == JobIn(Failed, 1)
  {
    hide Advance;
    steps, s := Begin();
    steps, s := ToExtracting(steps, s, 0);
    steps, s := ToClosing(steps, s, 0);
    StepStop(s, 0);
    steps, s := Do(steps, s, Work(0, Go));
    JobFails(s, 1, Importing);
    steps, s := Do(steps, s, Env(OnJobs(Update(0, 1, Failed, GraphPending))));
  }

  lemma JobFails(s: World, owner: Owner, from: JobStatus)
    requires s.sys.tables.jobs == JobIn(from, owner) && s.sys.now == 0
    ensures Advance(s, Env(OnJobs(Update(0, owner, Failed, GraphPending)))) ==
              s.(sys := s.sys.(tables := s.sys.tables.(jobs := JobIn(Failed, owner))))
  {
  }

  lemma JobRetried(s: World, owner: Owner, next: Owner)
    requires s.sys.tables.jobs == JobIn(Failed, owner) && s.sys.now == 0 && next !in s.sys.used
    ensures Advance(s, Env(OnJobs(Retry(0, next, 100, 1)))) ==
              s.(sys := s.sys.(tables := s.sys.tables.(jobs := JobIn(Queued, next)), used := s.sys.used + {next}))
  {
    assert ActiveJobs(s.sys.tables.jobs, 0) == {};
  }

  // One retry request lists the failed chunk; before it takes the lease another one takes it and starts over.
  lemma RetriedTwice() returns (steps: seq<Step>, s: World)
    ensures s == Run(EMPTY, steps) && LateFree(steps) && BothFailed(s)
    ensures s.workers == map[1 := Worker(3, C, Ensuring, 0, false)] && s.listed == map[2 := {C}]
    ensures s.sys.used == {1, 3} && s.sys.tables.jobs == JobIn(Queued, 3)
  {
    steps, s := Fails();
    steps, s := Do(steps, s, List(2, 0));
    assert s.listed[2] == {C};
    JobRetried(s, 1, 3);
    hide Next;
    steps, s := Do(steps, s, Env(OnJobs(Retry(0, 3, 100, 1))));
    steps, s := Do(steps, s, Load(3, 0, map[]));
    steps, s := Do(steps, s, Start(1, 3, C));
  }

  /** The situation of `PromiseBrokenIff` does come up: the first request now resets a succeeded row. */
  lemma StaleResetHappens() returns (steps: seq<Step>, s: World)
    ensures s == Run(EMPTY, steps) && LateFree(steps) && SucceededIn(s, C) && ResetsRow(s, Reset(2, C), C)
  {
    hide Advance;
    steps, s := RetriedTwice();
    steps, s := ToExtracting(steps, s, 1);
    steps, s := ToSuccess(steps, s, 1);
    JobFails(s, 3, Queued);
    steps, s := Do(steps, s, Env(OnJobs(Update(0, 3, Failed, GraphPending))));
    JobRetried(s, 3, 2);
    steps, s := Do(steps, s, Env(OnJobs(Retry(0, 2, 100, 1))));
  }
}
