/** The crash-safety statements about whole runs of the commit protocol. */
module CommitTheorems {
  import opened Wrappers
  import opened ImportTables
  import opened Fencing
  import opened CommitProtocol
  import opened CommitSafety
  import opened CommitSteps

  lemma EnvKeeps(s: World, op: SystemOp)
    requires Inv(s) && !op.OnTables?
    ensures Inv(s.(sys := Next(s.sys, op)))
  {
    var s' := s.(sys := Next(s.sys, op));
    StepKeepsOwnersUsed(s.sys, op);
    assert s'.sys.tables == s.sys.tables.(jobs := s'.sys.tables.jobs);
    forall i | i in s'.workers ensures WorkerOk(s', s'.workers[i]) {
      assert WorkerOk(s, s.workers[i]);
      StepNeverRevives(s.sys, op, s.workers[i].chunk.job, s.workers[i].owner);
    }
    forall o, k | o in s'.plans && k in s'.plans[o].skip && Active(s'.sys, s'.plans[o].job, o)
      ensures NotSucceeded(s', ChunkId(s'.plans[o].project, s'.plans[o].job, k))
    {
      StepNeverRevives(s.sys, op, s.plans[o].job, o);
      assert NotSucceeded(s, ChunkId(s.plans[o].project, s.plans[o].job, k));
    }
    forall c | c in s'.sys.tables.chunks && s'.sys.tables.chunks[c].status == ChunkSucceeded ensures Agrees(s', c) {
      assert Agrees(s, c);
    }
  }

  // What a run decides to skip is not succeeded: a succeeded chunk's manifest belongs to its own job.
  lemma LoadKeeps(s: World, owner: Owner, job: JobId, skip: map<Key, bool>)
    requires Inv(s) && CanLoad(s, owner, job, skip)
    ensures Inv(s.(plans := s.plans[owner := Plan(s.sys.tables.jobs[job].project, job, skip)]))
  {
    var s' := s.(plans := s.plans[owner := Plan(s.sys.tables.jobs[job].project, job, skip)]);
    forall k | k in skip ensures NotSucceeded(s, ChunkId(s.sys.tables.jobs[job].project, job, k)) {
      var c := ChunkId(s.sys.tables.jobs[job].project, job, k);
      assert MaySkip(s.sys.tables, c, skip[k]);
      assert c in s.sys.tables.chunks && s.sys.tables.chunks[c].status == ChunkSucceeded ==> Agrees(s, c);
    }
    forall o, k | o in s'.plans && k in s'.plans[o].skip && Active(s'.sys, s'.plans[o].job, o)
      ensures NotSucceeded(s', ChunkId(s'.plans[o].project, s'.plans[o].job, k))
    {
      assert o != owner ==> NotSucceeded(s, ChunkId(s.plans[o].project, s.plans[o].job, k));
    }
    forall i | i in s'.workers ensures WorkerOk(s', s'.workers[i]) {
      assert WorkerOk(s, s.workers[i]);
    }
    forall c | c in s'.sys.tables.chunks && s'.sys.tables.chunks[c].status == ChunkSucceeded ensures Agrees(s', c) {
      assert Agrees(s, c);
    }
  }

  // What a run decided to skip when it started is not succeeded while it owns the job.
  lemma StartedOk(s: World, owner: Owner, c: ChunkId)
    requires Inv(s) && owner in s.plans && c.project == s.plans[owner].project && c.job == s.plans[owner].job
    ensures var skip := s.plans[owner].skip;
            WorkerOk(s, Worker(owner, c, if c.key in skip then SkipEnsuring(skip[c.key]) else Ensuring, 0, false))
  {
    if c.key in s.plans[owner].skip && Active(s.sys, c.job, owner) {
      assert NotSucceeded(s, ChunkId(s.plans[owner].project, s.plans[owner].job, c.key));
    }
  }

  // What a worker relies on says nothing about other workers.
  lemma AloneOk(s: World, workers: map<nat, Worker>, w: Worker)
    requires WorkerOk(s, w)
    ensures WorkerOk(s.(workers := workers), w)
  {
  }

  lemma StartKeeps(s: World, id: nat, owner: Owner, c: ChunkId)
    requires Inv(s)
    ensures Inv(Advance(s, Start(id, owner, c)))
  {
    hide WorkerOk;
    if CanStart(s, id, owner, c) {
      var s' := Advance(s, Start(id, owner, c));
      StartedOk(s, owner, c);
      forall i | i in s'.workers ensures WorkerOk(s', s'.workers[i]) {
        AloneOk(s, s'.workers, s'.workers[i]);
      }
      forall d | d in s'.sys.tables.chunks && s'.sys.tables.chunks[d].status == ChunkSucceeded ensures Agrees(s', d) {
        assert Agrees(s, d);
      }
    }
  }

  /** Every step except an error raised after the success commit keeps the invariant. */
  lemma StepKeeps(s: World, step: Step)
    requires Inv(s) && !step.LateError?
    ensures Inv(Advance(s, step))
  {
    match step
    case Env(op) => if !op.OnTables? { EnvKeeps(s, op); }
    case Load(owner, job, skip) => if CanLoad(s, owner, job, skip) { LoadKeeps(s, owner, job, skip); }
    case List(owner, job) => ListKeeps(s, owner, job);
    case Reset(owner, c) =>
      if c in s.sys.tables.chunks {
        ChunkWriteKeeps(s, c, s.sys.tables.chunks[c].(status := Pending));
      }
    case Start(id, owner, c) => StartKeeps(s, id, owner, c);
    case Work(id, choice) => if id in s.workers { WorkKeeps(s, id, choice); }
    case Crash(id) => DropWorker(s, id);
  }

  lemma ListKeeps(s: World, owner: Owner, job: JobId)
    requires Inv(s)
    ensures Inv(Advance(s, List(owner, job)))
  {
    var s' := Advance(s, List(owner, job));
    forall i | i in s'.workers ensures WorkerOk(s', s'.workers[i]) {
      assert WorkerOk(s, s.workers[i]);
    }
    forall d | d in s'.sys.tables.chunks && s'.sys.tables.chunks[d].status == ChunkSucceeded ensures Agrees(s', d) {
      assert Agrees(s, d);
    }
  }

  predicate LateFree(steps: seq<Step>) {
    forall i :: 0 <= i < |steps| ==> !steps[i].LateError?
  }

  /** What the import promises about a chunk it reports as succeeded. */
  predicate Durable(s: World, c: ChunkId)
    requires c in s.sys.tables.chunks
  {
    var k, ids := ManifestOf(c), s.sys.tables.chunks[c].memoryIds;
    && k in s.sys.tables.manifests
    && s.sys.tables.manifests[k].status == Succeeded
    && s.sys.tables.manifests[k].chunk == c
    && s.sys.tables.manifests[k].memoryIds == ids
    && (forall i :: i in ids ==> i in s.vectors && s.vectors[i] == k)
    && (forall i :: i in ids ==> GraphKey(c, i) in s.sys.tables.graph)
  }

  /****** permanence ******/

  function Row(s: World, c: ChunkId): Option<ChunkRow> {
    if c in s.sys.tables.chunks then Some(s.sys.tables.chunks[c]) else None
  }

  // A worker only ever writes its own chunk row, and only under a live lease.

  lemma ClaimKeepsRows(s: World, id: nat, choice: Choice, c: ChunkId)
    requires id in s.workers && c in s.sys.tables.chunks && (c != s.workers[id].chunk || !Act(s, s.workers[id]))
    requires var pc := s.workers[id].pc; pc.Ensuring? || pc.Claiming? || pc.Peeking? || pc.Reclaiming? || pc.ReclaimingHashes? || pc.ClaimingAgain?
    ensures Row(DoClaim(s, id, choice), c) == Row(s, c)
  {
    hide UpsertChunk, ClaimManifest, MarkManifest, ReleaseHashes, ClaimThen, HoldClaim, BusyThen, RowsOf, With, Move, WriteThen;
  }

  lemma StoreKeepsRows(s: World, id: nat, choice: Choice, c: ChunkId)
    requires id in s.workers && c in s.sys.tables.chunks && (c != s.workers[id].chunk || !Act(s, s.workers[id]))
    requires var pc := s.workers[id].pc; pc.Beginning? || pc.Storing? || pc.Extracting? || pc.Inserting?
    ensures Row(DoStore(s, id, choice), c) == Row(s, c)
  {
    hide UpdateChunk, ClaimHash, RowsOf, With, Move, WriteThen;
  }

  lemma FinishKeepsRows(s: World, id: nat, choice: Choice, c: ChunkId)
    requires id in s.workers && c in s.sys.tables.chunks && (c != s.workers[id].chunk || !Act(s, s.workers[id]))
    requires var pc := s.workers[id].pc; pc.Settling? || pc.Queueing? || pc.Marking? || pc.Recording? || pc.Resuming? || pc.Reporting?
    ensures Row(DoFinish(s, id, choice), c) == Row(s, c)
  {
    hide MarkHashes, AddGraphItems, MarkManifest, UpdateChunk, With, Move, WriteThen;
  }

  lemma UndoKeepsRows(s: World, id: nat, choice: Choice, c: ChunkId)
    requires id in s.workers && c in s.sys.tables.chunks && (c != s.workers[id].chunk || !Act(s, s.workers[id]))
    requires var pc := s.workers[id].pc; pc.Unclaiming? || pc.Handling? || pc.Undoing? || pc.UndoingHashes? || pc.Closing?
    ensures Row(DoUndo(s, id, choice), c) == Row(s, c)
  {
    hide ReleaseHashes, MarkManifest, UpdateChunk, With, Move, WriteThen;
  }

  lemma SkipKeepsRows(s: World, id: nat, c: ChunkId)
    requires id in s.workers && c in s.sys.tables.chunks && (c != s.workers[id].chunk || !Act(s, s.workers[id]))
    requires var pc := s.workers[id].pc; pc.SkipEnsuring? || pc.SkipHashes? || pc.SkipLooking? || pc.SkipClaiming? || pc.SkipMarking?
    ensures Row(DoSkip(s, id), c) == Row(s, c)
  {
    hide ReleaseHashes, MarkManifest, UpsertChunk, ClaimManifest, With, Move, WriteThen;
  }

  lemma WorkKeepsRows(s: World, id: nat, choice: Choice, c: ChunkId)
    requires id in s.workers && c in s.sys.tables.chunks && (c != s.workers[id].chunk || !Act(s, s.workers[id]))
    ensures Row(DoWork(s, id, choice), c) == Row(s, c)
  {
    hide DoClaim, DoStore, DoFinish, DoUndo, DoSkip, Act, Row;
    var pc := s.workers[id].pc;
    if pc.Ensuring? || pc.Claiming? || pc.Peeking? || pc.Reclaiming? || pc.ReclaimingHashes? || pc.ClaimingAgain? {
      ClaimKeepsRows(s, id, choice, c);
    } else if pc.Beginning? || pc.Storing? || pc.Extracting? || pc.Inserting? {
      StoreKeepsRows(s, id, choice, c);
    } else if pc.Settling? || pc.Queueing? || pc.Marking? || pc.Recording? || pc.Resuming? || pc.Reporting? {
      FinishKeepsRows(s, id, choice, c);
    } else if pc.Unclaiming? || pc.Handling? || pc.Undoing? || pc.UndoingHashes? || pc.Closing? {
      UndoKeepsRows(s, id, choice, c);
    } else {
      SkipKeepsRows(s, id, c);
    }
  }

  lemma ClaimCommitsNothing(s: World, id: nat, choice: Choice)
    requires id in s.workers
    ensures DoClaim(s, id, choice).committed == s.committed
  {
    hide UpsertChunk, ClaimManifest, MarkManifest, ReleaseHashes, ClaimThen, HoldClaim, BusyThen, RowsOf, With, Move, WriteThen;
  }

  lemma OthersCommitNothing(s: World, id: nat, choice: Choice)
    requires id in s.workers
    ensures DoStore(s, id, choice).committed == s.committed
    ensures DoUndo(s, id, choice).committed == s.committed
    ensures DoSkip(s, id).committed == s.committed
  {
    hide UpsertChunk, UpdateChunk, ClaimManifest, MarkManifest, ReleaseHashes, ClaimHash, With, Move, WriteThen;
  }

  // Committing a key again records the row it already has.
  lemma CommitAgain(s: World, t: Tables, key: ManifestKey, k: ManifestKey)
    requires CommittedOk(s) && t.manifests == s.sys.tables.manifests && k in s.committed
    ensures k in Commit(With(s, t), key).committed && Commit(With(s, t), key).committed[k] == s.committed[k]
  {
    assert s.sys.tables.manifests[k] == s.committed[k];
  }

  lemma FinishKeepsCommitted(s: World, id: nat, choice: Choice, k: ManifestKey)
    requires CommittedOk(s) && id in s.workers && k in s.committed
    ensures k in DoFinish(s, id, choice).committed && DoFinish(s, id, choice).committed[k] == s.committed[k]
  {
    hide CommittedOk, MarkHashes, AddGraphItems, MarkManifest, UpdateChunk, With, Move, WriteThen, Commit;
    var w := s.workers[id];
    if w.pc.Recording? || w.pc.Resuming? {
      var r := UpdateChunk(s.sys.tables, w.chunk, ChunkSucceeded, Some(w.pc.ids), w.owner, s.sys.now);
      if r.Done? {
        CommitAgain(s, r.tables, ManifestOf(w.chunk), k);
      }
    }
  }

  lemma WorkKeepsCommitted(s: World, id: nat, choice: Choice, k: ManifestKey)
    requires Inv(s) && id in s.workers && k in s.committed
    ensures k in DoWork(s, id, choice).committed && DoWork(s, id, choice).committed[k] == s.committed[k]
  {
    FinishKeepsCommitted(s, id, choice, k);
    hide Inv, DoClaim, DoStore, DoFinish, DoUndo, DoSkip;
    ClaimCommitsNothing(s, id, choice);
    OthersCommitNothing(s, id, choice);
  }

  // What was committed once is committed under the same row after any step.
  lemma StepKeepsCommitted(s: World, step: Step, k: ManifestKey)
    requires Inv(s) && k in s.committed
    ensures k in Advance(s, step).committed && Advance(s, step).committed[k] == s.committed[k]
  {
    hide Inv, DoWork, Next;
    if step.Work? && step.id in s.workers {
      WorkKeepsCommitted(s, step.id, step.choice, k);
    }
  }

  lemma {:induction false} RunConcat(s: World, a: seq<Step>, b: seq<Step>)
    ensures Run(s, a + b) == Run(Run(s, a), b)
    decreases |a|
  {
    if a == [] {
      assert a + b == b;
    } else {
      assert (a + b)[0] == a[0] && (a + b)[1..] == a[1..] + b;
      RunConcat(Advance(s, a[0]), a[1..], b);
    }
  }

  /****** when a succeeded row can lose its success ******/

  // The reset of the retry endpoint: its list of failed chunks is read before the retry lease is taken.
  predicate ResetsRow(s: World, step: Step, c: ChunkId) {
    step.Reset? && step.c == c && step.owner in s.listed && c in s.listed[step.owner] && Active(s.sys, c.job, step.owner)
  }

  // Upserting a succeeded row leaves it alone.
  lemma EnsureKeepsSuccess(s: World, id: nat, choice: Choice)
    requires id in s.workers && s.workers[id].pc.Ensuring?
    ensures var c, t, t' := s.workers[id].chunk, s.sys.tables, DoClaim(s, id, choice).sys.tables;
            c in t.chunks && t.chunks[c].status == ChunkSucceeded ==> t'.chunks == t.chunks
  {
  }

  lemma ReportKeepsTables(s: World, id: nat, choice: Choice)
    requires id in s.workers && s.workers[id].pc.Reporting?
    ensures DoFinish(s, id, choice).sys == s.sys
  {
  }

  lemma WorkKeepsSuccess(s: World, id: nat, choice: Choice, c: ChunkId)
    requires Inv(s) && id in s.workers && c in s.sys.tables.chunks && s.sys.tables.chunks[c].status == ChunkSucceeded
    ensures var t := DoWork(s, id, choice).sys.tables; c in t.chunks && t.chunks[c].status == ChunkSucceeded
  {
    hide Inv, InvBut, DoClaim, DoStore, DoFinish, DoUndo, DoSkip;
    FromInv(s, id);
    var w := s.workers[id];
    if w.chunk != c || !Act(s, w) {
      WorkKeepsRows(s, id, choice, c);
    } else if w.pc.Ensuring? {
      EnsureKeepsSuccess(s, id, choice);
    } else {
      assert w.pc.Reporting?;
      ReportKeepsTables(s, id, choice);
    }
  }

  lemma EnvKeepsRows(s: System, op: SystemOp)
    requires !op.OnTables?
    ensures Next(s, op).tables.chunks == s.tables.chunks
  {
    hide ApplyJobOp;
  }

  lemma ResetLosesSuccess(s: World, owner: Owner, d: ChunkId, c: ChunkId)
    requires c in s.sys.tables.chunks && s.sys.tables.chunks[c].status == ChunkSucceeded
    ensures var t' := Advance(s, Reset(owner, d)).sys.tables;
            !(c in t'.chunks && t'.chunks[c].status == ChunkSucceeded) <==> ResetsRow(s, Reset(owner, d), c)
  {
    hide DoWork, Next, CanLoad, CanStart, FailedChunks;
  }

  lemma StepKeepsSuccess(s: World, step: Step, c: ChunkId)
    requires Inv(s) && c in s.sys.tables.chunks && s.sys.tables.chunks[c].status == ChunkSucceeded
    ensures var t' := Advance(s, step).sys.tables;
            !(c in t'.chunks && t'.chunks[c].status == ChunkSucceeded) <==> ResetsRow(s, step, c)
  {
    hide Inv, DoWork, Next;
    match step
    case Env(op) => if !op.OnTables? { EnvKeepsRows(s.sys, op); }
    case Work(id, choice) => if id in s.workers { WorkKeepsSuccess(s, id, choice, c); }
    case Reset(owner, d) =>
      hide Advance;
      ResetLosesSuccess(s, owner, d, c);
    case _ =>
  }

}
