/** What the commit protocol keeps, over every interleaving, crash and takeover. */
module CommitSafety {
  import opened Wrappers
  import opened ImportTables
  import opened Fencing
  import opened CommitProtocol

  /****** the invariant, part by part ******/

  predicate Act(s: World, w: Worker) {
    Active(s.sys, w.chunk.job, w.owner)
  }

  predicate NotSucceeded(s: World, c: ChunkId) {
    c in s.sys.tables.chunks ==> s.sys.tables.chunks[c].status != ChunkSucceeded
  }

  predicate AllBacked(s: World, c: ChunkId, ids: seq<MemoryId>) {
    forall i :: i in ids ==> i in s.vectors && s.vectors[i] == ManifestOf(c)
  }

  predicate AllQueued(s: World, c: ChunkId, ids: seq<MemoryId>) {
    forall i :: i in ids ==> GraphKey(c, i) in s.sys.tables.graph
  }

  // The states of a worker that was told to skip its chunk
  predicate SkipPc(pc: Pc) {
    || pc.SkipEnsuring? || pc.SkipHashes? || pc.SkipLooking? || pc.SkipClaiming? || pc.SkipMarking?
    || (pc.Closing? && pc.next == Stop)
  }

  // The states between a successful claim and the worker's own mark
  predicate HoldsClaim(pc: Pc) {
    || pc.Peeking? || pc.Reclaiming? || pc.Beginning? || pc.Storing? || pc.Extracting? || pc.Inserting?
    || pc.Settling? || pc.Queueing? || pc.Marking? || pc.Unclaiming? || pc.Handling?
    || (pc.Closing? && pc.next == TryAgain)
  }

  predicate PlanOk(s: World, w: Worker) {
    && w.owner in s.plans
    && w.chunk.job == s.plans[w.owner].job && w.chunk.project == s.plans[w.owner].project
    && (w.chunk.key in s.plans[w.owner].skip ==> SkipPc(w.pc))
    && (w.pc.Closing? ==> w.pc.status != ChunkSucceeded)
    && (w.pc.Undoing? ==> w.pc.mark != Succeeded)
  }

  predicate RowsOk(s: World, w: Worker) {
    && (!w.pc.Ensuring? && !w.pc.SkipEnsuring? ==> w.chunk in s.sys.tables.chunks)
    && (w.pc.Settling? || w.pc.Queueing? || w.pc.Marking? ==> AllBacked(s, w.chunk, w.pc.ids))
    && (w.pc.Marking? ==> AllQueued(s, w.chunk, w.pc.ids))
  }

  predicate HasManifest(s: World, w: Worker) {
    var k, ms := ManifestOf(w.chunk), s.sys.tables.manifests;
    k in ms && ms[k].chunk == w.chunk && ms[k].status in {Claimed, Succeeded}
  }

  predicate HasFinished(s: World, w: Worker, ids: seq<MemoryId>) {
    var k, ms := ManifestOf(w.chunk), s.sys.tables.manifests;
    k in ms && ms[k].chunk == w.chunk && ms[k].status == Succeeded && ms[k].memoryIds == ids
  }

  /** What a worker with a live lease may rely on. */
  predicate OwnOk(s: World, w: Worker) {
    var k, ms := ManifestOf(w.chunk), s.sys.tables.manifests;
    && (!w.pc.Ensuring? && !w.pc.Reporting? ==> NotSucceeded(s, w.chunk))
    && (HoldsClaim(w.pc) ==> HasManifest(s, w) && k !in s.committed)
    && (w.pc.Recording? ==> HasFinished(s, w, w.pc.ids) && k !in s.committed)
    && (w.pc.Resuming? ==> HasFinished(s, w, w.pc.ids))
    && ((w.pc.Undoing? || w.pc.SkipMarking?) && k in ms && ms[k].chunk.job == w.chunk.job ==> k !in s.committed)
  }

  predicate WorkerOk(s: World, w: Worker) {
    PlanOk(s, w) && RowsOk(s, w) && (Act(s, w) ==> OwnOk(s, w))
  }

  predicate OwnersOk(s: World) {
    OwnersUsed(s.sys) && s.plans.Keys <= s.sys.used
  }

  predicate Unique(s: World) {
    forall i, j :: i in s.workers && j in s.workers && i != j ==>
                     s.workers[i].owner != s.workers[j].owner || s.workers[i].chunk != s.workers[j].chunk
  }

  // While the run that planned to skip a key owns the job, that chunk row is not succeeded.
  predicate SkipFresh(s: World) {
    forall o, k :: o in s.plans && k in s.plans[o].skip && Active(s.sys, s.plans[o].job, o) ==>
                     NotSucceeded(s, ChunkId(s.plans[o].project, s.plans[o].job, k))
  }

  predicate ManifestsOk(s: World) {
    forall k :: k in s.sys.tables.manifests ==> ManifestOf(s.sys.tables.manifests[k].chunk) == k
  }

  // A succeeded manifest lists stored vector rows, each with its graph item.
  predicate Backed(s: World) {
    forall k :: k in s.sys.tables.manifests && s.sys.tables.manifests[k].status == Succeeded ==>
                  && AllBacked(s, s.sys.tables.manifests[k].chunk, s.sys.tables.manifests[k].memoryIds)
                  && AllQueued(s, s.sys.tables.manifests[k].chunk, s.sys.tables.manifests[k].memoryIds)
  }

  predicate CommittedOk(s: World) {
    forall k :: k in s.committed ==>
                  k in s.sys.tables.manifests && s.sys.tables.manifests[k] == s.committed[k] && s.committed[k].status == Succeeded
  }

  predicate Agrees(s: World, c: ChunkId)
    requires c in s.sys.tables.chunks
  {
    && ManifestOf(c) in s.committed
    && s.committed[ManifestOf(c)].chunk == c
    && s.committed[ManifestOf(c)].memoryIds == s.sys.tables.chunks[c].memoryIds
  }

  predicate Agree(s: World) {
    forall c :: c in s.sys.tables.chunks && s.sys.tables.chunks[c].status == ChunkSucceeded ==> Agrees(s, c)
  }

  predicate TablesOk(s: World) {
    OwnersOk(s) && Unique(s) && SkipFresh(s) && ManifestsOk(s) && Backed(s) && CommittedOk(s) && Agree(s)
  }

  // Everything but what worker `id` relies on
  predicate InvBut(s: World, id: nat) {
    TablesOk(s) && forall i :: i in s.workers && i != id ==> WorkerOk(s, s.workers[i])
  }

  predicate Inv(s: World) {
    TablesOk(s) && forall i :: i in s.workers ==> WorkerOk(s, s.workers[i])
  }

  /****** moves ******/

  lemma ReplaceWorker(s: World, id: nat, w: Worker)
    requires InvBut(s, id) && id in s.workers
    requires w.owner == s.workers[id].owner && w.chunk == s.workers[id].chunk && WorkerOk(s, w)
    ensures Inv(s.(workers := s.workers[id := w]))
  {
    var s' := s.(workers := s.workers[id := w]);
    forall i | i in s'.workers ensures WorkerOk(s', s'.workers[i]) {
      assert i != id ==> WorkerOk(s, s.workers[i]);
    }
  }

  lemma DropWorker(s: World, id: nat)
    requires InvBut(s, id)
    ensures Inv(Halt(s, id))
  {
    var s' := Halt(s, id);
    forall i | i in s'.workers ensures WorkerOk(s', s'.workers[i]) {
      assert WorkerOk(s, s.workers[i]);
    }
  }

  /****** writes ******/

  // Another live worker on the same job shares the owner, so it works on another chunk.
  lemma OnlyOne(s: World, i: nat, j: nat)
    requires Unique(s) && i in s.workers && j in s.workers && i != j
    requires Act(s, s.workers[i]) && Act(s, s.workers[j])
    requires s.workers[i].chunk.job == s.workers[j].chunk.job
    ensures s.workers[i].chunk != s.workers[j].chunk
  {
  }

  // `s'` differs from `s` in tables, vectors and the committed history only, and takes nothing away.
  predicate Frame(s: World, s': World) {
    && s'.plans == s.plans && s'.workers == s.workers && s'.listed == s.listed
    && s'.sys.now == s.sys.now && s'.sys.used == s.sys.used
    && SameLeases(s.sys.tables.jobs, s'.sys.tables.jobs)
    && (forall i :: i in s.vectors ==> i in s'.vectors && s'.vectors[i] == s.vectors[i])
    && (forall g :: g in s.sys.tables.graph ==> g in s'.sys.tables.graph)
    && (forall c :: c in s.sys.tables.chunks ==> c in s'.sys.tables.chunks)
  }

  predicate SameLeases(jobs: Jobs, jobs': Jobs) {
    && jobs'.Keys == jobs.Keys
    && forall j :: j in jobs ==> jobs'[j].leaseOwner == jobs[j].leaseOwner && jobs'[j].leaseExpires == jobs[j].leaseExpires
  }

  lemma SameActive(jobs: Jobs, jobs': Jobs, job: JobId, owner: Owner, now: Time)
    requires SameLeases(jobs, jobs')
    ensures LeaseActive(jobs', job, owner, now) == LeaseActive(jobs, job, owner, now)
  {
  }

  // A worker whose own manifest key was not touched keeps what it relies on.
  lemma UntouchedWorker(s: World, s': World, w: Worker)
    requires Frame(s, s') && WorkerOk(s, w)
    requires Act(s, w) && NotSucceeded(s, w.chunk) ==> NotSucceeded(s', w.chunk)
    requires var k := ManifestOf(w.chunk);
             && (k in s.sys.tables.manifests <==> k in s'.sys.tables.manifests)
             && (k in s.sys.tables.manifests ==> s'.sys.tables.manifests[k] == s.sys.tables.manifests[k])
             && (k in s'.committed ==> k in s.committed)
    ensures WorkerOk(s', w)
  {
    SameActive(s.sys.tables.jobs, s'.sys.tables.jobs, w.chunk.job, w.owner, s.sys.now);
  }

  // A worker of another job sees its manifest change only when it holds no claim on it.
  lemma ForeignWorker(s: World, s': World, w: Worker)
    requires Frame(s, s') && WorkerOk(s, w)
    requires Act(s, w) && NotSucceeded(s, w.chunk) ==> NotSucceeded(s', w.chunk)
    requires !HoldsClaim(w.pc) && !w.pc.Recording? && !w.pc.Resuming?
    requires var k := ManifestOf(w.chunk);
             k in s'.sys.tables.manifests && s'.sys.tables.manifests[k].chunk.job == w.chunk.job ==> k !in s'.committed
    ensures WorkerOk(s', w)
  {
    SameActive(s.sys.tables.jobs, s'.sys.tables.jobs, w.chunk.job, w.owner, s.sys.now);
  }

  lemma HashWriteKeeps(s: World, hashes: map<HashKey, HashRow>)
    requires Inv(s)
    ensures Inv(With(s, s.sys.tables.(hashes := hashes)))
  {
    var s' := With(s, s.sys.tables.(hashes := hashes));
    forall i | i in s'.workers ensures WorkerOk(s', s'.workers[i]) {
      UntouchedWorker(s, s', s.workers[i]);
    }
  }

  // Any chunk row may lose its success without breaking what the manifests promise.
  lemma ChunkWriteKeeps(s: World, c: ChunkId, row: ChunkRow)
    requires Inv(s) && row.status != ChunkSucceeded
    ensures Inv(With(s, s.sys.tables.(chunks := s.sys.tables.chunks[c := row])))
  {
    var s' := With(s, s.sys.tables.(chunks := s.sys.tables.chunks[c := row]));
    forall i | i in s'.workers ensures WorkerOk(s', s'.workers[i]) {
      UntouchedWorker(s, s', s.workers[i]);
    }
    forall d | d in s'.sys.tables.chunks && s'.sys.tables.chunks[d].status == ChunkSucceeded ensures Agrees(s', d) {
      assert Agrees(s, d);
    }
  }

  lemma GraphWriteKeeps(s: World, graph: map<GraphKey, GraphStatus>, jobs: Jobs)
    requires Inv(s) && SameLeases(s.sys.tables.jobs, jobs)
    requires forall g :: g in s.sys.tables.graph ==> g in graph
    ensures Inv(With(s, s.sys.tables.(graph := graph, jobs := jobs)))
  {
    var s' := With(s, s.sys.tables.(graph := graph, jobs := jobs));
    forall i | i in s'.workers ensures WorkerOk(s', s'.workers[i]) {
      UntouchedWorker(s, s', s.workers[i]);
    }
    forall o, k | o in s'.plans && k in s'.plans[o].skip && Active(s'.sys, s'.plans[o].job, o)
      ensures NotSucceeded(s', ChunkId(s'.plans[o].project, s'.plans[o].job, k))
    {
      SameActive(s.sys.tables.jobs, jobs, s.plans[o].job, o, s.sys.now);
    }
    forall c | c in s'.sys.tables.chunks && s'.sys.tables.chunks[c].status == ChunkSucceeded ensures Agrees(s', c) {
      assert Agrees(s, c);
    }
  }

  lemma VectorWriteKeeps(s: World, vectors: map<MemoryId, ManifestKey>)
    requires Inv(s)
    requires forall i :: i in s.vectors ==> i in vectors && vectors[i] == s.vectors[i]
    ensures Inv(s.(vectors := vectors))
  {
    var s' := s.(vectors := vectors);
    forall i | i in s'.workers ensures WorkerOk(s', s'.workers[i]) {
      UntouchedWorker(s, s', s.workers[i]);
    }
    forall c | c in s'.sys.tables.chunks && s'.sys.tables.chunks[c].status == ChunkSucceeded ensures Agrees(s', c) {
      assert Agrees(s, c);
    }
  }

  // The new row of a manifest that was free, or an old released split upgraded to a split
  predicate ClaimRow(s: World, w: Worker, row: ManifestRow) {
    var k, ms := ManifestOf(w.chunk), s.sys.tables.manifests;
    || ((k in ms ==> Reclaimable(ms[k].status)) && row.chunk == w.chunk && row.status == Claimed)
    || (k in ms && ms[k].status == Released && row == ms[k].(status := Split))
  }

  lemma ClaimWriteKeeps(s: World, id: nat, row: ManifestRow)
    requires Inv(s) && id in s.workers && Act(s, s.workers[id]) && ClaimRow(s, s.workers[id], row)
    ensures InvBut(With(s, s.sys.tables.(manifests := s.sys.tables.manifests[ManifestOf(s.workers[id].chunk) := row])), id)
  {
    var w := s.workers[id];
    var k := ManifestOf(w.chunk);
    var s' := With(s, s.sys.tables.(manifests := s.sys.tables.manifests[k := row]));
    assert k !in s.committed;
    forall i | i in s'.workers && i != id ensures WorkerOk(s', s'.workers[i]) {
      OtherWorkerAfter(s, s', id, i, row);
    }
    forall c | c in s'.sys.tables.chunks && s'.sys.tables.chunks[c].status == ChunkSucceeded ensures Agrees(s', c) {
      assert Agrees(s, c);
    }
  }

  lemma OtherWorkerAfter(s: World, s': World, id: nat, i: nat, row: ManifestRow)
    requires Inv(s) && id in s.workers && i in s.workers && i != id && Act(s, s.workers[id])
    requires var w := s.workers[id];
             var k, ms := ManifestOf(w.chunk), s.sys.tables.manifests;
             && s' == With(s, s.sys.tables.(manifests := ms[k := row]))
             && k !in s.committed
             && (ClaimRow(s, w, row) || (k in ms && ms[k].chunk.job == w.chunk.job && row.chunk == ms[k].chunk))
    ensures WorkerOk(s', s.workers[i])
  {
    var w, v := s.workers[id], s.workers[i];
    assert WorkerOk(s, v) && Unique(s);
    hide Inv, Unique;
    if ManifestOf(v.chunk) != ManifestOf(w.chunk) || !Act(s, v) {
      if ManifestOf(v.chunk) != ManifestOf(w.chunk) {
        UntouchedWorker(s, s', v);
      }
    } else {
      if v.chunk.job == w.chunk.job {
        OnlyOne(s, i, id);
      }
      ForeignWorker(s, s', v);
    }
  }

  // Marking touches the worker's own, uncommitted manifest.
  lemma MarkWriteKeeps(s: World, id: nat, row: ManifestRow)
    requires Inv(s) && id in s.workers && Act(s, s.workers[id])
    requires var k, ms := ManifestOf(s.workers[id].chunk), s.sys.tables.manifests;
             k in ms && ms[k].chunk.job == s.workers[id].chunk.job && k !in s.committed && row.chunk == ms[k].chunk
    requires row.status == Succeeded ==> AllBacked(s, row.chunk, row.memoryIds) && AllQueued(s, row.chunk, row.memoryIds)
    ensures InvBut(With(s, s.sys.tables.(manifests := s.sys.tables.manifests[ManifestOf(s.workers[id].chunk) := row])), id)
  {
    var w := s.workers[id];
    var k := ManifestOf(w.chunk);
    var s' := With(s, s.sys.tables.(manifests := s.sys.tables.manifests[k := row]));
    forall i | i in s'.workers && i != id ensures WorkerOk(s', s'.workers[i]) {
      OtherWorkerAfter(s, s', id, i, row);
    }
    forall c | c in s'.sys.tables.chunks && s'.sys.tables.chunks[c].status == ChunkSucceeded ensures Agrees(s', c) {
      assert Agrees(s, c);
    }
  }

  function Succeed(s: World, w: Worker, ids: seq<MemoryId>): World {
    Commit(With(s, s.sys.tables.(chunks := s.sys.tables.chunks[w.chunk := ChunkRow(ChunkSucceeded, ids)])), ManifestOf(w.chunk))
  }

  lemma OtherWorkerAfterSuccess(s: World, id: nat, i: nat, ids: seq<MemoryId>)
    requires Inv(s) && id in s.workers && i in s.workers && i != id && Act(s, s.workers[id])
    requires HasManifest(s, s.workers[id])
    ensures WorkerOk(Succeed(s, s.workers[id], ids), s.workers[i])
  {
    var w, v := s.workers[id], s.workers[i];
    var s' := Succeed(s, w, ids);
    assert WorkerOk(s, v);
    if Act(s, v) {
      if v.chunk.job == w.chunk.job {
        OnlyOne(s, i, id);
      }
      if ManifestOf(v.chunk) == ManifestOf(w.chunk) {
        ForeignWorker(s, s', v);
      } else {
        UntouchedWorker(s, s', v);
      }
    }
  }

  // The only write that makes a chunk row succeeded
  lemma SuccessWriteKeeps(s: World, id: nat, ids: seq<MemoryId>)
    requires Inv(s) && id in s.workers && Act(s, s.workers[id])
    requires (s.workers[id].pc.Recording? || s.workers[id].pc.Resuming?) && s.workers[id].pc.ids == ids
    ensures InvBut(Succeed(s, s.workers[id], ids), id)
  {
    var w := s.workers[id];
    assert WorkerOk(s, w);
    var s' := Succeed(s, w, ids);
    forall i | i in s'.workers && i != id ensures WorkerOk(s', s'.workers[i]) {
      OtherWorkerAfterSuccess(s, id, i, ids);
    }
    SkipFreshAfterSuccess(s, s', id);
    forall c | c in s'.sys.tables.chunks && s'.sys.tables.chunks[c].status == ChunkSucceeded ensures Agrees(s', c) {
      assert c != w.chunk ==> Agrees(s, c);
    }
  }

  lemma SkipFreshAfterSuccess(s: World, s': World, id: nat)
    requires TablesOk(s) && id in s.workers && Act(s, s.workers[id]) && PlanOk(s, s.workers[id]) && !SkipPc(s.workers[id].pc)
    requires s'.sys.tables.jobs == s.sys.tables.jobs && s'.sys.now == s.sys.now && s'.plans == s.plans
    requires forall c :: c != s.workers[id].chunk && NotSucceeded(s, c) ==> NotSucceeded(s', c)
    ensures SkipFresh(s')
  {
    forall o, n | o in s'.plans && n in s'.plans[o].skip && Active(s'.sys, s'.plans[o].job, o)
      ensures NotSucceeded(s', ChunkId(s'.plans[o].project, s'.plans[o].job, n))
    {
      assert NotSucceeded(s, ChunkId(s.plans[o].project, s.plans[o].job, n));
    }
  }
}
