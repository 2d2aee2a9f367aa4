/**
What a worker finds of earlier work on its chunk.  Having released the hash claims of the chunk, after a
crash or because it was split, cancelled or superseded, it finds none of them left as long as it keeps its
lease; and vector rows that are stored for its key are taken over before the model is asked again.
 */
module CommitRecovery {
  import opened Wrappers
  import opened ImportTables
  import opened Fencing
  import opened CommitProtocol
  import opened CommitSafety
  import opened CommitMirror
  import opened CommitLate
  import opened CommitPromise

  type Hashes = map<HashKey, HashRow>

  /** The chunk has merely claimed the hash. */
  predicate ClaimedBy(hashes: Hashes, h: HashKey, c: ChunkId) {
    h in hashes && hashes[h].chunk == c && hashes[h].status == HashClaimed
  }

  predicate NoClaims(hashes: Hashes, c: ChunkId) {
    forall h :: h in hashes ==> !ClaimedBy(hashes, h, c)
  }

  // Exactly the claims of chunk `c` among `given` are gone.
  ghost predicate ClaimsDropped(before: Hashes, after: Hashes, c: ChunkId, given: iset<Hash>) {
    && (forall h: HashKey :: h in after <==> h in before && !(ClaimedBy(before, h, c) && h.hash in given))
    && (forall h: HashKey :: h in after ==> after[h] == before[h])
  }

  /****** what the steps do to hash claims ******/

  // The points behind a release of all claims of the chunk, up to the next claim
  predicate Released(pc: Pc) {
    || pc.ClaimingAgain?
    || ((pc.SkipLooking? || pc.SkipClaiming? || pc.SkipMarking?) && pc.superseded)
    || (pc.Closing? && (pc.status == ChunkSplit || pc.status == ChunkCancelled || (pc.status == Skipped && pc.write.Some?)))
  }

  // A step leaves claims alone, drops some, or takes one for the worker's own chunk under a live lease.
  ghost predicate ClaimsFollow(s: World, s': World, w: Worker) {
    var t, t' := s.sys.tables.hashes, s'.sys.tables.hashes;
    forall h: HashKey, c: ChunkId :: ClaimedBy(t', h, c) ==> ClaimedBy(t, h, c) || (c == w.chunk && Act(s, w))
  }

  lemma SameHashes(s: World, s': World, w: Worker)
    requires s'.sys.tables.hashes == s.sys.tables.hashes
    ensures ClaimsFollow(s, s', w)
  {
  }

  lemma ReleaseDrops(t: Tables, c: ChunkId, only: Option<set<Hash>>, owner: Owner, now: Time)
    ensures var r := ReleaseHashes(t, c, only, owner, now);
            r.Done? ==> ClaimsDropped(t.hashes, r.tables.hashes, c, iset h: Hash | only.Some? ==> h in only.value)
  {
  }

  lemma DroppedFollow(s: World, s': World, w: Worker, c: ChunkId, given: iset<Hash>)
    requires ClaimsDropped(s.sys.tables.hashes, s'.sys.tables.hashes, c, given)
    ensures ClaimsFollow(s, s', w)
  {
  }

  // What one step of worker `id` keeps: claims follow, and behind a release there are none.
  ghost predicate WorksClean(s: World, s': World, id: nat)
    requires id in s.workers
  {
    var w := s.workers[id];
    && ClaimsFollow(s, s', w)
    && (id in s'.workers && Released(s'.workers[id].pc) ==>
          NoClaims(s'.sys.tables.hashes, w.chunk)
          || (Released(w.pc) && s'.sys.tables.hashes == s.sys.tables.hashes))
  }

  // Claims and other hash rows stay, and the worker is at no point behind a release.
  predicate Quiet(s: World, s': World, id: nat) {
    s'.sys.tables.hashes == s.sys.tables.hashes && (id in s'.workers ==> !Released(s'.workers[id].pc))
  }

  lemma QuietClean(s: World, s': World, id: nat)
    requires id in s.workers && Quiet(s, s', id)
    ensures WorksClean(s, s', id)
  {
    SameHashes(s, s', s.workers[id]);
  }

  lemma QuietMove(s: World, id: nat, t: Tables, pc: Pc)
    requires id in s.workers && !Released(pc) && t.hashes == s.sys.tables.hashes
    ensures id in With(s, t).workers
    ensures Quiet(s, Move(s, id, pc), id) && Quiet(s, Move(With(s, t), id, pc), id) && Quiet(s, Halt(s, id), id)
    ensures Quiet(s, Halt(With(s, t), id), id)
  {
  }

  lemma QuietThen(s: World, id: nat, r: Fenced, pc: Pc)
    requires id in s.workers && !Released(pc) && (r.Done? ==> r.tables.hashes == s.sys.tables.hashes)
    ensures Quiet(s, WriteThen(s, id, r, pc), id) && Quiet(s, Halt(s, id), id)
  {
  }

  lemma QuietBusy(s: World, id: nat, t: Tables, choice: Choice)
    requires id in s.workers && t.hashes == s.sys.tables.hashes
    ensures Quiet(s, BusyThen(s, id, t, choice), id)
  {
  }

  lemma QuietHold(s: World, id: nat, t: Tables)
    requires id in s.workers && t.hashes == s.sys.tables.hashes && ManifestOf(s.workers[id].chunk) in t.manifests
    ensures Quiet(s, HoldClaim(s, id, t), id)
  {
  }

  lemma QuietClaim(s: World, id: nat, r: Fenced, choice: Choice)
    requires id in s.workers && (r.Done? ==> r.tables.hashes == s.sys.tables.hashes && ManifestOf(s.workers[id].chunk) in r.tables.manifests)
    ensures Quiet(s, ClaimThen(s, id, r, choice), id)
  {
    if r.Done? {
      QuietHold(s, id, r.tables);
      QuietBusy(s, id, r.tables, choice);
      hide HoldClaim, BusyThen;
    }
  }

  // The worker releases all claims of its chunk, and goes on.
  lemma ReleaseClean(s: World, id: nat, only: Option<set<Hash>>, pc: Pc)
    requires id in s.workers && (Released(pc) ==> only.None?)
    ensures var w := s.workers[id];
            var s' := WriteThen(s, id, ReleaseHashes(s.sys.tables, w.chunk, only, w.owner, s.sys.now), pc);
            && WorksClean(s, s', id)
            && (Act(s, w) ==>
                  && id in s'.workers && s'.workers[id].pc == pc
                  && ClaimsDropped(s.sys.tables.hashes, s'.sys.tables.hashes, w.chunk, iset h: Hash | only.Some? ==> h in only.value))
  {
    var w, t := s.workers[id], s.sys.tables;
    var r := ReleaseHashes(t, w.chunk, only, w.owner, s.sys.now);
    ReleaseDrops(t, w.chunk, only, w.owner, s.sys.now);
    assert r.Done? <==> Act(s, w);
    hide ReleaseHashes;
    var s', given := WriteThen(s, id, r, pc), iset h: Hash | only.Some? ==> h in only.value;
    if r.Done? {
      DroppedFollow(s, s', w, w.chunk, given);
    } else {
      SameHashes(s, s', w);
    }
  }

  lemma ClaimClean(s: World, id: nat, choice: Choice)
    requires id in s.workers
    requires var pc := s.workers[id].pc; pc.Ensuring? || pc.Claiming? || pc.Peeking? || pc.Reclaiming? || pc.ClaimingAgain?
    ensures Quiet(s, DoClaim(s, id, choice), id)
  {
    hide Quiet, Move, Halt, WriteThen, ClaimThen, HoldClaim, BusyThen, UpsertChunk, MarkManifest, RowsOf;
    var w := s.workers[id];
    var c, k, t, now := w.chunk, ManifestOf(w.chunk), s.sys.tables, s.sys.now;
    match w.pc
    case Ensuring => QuietThen(s, id, UpsertChunk(t, c, w.owner, now), Claiming);
    case Claiming => QuietClaim(s, id, ClaimManifest(t, c, w.owner, now), choice);
    case Peeking =>
      QuietMove(s, id, t, Reclaiming);
      QuietPeek(s, id);
    case Reclaiming => QuietThen(s, id, MarkManifest(t, c, ManifestStatus.Released, None, w.owner, now), ReclaimingHashes);
    case ClaimingAgain =>
      var r := ClaimManifest(t, c, w.owner, now);
      QuietThen(s, id, r, Claiming);
      if r.Done? {
        QuietBusy(s, id, r.tables, choice);
        QuietHold(s, id, r.tables);
      }
  }

  lemma QuietPeek(s: World, id: nat)
    requires id in s.workers
    ensures Quiet(s, s.(workers := s.workers[id := s.workers[id].(pc := Beginning, attempt := 1, reconcile := true)]), id)
  {
  }

  lemma StoreClean(s: World, id: nat, choice: Choice)
    requires id in s.workers
    requires var pc := s.workers[id].pc; pc.Beginning? || pc.Storing? || pc.Extracting? || pc.Inserting?
    ensures WorksClean(s, DoStore(s, id, choice), id)
  {
    var w := s.workers[id];
    if w.pc.Extracting? && choice.Take? {
      TakeClean(s, id, choice);
    } else {
      StoreQuiet(s, id, choice);
      hide Quiet, DoStore;
      QuietClean(s, DoStore(s, id, choice), id);
    }
  }

  lemma TakeClean(s: World, id: nat, choice: Choice)
    requires id in s.workers && s.workers[id].pc.Extracting? && choice.Take?
    ensures WorksClean(s, DoStore(s, id, choice), id)
  {
    var w := s.workers[id];
    hide ClaimHash;
    TakeFollows(s, DoStore(s, id, choice), w, choice.h);
  }

  lemma StoreQuiet(s: World, id: nat, choice: Choice)
    requires id in s.workers && !(s.workers[id].pc.Extracting? && choice.Take?)
    requires var pc := s.workers[id].pc; pc.Beginning? || pc.Storing? || pc.Extracting? || pc.Inserting?
    ensures Quiet(s, DoStore(s, id, choice), id)
  {
    hide Quiet, Move, Halt, WriteThen, UpdateChunk, RowsOf, LeaseActive, Distinct;
    var w := s.workers[id];
    var c, k, t, now := w.chunk, ManifestOf(w.chunk), s.sys.tables, s.sys.now;
    QuietMove(s, id, t, Undoing(ManifestStatus.Released));
    QuietMove(s, id, t, Extracting);
    QuietMove(s, id, t, Handling);
    QuietMove(s, id, t, Unclaiming);
    match w.pc
    case Beginning => QuietThen(s, id, UpdateChunk(t, c, Processing, None, w.owner, now), Storing);
    case Storing =>
      QuietStay(s, id);
      if choice.Rows? {
        QuietMove(s, id, t, Settling(choice.ids));
      }
    case Extracting =>
      if choice.Ready? {
        QuietMove(s, id, t, Settling([]));
        QuietMove(s, id, t, Inserting(choice.ids));
      }
    case Inserting(ids) => QuietInsert(s, id, ids, k);
  }

  lemma QuietStay(s: World, id: nat)
    requires id in s.workers && !Released(s.workers[id].pc)
    ensures Quiet(s, s, id)
  {
  }

  lemma QuietInsert(s: World, id: nat, ids: seq<MemoryId>, k: ManifestKey)
    requires id in s.workers
    ensures Quiet(s, Move(s.(vectors := s.vectors + map i | i in ids :: k), id, Settling(ids)), id)
  {
  }

  lemma TakeFollows(s: World, s': World, w: Worker, h: HashKey)
    requires var r := ClaimHash(s.sys.tables, h, w.chunk, w.owner, s.sys.now);
             s'.sys.tables == if r.Done? then r.tables else s.sys.tables
    ensures ClaimsFollow(s, s', w)
  {
  }

  lemma FinishClean(s: World, id: nat, choice: Choice)
    requires id in s.workers
    requires var pc := s.workers[id].pc; pc.Settling? || pc.Queueing? || pc.Marking? || pc.Recording? || pc.Resuming? || pc.Reporting?
    ensures WorksClean(s, DoFinish(s, id, choice), id)
  {
    if s.workers[id].pc.Settling? && choice.Settle? {
      SettleClean(s, id, choice);
    } else {
      FinishQuiet(s, id, choice);
      hide Quiet, DoFinish;
      QuietClean(s, DoFinish(s, id, choice), id);
    }
  }

  // Settling only ever ends claims.
  lemma SettleClean(s: World, id: nat, choice: Choice)
    requires id in s.workers && s.workers[id].pc.Settling? && choice.Settle?
    ensures WorksClean(s, DoFinish(s, id, choice), id)
  {
    var w := s.workers[id];
    var r := MarkHashes(s.sys.tables, w.chunk, choice.conversation, choice.settled, choice.found, w.owner, s.sys.now);
    assert r.Done? ==> forall h: HashKey, c: ChunkId :: ClaimedBy(r.tables.hashes, h, c) ==> ClaimedBy(s.sys.tables.hashes, h, c);
    hide MarkHashes;
  }

  lemma FinishQuiet(s: World, id: nat, choice: Choice)
    requires id in s.workers && !(s.workers[id].pc.Settling? && choice.Settle?)
    requires var pc := s.workers[id].pc; pc.Settling? || pc.Queueing? || pc.Marking? || pc.Recording? || pc.Resuming? || pc.Reporting?
    ensures Quiet(s, DoFinish(s, id, choice), id)
  {
    hide Quiet, Move, Halt, WriteThen, Commit, AddGraphItems, MarkManifest, UpdateChunk, With;
    var w := s.workers[id];
    var c, k, t, now := w.chunk, ManifestOf(w.chunk), s.sys.tables, s.sys.now;
    QuietMove(s, id, t, Handling);
    QuietMove(s, id, t, Unclaiming);
    match w.pc
    case Settling(_) => QuietStay(s, id);
    case Queueing(ids) => QuietThen(s, id, AddGraphItems(t, c, ids, w.owner, now), Marking(ids));
    case Marking(ids) => QuietThen(s, id, MarkManifest(t, c, Succeeded, Some(ids), w.owner, now), Recording(ids));
    case Recording(ids) => QuietCommit(s, id, UpdateChunk(t, c, ChunkSucceeded, Some(ids), w.owner, now), k);
    case Resuming(ids) => QuietCommit(s, id, UpdateChunk(t, c, ChunkSucceeded, Some(ids), w.owner, now), k);
    case Reporting =>
  }

  lemma QuietCommit(s: World, id: nat, r: Fenced, k: ManifestKey)
    requires id in s.workers && (r.Done? ==> r.tables.hashes == s.sys.tables.hashes)
    ensures r.Done? ==> id in Commit(With(s, r.tables), k).workers
                        && Quiet(s, Move(Commit(With(s, r.tables), k), id, Reporting), id)
                        && Quiet(s, Halt(Commit(With(s, r.tables), k), id), id)
  {
  }

  lemma UndoQuiet(s: World, id: nat, choice: Choice)
    requires id in s.workers
    requires var pc := s.workers[id].pc; pc.Handling? || pc.Undoing? || pc.Closing?
    ensures Quiet(s, DoUndo(s, id, choice), id)
  {
    hide Quiet, Move, Halt, WriteThen, MarkManifest, UpdateChunk;
    var w := s.workers[id];
    var c, t, now := w.chunk, s.sys.tables, s.sys.now;
    match w.pc
    case Handling =>
      if choice.Give? {
        QuietMove(s, id, t, Undoing(choice.up));
      }
      QuietMove(s, id, t, Closing(Retrying, None, TryAgain));
    case Undoing(mark) =>
      QuietThen(s, id, MarkManifest(t, c, mark, None, w.owner, now),
                if mark == ManifestFailed then Closing(ChunkFailed, None, Stop) else UndoingHashes(mark));
    case Closing(status, ids, next) =>
      var r := UpdateChunk(t, c, status, ids, w.owner, now);
      QuietMove(s, id, t, Ensuring);
      if r.Done? {
        QuietMove(s, id, r.tables, Ensuring);
        QuietAgain(s, id, r.tables);
      }
  }

  lemma QuietAgain(s: World, id: nat, t: Tables)
    requires id in s.workers && t.hashes == s.sys.tables.hashes
    ensures var w := s.workers[id]; Quiet(s, With(s, t).(workers := s.workers[id := w.(pc := Beginning, attempt := w.attempt + 1)]), id)
  {
  }

  lemma UndoClean(s: World, id: nat, choice: Choice)
    requires id in s.workers
    requires var pc := s.workers[id].pc; pc.Unclaiming? || pc.Handling? || pc.Undoing? || pc.UndoingHashes? || pc.Closing?
    ensures WorksClean(s, DoUndo(s, id, choice), id)
  {
    hide WorksClean, WriteThen, ReleaseHashes;
    var w := s.workers[id];
    if w.pc.Unclaiming? {
      ReleaseClean(s, id, Some(if choice.Drop? then choice.claimed else {}), Handling);
    } else if w.pc.UndoingHashes? {
      ReleaseClean(s, id, None, Closing(if w.pc.mark == Split then ChunkSplit else ChunkCancelled, None, Stop));
    } else {
      hide DoUndo;
      UndoQuiet(s, id, choice);
      QuietClean(s, DoUndo(s, id, choice), id);
    }
  }

  // A worker behind a release goes on with the hash table as it is.
  lemma StayClean(s: World, s': World, id: nat)
    requires id in s.workers && Stays(s, s', id)
    ensures WorksClean(s, s', id)
  {
    SameHashes(s, s', s.workers[id]);
  }

  // `s'` has the hash table of `s`, and the worker is behind a release only if it was.
  predicate Stays(s: World, s': World, id: nat)
    requires id in s.workers
  {
    && s'.sys.tables.hashes == s.sys.tables.hashes
    && (id in s'.workers && Released(s'.workers[id].pc) ==> Released(s.workers[id].pc))
  }

  lemma StayThen(s: World, id: nat, r: Fenced, pc: Pc)
    requires id in s.workers && (r.Done? ==> r.tables.hashes == s.sys.tables.hashes)
    requires Released(pc) ==> Released(s.workers[id].pc)
    ensures Stays(s, WriteThen(s, id, r, pc), id) && Stays(s, Move(s, id, pc), id) && Stays(s, Halt(s, id), id)
    ensures r.Done? ==> id in With(s, r.tables).workers && Stays(s, Move(With(s, r.tables), id, pc), id)
  {
  }

  lemma LookStays(s: World, id: nat)
    requires id in s.workers && s.workers[id].pc.SkipLooking?
    ensures Stays(s, DoSkip(s, id), id)
  {
    hide Stays, Move, Halt, With, WriteThen;
    var superseded := s.workers[id].pc.superseded;
    StayThen(s, id, LeaseLost, SkipClaiming(superseded));
    StayThen(s, id, LeaseLost, SkipMarking(superseded));
    StayThen(s, id, LeaseLost, Closing(Skipped, SkipIds(superseded), Stop));
  }

  lemma SkipStays(s: World, id: nat)
    requires id in s.workers
    requires var pc := s.workers[id].pc; pc.SkipEnsuring? || pc.SkipLooking? || pc.SkipClaiming? || pc.SkipMarking?
    ensures Stays(s, DoSkip(s, id), id)
  {
    hide Stays, Move, Halt, With, WriteThen, MarkManifest, UpsertChunk, ClaimManifest;
    var w := s.workers[id];
    var c, t, now := w.chunk, s.sys.tables, s.sys.now;
    match w.pc
    case SkipEnsuring(superseded) =>
      StayThen(s, id, UpsertChunk(t, c, w.owner, now), if superseded then SkipHashes else SkipLooking(false));
    case SkipLooking(superseded) => LookStays(s, id);
    case SkipClaiming(superseded) =>
      var r := ClaimManifest(t, c, w.owner, now);
      StayThen(s, id, r, SkipMarking(superseded));
      StayThen(s, id, r, Closing(Skipped, SkipIds(superseded), Stop));
    case SkipMarking(superseded) =>
      StayThen(s, id, MarkManifest(t, c, Succeeded, Some([]), w.owner, now), Closing(Skipped, SkipIds(superseded), Stop));
  }

  lemma SkipClean(s: World, id: nat)
    requires id in s.workers
    requires var pc := s.workers[id].pc; pc.SkipEnsuring? || pc.SkipHashes? || pc.SkipLooking? || pc.SkipClaiming? || pc.SkipMarking?
    ensures WorksClean(s, DoSkip(s, id), id)
  {
    hide WorksClean, WriteThen, ReleaseHashes;
    if s.workers[id].pc.SkipHashes? {
      ReleaseClean(s, id, None, SkipLooking(true));
    } else {
      SkipStays(s, id);
      hide DoSkip;
      StayClean(s, DoSkip(s, id), id);
    }
  }

  lemma WorkClean(s: World, id: nat, choice: Choice)
    requires id in s.workers
    ensures WorksClean(s, DoWork(s, id, choice), id)
  {
    hide DoClaim, DoStore, DoFinish, DoUndo, DoSkip, WorksClean, Quiet;
    var pc := s.workers[id].pc;
    if pc.ReclaimingHashes? {
      ReclaimIs(s, id, choice);
      ReleaseClean(s, id, None, ClaimingAgain);
    } else if pc.Ensuring? || pc.Claiming? || pc.Peeking? || pc.Reclaiming? || pc.ClaimingAgain? {
      ClaimClean(s, id, choice);
      QuietClean(s, DoClaim(s, id, choice), id);
    } else if pc.Beginning? || pc.Storing? || pc.Extracting? || pc.Inserting? {
      StoreClean(s, id, choice);
    } else if pc.Settling? || pc.Queueing? || pc.Marking? || pc.Recording? || pc.Resuming? || pc.Reporting? {
      FinishClean(s, id, choice);
    } else if pc.Unclaiming? || pc.Handling? || pc.Undoing? || pc.UndoingHashes? || pc.Closing? {
      UndoClean(s, id, choice);
    } else {
      SkipClean(s, id);
    }
  }

  lemma ReclaimIs(s: World, id: nat, choice: Choice)
    requires id in s.workers && s.workers[id].pc.ReclaimingHashes?
    ensures var w := s.workers[id];
            DoClaim(s, id, choice) == WriteThen(s, id, ReleaseHashes(s.sys.tables, w.chunk, None, w.owner, s.sys.now), ClaimingAgain)
  {
    hide ReleaseHashes;
  }

  /****** over all runs ******/

  // Workers behind a release with a live lease have no claims left.
  ghost predicate Freed(s: World) {
    forall i :: i in s.workers && Released(s.workers[i].pc) && Act(s, s.workers[i]) ==> NoClaims(s.sys.tables.hashes, s.workers[i].chunk)
  }

  // A step of a worker concerns that worker only, in every reachable state.
  lemma WorkFollows(s: World, l: Loose, id: nat, choice: Choice)
    requires Whole(s, l) && id in s.workers
    ensures Follows(s, DoWork(s, id, choice), id)
  {
    if id in l.late {
      LateIs(s, l, id);
      assert LateOne(s, s.workers[id]);
    } else {
      ImageWorker(s, l, id);
    }
    assert PlanOk(s, s.workers[id]) && CanRecord(s, s.workers[id]);
    hide Whole, DoWork, PlanOk, CanRecord;
    PlanCloses(s, s.workers[id]);
    CalmWork(s, NONE, id, choice);
  }

  lemma PlanCloses(s: World, w: Worker)
    requires PlanOk(s, w)
    ensures w.pc.Closing? ==> w.pc.status != ChunkSucceeded
  {
  }

  lemma WorkFreed(s: World, l: Loose, id: nat, choice: Choice)
    requires Whole(s, l) && id in s.workers && Freed(s)
    ensures Freed(DoWork(s, id, choice))
  {
    var s' := DoWork(s, id, choice);
    WorkFollows(s, l, id, choice);
    WorkClean(s, id, choice);
    assert Unique(s);
    hide Whole, DoWork;
    forall i | i in s'.workers && Released(s'.workers[i].pc) && Act(s', s'.workers[i])
      ensures NoClaims(s'.sys.tables.hashes, s'.workers[i].chunk)
    {
      FollowsActive(s, s', id, s'.workers[i]);
      if i != id {
        assert s'.workers[i] == s.workers[i];
        OtherFree(s, s', id, i);
      }
    }
  }

  // Only a worker of the same chunk could take a claim for it, and that would share the owner.
  lemma OtherFree(s: World, s': World, id: nat, i: nat)
    requires id in s.workers && i in s.workers && i != id && Unique(s) && ClaimsFollow(s, s', s.workers[id])
    requires Act(s, s.workers[i]) && NoClaims(s.sys.tables.hashes, s.workers[i].chunk)
    ensures NoClaims(s'.sys.tables.hashes, s.workers[i].chunk)
  {
    if Act(s, s.workers[id]) && s.workers[id].chunk.job == s.workers[i].chunk.job {
      OnlyOne(s, i, id);
    }
    hide Unique, Act;
  }

  lemma StepFreed(s: World, l: Loose, step: Step)
    requires Whole(s, l) && Freed(s)
    ensures Freed(Advance(s, step))
  {
    if step.Work? {
      hide Whole, DoWork, Freed;
      if step.id in s.workers {
        WorkFreed(s, l, step.id, step.choice);
      }
    } else if step.Env? {
      EnvFreed(s, l, step.op);
    } else if step.Reset? {
      hide Whole;
      var s' := Advance(s, step);
      assert s'.workers == s.workers && s'.sys.tables.jobs == s.sys.tables.jobs && s'.sys.tables.hashes == s.sys.tables.hashes
             && s'.sys.now == s.sys.now;
      hide Advance, NoClaims;
    } else {
      hide Whole, NoClaims, CanLoad, CanStart, FailedChunks, Next, UpdateChunk, DoWork;
    }
  }

  lemma EnvFreed(s: World, l: Loose, op: SystemOp)
    requires Whole(s, l) && Freed(s)
    ensures Freed(Advance(s, Env(op)))
  {
    if !op.OnTables? {
      var s' := Advance(s, Env(op));
      assert s'.sys.tables.hashes == s.sys.tables.hashes && s'.workers == s.workers;
      forall i | i in s.workers && Act(s', s.workers[i]) ensures Act(s, s.workers[i]) {
        OwnerUsed(s, l, i);
        StepNeverRevives(s.sys, op, s.workers[i].chunk.job, s.workers[i].owner);
      }
      hide Whole, Next, NoClaims;
    }
  }

  lemma {:induction false} RunFreed(s: World, l: Loose, steps: seq<Step>)
    requires Whole(s, l) && Freed(s)
    ensures Freed(Run(s, steps))
    decreases |steps|
  {
    if steps != [] {
      hide Whole, Freed, Advance, LooseAfter;
      StepFreed(s, l, steps[0]);
      StepKeepsWhole(s, l, steps[0]);
      RunFreed(Advance(s, steps[0]), LooseAfter(s, steps[0], l), steps[1..]);
    }
  }

  /**
  Hash claims are given back: after any run, a worker with a live lease that recovers its own claim after
  a crash, or closes a split, cancelled or superseded chunk, is behind the release of its hash claims only
  when the table holds none that its chunk has merely claimed.
   */
  lemma ReleasedMeansNone(steps: seq<Step>, i: nat, h: HashKey)
    requires var s := Run(EMPTY, steps);
             && i in s.workers && Act(s, s.workers[i]) && h in s.sys.tables.hashes
             && (var pc := s.workers[i].pc;
                 || pc.ClaimingAgain?
                 || ((pc.SkipLooking? || pc.SkipClaiming? || pc.SkipMarking?) && pc.superseded)
                 || (pc.Closing? && (pc.status == ChunkSplit || pc.status == ChunkCancelled || (pc.status == Skipped && pc.write.Some?))))
    ensures var s := Run(EMPTY, steps);
            !(s.sys.tables.hashes[h].chunk == s.workers[i].chunk && s.sys.tables.hashes[h].status == HashClaimed)
  {
    EmptyIsWhole();
    RunFreed(EMPTY, NONE, steps);
    var s := Run(EMPTY, steps);
    assert NoClaims(s.sys.tables.hashes, s.workers[i].chunk) && !ClaimedBy(s.sys.tables.hashes, h, s.workers[i].chunk);
  }

  /**
  The release itself, at each of its three points: under a live lease exactly the hashes the chunk has
  merely claimed go, and each of them can be claimed again by whoever comes first.
   */
  lemma ReleaseIsExact(s: World, id: nat, choice: Choice, h: HashKey)
    requires id in s.workers && Act(s, s.workers[id])
    requires var pc := s.workers[id].pc; pc.ReclaimingHashes? || pc.UndoingHashes? || pc.SkipHashes?
    ensures var c, t, t' := s.workers[id].chunk, s.sys.tables.hashes, DoWork(s, id, choice).sys.tables.hashes;
            && (h in t' <==> h in t && !(t[h].chunk == c && t[h].status == HashClaimed))
            && (h in t' ==> t'[h] == t[h])
            && (h in t && t[h].chunk == c && t[h].status == HashClaimed ==> CanClaimHash(DoWork(s, id, choice).sys.tables, h))
  {
    ReleaseClean(s, id, None, ClaimingAgain);
    hide ReleaseHashes;
    assert DoWork(s, id, choice).sys.tables.hashes
        == WriteThen(s, id, ReleaseHashes(s.sys.tables, s.workers[id].chunk, None, s.workers[id].owner, s.sys.now), ClaimingAgain).sys.tables.hashes;
    hide DoWork, WriteThen;
  }

  /** After a failed store exactly the claims of that attempt go. */
  lemma UnclaimIsExact(s: World, id: nat, claimed: set<Hash>, h: HashKey)
    requires id in s.workers && Act(s, s.workers[id]) && s.workers[id].pc.Unclaiming?
    ensures var c, t, t' := s.workers[id].chunk, s.sys.tables.hashes, DoWork(s, id, Drop(claimed)).sys.tables.hashes;
            && (h in t' <==> h in t && !(t[h].chunk == c && t[h].status == HashClaimed && h.hash in claimed))
            && (h in t' ==> t'[h] == t[h])
  {
    ReleaseClean(s, id, Some(claimed), Handling);
    hide ReleaseHashes, WriteThen;
    assert Drop(claimed).claimed == claimed;
    hide DoClaim, DoStore, DoFinish, DoSkip;
  }

  /** Settling ends exactly the chunk's own claims of that conversation among the given hashes, each with its memory. */
  lemma SettleIsExact(s: World, id: nat, v: nat, settled: set<Hash>, found: map<Hash, MemoryId>, h: HashKey)
    requires id in s.workers && Act(s, s.workers[id]) && s.workers[id].pc.Settling?
    ensures var c, t, t' := s.workers[id].chunk, s.sys.tables.hashes, DoWork(s, id, Settle(v, settled, found)).sys.tables.hashes;
            var own := h in t && t[h].chunk == c && t[h].status == HashClaimed && h.project == c.project && h.conversation == v && h.hash in settled;
            && (h in t' <==> h in t)
            && (own ==> t'[h].status == HashSucceeded && t'[h].chunk == c
                        && t'[h].memoryId == if h.hash in found then Some(found[h.hash]) else None)
            && (h in t && !own ==> t'[h] == t[h])
  {
    hide DoClaim, DoStore, DoUndo, DoSkip;
  }

  /****** stored rows ******/

  /** Whoever gets a manifest that was claimed before has to look for stored rows. */
  lemma SecondClaimReconciles(s: World, id: nat, choice: Choice)
    requires id in s.workers && (s.workers[id].pc.Claiming? || s.workers[id].pc.ClaimingAgain?)
    ensures var k, s' := ManifestOf(s.workers[id].chunk), DoWork(s, id, choice);
            id in s'.workers && s'.workers[id].pc.Beginning? ==>
              && k in s'.sys.tables.manifests && s'.sys.tables.manifests[k].chunk == s.workers[id].chunk
              && s'.workers[id].attempt == 1
              && (s'.workers[id].reconcile <==> k in s.sys.tables.manifests && s.sys.tables.manifests[k].attempts > 0)
  {
    hide DoStore, DoFinish, DoUndo, DoSkip;
    var w := s.workers[id];
    var r := ClaimManifest(s.sys.tables, w.chunk, w.owner, s.sys.now);
    if r.Done? && r.changed {
      assert DoWork(s, id, choice) == HoldClaim(s, id, r.tables);
      hide DoWork, DoClaim;
    } else {
      NotBeginning(s, id, choice, r);
      hide DoWork, DoClaim, ClaimManifest;
    }
  }

  lemma NotBeginning(s: World, id: nat, choice: Choice, r: Fenced)
    requires id in s.workers && (s.workers[id].pc.Claiming? || s.workers[id].pc.ClaimingAgain?)
    requires r == ClaimManifest(s.sys.tables, s.workers[id].chunk, s.workers[id].owner, s.sys.now) && !(r.Done? && r.changed)
    ensures id in DoWork(s, id, choice).workers ==> !DoWork(s, id, choice).workers[id].pc.Beginning?
  {
    hide DoStore, DoFinish, DoUndo, DoSkip;
    assert r.Done? ==> ManifestOf(s.workers[id].chunk) in r.tables.manifests;
    hide ClaimManifest;
  }

  /**
  An attempt that is not the first, or follows an earlier claim, never asks the model while rows of its
  key are stored: it takes over exactly those, or raises, and without its lease it stops.
   */
  lemma StoredRowsAreTaken(s: World, id: nat, choice: Choice)
    requires id in s.workers && s.workers[id].pc.Storing? && (s.workers[id].reconcile || s.workers[id].attempt > 1)
    requires exists m :: m in s.vectors && s.vectors[m] == ManifestOf(s.workers[id].chunk)
    ensures var k, s' := ManifestOf(s.workers[id].chunk), DoWork(s, id, choice);
            && s'.sys == s.sys && s'.vectors == s.vectors
            && (id in s'.workers ==>
                  match s'.workers[id].pc
                  case Settling(ids) => Distinct(ids) && forall m :: m in ids <==> m in s.vectors && s.vectors[m] == k
                  case Storing => true
                  case Handling => choice.Raise?
                  case _ => false)
  {
    var k := ManifestOf(s.workers[id].chunk);
    var m :| m in s.vectors && s.vectors[m] == k;
    assert m in RowsOf(s, k);
    if choice.Rows? && (set i | i in choice.ids) == RowsOf(s, k) {
      forall i ensures i in choice.ids <==> i in s.vectors && s.vectors[i] == k {
        assert i in choice.ids <==> i in RowsOf(s, k);
      }
    }
    hide DoClaim, DoFinish, DoUndo, DoSkip, RowsOf;
  }
}
