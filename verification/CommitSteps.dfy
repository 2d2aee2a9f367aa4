/** Every step of the commit protocol keeps the invariant of `CommitSafety`. */
module CommitSteps {
  import opened Wrappers
  import opened ImportTables
  import opened Fencing
  import opened CommitProtocol
  import opened CommitSafety

  lemma FromInv(s: World, id: nat)
    requires Inv(s) && id in s.workers
    ensures InvBut(s, id) && WorkerOk(s, s.workers[id])
  {
  }

  lemma MoveKeeps(s: World, id: nat, pc: Pc)
    requires InvBut(s, id) && id in s.workers && WorkerOk(s, s.workers[id].(pc := pc))
    ensures Inv(Move(s, id, pc))
  {
    ReplaceWorker(s, id, s.workers[id].(pc := pc));
  }

  // A write to hash claims never matters to chunks and manifests.
  lemma HashThen(s: World, id: nat, r: Fenced, pc: Pc)
    requires Inv(s) && id in s.workers
    requires r.Done? ==> r.tables == s.sys.tables.(hashes := r.tables.hashes)
    requires WorkerOk(s, s.workers[id].(pc := pc))
    ensures Inv(WriteThen(s, id, r, pc))
  {
    hide Inv, InvBut, WorkerOk;
    FromInv(s, id);
    if r.LeaseLost? {
      DropWorker(s, id);
    } else {
      HashWriteKeeps(s, r.tables.hashes);
      UntouchedWorker(s, With(s, r.tables), s.workers[id].(pc := pc));
      FromInv(With(s, r.tables), id);
      MoveKeeps(With(s, r.tables), id, pc);
    }
  }

  lemma ChunkThen(s: World, id: nat, status: ChunkStatus, ids: Option<seq<MemoryId>>)
    requires Inv(s) && id in s.workers && status != ChunkSucceeded
    ensures var w := s.workers[id];
            var r := UpdateChunk(s.sys.tables, w.chunk, status, ids, w.owner, s.sys.now);
            r.Done? ==> Act(s, w) && Inv(With(s, r.tables)) && NotSucceeded(With(s, r.tables), w.chunk)
  {
    var c := s.workers[id].chunk;
    if c in s.sys.tables.chunks {
      ChunkWriteKeeps(s, c, ChunkRow(status, if ids.Some? then ids.value else s.sys.tables.chunks[c].memoryIds));
    }
  }

  lemma UpsertThen(s: World, id: nat)
    requires Inv(s) && id in s.workers
    ensures var w := s.workers[id];
            var r := UpsertChunk(s.sys.tables, w.chunk, w.owner, s.sys.now);
            r.Done? ==> Act(s, w) && Inv(With(s, r.tables)) && w.chunk in r.tables.chunks && (NotSucceeded(s, w.chunk) ==> NotSucceeded(With(s, r.tables), w.chunk))
  {
    var c := s.workers[id].chunk;
    if c !in s.sys.tables.chunks {
      ChunkWriteKeeps(s, c, ChunkRow(Pending, []));
    } else {
      ChunkWriteKeeps(s, c, s.sys.tables.chunks[c].(status := Pending));
    }
  }

  // After a claim: what the worker's row may look like
  lemma ClaimFacts(s: World, id: nat)
    requires Inv(s) && id in s.workers
    ensures var w := s.workers[id];
            var r := ClaimManifest(s.sys.tables, w.chunk, w.owner, s.sys.now);
            r.Done? ==>
              && Act(s, w) && InvBut(With(s, r.tables), id)
              && r.tables.chunks == s.sys.tables.chunks
              && ManifestOf(w.chunk) in r.tables.manifests
              && (r.changed ==> HasManifest(With(s, r.tables), w) && ManifestOf(w.chunk) !in s.committed)
  {
    var w := s.workers[id];
    var k := ManifestOf(w.chunk);
    var r := ClaimManifest(s.sys.tables, w.chunk, w.owner, s.sys.now);
    assert WorkerOk(s, w);
    if r.Done? && r.tables != s.sys.tables {
      ClaimWriteKeeps(s, id, r.tables.manifests[k]);
    }
  }

  lemma MarkThen(s: World, id: nat, mark: ManifestStatus, ids: Option<seq<MemoryId>>)
    requires Inv(s) && id in s.workers
    requires var k, ms := ManifestOf(s.workers[id].chunk), s.sys.tables.manifests;
             Act(s, s.workers[id]) && k in ms && ms[k].chunk.job == s.workers[id].chunk.job ==> k !in s.committed
    requires mark == Succeeded ==> ids.Some? && AllBacked(s, s.workers[id].chunk, ids.value) &&
                                   AllQueued(s, s.workers[id].chunk, ids.value)
    ensures var w := s.workers[id];
            var r := MarkManifest(s.sys.tables, w.chunk, mark, ids, w.owner, s.sys.now);
            r.Done? ==>
              && Act(s, w) && InvBut(With(s, r.tables), id)
              && r.tables == s.sys.tables.(manifests := r.tables.manifests)
              && (HasManifest(s, w) && mark == Succeeded ==> HasFinished(With(s, r.tables), w, ids.value))
  {
    var w := s.workers[id];
    var k := ManifestOf(w.chunk);
    var r := MarkManifest(s.sys.tables, w.chunk, mark, ids, w.owner, s.sys.now);
    if r.Done? && r.changed {
      assert ManifestOf(s.sys.tables.manifests[k].chunk) == k;
      MarkWriteKeeps(s, id, r.tables.manifests[k]);
    }
  }

  lemma HoldKeeps(s: World, id: nat, t: Tables)
    requires id in s.workers && InvBut(With(s, t), id) && ManifestOf(s.workers[id].chunk) in t.manifests
    requires var w := s.workers[id];
             && PlanOk(s, w) && !SkipPc(w.pc) && NotSucceeded(With(s, t), w.chunk) && w.chunk in t.chunks
             && HasManifest(With(s, t), w) && ManifestOf(w.chunk) !in s.committed
    ensures Inv(HoldClaim(s, id, t))
  {
    ReplaceWorker(With(s, t), id, HoldClaim(s, id, t).workers[id]);
  }

  lemma BusyKeeps(s: World, id: nat, t: Tables, choice: Choice)
    requires id in s.workers && InvBut(With(s, t), id)
    requires PlanOk(s, s.workers[id]) && !SkipPc(s.workers[id].pc) && NotSucceeded(With(s, t), s.workers[id].chunk)
    requires s.workers[id].chunk in t.chunks
    ensures Inv(BusyThen(s, id, t, choice))
  {
    ReplaceWorker(With(s, t), id, BusyThen(s, id, t, choice).workers[id]);
  }

  // What a worker may move on to when it finds the manifest taken
  lemma TakenOk(s: World, w: Worker)
    requires w.pc.Claiming? && PlanOk(s, w) && w.chunk in s.sys.tables.chunks && NotSucceeded(s, w.chunk)
    requires CommittedOk(s) && ManifestsOk(s) && ManifestOf(w.chunk) in s.sys.tables.manifests
    ensures var m := s.sys.tables.manifests[ManifestOf(w.chunk)];
            && WorkerOk(s, w.(pc := Closing(Skipped, None, Stop)))
            && (m.status == Split ==> WorkerOk(s, w.(pc := Undoing(Split))))
            && (m.status == Succeeded && m.chunk.job == w.chunk.job ==> WorkerOk(s, w.(pc := Resuming(m.memoryIds))))
            && (m.status == Claimed && m.chunk == w.chunk ==> WorkerOk(s, w.(pc := Peeking)))
  {
    var m := s.sys.tables.manifests[ManifestOf(w.chunk)];
    assert ManifestOf(m.chunk) == ManifestOf(w.chunk);
  }

  lemma TakenKeeps(s: World, id: nat, r: Fenced, choice: Choice)
    requires id in s.workers && s.workers[id].pc.Claiming? && PlanOk(s, s.workers[id])
    requires r.Done? && !r.changed
    requires var w := s.workers[id];
             && InvBut(With(s, r.tables), id) && NotSucceeded(With(s, r.tables), w.chunk) && w.chunk in r.tables.chunks
             && ManifestOf(w.chunk) in r.tables.manifests
    ensures Inv(ClaimThen(s, id, r, choice))
  {
    var w, s1 := s.workers[id], With(s, r.tables);
    var m := r.tables.manifests[ManifestOf(w.chunk)];
    TakenOk(s1, w);
    hide Inv, InvBut, WorkerOk, NotSucceeded;
    if m.status == Split {
      MoveKeeps(s1, id, Undoing(Split));
    } else if m.status == Succeeded && m.chunk.job == w.chunk.job {
      MoveKeeps(s1, id, Resuming(m.memoryIds));
    } else if m.status == Succeeded {
      MoveKeeps(s1, id, Closing(Skipped, None, Stop));
    } else if m.status == Claimed && m.chunk == w.chunk {
      MoveKeeps(s1, id, Peeking);
    } else {
      BusyKeeps(s, id, r.tables, choice);
    }
  }

  lemma ClaimThenKeeps(s: World, id: nat, r: Fenced, choice: Choice)
    requires Inv(s) && id in s.workers && s.workers[id].pc.Claiming?
    requires r.Done? ==>
               var w := s.workers[id];
               && InvBut(With(s, r.tables), id) && NotSucceeded(With(s, r.tables), w.chunk) && w.chunk in r.tables.chunks
               && ManifestOf(w.chunk) in r.tables.manifests
               && (r.changed ==> HasManifest(With(s, r.tables), w) && ManifestOf(w.chunk) !in s.committed)
    ensures Inv(ClaimThen(s, id, r, choice))
  {
    var w := s.workers[id];
    if r.LeaseLost? {
      DropWorker(s, id);
    } else if r.changed {
      HoldKeeps(s, id, r.tables);
    } else {
      assert WorkerOk(s, w);
      TakenKeeps(s, id, r, choice);
    }
  }

  lemma WorkEnsuring(s: World, id: nat, choice: Choice)
    requires Inv(s) && id in s.workers && s.workers[id].pc.Ensuring?
    ensures Inv(DoClaim(s, id, choice))
  {
    hide Inv, InvBut;
    FromInv(s, id);
    var w := s.workers[id];
    UpsertThen(s, id);
    var r := UpsertChunk(s.sys.tables, w.chunk, w.owner, s.sys.now);
    if r.LeaseLost? || r.tables.chunks[w.chunk].status == ChunkSucceeded {
      DropWorker(s, id);
    } else {
      FromInv(With(s, r.tables), id);
      MoveKeeps(With(s, r.tables), id, Claiming);
    }
  }

  lemma WorkClaiming(s: World, id: nat, choice: Choice)
    requires Inv(s) && id in s.workers && s.workers[id].pc.Claiming?
    ensures Inv(DoClaim(s, id, choice))
  {
    hide Inv, InvBut, ClaimThen;
    FromInv(s, id);
    var w := s.workers[id];
    ClaimFacts(s, id);
    ClaimThenKeeps(s, id, ClaimManifest(s.sys.tables, w.chunk, w.owner, s.sys.now), choice);
  }

  lemma WorkClaimingAgain(s: World, id: nat, choice: Choice)
    requires Inv(s) && id in s.workers && s.workers[id].pc.ClaimingAgain?
    ensures Inv(DoClaim(s, id, choice))
  {
    hide Inv, InvBut;
    FromInv(s, id);
    var w := s.workers[id];
    var r := ClaimManifest(s.sys.tables, w.chunk, w.owner, s.sys.now);
    ClaimFacts(s, id);
    if r.LeaseLost? {
      DropWorker(s, id);
    } else if r.changed {
      HoldKeeps(s, id, r.tables);
    } else {
      BusyKeeps(s, id, r.tables, choice);
    }
  }

  lemma WorkPeeking(s: World, id: nat, choice: Choice)
    requires Inv(s) && id in s.workers && s.workers[id].pc.Peeking?
    ensures Inv(DoClaim(s, id, choice))
  {
    hide Inv, InvBut;
    FromInv(s, id);
    ReplaceWorker(s, id, DoClaim(s, id, choice).workers[id]);
  }

  // A move to a state that relies on nothing but its chunk row
  lemma MoveFree(s: World, id: nat, pc: Pc)
    requires id in s.workers && InvBut(s, id) && PlanOk(s, s.workers[id].(pc := pc))
    requires s.workers[id].chunk in s.sys.tables.chunks
    requires Act(s, s.workers[id]) ==> NotSucceeded(s, s.workers[id].chunk)
    requires pc.ReclaimingHashes? || pc.UndoingHashes? || (pc.Closing? && pc.next.Stop?)
    ensures Inv(Move(s, id, pc))
  {
    hide Inv, InvBut;
    MoveKeeps(s, id, pc);
  }

  // A manifest write other than success, then a move to a state that relies on nothing
  lemma MarkMove(s: World, id: nat, mark: ManifestStatus, pc: Pc)
    requires Inv(s) && id in s.workers && mark != Succeeded
    requires s.workers[id].pc.Reclaiming? || s.workers[id].pc.Undoing?
    requires pc.ReclaimingHashes? || pc.UndoingHashes? || (pc.Closing? && pc.next.Stop? && pc.status == ChunkFailed)
    requires SkipPc(pc) || !SkipPc(s.workers[id].pc)
    ensures Inv(WriteThen(s, id, MarkManifest(s.sys.tables, s.workers[id].chunk, mark, None, s.workers[id].owner, s.sys.now), pc))
  {
    hide Inv, InvBut, MarkManifest;
    FromInv(s, id);
    var w := s.workers[id];
    MarkThen(s, id, mark, None);
    var r := MarkManifest(s.sys.tables, w.chunk, mark, None, w.owner, s.sys.now);
    if r.LeaseLost? {
      DropWorker(s, id);
    } else {
      MoveFree(With(s, r.tables), id, pc);
    }
  }

  lemma WorkHashes(s: World, id: nat, only: Option<set<Hash>>)
    requires Inv(s) && id in s.workers
    requires var pc := s.workers[id].pc; pc.ReclaimingHashes? || pc.Unclaiming? || pc.UndoingHashes? || pc.SkipHashes?
    ensures var w := s.workers[id];
            var pc := match w.pc
                      case ReclaimingHashes => ClaimingAgain
                      case Unclaiming => Handling
                      case UndoingHashes(mark) => Closing(if mark == Split then ChunkSplit else ChunkCancelled, None, Stop)
                      case _ => SkipLooking(true);
            Inv(WriteThen(s, id, ReleaseHashes(s.sys.tables, w.chunk, only, w.owner, s.sys.now), pc))
  {
    hide Inv, InvBut;
    FromInv(s, id);
    var w := s.workers[id];
    var r := ReleaseHashes(s.sys.tables, w.chunk, only, w.owner, s.sys.now);
    var pc := match w.pc
              case ReclaimingHashes => ClaimingAgain
              case Unclaiming => Handling
              case UndoingHashes(mark) => Closing(if mark == Split then ChunkSplit else ChunkCancelled, None, Stop)
              case _ => SkipLooking(true);
    HashThen(s, id, r, pc);
  }

  lemma ClaimKeeps(s: World, id: nat, choice: Choice)
    requires Inv(s) && id in s.workers
    ensures Inv(DoClaim(s, id, choice))
  {
    hide Inv;
    match s.workers[id].pc
    case Ensuring => WorkEnsuring(s, id, choice);
    case Claiming => WorkClaiming(s, id, choice);
    case Peeking => WorkPeeking(s, id, choice);
    case Reclaiming => MarkMove(s, id, Released, ReclaimingHashes);
    case ReclaimingHashes => WorkHashes(s, id, None);
    case ClaimingAgain => WorkClaimingAgain(s, id, choice);
    case _ =>
  }

  // A write to the chunk row that does not make it succeeded, then a move
  lemma ChunkMove(s: World, id: nat, status: ChunkStatus, ids: Option<seq<MemoryId>>, w': Worker)
    requires Inv(s) && id in s.workers && status != ChunkSucceeded
    requires w'.owner == s.workers[id].owner && w'.chunk == s.workers[id].chunk
    requires WorkerOk(s, w') || (w'.pc.Ensuring? && PlanOk(s, w'))
    ensures var w := s.workers[id];
            var r := UpdateChunk(s.sys.tables, w.chunk, status, ids, w.owner, s.sys.now);
            Inv(if r.LeaseLost? then Halt(s, id) else With(s, r.tables).(workers := s.workers[id := w']))
  {
    hide Inv, InvBut;
    FromInv(s, id);
    var w := s.workers[id];
    ChunkThen(s, id, status, ids);
    var r := UpdateChunk(s.sys.tables, w.chunk, status, ids, w.owner, s.sys.now);
    if r.LeaseLost? {
      DropWorker(s, id);
    } else {
      FromInv(With(s, r.tables), id);
      ReplaceWorker(With(s, r.tables), id, w');
    }
  }

  lemma WorkStoring(s: World, id: nat, choice: Choice)
    requires Inv(s) && id in s.workers && (s.workers[id].pc.Beginning? || s.workers[id].pc.Storing?)
    ensures Inv(DoStore(s, id, choice))
  {
    hide Inv, InvBut;
    FromInv(s, id);
    var w := s.workers[id];
    if w.pc.Beginning? {
      if choice.Give? {
        MoveKeeps(s, id, Undoing(Released));
      } else {
        ChunkMove(s, id, Processing, None, w.(pc := Storing));
      }
    } else if choice.Raise? {
      MoveKeeps(s, id, Handling);
    } else {
      DropWorker(s, id);
      MoveKeeps(s, id, Extracting);
      if choice.Rows? && (set i | i in choice.ids) == RowsOf(s, ManifestOf(w.chunk)) {
        assert forall i :: i in choice.ids ==> i in RowsOf(s, ManifestOf(w.chunk));
        MoveKeeps(s, id, Settling(choice.ids));
      }
    }
  }

  lemma WorkExtracting(s: World, id: nat, choice: Choice)
    requires Inv(s) && id in s.workers && s.workers[id].pc.Extracting?
    ensures Inv(DoStore(s, id, choice))
  {
    hide Inv, InvBut;
    FromInv(s, id);
    var w := s.workers[id];
    DropWorker(s, id);
    match choice
    case Take(h) =>
      var r := ClaimHash(s.sys.tables, h, w.chunk, w.owner, s.sys.now);
      if r.Done? {
        HashWriteKeeps(s, r.tables.hashes);
      }
    case Ready(ids) =>
      MoveKeeps(s, id, Settling([]));
      MoveKeeps(s, id, Inserting(ids));
      MoveKeeps(s, id, Unclaiming);
    case _ => MoveKeeps(s, id, Unclaiming);
  }

  // A worker whose rows are stored may go on to settle them.
  lemma SettlingOk(s: World, w: Worker, ids: seq<MemoryId>)
    requires WorkerOk(s, w) && w.pc.Inserting? && AllBacked(s, w.chunk, ids)
    ensures WorkerOk(s, w.(pc := Settling(ids)))
  {
  }

  lemma WorkInserting(s: World, id: nat, choice: Choice)
    requires Inv(s) && id in s.workers && s.workers[id].pc.Inserting?
    ensures Inv(DoStore(s, id, choice))
  {
    hide Inv, InvBut;
    FromInv(s, id);
    var w := s.workers[id];
    var ids := w.pc.ids;
    assert WorkerOk(s, w.(pc := Unclaiming));
    hide WorkerOk;
    if choice.Raise? || (exists i :: i in ids && i in s.vectors) {
      MoveKeeps(s, id, Unclaiming);
    } else {
      var s1 := s.(vectors := s.vectors + map i | i in ids :: ManifestOf(w.chunk));
      VectorWriteKeeps(s, s1.vectors);
      FromInv(s1, id);
      SettlingOk(s1, w, ids);
      MoveKeeps(s1, id, Settling(ids));
    }
  }

  lemma StoreKeeps(s: World, id: nat, choice: Choice)
    requires Inv(s) && id in s.workers
    ensures Inv(DoStore(s, id, choice))
  {
    hide Inv;
    match s.workers[id].pc
    case Beginning => WorkStoring(s, id, choice);
    case Storing => WorkStoring(s, id, choice);
    case Extracting => WorkExtracting(s, id, choice);
    case Inserting(_) => WorkInserting(s, id, choice);
    case _ =>
  }

  lemma WorkSettling(s: World, id: nat, choice: Choice)
    requires Inv(s) && id in s.workers && s.workers[id].pc.Settling?
    ensures Inv(DoFinish(s, id, choice))
  {
    hide Inv, InvBut;
    FromInv(s, id);
    var w := s.workers[id];
    match choice
    case Settle(v, settled, found) =>
      HashThen(s, id, MarkHashes(s.sys.tables, w.chunk, v, settled, found, w.owner, s.sys.now), Queueing(w.pc.ids));
    case Raise(inStore) => MoveKeeps(s, id, if inStore then Unclaiming else Handling);
    case _ =>
  }

  lemma QueueFacts(t: Tables, c: ChunkId, ids: seq<MemoryId>, owner: Owner, now: Time)
    requires AddGraphItems(t, c, ids, owner, now).Done?
    ensures var t' := AddGraphItems(t, c, ids, owner, now).tables;
            && t' == t.(graph := t'.graph, jobs := t'.jobs) && SameLeases(t.jobs, t'.jobs)
            && (forall g :: g in t.graph ==> g in t'.graph)
            && (forall i :: i in ids ==> GraphKey(c, i) in t'.graph)
  {
  }

  lemma WorkQueueing(s: World, id: nat, choice: Choice)
    requires Inv(s) && id in s.workers && s.workers[id].pc.Queueing?
    ensures Inv(DoFinish(s, id, choice))
  {
    hide Inv, InvBut, AddGraphItems;
    FromInv(s, id);
    var w := s.workers[id];
    if choice.Raise? {
      MoveKeeps(s, id, Handling);
    } else {
      var r := AddGraphItems(s.sys.tables, w.chunk, w.pc.ids, w.owner, s.sys.now);
      if r.LeaseLost? {
        DropWorker(s, id);
      } else {
        QueueFacts(s.sys.tables, w.chunk, w.pc.ids, w.owner, s.sys.now);
        GraphWriteKeeps(s, r.tables.graph, r.tables.jobs);
        FromInv(With(s, r.tables), id);
        MoveKeeps(With(s, r.tables), id, Marking(w.pc.ids));
      }
    }
  }

  lemma WorkMarking(s: World, id: nat, choice: Choice)
    requires Inv(s) && id in s.workers && s.workers[id].pc.Marking?
    ensures Inv(DoFinish(s, id, choice))
  {
    hide Inv, InvBut;
    FromInv(s, id);
    var w := s.workers[id];
    if choice.Raise? {
      MoveKeeps(s, id, Handling);
    } else {
      MarkThen(s, id, Succeeded, Some(w.pc.ids));
      var r := MarkManifest(s.sys.tables, w.chunk, Succeeded, Some(w.pc.ids), w.owner, s.sys.now);
      if r.LeaseLost? {
        DropWorker(s, id);
      } else {
        MoveKeeps(With(s, r.tables), id, Recording(w.pc.ids));
      }
    }
  }

  lemma WorkSuccess(s: World, id: nat, choice: Choice)
    requires Inv(s) && id in s.workers && (s.workers[id].pc.Recording? || s.workers[id].pc.Resuming?)
    ensures Inv(DoFinish(s, id, choice))
  {
    hide Inv, InvBut;
    FromInv(s, id);
    var w := s.workers[id];
    if w.pc.Recording? && choice.Raise? {
      MoveKeeps(s, id, Handling);
    } else if !Act(s, w) {
      DropWorker(s, id);
    } else {
      SuccessWriteKeeps(s, id, w.pc.ids);
      if w.pc.Resuming? {
        DropWorker(Succeed(s, w, w.pc.ids), id);
      } else {
        MoveKeeps(Succeed(s, w, w.pc.ids), id, Reporting);
      }
    }
  }

  lemma FinishKeeps(s: World, id: nat, choice: Choice)
    requires Inv(s) && id in s.workers
    ensures Inv(DoFinish(s, id, choice))
  {
    hide Inv, InvBut;
    match s.workers[id].pc
    case Settling(_) => WorkSettling(s, id, choice);
    case Queueing(_) => WorkQueueing(s, id, choice);
    case Marking(_) => WorkMarking(s, id, choice);
    case Recording(_) => WorkSuccess(s, id, choice);
    case Resuming(_) => WorkSuccess(s, id, choice);
    case Reporting => FromInv(s, id); DropWorker(s, id);
    case _ =>
  }

  lemma WorkHandling(s: World, id: nat, choice: Choice)
    requires Inv(s) && id in s.workers && s.workers[id].pc.Handling?
    ensures Inv(DoUndo(s, id, choice))
  {
    hide Inv, InvBut;
    FromInv(s, id);
    ReplaceWorker(s, id, DoUndo(s, id, choice).workers[id]);
  }

  lemma WorkClosing(s: World, id: nat, choice: Choice)
    requires Inv(s) && id in s.workers && s.workers[id].pc.Closing?
    ensures Inv(DoUndo(s, id, choice))
  {
    hide Inv, InvBut;
    FromInv(s, id);
    var w := s.workers[id];
    match w.pc.next
    case Stop =>
      ChunkThen(s, id, w.pc.status, w.pc.write);
      var r := UpdateChunk(s.sys.tables, w.chunk, w.pc.status, w.pc.write, w.owner, s.sys.now);
      if r.Done? {
        FromInv(With(s, r.tables), id);
        DropWorker(With(s, r.tables), id);
      } else {
        DropWorker(s, id);
      }
    case TryAgain => ChunkMove(s, id, w.pc.status, w.pc.write, w.(pc := Beginning, attempt := w.attempt + 1));
    case ClaimAfresh => ChunkMove(s, id, w.pc.status, w.pc.write, w.(pc := Ensuring));
  }

  lemma UndoKeeps(s: World, id: nat, choice: Choice)
    requires Inv(s) && id in s.workers
    ensures Inv(DoUndo(s, id, choice))
  {
    hide Inv, InvBut;
    FromInv(s, id);
    match s.workers[id].pc
    case Unclaiming => WorkHashes(s, id, Some(if choice.Drop? then choice.claimed else {}));
    case Handling => WorkHandling(s, id, choice);
    case Undoing(mark) =>
      MarkMove(s, id, mark, if mark == ManifestFailed then Closing(ChunkFailed, None, Stop) else UndoingHashes(mark));
    case UndoingHashes(_) => WorkHashes(s, id, None);
    case Closing(_, _, _) => WorkClosing(s, id, choice);
    case _ =>
  }

  lemma WorkSkipEnsuring(s: World, id: nat)
    requires Inv(s) && id in s.workers && s.workers[id].pc.SkipEnsuring?
    ensures Inv(DoSkip(s, id))
  {
    hide Inv, InvBut;
    FromInv(s, id);
    var w := s.workers[id];
    var pc := if w.pc.superseded then SkipHashes else SkipLooking(false);
    if w.chunk in s.sys.tables.chunks {
      MoveKeeps(s, id, pc);
    } else {
      UpsertThen(s, id);
      var r := UpsertChunk(s.sys.tables, w.chunk, w.owner, s.sys.now);
      if r.LeaseLost? {
        DropWorker(s, id);
      } else {
        FromInv(With(s, r.tables), id);
        MoveKeeps(With(s, r.tables), id, pc);
      }
    }
  }

  lemma WorkSkipLooking(s: World, id: nat)
    requires Inv(s) && id in s.workers && s.workers[id].pc.SkipLooking?
    ensures Inv(DoSkip(s, id))
  {
    assert CommittedOk(s);
    hide Inv, InvBut;
    FromInv(s, id);
    var w := s.workers[id];
    var k := ManifestOf(w.chunk);
    var pc := if k !in s.sys.tables.manifests then SkipClaiming(w.pc.superseded)
              else if w.pc.superseded && s.sys.tables.manifests[k].status != Succeeded then
                if s.sys.tables.manifests[k].chunk.job == w.chunk.job then SkipMarking(true) else SkipClaiming(true)
              else Closing(Skipped, SkipIds(w.pc.superseded), Stop);
    MoveKeeps(s, id, pc);
  }

  lemma WorkSkipClaiming(s: World, id: nat)
    requires Inv(s) && id in s.workers && s.workers[id].pc.SkipClaiming?
    ensures Inv(DoSkip(s, id))
  {
    hide Inv, InvBut;
    FromInv(s, id);
    var w := s.workers[id];
    ClaimFacts(s, id);
    var r := ClaimManifest(s.sys.tables, w.chunk, w.owner, s.sys.now);
    if r.LeaseLost? {
      DropWorker(s, id);
    } else {
      MoveKeeps(With(s, r.tables), id,
                if r.changed then SkipMarking(w.pc.superseded) else Closing(Skipped, SkipIds(w.pc.superseded), Stop));
    }
  }

  lemma WorkSkipMarking(s: World, id: nat)
    requires Inv(s) && id in s.workers && s.workers[id].pc.SkipMarking?
    ensures Inv(DoSkip(s, id))
  {
    hide Inv, InvBut;
    FromInv(s, id);
    var w := s.workers[id];
    MarkThen(s, id, Succeeded, Some([]));
    var r := MarkManifest(s.sys.tables, w.chunk, Succeeded, Some([]), w.owner, s.sys.now);
    if r.LeaseLost? {
      DropWorker(s, id);
    } else {
      MoveKeeps(With(s, r.tables), id, Closing(Skipped, SkipIds(w.pc.superseded), Stop));
    }
  }

  lemma SkipKeeps(s: World, id: nat)
    requires Inv(s) && id in s.workers
    ensures Inv(DoSkip(s, id))
  {
    hide Inv;
    match s.workers[id].pc
    case SkipEnsuring(_) => WorkSkipEnsuring(s, id);
    case SkipHashes => WorkHashes(s, id, None);
    case SkipLooking(_) => WorkSkipLooking(s, id);
    case SkipClaiming(_) => WorkSkipClaiming(s, id);
    case SkipMarking(_) => WorkSkipMarking(s, id);
    case _ =>
  }

  lemma WorkKeeps(s: World, id: nat, choice: Choice)
    requires Inv(s) && id in s.workers
    ensures Inv(DoWork(s, id, choice))
  {
    hide Inv, DoClaim, DoStore, DoFinish, DoUndo, DoSkip;
    ClaimKeeps(s, id, choice);
    StoreKeeps(s, id, choice);
    FinishKeeps(s, id, choice);
    UndoKeeps(s, id, choice);
    SkipKeeps(s, id);
  }
}
