/**
A state and its calm image.  The image leaves out the workers inside the handler of an error behind
their success commit, veils the rows of chunks that such a handler gave up, and strikes their keys from
the committed history.  Whatever the other workers do, they do it in the image as well.
 */
module CommitMirror {
  import opened Wrappers
  import opened ImportTables
  import opened Fencing
  import opened CommitProtocol
  import opened CommitSafety
  import opened CommitVeil

  datatype Loose = Loose(late: set<nat>, gone: set<ChunkId>, struck: set<ManifestKey>)

  function Calm(s: World, l: Loose): World {
    s.(sys := s.sys.(tables := VeiledTables(s.sys.tables, l.gone)), workers := s.workers - l.late, committed := s.committed - l.struck)
  }

  // `s'` follows `s` by a step of worker `id` only.
  predicate Follows(s: World, s': World, id: nat) {
    && s'.plans == s.plans && s'.sys.now == s.sys.now && s'.sys.used == s.sys.used && Grown(s.sys.tables, s'.sys.tables)
    && s'.workers.Keys <= s.workers.Keys
    && (forall i :: i in s.workers && i != id ==> i in s'.workers && s'.workers[i] == s.workers[i])
    && (id in s'.workers ==>
          var w, w' := s.workers[id], s'.workers[id];
          w'.owner == w.owner && w'.chunk == w.chunk && (w'.pc.Reporting? ==> w.pc.Recording? || w.pc.Reporting?))
  }

  // ... and `q` is its image.
  predicate Mirrors(s: World, s': World, l: Loose, q: World, id: nat) {
    Calm(s', l) == q && Follows(s, s', id)
  }

  predicate Ordinary(s: World, l: Loose, id: nat) {
    id in s.workers && id !in l.late
  }

  /****** moves ******/

  lemma CalmKeeps(s: World, l: Loose)
    ensures var q := Calm(s, l);
            && q.sys.now == s.sys.now && q.sys.used == s.sys.used && q.vectors == s.vectors && q.plans == s.plans
            && q.listed == s.listed && q.committed == s.committed - l.struck
            && q.sys.tables == VeiledTables(s.sys.tables, l.gone) && q.sys.tables.jobs == s.sys.tables.jobs
            && q.sys.tables.manifests == s.sys.tables.manifests
            && q.workers.Keys == s.workers.Keys - l.late
            && (forall i :: Ordinary(s, l, i) ==> i in q.workers && q.workers[i] == s.workers[i])
            && (forall id :: id in s.workers ==> Mirrors(s, s, l, q, id))
  {
    assert Grown(s.sys.tables, s.sys.tables);
  }

  lemma CalmPut(s: World, l: Loose, id: nat, w: Worker)
    requires Ordinary(s, l, id) && w.owner == s.workers[id].owner && w.chunk == s.workers[id].chunk
    requires w.pc.Reporting? ==> s.workers[id].pc.Recording?
    ensures Mirrors(s, s.(workers := s.workers[id := w]), l, Calm(s, l).(workers := Calm(s, l).workers[id := w]), id)
  {
    assert s.workers[id := w] - l.late == (s.workers - l.late)[id := w];
  }

  lemma CalmHalt(s: World, l: Loose, id: nat)
    requires Ordinary(s, l, id)
    ensures Mirrors(s, Halt(s, id), l, Halt(Calm(s, l), id), id)
  {
    assert s.workers - {id} - l.late == s.workers - l.late - {id};
  }

  lemma CalmMove(s: World, l: Loose, id: nat, pc: Pc)
    requires Ordinary(s, l, id) && (pc.Reporting? ==> s.workers[id].pc.Recording?)
    ensures id in Calm(s, l).workers && Mirrors(s, Move(s, id, pc), l, Move(Calm(s, l), id, pc), id)
  {
    CalmPut(s, l, id, s.workers[id].(pc := pc));
  }

  lemma CalmWith(s: World, l: Loose, id: nat, r: Fenced)
    requires Ordinary(s, l, id) && GrownBy(s.sys.tables, r)
    ensures r.Done? ==> Mirrors(s, With(s, r.tables), l, With(Calm(s, l), VeiledTables(r.tables, l.gone)), id)
  {
  }

  lemma CalmMoveWith(s: World, l: Loose, id: nat, t: Tables, pc: Pc)
    requires Ordinary(s, l, id) && !pc.Reporting? && Grown(s.sys.tables, t)
    ensures id in With(s, t).workers && id in With(Calm(s, l), VeiledTables(t, l.gone)).workers
    ensures Mirrors(s, Move(With(s, t), id, pc), l, Move(With(Calm(s, l), VeiledTables(t, l.gone)), id, pc), id)
  {
    CalmMove(With(s, t), l, id, pc);
  }

  lemma CalmHaltWith(s: World, l: Loose, id: nat, t: Tables)
    requires Ordinary(s, l, id) && Grown(s.sys.tables, t)
    ensures Mirrors(s, Halt(With(s, t), id), l, Halt(With(Calm(s, l), VeiledTables(t, l.gone)), id), id)
  {
    CalmHalt(With(s, t), l, id);
  }

  lemma CalmPutWith(s: World, l: Loose, id: nat, t: Tables, w: Worker)
    requires Ordinary(s, l, id) && w.owner == s.workers[id].owner && w.chunk == s.workers[id].chunk && !w.pc.Reporting?
    requires Grown(s.sys.tables, t)
    ensures Mirrors(s, With(s, t).(workers := s.workers[id := w]), l,
                    With(Calm(s, l), VeiledTables(t, l.gone)).(workers := Calm(s, l).workers[id := w]), id)
  {
    CalmPut(With(s, t), l, id, w);
  }

  lemma CalmWriteThen(s: World, l: Loose, id: nat, r: Fenced, pc: Pc)
    requires Ordinary(s, l, id) && !pc.Reporting? && GrownBy(s.sys.tables, r)
    ensures id in Calm(s, l).workers
    ensures Mirrors(s, WriteThen(s, id, r, pc), l, WriteThen(Calm(s, l), id, VeiledResult(r, l.gone), pc), id)
  {
    CalmHalt(s, l, id);
    if r.Done? {
      CalmMoveWith(s, l, id, r.tables, pc);
    }
  }

  lemma CalmHold(s: World, l: Loose, id: nat, t: Tables)
    requires Ordinary(s, l, id) && ManifestOf(s.workers[id].chunk) in t.manifests && Grown(s.sys.tables, t)
    ensures Mirrors(s, HoldClaim(s, id, t), l, HoldClaim(Calm(s, l), id, VeiledTables(t, l.gone)), id)
  {
    var w := s.workers[id];
    CalmPutWith(s, l, id, t, w.(pc := Beginning, attempt := 1, reconcile := t.manifests[ManifestOf(w.chunk)].attempts > 1));
  }

  lemma CalmBusy(s: World, l: Loose, id: nat, t: Tables, choice: Choice)
    requires Ordinary(s, l, id) && Grown(s.sys.tables, t)
    ensures Mirrors(s, BusyThen(s, id, t, choice), l, BusyThen(Calm(s, l), id, VeiledTables(t, l.gone), choice), id)
  {
    CalmMoveWith(s, l, id, t, if choice.Busy? && choice.again then Closing(Retrying, None, ClaimAfresh)
                              else Closing(ChunkFailed, None, Stop));
  }

  lemma CalmClaimThen(s: World, l: Loose, id: nat, r: Fenced, choice: Choice)
    requires Ordinary(s, l, id) && (r.Done? ==> ManifestOf(s.workers[id].chunk) in r.tables.manifests) && GrownBy(s.sys.tables, r)
    ensures id in Calm(s, l).workers && Calm(s, l).workers[id] == s.workers[id]
    ensures Mirrors(s, ClaimThen(s, id, r, choice), l, ClaimThen(Calm(s, l), id, VeiledResult(r, l.gone), choice), id)
  {
    hide Mirrors, Calm, Move, Halt, With, HoldClaim, BusyThen, VeiledChunks, Reclaimable, Grown;
    CalmKeeps(s, l);
    CalmHalt(s, l, id);
    if r.Done? {
      var t := VeiledTables(r.tables, l.gone);
      assert t.manifests == r.tables.manifests;
      var c := s.workers[id].chunk;
      var m := r.tables.manifests[ManifestOf(c)];
      hide VeiledTables;
      if r.changed {
        CalmHold(s, l, id, r.tables);
      } else if m.status == Split {
        CalmMoveWith(s, l, id, r.tables, Undoing(Split));
      } else if m.status == Succeeded {
        CalmMoveWith(s, l, id, r.tables, if m.chunk.job == c.job then Resuming(m.memoryIds) else Closing(Skipped, None, Stop));
      } else if m.status == Claimed && m.chunk == c {
        CalmMoveWith(s, l, id, r.tables, Peeking);
      } else {
        CalmBusy(s, l, id, r.tables, choice);
      }
    }
  }

  /****** the steps of a worker ******/

  lemma CalmRows(s: World, l: Loose, k: ManifestKey)
    ensures RowsOf(Calm(s, l), k) == RowsOf(s, k)
  {
  }

  // The upserted row says succeeded behind the veil exactly if it does.
  lemma UpsertUnveiled(t: Tables, gone: set<ChunkId>, c: ChunkId, owner: Owner, now: Time)
    requires c in gone && c in t.chunks ==> t.chunks[c].status != ChunkSucceeded
    ensures var r := UpsertChunk(t, c, owner, now);
            r.Done? ==> c in r.tables.chunks && c in VeiledTables(r.tables, gone).chunks
                        && VeiledTables(r.tables, gone).chunks[c] == r.tables.chunks[c]
  {
  }

  lemma CalmEnsure(s: World, l: Loose, id: nat, choice: Choice)
    requires Ordinary(s, l, id) && s.workers[id].pc.Ensuring?
    requires var c := s.workers[id].chunk; c in l.gone ==> NotSucceeded(s, c)
    ensures Mirrors(s, DoClaim(s, id, choice), l, DoClaim(Calm(s, l), id, choice), id)
  {
    var w := s.workers[id];
    var r := UpsertChunk(s.sys.tables, w.chunk, w.owner, s.sys.now);
    VeilUpsert(s.sys.tables, l.gone, w.chunk, w.owner, s.sys.now);
    UpsertUnveiled(s.sys.tables, l.gone, w.chunk, w.owner, s.sys.now);
    hide Mirrors, Calm, Move, Halt, With, WriteThen, UpsertChunk, Grown, VeiledRow, VeiledChunks, VeiledTables;
    CalmKeeps(s, l);
    CalmHalt(s, l, id);
    CalmWriteThen(s, l, id, r, Claiming);
  }

  lemma CalmClaim(s: World, l: Loose, id: nat, choice: Choice)
    requires Ordinary(s, l, id)
    requires var pc := s.workers[id].pc; pc.Claiming? || pc.Peeking? || pc.Reclaiming? || pc.ReclaimingHashes? || pc.ClaimingAgain?
    ensures Mirrors(s, DoClaim(s, id, choice), l, DoClaim(Calm(s, l), id, choice), id)
  {
    hide Mirrors, Calm, Move, Halt, With, WriteThen, ClaimThen, HoldClaim, BusyThen, MarkManifest, ReleaseHashes, VeiledChunks, Grown, RowsOf;
    var w := s.workers[id];
    var c, k, t, now := w.chunk, ManifestOf(w.chunk), s.sys.tables, s.sys.now;
    CalmKeeps(s, l);
    match w.pc
    case Claiming =>
      VeilClaim(t, l.gone, c, w.owner, now);
      CalmClaimThen(s, l, id, ClaimManifest(t, c, w.owner, now), choice);
    case Peeking =>
      CalmRows(s, l, k);
      CalmPut(s, l, id, w.(pc := Beginning, attempt := 1, reconcile := true));
      CalmMove(s, l, id, Reclaiming);
    case Reclaiming =>
      VeilMark(t, l.gone, c, Released, None, w.owner, now);
      CalmWriteThen(s, l, id, MarkManifest(t, c, Released, None, w.owner, now), ReclaimingHashes);
    case ReclaimingHashes =>
      VeilRelease(t, l.gone, c, None, w.owner, now);
      CalmWriteThen(s, l, id, ReleaseHashes(t, c, None, w.owner, now), ClaimingAgain);
    case ClaimingAgain =>
      var r := ClaimManifest(t, c, w.owner, now);
      VeilClaim(t, l.gone, c, w.owner, now);
      CalmHalt(s, l, id);
      if r.Done? {
        CalmBusy(s, l, id, r.tables, choice);
        if r.changed {
          CalmHold(s, l, id, r.tables);
        }
      }
  }

  lemma CalmBegin(s: World, l: Loose, id: nat, choice: Choice)
    requires Ordinary(s, l, id) && (s.workers[id].pc.Beginning? || s.workers[id].pc.Storing?)
    ensures Mirrors(s, DoStore(s, id, choice), l, DoStore(Calm(s, l), id, choice), id)
  {
    hide Mirrors, Calm, Move, Halt, WriteThen, UpdateChunk, RowsOf, LeaseActive, Distinct, VeiledChunks, VeiledResult, Grown;
    var w := s.workers[id];
    var c, k, t, now := w.chunk, ManifestOf(w.chunk), s.sys.tables, s.sys.now;
    CalmKeeps(s, l);
    CalmRows(s, l, k);
    CalmHalt(s, l, id);
    match w.pc
    case Beginning =>
      CalmMove(s, l, id, Undoing(Released));
      VeilUpdate(t, l.gone, c, Processing, None, w.owner, now);
      CalmWriteThen(s, l, id, UpdateChunk(t, c, Processing, None, w.owner, now), Storing);
    case Storing =>
      CalmMove(s, l, id, Handling);
      CalmMove(s, l, id, Extracting);
      if choice.Rows? {
        CalmMove(s, l, id, Settling(choice.ids));
      }
  }

  lemma CalmInsert(s: World, l: Loose, id: nat, ids: seq<MemoryId>, k: ManifestKey)
    requires Ordinary(s, l, id)
    ensures var vectors, q := s.vectors + map i | i in ids :: k, Calm(s, l);
            id in q.workers && Mirrors(s, Move(s.(vectors := vectors), id, Settling(ids)), l, Move(q.(vectors := vectors), id, Settling(ids)), id)
  {
    CalmMove(s.(vectors := s.vectors + map i | i in ids :: k), l, id, Settling(ids));
  }

  lemma CalmExtract(s: World, l: Loose, id: nat, choice: Choice)
    requires Ordinary(s, l, id) && (s.workers[id].pc.Extracting? || s.workers[id].pc.Inserting?)
    ensures Mirrors(s, DoStore(s, id, choice), l, DoStore(Calm(s, l), id, choice), id)
  {
    hide Mirrors, Calm, Move, Halt, With, ClaimHash, LeaseActive, Distinct, VeiledChunks, Grown;
    var w := s.workers[id];
    var c, k, t, now := w.chunk, ManifestOf(w.chunk), s.sys.tables, s.sys.now;
    CalmKeeps(s, l);
    CalmHalt(s, l, id);
    CalmMove(s, l, id, Unclaiming);
    match w.pc
    case Extracting =>
      if choice.Ready? {
        CalmMove(s, l, id, Settling([]));
        CalmMove(s, l, id, Inserting(choice.ids));
      }
      if choice.Take? {
        VeilTake(t, l.gone, choice.h, c, w.owner, now);
        CalmWith(s, l, id, ClaimHash(t, choice.h, c, w.owner, now));
      }
    case Inserting(ids) => CalmInsert(s, l, id, ids, k);
  }

  lemma CalmSettle(s: World, l: Loose, id: nat, choice: Choice)
    requires Ordinary(s, l, id)
    requires var pc := s.workers[id].pc; pc.Settling? || pc.Queueing? || pc.Marking?
    ensures Mirrors(s, DoFinish(s, id, choice), l, DoFinish(Calm(s, l), id, choice), id)
  {
    hide Mirrors, Calm, Move, WriteThen, MarkHashes, AddGraphItems, MarkManifest, VeiledChunks, VeiledResult, Grown;
    var w := s.workers[id];
    var c, t, now := w.chunk, s.sys.tables, s.sys.now;
    CalmKeeps(s, l);
    CalmMove(s, l, id, Handling);
    match w.pc
    case Settling(ids) =>
      CalmMove(s, l, id, Unclaiming);
      if choice.Settle? {
        VeilSettle(t, l.gone, c, choice.conversation, choice.settled, choice.found, w.owner, now);
        CalmWriteThen(s, l, id, MarkHashes(t, c, choice.conversation, choice.settled, choice.found, w.owner, now), Queueing(ids));
      }
    case Queueing(ids) =>
      VeilQueue(t, l.gone, c, ids, w.owner, now);
      CalmWriteThen(s, l, id, AddGraphItems(t, c, ids, w.owner, now), Marking(ids));
    case Marking(ids) =>
      VeilMark(t, l.gone, c, Succeeded, Some(ids), w.owner, now);
      CalmWriteThen(s, l, id, MarkManifest(t, c, Succeeded, Some(ids), w.owner, now), Recording(ids));
  }

  /****** the success commit ******/

  /** The step records the chunk of worker `id` as succeeded. */
  predicate Records(s: World, id: nat, choice: Choice)
    requires id in s.workers
  {
    var w := s.workers[id];
    && ((w.pc.Recording? && !choice.Raise?) || w.pc.Resuming?) && Act(s, w)
    && w.chunk in s.sys.tables.chunks && ManifestOf(w.chunk) in s.sys.tables.manifests
  }

  // It lifts the veil from the row and puts the key back into the history.
  function WorkAfter(s: World, id: nat, choice: Choice, l: Loose): Loose
    requires id in s.workers
  {
    if Records(s, id, choice) then l.(gone := l.gone - {s.workers[id].chunk}, struck := l.struck - {ManifestOf(s.workers[id].chunk)})
    else l
  }

  // What recording relies on: the row and the manifest are there.
  predicate CanRecord(s: World, w: Worker) {
    (w.pc.Recording? || w.pc.Resuming?) && Act(s, w) ==>
      w.chunk in s.sys.tables.chunks && ManifestOf(w.chunk) in s.sys.tables.manifests
  }

  lemma CalmCommit(s: World, l: Loose, id: nat, t: Tables)
    requires Ordinary(s, l, id) && Grown(s.sys.tables, t) && ManifestOf(s.workers[id].chunk) in t.manifests
    ensures var c := s.workers[id].chunk;
            var k, l' := ManifestOf(c), l.(gone := l.gone - {c}, struck := l.struck - {ManifestOf(c)});
            var s1, q1 := Commit(With(s, t), k), Commit(With(Calm(s, l), VeiledTables(t, l'.gone)), k);
            && id in s1.workers && id in q1.workers
            && Mirrors(s, Halt(s1, id), l', Halt(q1, id), id)
            && (s.workers[id].pc.Recording? ==> Mirrors(s, Move(s1, id, Reporting), l', Move(q1, id, Reporting), id))
  {
    var c := s.workers[id].chunk;
    var k, l' := ManifestOf(c), l.(gone := l.gone - {c}, struck := l.struck - {ManifestOf(c)});
    var s1 := Commit(With(s, t), k);
    assert s.committed[k := t.manifests[k]] - l'.struck == (s.committed - l.struck)[k := t.manifests[k]];
    assert Calm(s1, l') == Commit(With(Calm(s, l), VeiledTables(t, l'.gone)), k);
    CalmHalt(s1, l', id);
    if s.workers[id].pc.Recording? {
      CalmMove(s1, l', id, Reporting);
    }
  }

  lemma RecordDone(s: World, id: nat, choice: Choice)
    requires id in s.workers && Records(s, id, choice)
    ensures var w := s.workers[id];
            var r := UpdateChunk(s.sys.tables, w.chunk, ChunkSucceeded, Some(w.pc.ids), w.owner, s.sys.now);
            r.Done? && r.tables.manifests == s.sys.tables.manifests
  {
  }

  lemma RecordIs(s: World, id: nat, choice: Choice)
    requires id in s.workers && ((s.workers[id].pc.Recording? && !choice.Raise?) || s.workers[id].pc.Resuming?)
    ensures var w := s.workers[id];
            var r := UpdateChunk(s.sys.tables, w.chunk, ChunkSucceeded, Some(w.pc.ids), w.owner, s.sys.now);
            r.Done? ==>
              var s1 := Commit(With(s, r.tables), ManifestOf(w.chunk));
              id in s1.workers && DoFinish(s, id, choice) == if w.pc.Recording? then Move(s1, id, Reporting) else Halt(s1, id)
  {
    hide UpdateChunk;
  }

  lemma CalmSuccess(s: World, l: Loose, id: nat, choice: Choice)
    requires Ordinary(s, l, id) && Records(s, id, choice)
    ensures Mirrors(s, DoFinish(s, id, choice), WorkAfter(s, id, choice, l), DoFinish(Calm(s, l), id, choice), id)
  {
    var w := s.workers[id];
    var r := UpdateChunk(s.sys.tables, w.chunk, ChunkSucceeded, Some(w.pc.ids), w.owner, s.sys.now);
    RecordDone(s, id, choice);
    hide DoFinish, Mirrors, Calm, Move, Halt, With, Commit, UpdateChunk, VeiledTables, Act, ManifestOf, Grown;
    CalmKeeps(s, l);
    VeilUpdate(s.sys.tables, l.gone, w.chunk, ChunkSucceeded, Some(w.pc.ids), w.owner, s.sys.now);
    CalmCommit(s, l, id, r.tables);
    RecordIs(s, id, choice);
    RecordIs(Calm(s, l), id, choice);
  }

  lemma CalmRecord(s: World, l: Loose, id: nat, choice: Choice)
    requires Ordinary(s, l, id) && (s.workers[id].pc.Recording? || s.workers[id].pc.Resuming? || s.workers[id].pc.Reporting?)
    requires CanRecord(s, s.workers[id])
    ensures Mirrors(s, DoFinish(s, id, choice), WorkAfter(s, id, choice, l), DoFinish(Calm(s, l), id, choice), id)
  {
    if Records(s, id, choice) {
      CalmSuccess(s, l, id, choice);
    } else {
      hide Mirrors, Calm, Move, Halt, With, Commit, VeiledChunks, Grown;
      CalmKeeps(s, l);
      CalmHalt(s, l, id);
      CalmMove(s, l, id, Handling);
    }
  }

  /****** exceptions and skips ******/

  lemma CalmHandle(s: World, l: Loose, id: nat, choice: Choice)
    requires Ordinary(s, l, id)
    requires var pc := s.workers[id].pc; pc.Unclaiming? || pc.Handling? || pc.Undoing? || pc.UndoingHashes?
    ensures Mirrors(s, DoUndo(s, id, choice), l, DoUndo(Calm(s, l), id, choice), id)
  {
    hide Mirrors, Calm, Move, WriteThen, ReleaseHashes, MarkManifest, VeiledChunks, VeiledResult, Grown;
    var w := s.workers[id];
    var c, t, now := w.chunk, s.sys.tables, s.sys.now;
    CalmKeeps(s, l);
    match w.pc
    case Unclaiming =>
      var only := Some(if choice.Drop? then choice.claimed else {});
      VeilRelease(t, l.gone, c, only, w.owner, now);
      CalmWriteThen(s, l, id, ReleaseHashes(t, c, only, w.owner, now), Handling);
    case Handling =>
      if choice.Give? {
        CalmMove(s, l, id, Undoing(choice.up));
      }
      CalmMove(s, l, id, Closing(Retrying, None, TryAgain));
    case Undoing(mark) =>
      VeilMark(t, l.gone, c, mark, None, w.owner, now);
      CalmWriteThen(s, l, id, MarkManifest(t, c, mark, None, w.owner, now),
                    if mark == ManifestFailed then Closing(ChunkFailed, None, Stop) else UndoingHashes(mark));
    case UndoingHashes(mark) =>
      VeilRelease(t, l.gone, c, None, w.owner, now);
      CalmWriteThen(s, l, id, ReleaseHashes(t, c, None, w.owner, now),
                    Closing(if mark == Split then ChunkSplit else ChunkCancelled, None, Stop));
  }

  lemma CalmClose(s: World, l: Loose, id: nat, choice: Choice)
    requires Ordinary(s, l, id) && s.workers[id].pc.Closing? && s.workers[id].pc.status != ChunkSucceeded
    ensures Mirrors(s, DoUndo(s, id, choice), l, DoUndo(Calm(s, l), id, choice), id)
  {
    hide Mirrors, Calm, Move, Halt, With, UpdateChunk, VeiledChunks, VeiledTables, Grown;
    var w := s.workers[id];
    var r := UpdateChunk(s.sys.tables, w.chunk, w.pc.status, w.pc.write, w.owner, s.sys.now);
    CalmKeeps(s, l);
    VeilUpdate(s.sys.tables, l.gone, w.chunk, w.pc.status, w.pc.write, w.owner, s.sys.now);
    CalmHalt(s, l, id);
    if r.Done? {
      CalmHaltWith(s, l, id, r.tables);
      CalmPutWith(s, l, id, r.tables, w.(pc := Beginning, attempt := w.attempt + 1));
      CalmMoveWith(s, l, id, r.tables, Ensuring);
    }
  }

  lemma CalmSkip(s: World, l: Loose, id: nat)
    requires Ordinary(s, l, id)
    ensures Mirrors(s, DoSkip(s, id), l, DoSkip(Calm(s, l), id), id)
  {
    hide Mirrors, Calm, Move, Halt, With, WriteThen, ReleaseHashes, MarkManifest, ClaimManifest, SkipIds, VeiledChunks, Grown;
    var w := s.workers[id];
    var c, k, t, now := w.chunk, ManifestOf(w.chunk), s.sys.tables, s.sys.now;
    CalmKeeps(s, l);
    match w.pc
    case SkipEnsuring(superseded) =>
      var next := if superseded then SkipHashes else SkipLooking(false);
      CalmMove(s, l, id, next);
      if c !in t.chunks {
        VeilUpsert(t, l.gone, c, w.owner, now);
        CalmWriteThen(s, l, id, UpsertChunk(t, c, w.owner, now), next);
      }
      hide UpsertChunk, VeiledResult;
    case SkipHashes =>
      VeilRelease(t, l.gone, c, None, w.owner, now);
      CalmWriteThen(s, l, id, ReleaseHashes(t, c, None, w.owner, now), SkipLooking(true));
    case SkipLooking(superseded) =>
      CalmMove(s, l, id, SkipClaiming(superseded));
      CalmMove(s, l, id, SkipMarking(superseded));
      CalmMove(s, l, id, Closing(Skipped, SkipIds(superseded), Stop));
    case SkipClaiming(superseded) =>
      var r := ClaimManifest(t, c, w.owner, now);
      VeilClaim(t, l.gone, c, w.owner, now);
      CalmHalt(s, l, id);
      if r.Done? {
        CalmMoveWith(s, l, id, r.tables, if r.changed then SkipMarking(superseded) else Closing(Skipped, SkipIds(superseded), Stop));
      }
    case SkipMarking(superseded) =>
      VeilMark(t, l.gone, c, Succeeded, Some([]), w.owner, now);
      CalmWriteThen(s, l, id, MarkManifest(t, c, Succeeded, Some([]), w.owner, now), Closing(Skipped, SkipIds(superseded), Stop));
    case _ =>
  }

  lemma AfterOthers(s: World, id: nat, choice: Choice, l: Loose)
    requires id in s.workers && !s.workers[id].pc.Recording? && !s.workers[id].pc.Resuming?
    ensures WorkAfter(s, id, choice, l) == l
  {
  }

  /** A worker's step is the same in the image, unless the worker finds its own veiled row succeeded. */
  lemma CalmWork(s: World, l: Loose, id: nat, choice: Choice)
    requires Ordinary(s, l, id) && CanRecord(s, s.workers[id])
    requires var w := s.workers[id]; (w.pc.Ensuring? && w.chunk in l.gone ==> NotSucceeded(s, w.chunk))
                                     && (w.pc.Closing? ==> w.pc.status != ChunkSucceeded)
    ensures id in Calm(s, l).workers
    ensures Mirrors(s, DoWork(s, id, choice), WorkAfter(s, id, choice, l), DoWork(Calm(s, l), id, choice), id)
  {
    hide DoClaim, DoStore, DoFinish, DoUndo, DoSkip, Calm, Mirrors, NotSucceeded, CanRecord, Act, WorkAfter, VeiledTables;
    CalmKeeps(s, l);
    var pc := s.workers[id].pc;
    if pc.Recording? || pc.Resuming? || pc.Reporting? {
      CalmRecord(s, l, id, choice);
    } else {
      AfterOthers(s, id, choice, l);
      if pc.Ensuring? {
        CalmEnsure(s, l, id, choice);
      } else if pc.Claiming? || pc.Peeking? || pc.Reclaiming? || pc.ReclaimingHashes? || pc.ClaimingAgain? {
        CalmClaim(s, l, id, choice);
      } else if pc.Beginning? || pc.Storing? {
        CalmBegin(s, l, id, choice);
      } else if pc.Extracting? || pc.Inserting? {
        CalmExtract(s, l, id, choice);
      } else if pc.Settling? || pc.Queueing? || pc.Marking? {
        CalmSettle(s, l, id, choice);
      } else if pc.Unclaiming? || pc.Handling? || pc.Undoing? || pc.UndoingHashes? {
        CalmHandle(s, l, id, choice);
      } else if pc.Closing? {
        CalmClose(s, l, id, choice);
      } else {
        CalmSkip(s, l, id);
      }
    }
  }
}
