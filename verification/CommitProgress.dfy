/**
Where a worker ends up that keeps its lease: a claim leads to the branch its manifest calls for, and each
branch, run to its end, leaves the rows it is meant to leave.
 */
module CommitProgress {
  import opened Wrappers
  import opened ImportTables
  import opened Fencing
  import opened CommitProtocol
  import opened CommitSafety

  // The worker's steps under these choices, with nothing in between
  function Works(s: World, id: nat, choices: seq<Choice>): World
    decreases |choices|
  {
    if choices == [] || id !in s.workers then s else Works(DoWork(s, id, choices[0]), id, choices[1..])
  }

  // The worker stands at `pc` with a live lease on the job of `c`.
  predicate At(s: World, id: nat, c: ChunkId, pc: Pc) {
    id in s.workers && s.workers[id].chunk == c && s.workers[id].pc == pc && Act(s, s.workers[id])
  }

  predicate RowIs(s: World, c: ChunkId, status: ChunkStatus, ids: seq<MemoryId>) {
    c in s.sys.tables.chunks && s.sys.tables.chunks[c] == ChunkRow(status, ids)
  }

  // The job's own manifest for the key of `c`
  predicate ManifestIs(s: World, c: ChunkId, status: ManifestStatus, ids: seq<MemoryId>) {
    var k, ms := ManifestKey(c.project, c.key), s.sys.tables.manifests;
    k in ms && ms[k].chunk.job == c.job && ms[k].status == status && ms[k].memoryIds == ids
  }

  predicate Owns(s: World, c: ChunkId) {
    var k, ms := ManifestKey(c.project, c.key), s.sys.tables.manifests;
    k in ms && ms[k].chunk.job == c.job
  }

  predicate Gone(s: World, id: nat) {
    id !in s.workers
  }

  lemma OneStep(s: World, id: nat, choice: Choice, rest: seq<Choice>)
    requires id in s.workers
    ensures Works(s, id, [choice] + rest) == Works(DoWork(s, id, choice), id, rest)
  {
    hide DoWork;
    assert ([choice] + rest)[1..] == rest;
  }

  lemma NoStep(s: World, id: nat)
    ensures Works(s, id, []) == s
  {
  }

  /****** claiming ******/

  /**
  Where a claim under a live lease leads: a manifest that is absent, failed or released is taken, unless it is
  that of a split; a split is repeated, a finished one resumed by its own job and skipped by others, the chunk's
  own open claim looked into, and an open claim of another chunk waited for or given up.
   */
  lemma ClaimLeads(s: World, id: nat, c: ChunkId, choice: Choice)
    requires At(s, id, c, Claiming)
    ensures var t, k, s' := s.sys.tables, ManifestKey(c.project, c.key), DoWork(s, id, choice);
            && id in s'.workers && s'.workers[id].chunk == c && s'.workers[id].owner == s.workers[id].owner
            && var pc := s'.workers[id].pc;
            && (k !in t.manifests ==> pc == Beginning)
            && (k in t.manifests ==>
                  var m := t.manifests[k];
                  var legacy := m.status == Released && m.chunk in t.chunks && t.chunks[m.chunk].status == ChunkSplit;
                  match m.status
                  case ManifestFailed => pc == Beginning
                  case Released => pc == if legacy then Undoing(Split) else Beginning
                  case Split => pc == Undoing(Split)
                  case Succeeded => pc == if m.chunk.job == c.job then Resuming(m.memoryIds) else Closing(Skipped, None, Stop)
                  case Claimed =>
                    pc == if m.chunk == c then Peeking
                          else if choice == Busy(true) then Closing(Retrying, None, ClaimAfresh) else Closing(ChunkFailed, None, Stop))
  {
    var r := ClaimManifest(s.sys.tables, c, s.workers[id].owner, s.sys.now);
    ClaimResult(s.sys.tables, c, s.workers[id].owner, s.sys.now);
    assert DoWork(s, id, choice) == ClaimThen(s, id, r, choice) by {
      hide ClaimManifest, ClaimThen;
    }
    hide DoWork, ClaimManifest, LeaseActive, ClaimThen, At;
    ClaimAnswer(s, id, c, r, choice);
  }

  // Where the worker goes on, given the manifest as the claim left it
  predicate LedTo(s: World, id: nat, c: ChunkId, s': World, pc: Pc)
    requires id in s.workers
  {
    id in s'.workers && s'.workers[id].chunk == c && s'.workers[id].owner == s.workers[id].owner && s'.workers[id].pc == pc
  }

  lemma ClaimAnswer(s: World, id: nat, c: ChunkId, r: Fenced, choice: Choice)
    requires id in s.workers && s.workers[id].chunk == c && r.Done? && ManifestKey(c.project, c.key) in r.tables.manifests
    ensures var m, s' := r.tables.manifests[ManifestKey(c.project, c.key)], ClaimThen(s, id, r, choice);
            LedTo(s, id, c, s',
                  if r.changed then Beginning
                  else if m.status == Split then Undoing(Split)
                  else if m.status == Succeeded then (if m.chunk.job == c.job then Resuming(m.memoryIds) else Closing(Skipped, None, Stop))
                  else if m.status == Claimed && m.chunk == c then Peeking
                  else if choice == Busy(true) then Closing(Retrying, None, ClaimAfresh) else Closing(ChunkFailed, None, Stop))
  {
    hide Move, HoldClaim;
    HoldLeads(s, id, c, r);
    forall pc ensures LedTo(s, id, c, Move(With(s, r.tables), id, pc), pc) {
      MoveLeads(s, id, c, r.tables, pc);
    }
    hide LedTo;
  }

  lemma HoldLeads(s: World, id: nat, c: ChunkId, r: Fenced)
    requires id in s.workers && s.workers[id].chunk == c && r.Done? && ManifestOf(c) in r.tables.manifests
    ensures LedTo(s, id, c, HoldClaim(s, id, r.tables), Beginning)
  {
  }

  lemma MoveLeads(s: World, id: nat, c: ChunkId, t: Tables, pc: Pc)
    requires id in s.workers && s.workers[id].chunk == c
    ensures LedTo(s, id, c, Move(With(s, t), id, pc), pc)
  {
  }

  lemma ClaimResult(t: Tables, c: ChunkId, owner: Owner, now: Time)
    requires LeaseActive(t.jobs, c.job, owner, now)
    ensures var r, k := ClaimManifest(t, c, owner, now), ManifestKey(c.project, c.key);
            && r.Done? && k in r.tables.manifests
            && (k !in t.manifests ==> r.changed)
            && (k in t.manifests ==>
                  var m := t.manifests[k];
                  var legacy := m.status == Released && m.chunk in t.chunks && t.chunks[m.chunk].status == ChunkSplit;
                  && (r.changed <==> (m.status == ManifestFailed || m.status == Released) && !legacy)
                  && (!r.changed ==> r.tables.manifests[k] == if legacy then m.(status := Split) else m))
  {
    hide LeaseActive;
  }

  /** An own open claim is gone on with when there are stored rows, which are then reconciled, and else given back first. */
  lemma PeekLeads(s: World, id: nat, c: ChunkId, choice: Choice)
    requires At(s, id, c, Peeking)
    ensures var s' := DoWork(s, id, choice);
            && s'.sys == s.sys && s'.vectors == s.vectors && id in s'.workers && s'.workers[id].chunk == c
            && if exists m :: m in s.vectors && s.vectors[m] == ManifestKey(c.project, c.key)
               then s'.workers[id].pc == Beginning && s'.workers[id].attempt == 1 && s'.workers[id].reconcile
               else s'.workers[id].pc == Reclaiming
  {
    hide DoStore, DoFinish, DoUndo, DoSkip;
    if exists m :: m in s.vectors && s.vectors[m] == ManifestOf(c) {
      var m :| m in s.vectors && s.vectors[m] == ManifestOf(c);
      assert m in RowsOf(s, ManifestOf(c));
    }
  }

  /****** committing ******/

  lemma Settled(s: World, id: nat, c: ChunkId, ids: seq<MemoryId>, choice: Choice)
    requires At(s, id, c, Settling(ids)) && choice.Settle? && Owns(s, c) && c in s.sys.tables.chunks
    ensures var s' := DoWork(s, id, choice);
            At(s', id, c, Queueing(ids)) && Owns(s', c) && c in s'.sys.tables.chunks && s'.vectors == s.vectors
  {
    hide DoClaim, DoStore, DoUndo, DoSkip;
  }

  lemma Queued(s: World, id: nat, c: ChunkId, ids: seq<MemoryId>)
    requires At(s, id, c, Queueing(ids)) && Owns(s, c) && c in s.sys.tables.chunks
    ensures var s' := DoWork(s, id, Go);
            && At(s', id, c, Marking(ids)) && Owns(s', c) && c in s'.sys.tables.chunks && s'.vectors == s.vectors
            && forall i :: i in ids ==> GraphKey(c, i) in s'.sys.tables.graph
  {
    hide DoClaim, DoStore, DoUndo, DoSkip;
  }

  lemma Marked(s: World, id: nat, c: ChunkId, ids: seq<MemoryId>)
    requires At(s, id, c, Marking(ids)) && Owns(s, c) && c in s.sys.tables.chunks
    ensures var s' := DoWork(s, id, Go);
            && At(s', id, c, Recording(ids)) && ManifestIs(s', c, Succeeded, ids) && c in s'.sys.tables.chunks
            && s'.vectors == s.vectors && s'.sys.tables.graph == s.sys.tables.graph
  {
    hide DoClaim, DoStore, DoUndo, DoSkip;
  }

  lemma Recorded(s: World, id: nat, c: ChunkId, ids: seq<MemoryId>)
    requires At(s, id, c, Recording(ids)) && ManifestIs(s, c, Succeeded, ids) && c in s.sys.tables.chunks
    ensures var s' := DoWork(s, id, Go);
            && At(s', id, c, Reporting) && ManifestIs(s', c, Succeeded, ids) && RowIs(s', c, ChunkSucceeded, ids)
            && s'.vectors == s.vectors && s'.sys.tables.graph == s.sys.tables.graph
  {
    hide DoClaim, DoStore, DoUndo, DoSkip;
  }

  lemma Reported(s: World, id: nat, c: ChunkId)
    requires At(s, id, c, Reporting)
    ensures var s' := DoWork(s, id, Go); Gone(s', id) && s'.sys == s.sys && s'.vectors == s.vectors
  {
    hide DoClaim, DoStore, DoUndo, DoSkip;
  }

  lemma CommitTail(s: World, id: nat, c: ChunkId, ids: seq<MemoryId>)
    requires At(s, id, c, Marking(ids)) && Owns(s, c) && c in s.sys.tables.chunks
    ensures var e := Works(s, id, [Go, Go, Go]);
            && Gone(e, id) && RowIs(e, c, ChunkSucceeded, ids) && ManifestIs(e, c, Succeeded, ids)
            && e.vectors == s.vectors && e.sys.tables.graph == s.sys.tables.graph
  {
    hide *;
    Unfold(s, id, c, Marking(ids));
    assert [Go] + [Go, Go] == [Go, Go, Go] && [Go] + [Go] == [Go, Go] && [Go] + [] == [Go];
    OneStep(s, id, Go, [Go, Go]);
    Marked(s, id, c, ids);
    var s3 := DoWork(s, id, Go);
    Unfold(s3, id, c, Recording(ids));
    OneStep(s3, id, Go, [Go]);
    Recorded(s3, id, c, ids);
    var s4 := DoWork(s3, id, Go);
    Unfold(s4, id, c, Reporting);
    OneStep(s4, id, Go, []);
    Reported(s4, id, c);
    NoStep(DoWork(s4, id, Go), id);
    SameTables(s4, DoWork(s4, id, Go), c, ids);
  }

  /**
  From stored rows on, a worker that is left alone and keeps its lease commits its chunk: the row and the manifest
  say succeeded with exactly the stored ids, and each has its graph item.
   */
  lemma CommitEnds(s: World, id: nat, c: ChunkId, ids: seq<MemoryId>, v: nat, settled: set<Hash>, found: map<Hash, MemoryId>)
    requires At(s, id, c, Settling(ids)) && Owns(s, c) && c in s.sys.tables.chunks
    ensures var e := Works(s, id, [Settle(v, settled, found), Go, Go, Go, Go]);
            && Gone(e, id) && RowIs(e, c, ChunkSucceeded, ids) && ManifestIs(e, c, Succeeded, ids) && e.vectors == s.vectors
            && forall i :: i in ids ==> GraphKey(c, i) in e.sys.tables.graph
  {
    Unfold(s, id, c, Settling(ids));
    hide *;
    OneStep(s, id, Settle(v, settled, found), [Go, Go, Go, Go]);
    Settled(s, id, c, ids, Settle(v, settled, found));
    var s1 := DoWork(s, id, Settle(v, settled, found));
    Unfold(s1, id, c, Queueing(ids));
    OneStep(s1, id, Go, [Go, Go, Go]);
    Queued(s1, id, c, ids);
    CommitTail(DoWork(s1, id, Go), id, c, ids);
  }

  lemma Unfold(s: World, id: nat, c: ChunkId, pc: Pc)
    requires At(s, id, c, pc)
    ensures id in s.workers && s.workers[id].chunk == c && s.workers[id].pc == pc
  {
  }

  lemma SameTables(s: World, s': World, c: ChunkId, ids: seq<MemoryId>)
    requires s'.sys == s.sys && RowIs(s, c, ChunkSucceeded, ids) && ManifestIs(s, c, Succeeded, ids)
    ensures RowIs(s', c, ChunkSucceeded, ids) && ManifestIs(s', c, Succeeded, ids)
  {
  }

  /** A memory's hash becomes the chunk's claim exactly when it is free or released; else it counts as a duplicate. */
  lemma TakeLands(s: World, id: nat, c: ChunkId, h: HashKey)
    requires At(s, id, c, Extracting)
    ensures var t, s' := s.sys.tables.hashes, DoWork(s, id, Take(h));
            && At(s', id, c, Extracting) && s'.vectors == s.vectors
            && s'.sys.tables == s.sys.tables.(hashes := if h !in t || t[h].status == HashReleased then t[h := HashRow(c, HashClaimed, None)] else t)
  {
    hide DoClaim, DoFinish, DoUndo, DoSkip;
  }

  /** An error within the store gives back the claims of the attempt first; every other error goes to the handler at once. */
  lemma RaiseLeads(s: World, id: nat, c: ChunkId, ids: seq<MemoryId>, inStore: bool)
    requires At(s, id, c, Settling(ids))
    ensures At(DoWork(s, id, Raise(inStore)), id, c, if inStore then Unclaiming else Handling) && DoWork(s, id, Raise(inStore)).sys == s.sys
  {
    hide DoClaim, DoStore, DoUndo, DoSkip;
  }

  /** The handler splits, fails or cancels the chunk, or leaves it to another attempt. */
  lemma HandlerLeads(s: World, id: nat, c: ChunkId, choice: Choice)
    requires At(s, id, c, Handling)
    ensures DoWork(s, id, choice).sys == s.sys
    ensures At(DoWork(s, id, choice), id, c,
               if choice == Give(Split) || choice == Give(ManifestFailed) || choice == Give(Released) then Undoing(choice.up)
               else Closing(Retrying, None, TryAgain))
  {
    hide DoClaim, DoStore, DoFinish, DoSkip;
  }

  /** A chunk the run decided to skip is closed, and first given a row if it has none; every other one starts with its row. */
  lemma StartLeads(s: World, id: nat, owner: Owner, c: ChunkId)
    requires CanStart(s, id, owner, c) && Active(s.sys, c.job, owner)
    ensures var s', skip := Advance(s, Start(id, owner, c)), s.plans[owner].skip;
            && s'.sys == s.sys && s'.vectors == s.vectors
            && At(s', id, c, if c.key in skip then SkipEnsuring(skip[c.key]) else Ensuring)
  {
  }

  lemma SkipStarts(s: World, id: nat, c: ChunkId, superseded: bool)
    requires At(s, id, c, SkipEnsuring(superseded))
    ensures var t, s' := s.sys.tables.chunks, DoWork(s, id, Go);
            && At(s', id, c, if superseded then SkipHashes else SkipLooking(false))
            && s'.sys.tables.chunks == if c in t then t else t[c := ChunkRow(Pending, [])]
  {
    hide DoClaim, DoStore, DoFinish, DoUndo;
  }

  /****** a chunk from the beginning ******/

  lemma Ensured(s: World, id: nat, c: ChunkId)
    requires At(s, id, c, Ensuring) && (c in s.sys.tables.chunks ==> s.sys.tables.chunks[c].status != ChunkSucceeded)
    ensures var s' := DoWork(s, id, Go);
            && At(s', id, c, Claiming) && c in s'.sys.tables.chunks && s'.vectors == s.vectors
            && s'.sys.tables == s.sys.tables.(chunks := s'.sys.tables.chunks)
  {
    hide DoStore, DoFinish, DoUndo, DoSkip;
  }

  // The first attempt on a key nobody has claimed before
  predicate FirstTry(s: World, id: nat, c: ChunkId) {
    id in s.workers && s.workers[id].attempt == 1 && !s.workers[id].reconcile && Owns(s, c) && c in s.sys.tables.chunks
  }

  lemma FreshClaimed(s: World, id: nat, c: ChunkId)
    requires At(s, id, c, Claiming) && ManifestKey(c.project, c.key) !in s.sys.tables.manifests && c in s.sys.tables.chunks
    ensures var s' := DoWork(s, id, Go); At(s', id, c, Beginning) && FirstTry(s', id, c) && s'.vectors == s.vectors
  {
    hide DoStore, DoFinish, DoUndo, DoSkip, BusyThen;
  }

  lemma Begun(s: World, id: nat, c: ChunkId)
    requires At(s, id, c, Beginning) && FirstTry(s, id, c)
    ensures var s' := DoWork(s, id, Go); At(s', id, c, Storing) && FirstTry(s', id, c) && s'.vectors == s.vectors
  {
    hide DoClaim, DoFinish, DoUndo, DoSkip;
  }

  lemma Looked(s: World, id: nat, c: ChunkId)
    requires At(s, id, c, Storing) && FirstTry(s, id, c)
    ensures var s' := DoWork(s, id, Go); At(s', id, c, Extracting) && FirstTry(s', id, c) && s'.vectors == s.vectors
  {
    hide DoClaim, DoFinish, DoUndo, DoSkip;
  }

  lemma Extracted(s: World, id: nat, c: ChunkId, ids: seq<MemoryId>)
    requires At(s, id, c, Extracting) && FirstTry(s, id, c) && Distinct(ids) && ids != []
    ensures var s' := DoWork(s, id, Ready(ids)); At(s', id, c, Inserting(ids)) && FirstTry(s', id, c) && s'.vectors == s.vectors
  {
    hide DoClaim, DoFinish, DoUndo, DoSkip;
  }

  lemma Inserted(s: World, id: nat, c: ChunkId, ids: seq<MemoryId>)
    requires At(s, id, c, Inserting(ids)) && FirstTry(s, id, c) && forall i :: i in ids ==> i !in s.vectors
    ensures var s' := DoWork(s, id, Go);
            && At(s', id, c, Settling(ids)) && FirstTry(s', id, c)
            && (forall i :: i in s'.vectors <==> i in s.vectors || i in ids)
            && (forall i :: i in s.vectors ==> s'.vectors[i] == s.vectors[i])
            && forall i :: i in ids ==> s'.vectors[i] == ManifestKey(c.project, c.key)
  {
    hide DoClaim, DoFinish, DoUndo, DoSkip;
  }

  // From the claim to the stored rows
  lemma StoreEnds(s: World, id: nat, c: ChunkId, ids: seq<MemoryId>, rest: seq<Choice>) returns (e: World)
    requires At(s, id, c, Claiming) && ManifestKey(c.project, c.key) !in s.sys.tables.manifests && c in s.sys.tables.chunks
    requires Distinct(ids) && ids != [] && forall i :: i in ids ==> i !in s.vectors
    ensures At(e, id, c, Settling(ids)) && Owns(e, c) && c in e.sys.tables.chunks
    ensures Works(s, id, [Go] + ([Go] + ([Go] + ([Ready(ids)] + ([Go] + rest))))) == Works(e, id, rest)
    ensures (forall i :: i in e.vectors <==> i in s.vectors || i in ids)
         && (forall i :: i in s.vectors ==> e.vectors[i] == s.vectors[i])
         && forall i :: i in ids ==> e.vectors[i] == ManifestKey(c.project, c.key)
  {
    Unfold(s, id, c, Claiming);
    hide Works, DoWork, At, Owns, Distinct;
    OneStep(s, id, Go, [Go] + ([Go] + ([Ready(ids)] + ([Go] + rest))));
    FreshClaimed(s, id, c);
    e := DoWork(s, id, Go);
    OneStep(e, id, Go, [Go] + ([Ready(ids)] + ([Go] + rest)));
    Begun(e, id, c);
    e := DoWork(e, id, Go);
    OneStep(e, id, Go, [Ready(ids)] + ([Go] + rest));
    Looked(e, id, c);
    e := DoWork(e, id, Go);
    OneStep(e, id, Ready(ids), [Go] + rest);
    Extracted(e, id, c, ids);
    e := DoWork(e, id, Ready(ids));
    OneStep(e, id, Go, rest);
    Inserted(e, id, c, ids);
    e := DoWork(e, id, Go);
  }

  /**
  A chunk whose key nobody has claimed, under a lease that lasts, is committed: extracted memories are stored
  under its key, beside everything that was stored, and row and manifest say succeeded with exactly them.
   */
  lemma ChunkEnds(s: World, id: nat, c: ChunkId, ids: seq<MemoryId>, v: nat, settled: set<Hash>, found: map<Hash, MemoryId>)
    requires At(s, id, c, Ensuring) && ManifestKey(c.project, c.key) !in s.sys.tables.manifests
    requires c in s.sys.tables.chunks ==> s.sys.tables.chunks[c].status != ChunkSucceeded
    requires Distinct(ids) && ids != [] && forall i :: i in ids ==> i !in s.vectors
    ensures var e := Works(s, id, [Go] + ([Go] + ([Go] + ([Go] + ([Ready(ids)] + ([Go] + [Settle(v, settled, found), Go, Go, Go, Go]))))));
            && Gone(e, id) && RowIs(e, c, ChunkSucceeded, ids) && ManifestIs(e, c, Succeeded, ids)
            && (forall i :: i in ids ==> GraphKey(c, i) in e.sys.tables.graph)
            && (forall i :: i in e.vectors <==> i in s.vectors || i in ids)
            && (forall i :: i in s.vectors ==> e.vectors[i] == s.vectors[i])
            && forall i :: i in ids ==> e.vectors[i] == ManifestKey(c.project, c.key)
  {
    Unfold(s, id, c, Ensuring);
    hide *;
    var rest := [Settle(v, settled, found), Go, Go, Go, Go];
    OneStep(s, id, Go, [Go] + ([Go] + ([Go] + ([Ready(ids)] + ([Go] + rest)))));
    Ensured(s, id, c);
    var e := StoreEnds(DoWork(s, id, Go), id, c, ids, rest);
    CommitEnds(e, id, c, ids, v, settled, found);
  }

  /****** a chunk whose worker died behind the insert ******/

  predicate Again(s: World, id: nat, c: ChunkId) {
    id in s.workers && s.workers[id].reconcile && Owns(s, c) && c in s.sys.tables.chunks
  }

  // The ids are those of the key's stored rows.
  ghost predicate RowsOfKey(s: World, c: ChunkId, ids: seq<MemoryId>) {
    Distinct(ids) && ids != [] && forall i :: i in ids <==> i in s.vectors && s.vectors[i] == ManifestKey(c.project, c.key)
  }

  lemma Peeked(s: World, id: nat, c: ChunkId, ids: seq<MemoryId>)
    requires At(s, id, c, Peeking) && RowsOfKey(s, c, ids) && Owns(s, c) && c in s.sys.tables.chunks
    ensures var s' := DoWork(s, id, Go); At(s', id, c, Beginning) && Again(s', id, c) && s'.vectors == s.vectors
  {
    assert ids[0] in ids;
    PeekLeads(s, id, c, Go);
    hide DoStore, DoFinish, DoUndo, DoSkip;
  }

  lemma BegunAgain(s: World, id: nat, c: ChunkId)
    requires At(s, id, c, Beginning) && Again(s, id, c)
    ensures var s' := DoWork(s, id, Go); At(s', id, c, Storing) && Again(s', id, c) && s'.vectors == s.vectors
  {
    hide DoClaim, DoFinish, DoUndo, DoSkip;
  }

  lemma Taken(s: World, id: nat, c: ChunkId, ids: seq<MemoryId>)
    requires At(s, id, c, Storing) && Again(s, id, c) && RowsOfKey(s, c, ids)
    ensures var s' := DoWork(s, id, Rows(ids));
            At(s', id, c, Settling(ids)) && Owns(s', c) && c in s'.sys.tables.chunks && s'.vectors == s.vectors
  {
    hide DoClaim, DoFinish, DoUndo, DoSkip;
    assert ids[0] in RowsOf(s, ManifestOf(c));
    assert (set i | i in ids) == RowsOf(s, ManifestOf(c));
  }

  lemma SameRows(s: World, s': World, c: ChunkId, ids: seq<MemoryId>)
    requires RowsOfKey(s, c, ids) && s'.vectors == s.vectors
    ensures RowsOfKey(s', c, ids)
  {
  }

  /**
  When a worker died between the insert and the commit, the next one that finds the open claim of its own
  chunk commits exactly the rows that are stored, and stores nothing a second time.
   */
  lemma RecoveryEnds(s: World, id: nat, c: ChunkId, ids: seq<MemoryId>, v: nat, settled: set<Hash>, found: map<Hash, MemoryId>)
    requires At(s, id, c, Peeking) && RowsOfKey(s, c, ids) && Owns(s, c) && c in s.sys.tables.chunks
    ensures var e := Works(s, id, [Go] + ([Go] + ([Rows(ids)] + [Settle(v, settled, found), Go, Go, Go, Go])));
            && Gone(e, id) && RowIs(e, c, ChunkSucceeded, ids) && ManifestIs(e, c, Succeeded, ids) && e.vectors == s.vectors
            && forall i :: i in ids ==> GraphKey(c, i) in e.sys.tables.graph
  {
    Unfold(s, id, c, Peeking);
    hide DoWork, Works, At, Owns, RowsOfKey, RowIs, ManifestIs, Gone;
    var rest := [Settle(v, settled, found), Go, Go, Go, Go];
    OneStep(s, id, Go, [Go] + ([Rows(ids)] + rest));
    Peeked(s, id, c, ids);
    var s1 := DoWork(s, id, Go);
    OneStep(s1, id, Go, [Rows(ids)] + rest);
    BegunAgain(s1, id, c);
    var s2 := DoWork(s1, id, Go);
    SameRows(s, s2, c, ids);
    OneStep(s2, id, Rows(ids), rest);
    Taken(s2, id, c, ids);
    CommitEnds(DoWork(s2, id, Rows(ids)), id, c, ids, v, settled, found);
  }

  /****** resuming, undoing, skipping ******/

  /** A finished manifest is copied to the row at once. */
  lemma ResumeEnds(s: World, id: nat, c: ChunkId, ids: seq<MemoryId>)
    requires At(s, id, c, Resuming(ids)) && c in s.sys.tables.chunks
    ensures var e := DoWork(s, id, Go);
            Gone(e, id) && RowIs(e, c, ChunkSucceeded, ids) && e.vectors == s.vectors
            && e.sys.tables == s.sys.tables.(chunks := e.sys.tables.chunks)
  {
    hide DoClaim, DoStore, DoUndo, DoSkip;
  }

  lemma ManifestUndone(s: World, id: nat, c: ChunkId, mark: ManifestStatus)
    requires At(s, id, c, Undoing(mark)) && Owns(s, c) && c in s.sys.tables.chunks
    ensures var s' := DoWork(s, id, Go);
            && At(s', id, c, if mark == ManifestFailed then Closing(ChunkFailed, None, Stop) else UndoingHashes(mark))
            && ManifestIs(s', c, mark, s.sys.tables.manifests[ManifestKey(c.project, c.key)].memoryIds)
            && s'.sys.tables.chunks == s.sys.tables.chunks && s'.sys.tables.hashes == s.sys.tables.hashes && s'.vectors == s.vectors
  {
    hide DoClaim, DoStore, DoFinish, DoSkip;
  }

  lemma HashesUndone(s: World, id: nat, c: ChunkId, mark: ManifestStatus)
    requires At(s, id, c, UndoingHashes(mark))
    ensures var s' := DoWork(s, id, Go);
            && At(s', id, c, Closing(if mark == Split then ChunkSplit else ChunkCancelled, None, Stop))
            && s'.sys.tables == s.sys.tables.(hashes := s'.sys.tables.hashes) && s'.vectors == s.vectors
  {
    hide DoClaim, DoStore, DoFinish, DoSkip;
  }

  lemma Closed(s: World, id: nat, c: ChunkId, status: ChunkStatus, write: Option<seq<MemoryId>>)
    requires At(s, id, c, Closing(status, write, Stop)) && c in s.sys.tables.chunks
    ensures var s' := DoWork(s, id, Go);
            && Gone(s', id) && RowIs(s', c, status, if write.Some? then write.value else s.sys.tables.chunks[c].memoryIds)
            && s'.sys.tables == s.sys.tables.(chunks := s'.sys.tables.chunks) && s'.vectors == s.vectors
  {
    hide DoClaim, DoStore, DoFinish, DoSkip;
  }

  /**
  Giving a chunk up: its own manifest gets the mark, its row the status that goes with it, its stored memory ids stay
  listed, and a failure keeps its hash claims for the next attempt.
   */
  lemma UndoEnds(s: World, id: nat, c: ChunkId, mark: ManifestStatus)
    requires At(s, id, c, Undoing(mark)) && Owns(s, c) && c in s.sys.tables.chunks
    ensures var e := Works(s, id, if mark == ManifestFailed then [Go, Go] else [Go, Go, Go]);
            var status := match mark case Split => ChunkSplit case ManifestFailed => ChunkFailed case _ => ChunkCancelled;
            && Gone(e, id) && RowIs(e, c, status, s.sys.tables.chunks[c].memoryIds) && e.vectors == s.vectors
            && ManifestIs(e, c, mark, s.sys.tables.manifests[ManifestKey(c.project, c.key)].memoryIds)
            && (mark == ManifestFailed ==> e.sys.tables.hashes == s.sys.tables.hashes)
  {
    Unfold(s, id, c, Undoing(mark));
    ManifestUndone(s, id, c, mark);
    hide DoWork, Works, At;
    var s1 := DoWork(s, id, Go);
    if mark == ManifestFailed {
      OneStep(s, id, Go, [Go]);
      CloseEnds(s1, id, c, ChunkFailed, None);
    } else {
      OneStep(s, id, Go, [Go, Go]);
      UndoTail(s1, id, c, mark);
    }
  }

  lemma CloseEnds(s: World, id: nat, c: ChunkId, status: ChunkStatus, write: Option<seq<MemoryId>>)
    requires At(s, id, c, Closing(status, write, Stop)) && c in s.sys.tables.chunks
    ensures var e := Works(s, id, [Go]);
            && Gone(e, id) && RowIs(e, c, status, if write.Some? then write.value else s.sys.tables.chunks[c].memoryIds)
            && e.sys.tables == s.sys.tables.(chunks := e.sys.tables.chunks) && e.vectors == s.vectors
  {
    Unfold(s, id, c, Closing(status, write, Stop));
    hide *;
    OneStep(s, id, Go, []);
    Closed(s, id, c, status, write);
    NoStep(DoWork(s, id, Go), id);
  }

  lemma UndoTail(s: World, id: nat, c: ChunkId, mark: ManifestStatus)
    requires At(s, id, c, UndoingHashes(mark)) && c in s.sys.tables.chunks
    ensures var e := Works(s, id, [Go, Go]);
            && Gone(e, id) && RowIs(e, c, if mark == Split then ChunkSplit else ChunkCancelled, s.sys.tables.chunks[c].memoryIds)
            && e.sys.tables.manifests == s.sys.tables.manifests && e.vectors == s.vectors
  {
    Unfold(s, id, c, UndoingHashes(mark));
    hide *;
    OneStep(s, id, Go, [Go]);
    HashesUndone(s, id, c, mark);
    CloseEnds(DoWork(s, id, Go), id, c, if mark == Split then ChunkSplit else ChunkCancelled, None);
  }

  /** An error that leaves another attempt keeps the claim, counts the attempt and notes the retry on the row. */
  lemma RetryLeads(s: World, id: nat, c: ChunkId)
    requires At(s, id, c, Closing(Retrying, None, TryAgain)) && c in s.sys.tables.chunks
    ensures var s' := DoWork(s, id, Go);
            && At(s', id, c, Beginning) && s'.workers[id].attempt == s.workers[id].attempt + 1
            && s'.workers[id].reconcile == s.workers[id].reconcile
            && RowIs(s', c, Retrying, s.sys.tables.chunks[c].memoryIds)
            && s'.sys.tables == s.sys.tables.(chunks := s'.sys.tables.chunks) && s'.vectors == s.vectors
  {
    hide DoClaim, DoStore, DoFinish, DoSkip;
  }

  /** A wait for another chunk's claim starts over with the row. */
  lemma BusyLeads(s: World, id: nat, c: ChunkId)
    requires At(s, id, c, Closing(Retrying, None, ClaimAfresh)) && c in s.sys.tables.chunks
    ensures At(DoWork(s, id, Go), id, c, Ensuring) && RowIs(DoWork(s, id, Go), c, Retrying, s.sys.tables.chunks[c].memoryIds)
  {
    hide DoClaim, DoStore, DoFinish, DoSkip;
  }

  /**
  Closing a chunk whose key another job has done, or the leaf of a superseded split: the first looks at the
  manifest and leaves a finished one alone; the second closes any manifest of its own job, or a free one, as finished.
   */
  lemma SkipLeads(s: World, id: nat, c: ChunkId, superseded: bool)
    requires At(s, id, c, SkipLooking(superseded))
    ensures var k, ms, s' := ManifestKey(c.project, c.key), s.sys.tables.manifests, DoWork(s, id, Go);
            && s'.sys == s.sys && s'.vectors == s.vectors
            && At(s', id, c,
                  if k !in ms then SkipClaiming(superseded)
                  else if ms[k].status == Succeeded || !superseded then Closing(Skipped, if superseded then Some([]) else None, Stop)
                  else if ms[k].chunk.job == c.job then SkipMarking(superseded) else SkipClaiming(superseded))
  {
    hide DoClaim, DoStore, DoFinish, DoUndo;
  }

  lemma SkipMarked(s: World, id: nat, c: ChunkId, superseded: bool)
    requires At(s, id, c, SkipMarking(superseded)) && Owns(s, c) && c in s.sys.tables.chunks
    ensures var s' := DoWork(s, id, Go);
            && At(s', id, c, Closing(Skipped, if superseded then Some([]) else None, Stop))
            && ManifestIs(s', c, Succeeded, []) && s'.sys.tables.chunks == s.sys.tables.chunks && s'.vectors == s.vectors
  {
    hide DoClaim, DoStore, DoFinish, DoUndo;
  }

  /** The marked leaf ends skipped, its manifest finished without memories. */
  lemma SkipEnds(s: World, id: nat, c: ChunkId, superseded: bool)
    requires At(s, id, c, SkipMarking(superseded)) && Owns(s, c) && c in s.sys.tables.chunks
    ensures var e := Works(s, id, [Go, Go]);
            && Gone(e, id) && ManifestIs(e, c, Succeeded, []) && e.vectors == s.vectors
            && RowIs(e, c, Skipped, if superseded then [] else s.sys.tables.chunks[c].memoryIds)
  {
    Unfold(s, id, c, SkipMarking(superseded));
    hide DoWork, Works, At;
    OneStep(s, id, Go, [Go]);
    SkipMarked(s, id, c, superseded);
    var s1 := DoWork(s, id, Go);
    CloseEnds(s1, id, c, Skipped, if superseded then Some([]) else None);
  }
}
