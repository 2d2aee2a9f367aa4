/**
What the import promises about a succeeded chunk, over all runs.  The one thing that breaks the promise
behind the row's back is the handler of an error behind the success commit giving the chunk up.
 */
module CommitPromise {
  import opened Wrappers
  import opened ImportTables
  import opened Fencing
  import opened CommitProtocol
  import opened CommitSafety
  import opened CommitSteps
  import opened CommitTheorems
  import opened CommitVeil
  import opened CommitMirror
  import opened CommitLate

  /** The row says succeeded, and rightly so. */
  predicate Kept(s: World, c: ChunkId) {
    SucceededIn(s, c) && Durable(s, c)
  }

  /** Late handlers, chunks given up there and touched keys at the end of a run */
  ghost function LooseAt(steps: seq<Step>): Loose {
    LooseIn(EMPTY, steps, NONE)
  }

  lemma RunIsWhole(steps: seq<Step>)
    ensures Whole(Run(EMPTY, steps), LooseAt(steps))
  {
    EmptyIsWhole();
    RunKeepsWhole(EMPTY, NONE, steps);
  }

  lemma RunMore(steps: seq<Step>, step: Step)
    ensures Run(EMPTY, steps + [step]) == Advance(Run(EMPTY, steps), step)
    ensures LooseAt(steps + [step]) == LooseAfter(Run(EMPTY, steps), step, LooseAt(steps))
  {
    var s, l := Run(EMPTY, steps), LooseAt(steps);
    RunConcat(EMPTY, steps, [step]);
    LooseConcat(EMPTY, steps, [step], NONE);
    hide Advance, LooseAfter;
    assert Run(s, [step]) == Run(Advance(s, step), []);
    assert LooseIn(s, [step], l) == LooseIn(Advance(s, step), [], LooseAfter(s, step, l));
  }

  // Without late errors nothing is loose.
  lemma {:induction false} CalmGivesUpNone(s: World, steps: seq<Step>)
    requires LateFree(steps)
    ensures LooseIn(s, steps, NONE) == NONE
    decreases |steps|
  {
    if steps != [] {
      CalmStep(s, steps[0]);
      hide Advance, LooseAfter;
      CalmGivesUpNone(Advance(s, steps[0]), steps[1..]);
    }
  }

  lemma CalmStep(s: World, step: Step)
    requires !step.LateError?
    ensures LooseAfter(s, step, NONE) == NONE
  {
    hide DoWork;
  }

  /****** durability ******/

  // A succeeded row that was not given up agrees with the history of the image.
  lemma ImageAgrees(s: World, l: Loose, c: ChunkId)
    requires Whole(s, l) && SucceededIn(s, c) && c !in l.gone
    ensures var q := Calm(s, l); SucceededIn(q, c) && Agrees(q, c) && CommittedOk(q) && Backed(q)
  {
    assert Agree(Calm(s, l));
  }

  lemma WholeIsDurable(s: World, l: Loose, c: ChunkId)
    requires Whole(s, l) && SucceededIn(s, c) && c !in l.gone
    ensures Durable(s, c)
  {
    ImageAgrees(s, l, c);
    CalmKeeps(s, l);
    hide Whole;
  }

  /**
  Crash-safe commit: after any interleaving of workers, crashes, expired and taken leases, retries,
  skips and errors behind the success commit, a succeeded chunk that was not given up since has a
  succeeded manifest of the same job with the same memory ids, each of them a stored vector row of that
  key with its one graph item.
   */
  lemma CommitIsDurable(steps: seq<Step>, c: ChunkId)
    requires SucceededIn(Run(EMPTY, steps), c) && c !in LooseAt(steps).gone
    ensures Durable(Run(EMPTY, steps), c)
  {
    RunIsWhole(steps);
    WholeIsDurable(Run(EMPTY, steps), LooseAt(steps), c);
  }

  /** Exactly once: a key has at most one such chunk, and no memory belongs to two of them. */
  lemma ExactlyOnce(steps: seq<Step>, c: ChunkId, d: ChunkId)
    requires c != d && c !in LooseAt(steps).gone && d !in LooseAt(steps).gone
    requires SucceededIn(Run(EMPTY, steps), c) && SucceededIn(Run(EMPTY, steps), d)
    ensures ManifestOf(c) != ManifestOf(d)
    ensures var t := Run(EMPTY, steps).sys.tables; forall i :: i in t.chunks[c].memoryIds ==> i !in t.chunks[d].memoryIds
  {
    CommitIsDurable(steps, c);
    CommitIsDurable(steps, d);
  }

  /****** giving up ******/

  // No handler of a late error gives up a succeeded chunk under a live lease.
  ghost predicate NeverGivesUp(s: World, steps: seq<Step>, l: Loose)
    decreases |steps|
  {
    steps != [] ==> (forall c :: !GivesUp(s, steps[0], l, c)) && NeverGivesUp(Advance(s, steps[0]), steps[1..], LooseAfter(s, steps[0], l))
  }

  // What one step adds to the chunks given up
  lemma GoneAfter(s: World, step: Step, l: Loose, c: ChunkId)
    ensures c in LooseAfter(s, step, l).gone ==> c in l.gone || GivesUp(s, step, l, c)
    ensures GivesUp(s, step, l, c) ==> c in LooseAfter(s, step, l).gone
  {
    hide DoWork, Advance;
  }

  lemma {:induction false} NoneGiven(s: World, steps: seq<Step>, l: Loose)
    requires NeverGivesUp(s, steps, l)
    ensures LooseIn(s, steps, l).gone <= l.gone
    decreases |steps|
  {
    if steps != [] {
      forall c ensures c in LooseAfter(s, steps[0], l).gone ==> c in l.gone {
        GoneAfter(s, steps[0], l, c);
      }
      NoneGiven(Advance(s, steps[0]), steps[1..], LooseAfter(s, steps[0], l));
    }
  }

  /** So when no handler of a late error gives up, every succeeded chunk is durable, however often they retry. */
  lemma RetriesAreHarmless(steps: seq<Step>, c: ChunkId)
    requires NeverGivesUp(EMPTY, steps, NONE) && SucceededIn(Run(EMPTY, steps), c)
    ensures Durable(Run(EMPTY, steps), c)
  {
    NoneGiven(EMPTY, steps, NONE);
    CommitIsDurable(steps, c);
  }

  // The manifest is marked, the row is not written yet.
  lemma GivingUpBreaks(s: World, l: Loose, step: Step, c: ChunkId)
    requires Whole(s, l) && GivesUp(s, step, l, c) && c !in l.gone
    ensures SucceededIn(Advance(s, step), c) && !Durable(Advance(s, step), c)
  {
    LateIs(s, l, step.id);
    WholeIsDurable(s, l, c);
    hide Whole;
    MarkIs(s, step.id, step.choice);
    hide DoWork;
  }

  /**
  A chunk comes to be given up by exactly one step: the handler of a late error on it marks its manifest
  split, failed or released under a live lease while its row says succeeded.  At once the row is wrong.
   */
  lemma GivenUpIff(steps: seq<Step>, step: Step, c: ChunkId)
    requires c !in LooseAt(steps).gone
    ensures var s, l := Run(EMPTY, steps), LooseAt(steps);
            && (c in LooseAt(steps + [step]).gone <==> GivesUp(s, step, l, c))
            && (GivesUp(s, step, l, c) ==> SucceededIn(Advance(s, step), c) && !Durable(Advance(s, step), c))
  {
    var s, l := Run(EMPTY, steps), LooseAt(steps);
    RunIsWhole(steps);
    RunMore(steps, step);
    hide Whole, LooseAfter, LooseAt, Advance, GivesUp;
    GoneAfter(s, step, l, c);
    if GivesUp(s, step, l, c) {
      GivingUpBreaks(s, l, step, c);
    }
  }

  /****** when the promise is broken ******/

  // The first write of the handler of a late error undoes what was promised about its chunk.
  lemma LateWriteBreaks(s: World, id: nat, choice: Choice)
    requires id in s.workers && InHandler(s.workers[id].pc) && !s.workers[id].pc.Handling? && Act(s, s.workers[id])
    requires Kept(s, s.workers[id].chunk)
    ensures !Kept(DoWork(s, id, choice), s.workers[id].chunk)
  {
  }

  // What the handler writes first: the manifest when it gives up, otherwise the chunk row
  function FirstWrite(s: World, w: Worker): Fenced {
    if w.pc.Undoing? then MarkManifest(s.sys.tables, w.chunk, w.pc.mark, None, w.owner, s.sys.now)
    else UpdateChunk(s.sys.tables, w.chunk, Retrying, None, w.owner, s.sys.now)
  }

  lemma MarkSpares(s: World, w: Worker, c: ChunkId)
    requires Kept(s, c) && c != w.chunk
    ensures w.pc.Undoing? ==> var r := FirstWrite(s, w); r.Done? ==> Kept(With(s, r.tables), c)
  {
    hide UpdateChunk;
  }

  lemma CloseSpares(s: World, w: Worker, c: ChunkId)
    requires Kept(s, c) && c != w.chunk
    ensures !w.pc.Undoing? ==> var r := FirstWrite(s, w); r.Done? ==> Kept(With(s, r.tables), c)
  {
    hide MarkManifest;
  }

  // Where a worker is does not matter to what was promised.
  lemma KeptByTables(s: World, s': World, c: ChunkId)
    requires Kept(s, c) && s'.sys.tables == s.sys.tables && s'.vectors == s.vectors
    ensures Kept(s', c)
  {
  }

  lemma LateMark(s: World, id: nat, choice: Choice)
    requires id in s.workers && s.workers[id].pc.Undoing?
    ensures var r, s' := FirstWrite(s, s.workers[id]), DoUndo(s, id, choice);
            s'.sys.tables == (if r.Done? then r.tables else s.sys.tables) && s'.vectors == s.vectors
  {
    hide MarkManifest, UpdateChunk;
  }

  lemma LateClose(s: World, id: nat, choice: Choice)
    requires id in s.workers && s.workers[id].pc == Closing(Retrying, None, TryAgain)
    ensures var r, s' := FirstWrite(s, s.workers[id]), DoUndo(s, id, choice);
            s'.sys.tables == (if r.Done? then r.tables else s.sys.tables) && s'.vectors == s.vectors
  {
    hide MarkManifest, UpdateChunk;
  }

  lemma LateWrites(s: World, id: nat, choice: Choice)
    requires id in s.workers && InHandler(s.workers[id].pc) && !s.workers[id].pc.Handling?
    ensures var r, s' := FirstWrite(s, s.workers[id]), DoWork(s, id, choice);
            s'.sys.tables == (if r.Done? then r.tables else s.sys.tables) && s'.vectors == s.vectors
  {
    hide FirstWrite, DoClaim, DoStore, DoFinish, DoUndo, DoSkip;
    if s.workers[id].pc.Undoing? {
      LateMark(s, id, choice);
    } else {
      LateClose(s, id, choice);
    }
  }

  lemma LateWriteSpares(s: World, id: nat, choice: Choice, c: ChunkId)
    requires id in s.workers && InHandler(s.workers[id].pc) && !s.workers[id].pc.Handling?
    requires Kept(s, c) && c != s.workers[id].chunk
    ensures Kept(DoWork(s, id, choice), c)
  {
    var w, s' := s.workers[id], DoWork(s, id, choice);
    var r := FirstWrite(s, w);
    hide *;
    LateWrites(s, id, choice);
    MarkSpares(s, w, c);
    CloseSpares(s, w, c);
    KeptByTables(if r.Done? then With(s, r.tables) else s, s', c);
  }

  lemma OrdinaryLoses(s: World, l: Loose, id: nat, choice: Choice, c: ChunkId)
    requires Whole(s, l) && Ordinary(s, l, id) && SucceededIn(s, c) && c !in l.gone
    requires s.workers[id].pc.Ensuring? && s.workers[id].chunk in l.gone ==> !SucceededIn(s, s.workers[id].chunk)
    ensures SucceededIn(DoWork(s, id, choice), c)
  {
    ImageAgrees(s, l, c);
    ImageMirrors(s, l, id, choice);
    var q, s', l' := Calm(s, l), DoWork(s, id, choice), WorkAfter(s, id, choice, l);
    assert Inv(q) && SucceededIn(q, c);
    hide *;
    SucceedsOn(q, id, choice, c);
    Unveiled(s', l', c);
  }

  lemma ImageMirrors(s: World, l: Loose, id: nat, choice: Choice)
    requires Whole(s, l) && Ordinary(s, l, id)
    requires s.workers[id].pc.Ensuring? && s.workers[id].chunk in l.gone ==> !SucceededIn(s, s.workers[id].chunk)
    ensures id in Calm(s, l).workers && Calm(DoWork(s, id, choice), WorkAfter(s, id, choice, l)) == DoWork(Calm(s, l), id, choice)
  {
    ImageWorker(s, l, id);
    hide Inv, DoWork, WorkAfter, LateOk, Reported, Unique;
    CalmWork(s, l, id, choice);
  }

  lemma SucceedsOn(q: World, id: nat, choice: Choice, c: ChunkId)
    requires Inv(q) && id in q.workers && SucceededIn(q, c)
    ensures SucceededIn(DoWork(q, id, choice), c)
  {
    hide Inv, DoWork;
    StepKeepsSuccess(q, Work(id, choice), c);
  }

  // The work of the others, and of late workers that do not write, loses no success.
  lemma WorkLoses(s: World, l: Loose, id: nat, choice: Choice, c: ChunkId)
    requires Whole(s, l) && id in s.workers && !LateWrite(s, Work(id, choice), l) && SucceededIn(s, c) && c !in l.gone
    ensures SucceededIn(DoWork(s, id, choice), c)
  {
    var w := s.workers[id];
    if id in l.late {
      LateIs(s, l, id);
      hide Whole, DoWork;
      if w.pc.Handling? {
        HandlerMoves(s, id, choice);
      } else {
        HandlerStops(s, id, choice);
      }
    } else if w.pc.Ensuring? && w.chunk in l.gone && SucceededIn(s, w.chunk) {
      EnsureStops(s, l, id, choice);
      hide Whole, DoWork;
    } else {
      hide DoWork;
      OrdinaryLoses(s, l, id, choice, c);
    }
  }

  // What succeeds in the image has succeeded.
  lemma Unveiled(s: World, l: Loose, c: ChunkId)
    requires SucceededIn(Calm(s, l), c)
    ensures SucceededIn(s, c)
  {
  }

  lemma StepLosesIff(s: World, l: Loose, step: Step, c: ChunkId)
    requires Whole(s, l) && !LateWrite(s, step, l) && SucceededIn(s, c) && c !in l.gone
    ensures !SucceededIn(Advance(s, step), c) <==> ResetsRow(s, step, c)
  {
    match step
    case Env(op) =>
      hide Whole, Next;
      if !op.OnTables? { EnvKeepsRows(s.sys, op); }
    case Work(id, choice) =>
      hide Whole, DoWork;
      if id in s.workers { WorkLoses(s, l, id, choice, c); }
    case Reset(owner, d) =>
      hide Whole, Advance;
      ResetLosesSuccess(s, owner, d, c);
    case _ =>
      hide Whole, CanLoad, CanStart, FailedChunks;
  }

  /**
  After any run, a succeeded chunk that was not given up keeps its success and what it promises over the
  next step, except in exactly two cases: the retry endpoint resets its row, having it on an outdated
  list, or the handler of a late error on that very chunk writes under a live lease.
   */
  lemma PromiseBrokenIff(steps: seq<Step>, step: Step, c: ChunkId)
    requires SucceededIn(Run(EMPTY, steps), c) && c !in LooseAt(steps).gone
    ensures var s, l := Run(EMPTY, steps), LooseAt(steps);
            !Kept(Advance(s, step), c) <==> ResetsRow(s, step, c) || (LateWrite(s, step, l) && s.workers[step.id].chunk == c)
  {
    var s, l := Run(EMPTY, steps), LooseAt(steps);
    RunIsWhole(steps);
    WholeIsDurable(s, l, c);
    if LateWrite(s, step, l) {
      LateIs(s, l, step.id);
      hide Whole, DoWork, Durable;
      if s.workers[step.id].chunk == c {
        LateWriteBreaks(s, step.id, step.choice);
      } else {
        LateWriteSpares(s, step.id, step.choice, c);
      }
    } else {
      RunMore(steps, step);
      hide Whole, Advance, LooseAt, LooseAfter, Durable;
      StepLosesIff(s, l, step, c);
      GoneAfter(s, step, l, c);
      if SucceededIn(Advance(s, step), c) {
        CommitIsDurable(steps + [step], c);
      }
    }
  }

  /****** permanence ******/

  // No handler of a late error on chunk `c` writes under a live lease.
  ghost predicate LeftAlone(s: World, steps: seq<Step>, l: Loose, c: ChunkId)
    decreases |steps|
  {
    steps != [] ==>
      && !(LateWrite(s, steps[0], l) && s.workers[steps[0].id].chunk == c)
      && LeftAlone(Advance(s, steps[0]), steps[1..], LooseAfter(s, steps[0], l), c)
  }

  predicate Commits(q: World, c: ChunkId, row: ManifestRow) {
    ManifestOf(c) in q.committed && q.committed[ManifestOf(c)] == row && row.chunk == c
  }

  lemma CommitsStay(s: World, l: Loose, step: Step, c: ChunkId, row: ManifestRow)
    requires Whole(s, l) && Commits(Calm(s, l), c, row) && !(LateWrite(s, step, l) && s.workers[step.id].chunk == c)
    ensures Commits(Calm(Advance(s, step), LooseAfter(s, step, l)), c, row)
  {
    if step.Work? && step.id in s.workers {
      WorkCommits(s, l, step.id, step.choice, c, row);
    } else {
      hide Whole, DoWork, Next, CanLoad, CanStart, UpdateChunk, FailedChunks;
      assert Advance(s, step).committed == s.committed && LooseAfter(s, step, l).struck == l.struck;
    }
  }

  lemma WorkCommits(s: World, l: Loose, id: nat, choice: Choice, c: ChunkId, row: ManifestRow)
    requires Whole(s, l) && id in s.workers && Commits(Calm(s, l), c, row)
    requires !(LateWrite(s, Work(id, choice), l) && s.workers[id].chunk == c)
    ensures Commits(Calm(DoWork(s, id, choice), LooseAfter(s, Work(id, choice), l)), c, row)
  {
    var w := s.workers[id];
    if LateWrite(s, Work(id, choice), l) {
      LateIs(s, l, id);
      LateFacts(s, l, id);
      hide Whole, Alone;
      LateHistory(s, id, choice);
      hide DoWork;
    } else if id in l.late {
      LateIs(s, l, id);
      hide Whole, DoWork;
      if w.pc.Handling? {
        HandlerMoves(s, id, choice);
      } else {
        HandlerStops(s, id, choice);
      }
    } else if w.pc.Ensuring? && w.chunk in l.gone && SucceededIn(s, w.chunk) {
      EnsureStops(s, l, id, choice);
      hide Whole, DoWork;
    } else {
      ImageMirrors(s, l, id, choice);
      hide Inv, DoWork, WorkAfter, LateOk, Reported, Unique;
      StepKeepsCommitted(Calm(s, l), Work(id, choice), ManifestOf(c));
    }
  }

  lemma LateHistory(s: World, id: nat, choice: Choice)
    requires id in s.workers && InHandler(s.workers[id].pc)
    ensures DoWork(s, id, choice).committed == s.committed
  {
    hide MarkManifest, UpdateChunk;
  }

  lemma {:induction false} RunCommits(s: World, l: Loose, steps: seq<Step>, c: ChunkId, row: ManifestRow)
    requires Whole(s, l) && Commits(Calm(s, l), c, row) && LeftAlone(s, steps, l, c)
    ensures Commits(Calm(Run(s, steps), LooseIn(s, steps, l)), c, row)
    decreases |steps|
  {
    if steps != [] {
      hide Whole, Advance, LooseAfter, LateWrite, Commits;
      CommitsStay(s, l, steps[0], c, row);
      StepKeepsWhole(s, l, steps[0]);
      RunCommits(Advance(s, steps[0]), LooseAfter(s, steps[0], l), steps[1..], c, row);
    }
  }

  /**
  Once a chunk has been succeeded, its manifest row never changes again, whoever runs, stops or retries,
  as long as no handler of a late error on that chunk writes under a live lease.
   */
  lemma ManifestIsPermanent(before: seq<Step>, after: seq<Step>, c: ChunkId)
    requires SucceededIn(Run(EMPTY, before), c) && c !in LooseAt(before).gone
    requires LeftAlone(Run(EMPTY, before), after, LooseAt(before), c)
    ensures var t, t', k := Run(EMPTY, before).sys.tables, Run(EMPTY, before + after).sys.tables, ManifestOf(c);
            k in t.manifests && k in t'.manifests && t'.manifests[k] == t.manifests[k]
  {
    var s, l := Run(EMPTY, before), LooseAt(before);
    RunIsWhole(before);
    RunIsWhole(before + after);
    RunConcat(EMPTY, before, after);
    LooseConcat(EMPTY, before, after, NONE);
    ImageAgrees(s, l, c);
    CalmKeeps(s, l);
    RunCommits(s, l, after, c, Calm(s, l).committed[ManifestOf(c)]);
    AllCommitted(Run(s, after), LooseIn(s, after, l));
  }

  lemma AllCommitted(s: World, l: Loose)
    requires Whole(s, l)
    ensures CommittedOk(Calm(s, l)) && Calm(s, l).sys.tables.manifests == s.sys.tables.manifests
  {
  }
}
