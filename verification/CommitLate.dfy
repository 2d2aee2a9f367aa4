/**
Runs with errors behind the success commit.  The exception handler such an error leads to works on a
chunk that is done; the invariant of the protocol goes on to hold of the calm image, and the worker joins
the image again once its handler has written.
 */
module CommitLate {
  import opened Wrappers
  import opened ImportTables
  import opened Fencing
  import opened CommitProtocol
  import opened CommitSafety
  import opened CommitSteps
  import opened CommitTheorems
  import opened CommitVeil
  import opened CommitMirror

  predicate SucceededIn(s: World, c: ChunkId) {
    c in s.sys.tables.chunks && s.sys.tables.chunks[c].status == ChunkSucceeded
  }

  /** The handler of a late error makes its first write, and under a live lease. */
  predicate LateWrite(s: World, step: Step, l: Loose) {
    step.Work? && step.id in l.late && step.id in s.workers && !s.workers[step.id].pc.Handling? && Act(s, s.workers[step.id])
  }

  /** That write gives chunk `c` up although its row says succeeded. */
  predicate GivesUp(s: World, step: Step, l: Loose, c: ChunkId) {
    LateWrite(s, step, l) && s.workers[step.id].pc.Undoing? && s.workers[step.id].chunk == c && SucceededIn(s, c)
  }

  function HandlerAfter(s: World, id: nat, l: Loose): Loose
    requires id in s.workers
  {
    var c := s.workers[id].chunk;
    l.(late := l.late - {id}, struck := l.struck + {ManifestOf(c)},
       gone := if s.workers[id].pc.Undoing? && SucceededIn(s, c) then l.gone + {c} else l.gone)
  }

  /** Who is inside the handler of a late error, which chunks were given up there, and which keys it touched. */
  ghost function LooseAfter(s: World, step: Step, l: Loose): Loose {
    match step
    case LateError(id) => if id in s.workers && s.workers[id].pc.Reporting? then l.(late := l.late + {id}) else l
    case Crash(id) => l.(late := l.late - {id})
    case Work(id, choice) =>
      if id !in s.workers then l
      else if LateWrite(s, step, l) then HandlerAfter(s, id, l)
      else if id in l.late then l.(late := l.late * DoWork(s, id, choice).workers.Keys)
      else WorkAfter(s, id, choice, l)
    case _ => l
  }

  // A late worker decides what to write, and has not written yet.
  predicate InHandler(pc: Pc) {
    pc.Handling? || (pc.Undoing? && pc.mark != Succeeded) || pc == Closing(Retrying, None, TryAgain)
  }

  predicate LateOne(s: World, w: Worker) {
    InHandler(w.pc) && PlanOk(s, w) && w.chunk in s.sys.tables.chunks
  }

  predicate LateOk(s: World, l: Loose) {
    forall i :: i in l.late ==> i in s.workers && LateOne(s, s.workers[i])
  }

  // A worker behind its success commit that still has its lease also still has its manifest.
  predicate Reported(s: World, l: Loose) {
    forall i :: i in s.workers && (i in l.late || s.workers[i].pc.Reporting?) && Act(s, s.workers[i]) ==> HasCommit(Calm(s, l), s.workers[i])
  }

  predicate HasCommit(q: World, w: Worker) {
    ManifestOf(w.chunk) in q.committed && q.committed[ManifestOf(w.chunk)].chunk == w.chunk
  }

  /** The invariant of all runs */
  predicate Whole(s: World, l: Loose) {
    Inv(Calm(s, l)) && LateOk(s, l) && Unique(s) && Reported(s, l)
  }

  /****** steps of ordinary workers ******/

  lemma ImageWorker(s: World, l: Loose, id: nat)
    requires Whole(s, l) && Ordinary(s, l, id)
    ensures id in Calm(s, l).workers && Calm(s, l).workers[id] == s.workers[id] && WorkerOk(Calm(s, l), s.workers[id])
    ensures PlanOk(s, s.workers[id]) && CanRecord(s, s.workers[id])
  {
    assert Calm(s, l).workers[id] == s.workers[id];
    assert WorkerOk(Calm(s, l), Calm(s, l).workers[id]);
  }

  lemma FollowsLate(s: World, s': World, id: nat, l: Loose, l': Loose)
    requires LateOk(s, l) && Follows(s, s', id) && id !in l'.late && l'.late <= l.late
    ensures LateOk(s', l')
  {
  }

  lemma FollowsUnique(s: World, s': World, id: nat)
    requires Unique(s) && Follows(s, s', id) && id in s.workers
    ensures Unique(s')
  {
  }

  lemma FollowsActive(s: World, s': World, id: nat, w: Worker)
    requires Follows(s, s', id)
    ensures Act(s', w) == Act(s, w)
  {
    SameActive(s.sys.tables.jobs, s'.sys.tables.jobs, w.chunk.job, w.owner, s.sys.now);
  }

  // A worker that comes to report has just committed its manifest.
  lemma ReportCommits(q: World, id: nat, choice: Choice)
    requires id in q.workers && WorkerOk(q, q.workers[id]) && q.workers[id].pc.Recording?
    ensures var q' := DoWork(q, id, choice);
            id in q'.workers && q'.workers[id].pc.Reporting? ==> HasCommit(q', q.workers[id])
  {
    var w := q.workers[id];
    var r := UpdateChunk(q.sys.tables, w.chunk, ChunkSucceeded, Some(w.pc.ids), w.owner, q.sys.now);
    if !choice.Raise? && r.Done? {
      assert r.tables.manifests == q.sys.tables.manifests;
      RecordIs(q, id, choice);
      assert HasFinished(q, w, w.pc.ids);
      hide UpdateChunk, OwnOk, PlanOk, RowsOk;
    } else {
      hide OwnOk, PlanOk, RowsOk;
    }
  }

  lemma CommitStays(q: World, id: nat, choice: Choice, w: Worker)
    requires Inv(q) && id in q.workers && HasCommit(q, w)
    ensures HasCommit(DoWork(q, id, choice), w)
  {
    hide Inv, DoWork;
    StepKeepsCommitted(q, Work(id, choice), ManifestOf(w.chunk));
  }

  // The other workers' commits stay.
  lemma FollowsReported(s: World, l: Loose, id: nat, choice: Choice, i: nat)
    requires Whole(s, l) && Ordinary(s, l, id)
    requires var s', l' := DoWork(s, id, choice), WorkAfter(s, id, choice, l);
             && Mirrors(s, s', l', DoWork(Calm(s, l), id, choice), id)
             && i in s'.workers && (i in l'.late || s'.workers[i].pc.Reporting?) && Act(s', s'.workers[i])
    ensures HasCommit(DoWork(Calm(s, l), id, choice), DoWork(s, id, choice).workers[i])
  {
    var q, s' := Calm(s, l), DoWork(s, id, choice);
    hide Inv, DoWork, WorkerOk, LateOk, Unique, HasCommit, CanRecord, PlanOk;
    FollowsActive(s, s', id, s'.workers[i]);
    ImageWorker(s, l, id);
    assert s'.workers[i].chunk == s.workers[i].chunk && s'.workers[i].owner == s.workers[i].owner;
    if i != id || s.workers[id].pc.Reporting? {
      CommitStays(q, id, choice, s.workers[i]);
    } else {
      assert s.workers[id].pc.Recording?;
      assert Calm(s', WorkAfter(s, id, choice, l)).workers[id] == s'.workers[id];
      ReportCommits(q, id, choice);
    }
  }

  lemma OrdinaryKeeps(s: World, l: Loose, id: nat, choice: Choice)
    requires Whole(s, l) && Ordinary(s, l, id)
    requires s.workers[id].pc.Ensuring? && s.workers[id].chunk in l.gone ==> !SucceededIn(s, s.workers[id].chunk)
    ensures Whole(DoWork(s, id, choice), WorkAfter(s, id, choice, l))
  {
    var q, s', l' := Calm(s, l), DoWork(s, id, choice), WorkAfter(s, id, choice, l);
    ImageWorker(s, l, id);
    hide Inv, DoWork, WorkerOk, CanRecord;
    CalmWork(s, l, id, choice);
    WorkKeeps(q, id, choice);
    assert l'.late == l.late;
    hide WorkAfter;
    FollowsLate(s, s', id, l, l');
    FollowsUnique(s, s', id);
    forall i | i in s'.workers && (i in l'.late || s'.workers[i].pc.Reporting?) && Act(s', s'.workers[i])
      ensures HasCommit(Calm(s', l'), s'.workers[i])
    {
      FollowsReported(s, l, id, choice, i);
    }
  }

  /****** workers that stop, and errors behind the commit ******/

  // A change of workers only: `s'` has the same tables, clock, plans and history.
  predicate Crew(s: World, s': World) {
    s' == s.(workers := s'.workers)
  }

  // Whoever stops, late or not
  lemma HaltKeeps(s: World, l: Loose, id: nat)
    requires Whole(s, l)
    ensures Whole(Halt(s, id), l.(late := l.late - {id}))
  {
    var q, s', l' := Calm(s, l), Halt(s, id), l.(late := l.late - {id});
    assert s'.workers - l'.late == q.workers - {id};
    assert Calm(s', l') == Halt(q, id);
    DropWorker(q, id);
    hide Inv;
  }

  lemma ErrorKeeps(s: World, l: Loose, id: nat)
    requires Whole(s, l) && id in s.workers && s.workers[id].pc.Reporting?
    ensures Whole(Move(s, id, Handling), l.(late := l.late + {id}))
  {
    var q, s', l' := Calm(s, l), Move(s, id, Handling), l.(late := l.late + {id});
    assert id !in l.late;
    ImageWorker(s, l, id);
    assert s'.workers - l'.late == q.workers - {id};
    assert Calm(s', l') == Halt(q, id);
    DropWorker(q, id);
    hide Inv;
    assert LateOne(s', s'.workers[id]) by {
      assert WorkerOk(q, s.workers[id]);
    }
  }

  // A late worker decides what to write.
  lemma DecideKeeps(s: World, l: Loose, id: nat, w: Worker)
    requires Whole(s, l) && id in l.late && w.owner == s.workers[id].owner && w.chunk == s.workers[id].chunk
    requires InHandler(w.pc) && s.workers[id].pc.Handling?
    ensures Whole(s.(workers := s.workers[id := w]), l)
  {
    var s' := s.(workers := s.workers[id := w]);
    assert s'.workers - l.late == s.workers - l.late;
    assert Calm(s', l) == Calm(s, l);
    hide Inv;
  }

  lemma HandlerMoves(s: World, id: nat, choice: Choice)
    requires id in s.workers && s.workers[id].pc.Handling?
    ensures var w := DoUndo(s, id, choice).workers[id];
            DoWork(s, id, choice) == s.(workers := s.workers[id := w]) && InHandler(w.pc)
            && w.owner == s.workers[id].owner && w.chunk == s.workers[id].chunk
  {
  }

  lemma HandlerStops(s: World, id: nat, choice: Choice)
    requires id in s.workers && InHandler(s.workers[id].pc) && !s.workers[id].pc.Handling? && !Act(s, s.workers[id])
    ensures DoWork(s, id, choice) == Halt(s, id)
  {
  }

  // A late worker that writes nothing
  lemma IdleKeeps(s: World, l: Loose, id: nat, choice: Choice)
    requires Whole(s, l) && id in l.late && !LateWrite(s, Work(id, choice), l)
    ensures Whole(DoWork(s, id, choice), l.(late := l.late * DoWork(s, id, choice).workers.Keys))
  {
    var s' := DoWork(s, id, choice);
    if s.workers[id].pc.Handling? {
      HandlerMoves(s, id, choice);
      hide DoWork, Whole;
      assert LateOk(s, l) by {
        assert Whole(s, l);
      }
      assert l.late * s'.workers.Keys == l.late;
      DecideKeeps(s, l, id, s'.workers[id]);
    } else {
      HandlerStops(s, id, choice);
      hide DoWork;
      assert l.late * s'.workers.Keys == l.late - {id};
      HaltKeeps(s, l, id);
    }
  }

  /****** the handler's first write ******/

  // A key no succeeded chunk relies on can be struck from the history.
  lemma ForgetKeeps(q: World, k: ManifestKey)
    requires Inv(q) && forall c :: SucceededIn(q, c) ==> ManifestOf(c) != k
    ensures Inv(q.(committed := q.committed - {k}))
  {
    var q' := q.(committed := q.committed - {k});
    forall i | i in q'.workers ensures WorkerOk(q', q'.workers[i]) {
      UntouchedWorker(q, q', q.workers[i]);
    }
    forall c | c in q'.sys.tables.chunks && q'.sys.tables.chunks[c].status == ChunkSucceeded ensures Agrees(q', c) {
      assert SucceededIn(q, c) && Agrees(q, c);
    }
  }

  // The row of a chunk is replaced, and its key leaves the history.
  function Left(q: World, c: ChunkId, row: ChunkRow): (q': World)
    ensures q'.workers == q.workers
  {
    With(q, q.sys.tables.(chunks := q.sys.tables.chunks[c := row])).(committed := q.committed - {ManifestOf(c)})
  }

  lemma LeaveHistory(q: World, c: ChunkId, row: ChunkRow)
    requires Inv(q) && ManifestOf(c) in q.committed && q.committed[ManifestOf(c)].chunk == c && row.status != ChunkSucceeded
    ensures Inv(Left(q, c, row))
  {
    var q1 := With(q, q.sys.tables.(chunks := q.sys.tables.chunks[c := row]));
    ChunkWriteKeeps(q, c, row);
    forall d | SucceededIn(q1, d) ensures ManifestOf(d) != ManifestOf(c) {
      assert Agrees(q1, d);
    }
    hide Inv;
    ForgetKeeps(q1, ManifestOf(c));
  }

  predicate Alone(q: World, w: Worker) {
    forall i :: i in q.workers ==> q.workers[i].owner != w.owner || q.workers[i].chunk != w.chunk
  }

  // Marking down a manifest that is in no history harms no one but the workers of its own chunk.
  lemma MarkDownKeeps(q: World, w: Worker, mark: ManifestStatus)
    requires Inv(q) && Act(q, w) && Alone(q, w) && mark != Succeeded
    requires var k, ms := ManifestOf(w.chunk), q.sys.tables.manifests; k in ms && k !in q.committed && ms[k].chunk == w.chunk
    ensures var k, ms := ManifestOf(w.chunk), q.sys.tables.manifests;
            Inv(With(q, q.sys.tables.(manifests := ms[k := ms[k].(status := mark)])))
  {
    var k, ms := ManifestOf(w.chunk), q.sys.tables.manifests;
    var q' := With(q, q.sys.tables.(manifests := ms[k := ms[k].(status := mark)]));
    forall i | i in q'.workers ensures WorkerOk(q', q'.workers[i]) {
      MarkedWorker(q, q', w, i);
    }
    forall c | c in q'.sys.tables.chunks && q'.sys.tables.chunks[c].status == ChunkSucceeded ensures Agrees(q', c) {
      assert Agrees(q, c);
    }
  }

  // Who holds or has finished a manifest is named by it.
  lemma OwnsManifest(q: World, v: Worker)
    requires WorkerOk(q, v) && Act(q, v) && (HoldsClaim(v.pc) || v.pc.Recording? || v.pc.Resuming?)
    ensures ManifestOf(v.chunk) in q.sys.tables.manifests && q.sys.tables.manifests[ManifestOf(v.chunk)].chunk == v.chunk
  {
  }

  lemma MarkedWorker(q: World, q': World, w: Worker, i: nat)
    requires Inv(q) && Act(q, w) && Alone(q, w) && i in q.workers
    requires var k, ms := ManifestOf(w.chunk), q.sys.tables.manifests;
             && k in ms && k !in q.committed && ms[k].chunk == w.chunk
             && exists m :: q' == With(q, q.sys.tables.(manifests := ms[k := m])) && m.chunk == w.chunk
    ensures WorkerOk(q', q.workers[i])
  {
    var v := q.workers[i];
    assert WorkerOk(q, v);
    hide Inv;
    if ManifestOf(v.chunk) != ManifestOf(w.chunk) {
      UntouchedWorker(q, q', v);
    } else {
      if Act(q, v) && (HoldsClaim(v.pc) || v.pc.Recording? || v.pc.Resuming?) {
        OwnsManifest(q, v);
      }
      SameActive(q.sys.tables.jobs, q'.sys.tables.jobs, v.chunk.job, v.owner, q.sys.now);
    }
  }

  // A worker joins.
  lemma JoinKeeps(q: World, id: nat, w: Worker)
    requires Inv(q) && id !in q.workers && Alone(q, w) && WorkerOk(q, w)
    ensures Inv(q.(workers := q.workers[id := w]))
  {
    var q' := q.(workers := q.workers[id := w]);
    forall i | i in q'.workers ensures WorkerOk(q', q'.workers[i]) {
      AloneOk(q, q'.workers, q'.workers[i]);
    }
  }

  // What is known about a late worker that still has its lease
  lemma LateFacts(s: World, l: Loose, id: nat)
    requires Whole(s, l) && id in l.late && Act(s, s.workers[id])
    ensures var q, w := Calm(s, l), s.workers[id];
            var k := ManifestOf(w.chunk);
            && id !in q.workers && Alone(q, w) && Act(q, w) && HasCommit(q, w) && PlanOk(q, w)
            && k in q.sys.tables.manifests && q.sys.tables.manifests[k] == q.committed[k]
            && q.committed[k].status == Succeeded && w.chunk in q.sys.tables.chunks
  {
    CalmKeeps(s, l);
    var q, w := Calm(s, l), s.workers[id];
    assert HasCommit(q, w);
    forall i | i in q.workers ensures q.workers[i].owner != w.owner || q.workers[i].chunk != w.chunk {
      assert q.workers[i] == s.workers[i];
    }
    assert CommittedOk(q);
  }

  // No other live worker's commit is struck.
  lemma OthersReported(s: World, l: Loose, id: nat, i: nat)
    requires Whole(s, l) && id in l.late && Act(s, s.workers[id])
    requires i in s.workers && i != id && (i in l.late || s.workers[i].pc.Reporting?) && Act(s, s.workers[i])
    ensures HasCommit(Calm(s, l), s.workers[i]) && ManifestOf(s.workers[i].chunk) != ManifestOf(s.workers[id].chunk)
  {
    hide Inv;
    assert HasCommit(Calm(s, l), s.workers[id]);
    assert HasCommit(Calm(s, l), s.workers[i]);
  }

  // The worker joins the image again, with its key struck from the history.
  lemma Rejoins(s: World, s': World, l: Loose, l': Loose, id: nat)
    requires Whole(s, l) && id in l.late && Act(s, s.workers[id]) && Follows(s, s', id) && id in s'.workers
    requires l'.late == l.late - {id} && !s'.workers[id].pc.Reporting?
    requires Calm(s', l').committed == Calm(s, l).committed - {ManifestOf(s.workers[id].chunk)}
    requires Inv(Calm(s', l'))
    ensures Whole(s', l')
  {
    hide Inv;
    FollowsLate(s, s', id, l, l');
    FollowsUnique(s, s', id);
    forall i | i in s'.workers && (i in l'.late || s'.workers[i].pc.Reporting?) && Act(s', s'.workers[i])
      ensures HasCommit(Calm(s', l'), s'.workers[i])
    {
      FollowsActive(s, s', id, s'.workers[i]);
      OthersReported(s, l, id, i);
    }
  }

  lemma RetriedIs(q: World, id: nat, w: Worker)
    requires w.chunk in q.sys.tables.chunks
    ensures var q1 := Left(q, w.chunk, q.sys.tables.chunks[w.chunk].(status := Retrying));
            Retried(q, id, w) == q1.(workers := q1.workers[id := w.(pc := Beginning, attempt := w.attempt + 1)])
  {
  }

  lemma LeaveHistoryOf(q: World, w: Worker, row: ChunkRow)
    requires Inv(q) && HasCommit(q, w) && row.status != ChunkSucceeded
    ensures Inv(Left(q, w.chunk, row))
  {
    hide Inv, Left;
    LeaveHistory(q, w.chunk, row);
  }

  lemma RetryImage(q: World, id: nat, w: Worker)
    requires Inv(q) && id !in q.workers && Alone(q, w) && Act(q, w) && HasCommit(q, w) && PlanOk(q, w)
    requires w.chunk in q.sys.tables.chunks && w.pc == Closing(Retrying, None, TryAgain)
    ensures Inv(Retried(q, id, w))
  {
    var row := q.sys.tables.chunks[w.chunk].(status := Retrying);
    var w' := w.(pc := Beginning, attempt := w.attempt + 1);
    hide *;
    RetriedIs(q, id, w);
    BeginningOk(q, w, row);
    LeaveHistoryOf(q, w, row);
    SameCrew(q, Left(q, w.chunk, row), w, w');
    JoinKeeps(Left(q, w.chunk, row), id, w');
  }

  lemma SameCrew(q: World, q1: World, w: Worker, w': Worker)
    requires Alone(q, w) && q1.workers == q.workers && w'.owner == w.owner && w'.chunk == w.chunk
    ensures Alone(q1, w')
  {
  }

  lemma BeginningOk(q: World, w: Worker, row: ChunkRow)
    requires Inv(q) && HasCommit(q, w) && PlanOk(q, w) && w.pc == Closing(Retrying, None, TryAgain) && row.status != ChunkSucceeded
    ensures WorkerOk(Left(q, w.chunk, row), w.(pc := Beginning, attempt := w.attempt + 1))
  {
    assert CommittedOk(q);
    hide Inv;
  }

  lemma RetryIs(s: World, id: nat, choice: Choice)
    requires id in s.workers && s.workers[id].pc == Closing(Retrying, None, TryAgain) && Act(s, s.workers[id])
    requires s.workers[id].chunk in s.sys.tables.chunks
    ensures var w, t := s.workers[id], s.sys.tables;
            DoWork(s, id, choice) == With(s, t.(chunks := t.chunks[w.chunk := t.chunks[w.chunk].(status := Retrying)]))
                                     .(workers := s.workers[id := w.(pc := Beginning, attempt := w.attempt + 1)])
  {
  }

  // The image after a step of a late worker that rewrites its chunk row or its manifest
  lemma JoinsImage(s: World, l: Loose, l': Loose, id: nat, w: Worker, t: Tables)
    requires id in l.late && l'.late == l.late - {id} && l'.struck == l.struck + {ManifestOf(w.chunk)}
    ensures var q := Calm(s, l);
            Calm(With(s, t).(workers := s.workers[id := w]), l')
            == With(q, VeiledTables(t, l'.gone)).(workers := q.workers[id := w], committed := q.committed - {ManifestOf(w.chunk)})
  {
    assert s.workers[id := w] - l'.late == (s.workers - l.late)[id := w];
    assert s.committed - l'.struck == s.committed - l.struck - {ManifestOf(w.chunk)};
  }

  function Retried(q: World, id: nat, w: Worker): World
    requires w.chunk in q.sys.tables.chunks
  {
    Left(q, w.chunk, q.sys.tables.chunks[w.chunk].(status := Retrying))
      .(workers := q.workers[id := w.(pc := Beginning, attempt := w.attempt + 1)])
  }

  lemma RetryCalm(s: World, l: Loose, id: nat, choice: Choice)
    requires id in l.late && id in s.workers && s.workers[id].pc == Closing(Retrying, None, TryAgain) && Act(s, s.workers[id])
    requires s.workers[id].chunk in s.sys.tables.chunks
    ensures Calm(DoWork(s, id, choice), HandlerAfter(s, id, l)) == Retried(Calm(s, l), id, s.workers[id])
  {
    var w, t := s.workers[id], s.sys.tables;
    var row := t.chunks[w.chunk].(status := Retrying);
    hide DoWork, Act;
    RetryIs(s, id, choice);
    VeilPut(t.chunks, l.gone, w.chunk, row);
    JoinsImage(s, l, HandlerAfter(s, id, l), id, w.(pc := Beginning, attempt := w.attempt + 1), t.(chunks := t.chunks[w.chunk := row]));
  }

  lemma RetryFollows(s: World, id: nat, choice: Choice)
    requires id in s.workers && s.workers[id].pc == Closing(Retrying, None, TryAgain) && Act(s, s.workers[id])
    requires s.workers[id].chunk in s.sys.tables.chunks
    ensures Follows(s, DoWork(s, id, choice), id) && id in DoWork(s, id, choice).workers
    ensures !DoWork(s, id, choice).workers[id].pc.Reporting?
  {
    RetryIs(s, id, choice);
    hide DoWork, Act;
  }

  lemma RetryKeeps(s: World, l: Loose, id: nat, choice: Choice)
    requires Whole(s, l) && id in l.late && Act(s, s.workers[id]) && s.workers[id].pc.Closing?
    ensures Whole(DoWork(s, id, choice), HandlerAfter(s, id, l))
  {
    LateIs(s, l, id);
    LateFacts(s, l, id);
    CalmKeeps(s, l);
    hide DoWork, Inv, PlanOk, Act, Alone, HasCommit, Calm, Follows, LateOk, Reported, Unique;
    RetryCalm(s, l, id, choice);
    RetryFollows(s, id, choice);
    RetryImage(Calm(s, l), id, s.workers[id]);
    hide Whole;
    Rejoins(s, DoWork(s, id, choice), l, HandlerAfter(s, id, l), id);
  }

  function AfterMark(mark: ManifestStatus): Pc {
    if mark == ManifestFailed then Closing(ChunkFailed, None, Stop) else UndoingHashes(mark)
  }

  function GivenUp(q: World, id: nat, w: Worker, row: ChunkRow): World
    requires ManifestOf(w.chunk) in q.sys.tables.manifests && w.pc.Undoing?
  {
    var k, ms, q1 := ManifestOf(w.chunk), q.sys.tables.manifests, Left(q, w.chunk, row);
    With(q1, q1.sys.tables.(manifests := ms[k := ms[k].(status := w.pc.mark)]))
      .(workers := q.workers[id := w.(pc := AfterMark(w.pc.mark))])
  }

  lemma GiveUpImage(q: World, id: nat, w: Worker, row: ChunkRow)
    requires Inv(q) && id !in q.workers && Alone(q, w) && Act(q, w) && HasCommit(q, w) && PlanOk(q, w)
    requires w.chunk in q.sys.tables.chunks && w.pc.Undoing? && w.pc.mark != Succeeded && row.status != ChunkSucceeded
    requires ManifestOf(w.chunk) in q.sys.tables.manifests && q.sys.tables.manifests[ManifestOf(w.chunk)].chunk == w.chunk
    ensures Inv(GivenUp(q, id, w, row))
  {
    var k, ms := ManifestOf(w.chunk), q.sys.tables.manifests;
    var q1 := Left(q, w.chunk, row);
    LeaveHistory(q, w.chunk, row);
    assert q1.sys.tables.manifests == ms && k !in q1.committed && Act(q1, w);
    var q2 := With(q1, q1.sys.tables.(manifests := ms[k := ms[k].(status := w.pc.mark)]));
    var w' := w.(pc := AfterMark(w.pc.mark));
    AfterMarkOk(q, q2, w, w');
    hide Inv, WorkerOk, AfterMark, PlanOk, Left, Alone, Act;
    SameCrew(q, q1, w, w);
    MarkDownKeeps(q1, w, w.pc.mark);
    SameCrew(q1, q2, w, w');
    JoinKeeps(q2, id, w');
  }

  lemma AfterMarkOk(q: World, q2: World, w: Worker, w': Worker)
    requires PlanOk(q, w) && w.pc.Undoing? && w.pc.mark != Succeeded && w' == w.(pc := AfterMark(w.pc.mark)) && q2.plans == q.plans
    requires w.chunk in q2.sys.tables.chunks && NotSucceeded(q2, w.chunk)
    ensures WorkerOk(q2, w')
  {
  }

  lemma MarkIs(s: World, id: nat, choice: Choice)
    requires id in s.workers && s.workers[id].pc.Undoing? && Act(s, s.workers[id])
    requires var k, ms := ManifestOf(s.workers[id].chunk), s.sys.tables.manifests; k in ms && ms[k].chunk == s.workers[id].chunk
    ensures var w, t := s.workers[id], s.sys.tables;
            var k := ManifestOf(w.chunk);
            DoWork(s, id, choice) == With(s, t.(manifests := t.manifests[k := t.manifests[k].(status := w.pc.mark)]))
                                     .(workers := s.workers[id := w.(pc := AfterMark(w.pc.mark))])
  {
  }

  lemma GiveUpCalm(s: World, l: Loose, id: nat, choice: Choice)
    requires id in l.late && id in s.workers && s.workers[id].pc.Undoing? && Act(s, s.workers[id])
    requires s.workers[id].chunk in s.sys.tables.chunks
    requires var k, ms := ManifestOf(s.workers[id].chunk), s.sys.tables.manifests; k in ms && ms[k].chunk == s.workers[id].chunk
    ensures Calm(DoWork(s, id, choice), HandlerAfter(s, id, l))
         == GivenUp(Calm(s, l), id, s.workers[id], VeiledRow(s.sys.tables.chunks[s.workers[id].chunk]))
    ensures Follows(s, DoWork(s, id, choice), id) && id in DoWork(s, id, choice).workers
    ensures !DoWork(s, id, choice).workers[id].pc.Reporting?
  {
    var w, t, l' := s.workers[id], s.sys.tables, HandlerAfter(s, id, l);
    var k, row := ManifestOf(w.chunk), VeiledRow(t.chunks[w.chunk]);
    MarkIs(s, id, choice);
    hide DoWork, Act;
    assert VeiledChunks(t.chunks, l'.gone) == VeiledChunks(t.chunks, l.gone)[w.chunk := row];
    JoinsImage(s, l, l', id, w.(pc := AfterMark(w.pc.mark)), t.(manifests := t.manifests[k := t.manifests[k].(status := w.pc.mark)]));
  }

  lemma GiveUpKeeps(s: World, l: Loose, id: nat, choice: Choice)
    requires Whole(s, l) && id in l.late && Act(s, s.workers[id]) && s.workers[id].pc.Undoing?
    ensures Whole(DoWork(s, id, choice), HandlerAfter(s, id, l))
  {
    LateIs(s, l, id);
    LateFacts(s, l, id);
    CalmKeeps(s, l);
    assert HasCommit(Calm(s, l), s.workers[id]);
    hide DoWork, Inv, PlanOk, Act, Alone, Calm, Follows, LateOk, Reported, Unique, VeiledRow;
    GiveUpCalm(s, l, id, choice);
    VeiledFails(s.sys.tables.chunks[s.workers[id].chunk]);
    GiveUpImage(Calm(s, l), id, s.workers[id], VeiledRow(s.sys.tables.chunks[s.workers[id].chunk]));
    hide Whole;
    Rejoins(s, DoWork(s, id, choice), l, HandlerAfter(s, id, l), id);
  }

  lemma VeiledFails(row: ChunkRow)
    ensures VeiledRow(row).status != ChunkSucceeded
  {
  }

  /****** all steps ******/

  lemma StartWhole(s: World, l: Loose, id: nat, owner: Owner, c: ChunkId)
    requires Whole(s, l) && CanStart(s, id, owner, c)
    ensures Whole(Advance(s, Start(id, owner, c)), l)
  {
    hide Inv;
    StepKeeps(Calm(s, l), Start(id, owner, c));
    StartCalm(s, l, id, owner, c);
    hide Calm;
    var s' := Advance(s, Start(id, owner, c));
    assert !s'.workers[id].pc.Reporting?;
    hide HasCommit, PlanOk;
  }

  lemma StartCalm(s: World, l: Loose, id: nat, owner: Owner, c: ChunkId)
    requires CanStart(s, id, owner, c) && id !in l.late
    ensures Calm(Advance(s, Start(id, owner, c)), l) == Advance(Calm(s, l), Start(id, owner, c))
  {
    var q, s' := Calm(s, l), Advance(s, Start(id, owner, c));
    assert s'.workers - l.late == q.workers[id := s'.workers[id]];
  }

  lemma LoadWhole(s: World, l: Loose, owner: Owner, job: JobId, skip: map<Key, bool>)
    requires Whole(s, l) && CanLoad(s, owner, job, skip)
    ensures Whole(Advance(s, Load(owner, job, skip)), l)
  {
    var q := Calm(s, l);
    forall k | k in skip ensures MaySkip(q.sys.tables, ChunkId(q.sys.tables.jobs[job].project, job, k), skip[k]) {
      assert MaySkip(s.sys.tables, ChunkId(s.sys.tables.jobs[job].project, job, k), skip[k]);
    }
    hide Inv, MaySkip;
    StepKeeps(q, Load(owner, job, skip));
  }

  lemma FailedSame(t: Tables, gone: set<ChunkId>, job: JobId)
    ensures FailedChunks(VeiledTables(t, gone), job) == FailedChunks(t, job)
  {
  }

  lemma ListWhole(s: World, l: Loose, owner: Owner, job: JobId)
    requires Whole(s, l)
    ensures Whole(Advance(s, List(owner, job)), l)
  {
    FailedSame(s.sys.tables, l.gone, job);
    hide Inv, FailedChunks;
    StepKeeps(Calm(s, l), List(owner, job));
  }

  lemma ResetWhole(s: World, l: Loose, owner: Owner, c: ChunkId)
    requires Whole(s, l)
    ensures Whole(Advance(s, Reset(owner, c)), l)
  {
    VeilUpdate(s.sys.tables, l.gone, c, Pending, None, owner, s.sys.now);
    hide Inv, UpdateChunk;
    StepKeeps(Calm(s, l), Reset(owner, c));
    var s' := Advance(s, Reset(owner, c));
    assert s'.workers == s.workers && Grown(s.sys.tables, s'.sys.tables) by {
      CalmKeeps(s, l);
    }
    forall i | i in s.workers ensures Act(s', s.workers[i]) == Act(s, s.workers[i]) {
      SameActive(s.sys.tables.jobs, s'.sys.tables.jobs, s.workers[i].chunk.job, s.workers[i].owner, s.sys.now);
    }
  }

  lemma EnvWhole(s: World, l: Loose, op: SystemOp)
    requires Whole(s, l) && !op.OnTables?
    ensures Whole(Advance(s, Env(op)), l)
  {
    var q, s' := Calm(s, l), Advance(s, Env(op));
    assert s'.sys.tables == s.sys.tables.(jobs := s'.sys.tables.jobs);
    assert Calm(s', l) == Advance(q, Env(op));
    forall i | i in s.workers && (i in l.late || s.workers[i].pc.Reporting?) && Act(s', s.workers[i])
      ensures Act(s, s.workers[i])
    {
      OwnerUsed(s, l, i);
      StepNeverRevives(s.sys, op, s.workers[i].chunk.job, s.workers[i].owner);
    }
    hide Inv, Next;
    StepKeeps(q, Env(op));
  }

  lemma OwnerUsed(s: World, l: Loose, i: nat)
    requires Whole(s, l) && i in s.workers
    ensures s.workers[i].owner in s.sys.used
  {
    if i !in l.late {
      ImageWorker(s, l, i);
    }
    assert OwnersOk(Calm(s, l));
  }

  lemma WorkWhole(s: World, l: Loose, id: nat, choice: Choice)
    requires Whole(s, l) && id in s.workers
    ensures Whole(DoWork(s, id, choice), LooseAfter(s, Work(id, choice), l))
  {
    var w := s.workers[id];
    if LateWrite(s, Work(id, choice), l) {
      LateIs(s, l, id);
      hide Whole, DoWork, HandlerAfter;
      if w.pc.Undoing? {
        GiveUpKeeps(s, l, id, choice);
      } else {
        RetryKeeps(s, l, id, choice);
      }
    } else if id in l.late {
      hide Whole, DoWork;
      IdleKeeps(s, l, id, choice);
    } else if w.pc.Ensuring? && w.chunk in l.gone && SucceededIn(s, w.chunk) {
      EnsureStops(s, l, id, choice);
      hide Whole, DoWork, WorkAfter;
      HaltKeeps(s, l, id);
    } else {
      hide Whole, DoWork, WorkAfter;
      OrdinaryKeeps(s, l, id, choice);
    }
  }

  lemma LateIs(s: World, l: Loose, id: nat)
    requires Whole(s, l) && id in l.late
    ensures InHandler(s.workers[id].pc)
  {
    hide Inv;
  }

  // A worker that finds its row succeeded stops, rightly or not.
  lemma EnsureStops(s: World, l: Loose, id: nat, choice: Choice)
    requires id in s.workers && id !in l.late && s.workers[id].pc.Ensuring? && SucceededIn(s, s.workers[id].chunk)
    ensures DoWork(s, id, choice) == Halt(s, id) && WorkAfter(s, id, choice, l) == l == l.(late := l.late - {id})
  {
    assert l.late - {id} == l.late;
  }

  /** Every step keeps the invariant, late errors and the writes of their handlers included. */
  lemma StepKeepsWhole(s: World, l: Loose, step: Step)
    requires Whole(s, l)
    ensures Whole(Advance(s, step), LooseAfter(s, step, l))
  {
    match step
    case Env(op) => if !op.OnTables? { EnvWhole(s, l, op); }
    case Load(owner, job, skip) =>
      hide Whole, CanLoad;
      if CanLoad(s, owner, job, skip) { LoadWhole(s, l, owner, job, skip); }
    case List(owner, job) =>
      hide Whole;
      ListWhole(s, l, owner, job);
    case Reset(owner, c) =>
      hide Whole, Advance;
      ResetWhole(s, l, owner, c);
    case Start(id, owner, c) =>
      hide Whole, CanStart;
      if CanStart(s, id, owner, c) { StartWhole(s, l, id, owner, c); }
    case Work(id, choice) =>
      hide Whole, DoWork, LooseAfter;
      if id in s.workers { WorkWhole(s, l, id, choice); } else { NoWorker(s, l, id, choice); }
    case Crash(id) =>
      hide Whole;
      HaltKeeps(s, l, id);
    case LateError(id) =>
      hide Whole;
      if id in s.workers && s.workers[id].pc.Reporting? { ErrorKeeps(s, l, id); }
  }

  lemma NoWorker(s: World, l: Loose, id: nat, choice: Choice)
    requires id !in s.workers
    ensures Advance(s, Work(id, choice)) == s && LooseAfter(s, Work(id, choice), l) == l
  {
  }

  /****** runs ******/

  const NONE := Loose({}, {}, {})

  ghost function LooseIn(s: World, steps: seq<Step>, l: Loose): Loose
    decreases |steps|
  {
    if steps == [] then l else LooseIn(Advance(s, steps[0]), steps[1..], LooseAfter(s, steps[0], l))
  }

  lemma {:induction false} RunKeepsWhole(s: World, l: Loose, steps: seq<Step>)
    requires Whole(s, l)
    ensures Whole(Run(s, steps), LooseIn(s, steps, l))
    decreases |steps|
  {
    if steps != [] {
      hide Whole, Advance, LooseAfter;
      StepKeepsWhole(s, l, steps[0]);
      RunKeepsWhole(Advance(s, steps[0]), LooseAfter(s, steps[0], l), steps[1..]);
    }
  }

  lemma {:induction false} LooseConcat(s: World, a: seq<Step>, b: seq<Step>, l: Loose)
    ensures LooseIn(s, a + b, l) == LooseIn(Run(s, a), b, LooseIn(s, a, l))
    decreases |a|
  {
    if a == [] {
      assert a + b == b;
    } else {
      assert (a + b)[0] == a[0] && (a + b)[1..] == a[1..] + b;
      LooseConcat(Advance(s, a[0]), a[1..], b, LooseAfter(s, a[0], l));
    }
  }

  lemma EmptyIsWhole()
    ensures Whole(EMPTY, NONE)
  {
    assert Calm(EMPTY, NONE) == EMPTY;
  }
}
