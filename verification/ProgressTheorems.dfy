/** How a run's counters stand at every point and at its end, on one key per chunk and on repeated keys. */
module ProgressTheorems {
  import opened ProgressRecount

  lemma StartIsFine(trees: seq<Tree>)
    ensures Basic(Start(trees), |trees|) && Recounted(Start(trees)) && Tight(Start(trees))
  {
    hide *;
    StartIsBasic(trees);
    StartIsTight(trees);
    StartIsRecounted(trees);
  }

  lemma StartShape(trees: seq<Tree>)
    ensures var r := Start(trees);
            && |r.chunks| == |trees| == r.total && r.rows == map[] && r.counts == Counts(0, 0, 0, 0, 0)
            && (forall i :: 0 <= i < |r.chunks| ==> r.chunks[i].pc == Fresh) && forall c :: c in r.chunks ==> c.pc == Fresh
  {
  }

  lemma StartIsBasic(trees: seq<Tree>)
    ensures Basic(Start(trees), |trees|)
  {
    StartShape(trees);
    hide *;
    NoParts(Start(trees).chunks);
    FreshIsBasic(Start(trees));
  }

  lemma FreshIsBasic(r: Run)
    requires r.total == |r.chunks| && r.rows == map[] && r.counts == Counts(0, 0, 0, 0, 0)
    requires (forall i :: 0 <= i < |r.chunks| ==> r.chunks[i].pc == Fresh) && Keep(r.chunks, PartedOnly()) == []
    ensures Basic(r, r.total)
  {
    hide Keep, Sized, Summed, OneReader, RowsKnown, PartedOnly;
    FreshIsSized(r);
    FreshIsSummed(r);
    FreshHasNoReader(r);
    FreshIsKnown(r);
  }

  lemma FreshIsSized(r: Run)
    requires r.total == |r.chunks| && Keep(r.chunks, PartedOnly()) == []
    ensures Sized(r, r.total)
  {
    hide Keep;
  }

  lemma FreshIsSummed(r: Run)
    requires r.counts == Counts(0, 0, 0, 0, 0) && forall i :: 0 <= i < |r.chunks| ==> r.chunks[i].pc == Fresh
    ensures Summed(r)
  {
  }

  lemma FreshHasNoReader(r: Run)
    requires forall i :: 0 <= i < |r.chunks| ==> r.chunks[i].pc == Fresh
    ensures OneReader(r)
  {
  }

  lemma FreshIsKnown(r: Run)
    requires r.rows == map[]
    ensures RowsKnown(r)
  {
  }

  lemma StartIsTight(trees: seq<Tree>)
    ensures Tight(Start(trees))
  {
    hide Keep, Keys;
  }

  lemma StartIsRecounted(trees: seq<Tree>)
    ensures Recounted(Start(trees))
  {
    var r := Start(trees);
    if trees != [] {
      assert r.chunks[0] in r.chunks && !Ended(r);
      hide Recount;
    } else {
      assert KeysWith(map[], Succeeded) == KeysWith(map[], Skipped) == KeysWith(map[], Failed) == KeysWith(map[], Divided) == {};
    }
  }

  lemma {:induction false} NoParts(cs: seq<Chunk>)
    requires forall c :: c in cs ==> c.pc.Fresh?
    ensures Keep(cs, PartedOnly()) == []
  {
    if cs != [] {
      NoParts(cs[1..]);
    }
  }

  lemma {:induction false} RunKeepsBasic(r: Run, steps: seq<Step>, initial: nat)
    requires Basic(r, initial) && Recounted(r) && Legal(r, steps)
    ensures Basic(Final(r, steps), initial) && Recounted(Final(r, steps))
    decreases |steps|
  {
    if steps != [] {
      StepKeepsBasic(r, steps[0], initial);
      StepKeepsRecounted(r, steps[0], initial);
      RunKeepsBasic(Act(r, steps[0]), steps[1..], initial);
    }
  }

  // Chunks are only ever added.
  lemma {:induction false} RunDiffered(r: Run, steps: seq<Step>)
    requires Legal(r, steps) && KeysDiffer(Final(r, steps).chunks)
    ensures KeysDiffer(r.chunks)
    decreases |steps|
  {
    if steps != [] {
      RunDiffered(Act(r, steps[0]), steps[1..]);
      StepShape(r, steps[0]);
      hide Act, Possible;
    }
  }

  lemma {:induction false} RunKeepsTight(r: Run, steps: seq<Step>)
    requires Tight(r) && Legal(r, steps) && NoLate(steps)
    ensures Tight(Final(r, steps))
    decreases |steps|
  {
    if steps != [] {
      StepKeepsTight(r, steps[0]);
      RunKeepsTight(Act(r, steps[0]), steps[1..]);
    }
  }

  lemma PastWithin(r: Run)
    requires Tight(r)
    ensures r.counts.processed + Parts(r) <= |r.chunks|
  {
    hide Keep, RowKeys, OutcomeKeys, Resting;
    KeepDisjoint(r.chunks, PastOnly(), PartedOnly());
  }

  /**
  In every state the processed chunks are the imported, skipped and failed ones and the total is the
  initial leaves plus the splits; without late errors no more is processed than there is.
   */
  lemma ProcessedWithinTotal(trees: seq<Tree>, steps: seq<Step>)
    requires Legal(Start(trees), steps)
    ensures var r := Final(Start(trees), steps);
            && r.counts.processed == r.counts.imported + r.counts.skipped + r.counts.failed
            && r.total == |trees| + Parts(r)
            && (NoLate(steps) ==> r.counts.processed <= r.total)
  {
    hide Recounted, RowsFit, OneReader, RowsKnown, Tight, Keep, Start;
    StartIsFine(trees);
    var r := Final(Start(trees), steps);
    RunKeepsBasic(Start(trees), steps, |trees|);
    if NoLate(steps) {
      RunKeepsTight(Start(trees), steps);
      PastWithin(r);
    }
  }

  /** A run of a job that has rows already: its counters are recounted when it starts. */
  function StartFrom(trees: seq<Tree>, prior: map<Key, Status>): Run {
    Start(trees).(rows := prior, counts := Recount(prior))
  }

  lemma StartFromIsFine(trees: seq<Tree>, prior: map<Key, Status>)
    requires forall i :: 0 <= i < |trees| ==> PartKeys(trees[i]) !! prior.Keys
    ensures var r := StartFrom(trees, prior);
            Sized(r, |trees|) && OneReader(r) && Resumed(r, prior) && Accounted(r)
  {
    var r := StartFrom(trees, prior);
    NoParts(r.chunks);
    assert Sized(r, |trees|);
    hide Keep, Sized, Keys, Recount, PartKeys;
    assert RowsFit(r, prior) && OthersOld(r, prior) && PartsNew(r, prior);
  }

  lemma {:induction false} RunKeepsResumed(r: Run, steps: seq<Step>, initial: nat, prior: map<Key, Status>)
    requires Sized(r, initial) && OneReader(r) && Resumed(r, prior) && Accounted(r)
    requires Legal(r, steps) && KeysDiffer(Final(r, steps).chunks)
    ensures var e := Final(r, steps); Sized(e, initial) && Resumed(e, prior) && Accounted(e)
    decreases |steps|
  {
    if steps != [] {
      var r1 := Act(r, steps[0]);
      RunDiffered(r1, steps[1..]);
      hide Sized, OneReader, Resumed, Accounted, KeysDiffer, Act, Possible;
      StepKeepsSizes(r, steps[0], initial);
      StepKeepsReader(r, steps[0]);
      StepKeepsResumed(r, steps[0], prior);
      StepKeepsAccounted(r, steps[0], prior);
      RunKeepsResumed(r1, steps[1..], initial, prior);
    }
  }

  /**
  When a run has ended that worked on no key twice, the recount makes `processed` the total and `split`
  the splits of this run, each plus the rows of keys it did not work on.  That holds through late errors,
  and of first runs and later ones alike, in which chunks are found whose row had succeeded before;
  a chunk that was not split must have parts without rows.
   */
  lemma EndedRunEquation(trees: seq<Tree>, prior: map<Key, Status>, steps: seq<Step>)
    requires forall i :: 0 <= i < |trees| ==> PartKeys(trees[i]) !! prior.Keys
    requires Legal(StartFrom(trees, prior), steps)
    requires var r := Final(StartFrom(trees, prior), steps); Ended(r) && KeysDiffer(r.chunks)
    ensures var r := Final(StartFrom(trees, prior), steps);
            && r.counts.processed == r.total + |Elsewhere(r.chunks, OutcomeKeys(prior))|
            && r.counts.split == r.total - |trees| + |Elsewhere(r.chunks, KeysWith(prior, Divided))|
  {
    StartFromIsFine(trees, prior);
    RunKeepsResumed(StartFrom(trees, prior), steps, |trees|, prior);
    hide Sized, RowsFit, OthersOld, PartsNew, Accounted, KeysDiffer, Ended, Recount, OneReader;
    EndCounts(Final(StartFrom(trees, prior), steps), |trees|, prior);
  }

  /** So a first run on distinct keys ends with processed and total both the initial leaves plus the splits. */
  lemma DistinctKeysComplete(trees: seq<Tree>, steps: seq<Step>)
    requires Legal(Start(trees), steps) && Ended(Final(Start(trees), steps)) && KeysDiffer(Final(Start(trees), steps).chunks)
    ensures var r := Final(Start(trees), steps); r.counts.processed == r.total == |trees| + r.counts.split
  {
    assert KeysWith(map[], Succeeded) == KeysWith(map[], Skipped) == KeysWith(map[], Failed) == KeysWith(map[], Divided) == {};
    assert StartFrom(trees, map[]) == Start(trees);
    var r := Final(Start(trees), steps);
    assert Elsewhere(r.chunks, OutcomeKeys(map[])) == Elsewhere(r.chunks, KeysWith(map[], Divided)) == {};
    hide Legal, Final, Ended, KeysDiffer, Start, StartFrom, Elsewhere, KeysWith, OutcomeKeys;
    EndedRunEquation(trees, map[], steps);
  }

  /**
  A first run that ended without finding a row succeeded: each counter is the number of rows with its status.
   */
  lemma EndedCountsAreRows(trees: seq<Tree>, steps: seq<Step>)
    requires Legal(Start(trees), steps)
    requires var r := Final(Start(trees), steps); Ended(r) && NoneFound(r.chunks)
    ensures var r := Final(Start(trees), steps);
            && r.counts.imported == |set k | k in r.rows && r.rows[k] == Succeeded|
            && r.counts.skipped == |set k | k in r.rows && r.rows[k] == Skipped|
            && r.counts.failed == |set k | k in r.rows && r.rows[k] == Failed|
            && r.counts.split == |set k | k in r.rows && r.rows[k] == Divided|
            && r.counts.processed == r.counts.imported + r.counts.skipped + r.counts.failed
  {
    hide *;
    StartIsFine(trees);
    RunKeepsBasic(Start(trees), steps, |trees|);
    EndIsRecount(Final(Start(trees), steps));
    RecountIsRows(Final(Start(trees), steps).rows);
  }

  lemma EndIsRecount(r: Run)
    requires Recounted(r) && Ended(r) && NoneFound(r.chunks)
    ensures r.counts == Recount(r.rows)
  {
    hide Recount;
  }

  lemma RecountIsRows(rows: map<Key, Status>)
    ensures var c := Recount(rows);
            && c.imported == |set k | k in rows && rows[k] == Succeeded|
            && c.skipped == |set k | k in rows && rows[k] == Skipped|
            && c.failed == |set k | k in rows && rows[k] == Failed|
            && c.split == |set k | k in rows && rows[k] == Divided|
            && c.processed == c.imported + c.skipped + c.failed
  {
    assert KeysWith(rows, Succeeded) == set k | k in rows && rows[k] == Succeeded;
    assert KeysWith(rows, Skipped) == set k | k in rows && rows[k] == Skipped;
    assert KeysWith(rows, Failed) == set k | k in rows && rows[k] == Failed;
    assert KeysWith(rows, Divided) == set k | k in rows && rows[k] == Divided;
  }

  /** Between two recounts a closed chunk adds one to `processed` and one to the counter of its outcome. */
  lemma CountedOnce(r: Run, i: nat, outcome: Status)
    requires Possible(r, Count(i, outcome))
    ensures var c, d := r.counts, Act(r, Count(i, outcome)).counts;
            && d.processed == c.processed + 1 && d.split == c.split
            && d.imported == c.imported + One(outcome == Succeeded) && d.skipped == c.skipped + One(outcome == Skipped)
            && d.failed == c.failed + One(outcome == Failed)
  {
    hide Recount;
  }

  /**
  Rows: a touched chunk's row is waiting, unless it is not claimed yet and its row says succeeded or split; a closed
  one's row gets its outcome, a resumed one's success, a split one's the split; nothing else writes rows.
   */
  lemma RowsAfter(r: Run, step: Step, k: Key)
    requires Possible(r, step)
    ensures var before, after, own := r.rows, Act(r, step).rows, r.chunks[step.i].tree.key;
            && (k != own ==> (k in after <==> k in before) && (k in before ==> after[k] == before[k]))
            && match step
               case Touch(i) =>
                 if r.chunks[i].pc == Fresh && own in before && (before[own] == Succeeded || before[own] == Divided) then after == before
                 else own in after && after[own] == Waiting
               case Resume(_) => own in after && after[own] == Succeeded
               case Write(i) => own in after && after[own] == r.chunks[i].pc.outcome
               case Split(_) => own in after && after[own] == Divided
               case _ => after == before
  {
    hide Recount;
  }

  function FoundOnly(): Pc -> bool {
    (pc: Pc) => pc.Found?
  }

  lemma {:induction false} SettledThree(cs: seq<Chunk>)
    requires forall c :: c in cs ==> IsSettled(c.pc)
    ensures |Keep(cs, ClosedOnly())| + |Keep(cs, FoundOnly())| + |Keep(cs, PartedOnly())| == |cs|
    ensures Keep(cs, InRowOnly()) == Keep(cs, ClosedOnly())
  {
    if cs != [] {
      SettledThree(cs[1..]);
    }
  }

  // If every leaf is processed, then no chunk was closed because its row had succeeded before.
  lemma CompleteFindsNone(r: Run, initial: nat)
    requires Ended(r) && Basic(r, initial) && Tight(r) && r.counts.processed == r.total
    ensures NoneFound(r.chunks)
  {
    SettledThree(r.chunks);
    KeysAtMost(Keep(r.chunks, ClosedOnly()));
    AllRest(r);
    hide ClosedOnly, InRowOnly, PartedOnly, Keys;
    var found := Keep(r.chunks, FoundOnly());
    forall c | c in r.chunks ensures !c.pc.Found? {
      assert |found| == 0;
      assert c !in found;
    }
  }

  lemma AllRest(r: Run)
    requires Ended(r)
    ensures Resting(r)
  {
    assert forall i :: 0 <= i < |r.chunks| ==> r.chunks[i] in r.chunks;
  }

  lemma RowKeysKnown(r: Run)
    requires RowsKnown(r)
    ensures |r.rows.Keys| <= |Keys(r.chunks)|
  {
    forall k | k in r.rows ensures k in Keys(r.chunks) {
      assert HasKey(r.chunks, k);
      var i :| 0 <= i < |r.chunks| && r.chunks[i].tree.key == k;
      assert r.chunks[i] in r.chunks;
    }
    Subset(r.rows.Keys, Keys(r.chunks));
  }

  lemma CompleteKeysDiffer(r: Run, initial: nat)
    requires Ended(r) && Basic(r, initial) && Recounted(r) && Tight(r)
    requires r.counts.processed == r.total == initial + r.counts.split
    ensures KeysDiffer(r.chunks)
  {
    CompleteFindsNone(r, initial);
    assert r.counts == Recount(r.rows) by {
      hide Recount;
    }
    assert Sized(r, initial) && RowsKnown(r);
    hide *;
    SizesOf(r, initial);
    RecountIs(r.rows);
    RowKeysKnown(r);
    KeysAtMost(r.chunks);
  }

  /**
  The accounting of an ended first run without late errors comes out, that is, processed and total are
  both the initial leaves plus the splits, if and only if the run worked on no key twice.
   */
  lemma EndedRunIsComplete(trees: seq<Tree>, steps: seq<Step>)
    requires Legal(Start(trees), steps) && NoLate(steps) && Ended(Final(Start(trees), steps))
    ensures var r := Final(Start(trees), steps);
            r.counts.processed == r.total == |trees| + r.counts.split <==> KeysDiffer(r.chunks)
  {
    hide *;
    var r := Final(Start(trees), steps);
    StartIsFine(trees);
    RunKeepsBasic(Start(trees), steps, |trees|);
    RunKeepsTight(Start(trees), steps);
    if KeysDiffer(r.chunks) {
      DistinctKeysComplete(trees, steps);
    }
    if r.counts.processed == r.total == |trees| + r.counts.split {
      CompleteKeysDiffer(r, |trees|);
    }
  }

  /****** what can be known before the run ******/

  // No two parts a chunk could be split into have one key.
  predicate Separate(t: Tree) {
    t.Halves? ==>
      && t.key !in TreeKeys(t.left) + TreeKeys(t.right) && TreeKeys(t.left) !! TreeKeys(t.right)
      && Separate(t.left) && Separate(t.right)
  }

  function Ahead(c: Chunk): set<Key> {
    if c.pc.Parted? then {c.tree.key} else TreeKeys(c.tree)
  }

  predicate Apart(cs: seq<Chunk>) {
    && (forall i :: 0 <= i < |cs| ==> Separate(cs[i].tree))
    && (forall i, j :: 0 <= i < j < |cs| ==> Ahead(cs[i]) !! Ahead(cs[j]))
  }

  lemma PartKeepsApart(cs: seq<Chunk>, i: nat)
    requires Apart(cs) && i < |cs| && cs[i].tree.Halves? && !cs[i].pc.Parted?
    ensures var t := cs[i].tree;
            Apart(cs[i := cs[i].(pc := Parted)] + [Chunk(t.left, Fresh), Chunk(t.right, Fresh)])
  {
    var t, n := cs[i].tree, |cs|;
    var ds := cs[i := cs[i].(pc := Parted)] + [Chunk(t.left, Fresh), Chunk(t.right, Fresh)];
    assert Separate(t) && Ahead(cs[i]) == TreeKeys(t);
    assert ds[n] == Chunk(t.left, Fresh) && ds[n + 1] == Chunk(t.right, Fresh);
    forall j, k | 0 <= j < k < |ds| ensures Ahead(ds[j]) !! Ahead(ds[k]) {
      if k < n {
        assert Ahead(ds[j]) <= Ahead(cs[j]) && Ahead(ds[k]) <= Ahead(cs[k]);
      } else if j < n {
        assert Ahead(ds[k]) <= TreeKeys(t);
        assert j != i ==> Ahead(ds[j]) == Ahead(cs[j]) && Ahead(cs[j]) !! Ahead(cs[i]);
      }
    }
  }

  lemma StepKeepsApart(r: Run, step: Step)
    requires Possible(r, step) && Apart(r.chunks)
    ensures Apart(Act(r, step).chunks)
  {
    if step.Part? {
      PartKeepsApart(r.chunks, step.i);
    } else {
      StepShape(r, step);
      assert Ahead(Act(r, step).chunks[step.i]) == Ahead(r.chunks[step.i]) by {
        hide Recount;
      }
      hide Act, Possible, Separate, Ahead;
    }
  }

  lemma {:induction false} RunKeepsApart(r: Run, steps: seq<Step>)
    requires Legal(r, steps) && Apart(r.chunks)
    ensures Apart(Final(r, steps).chunks)
    decreases |steps|
  {
    if steps != [] {
      StepKeepsApart(r, steps[0]);
      RunKeepsApart(Act(r, steps[0]), steps[1..]);
    }
  }

  lemma ApartDiffer(cs: seq<Chunk>)
    requires Apart(cs)
    ensures KeysDiffer(cs)
  {
    assert forall i :: 0 <= i < |cs| ==> cs[i].tree.key in Ahead(cs[i]);
  }

  /**
  Two conditions that can be checked before the run: when no two chunks and no two parts of them have
  one key, every run that ends is complete; when two initial chunks have, no run without late errors is.
   */
  lemma KnownBeforehand(trees: seq<Tree>, steps: seq<Step>)
    requires Legal(Start(trees), steps) && Ended(Final(Start(trees), steps))
    ensures var r := Final(Start(trees), steps);
            && (Apart(Start(trees).chunks) ==> r.counts.processed == r.total == |trees| + r.counts.split)
            && (!KeysDiffer(Start(trees).chunks) && NoLate(steps) ==> !(r.counts.processed == r.total == |trees| + r.counts.split))
  {
    hide *;
    var r := Final(Start(trees), steps);
    if Apart(Start(trees).chunks) {
      RunKeepsApart(Start(trees), steps);
      ApartDiffer(r.chunks);
      DistinctKeysComplete(trees, steps);
    }
    if NoLate(steps) {
      EndedRunIsComplete(trees, steps);
      if KeysDiffer(r.chunks) {
        RunDiffered(Start(trees), steps);
      }
    }
  }

  /****** examples ******/

  lemma {:induction false} Extend(r: Run, steps: seq<Step>, step: Step)
    requires Legal(r, steps) && Possible(Final(r, steps), step)
    ensures Legal(r, steps + [step]) && Final(r, steps + [step]) == Act(Final(r, steps), step)
    decreases |steps|
  {
    hide Act, Possible;
    if steps == [] {
      assert Legal(Act(r, step), []) && ([] + [step])[1..] == [];
      assert Final(r, [step]) == Final(Act(r, step), []);
    } else {
      assert (steps + [step])[0] == steps[0] && (steps + [step])[1..] == steps[1..] + [step];
      Extend(Act(r, steps[0]), steps[1..], step);
    }
  }

  // One more step of a run under construction
  lemma Do(r: Run, steps: seq<Step>, now: Run, step: Step) returns (steps': seq<Step>, now': Run)
    requires Legal(r, steps) && now == Final(r, steps) && Possible(now, step)
    ensures steps' == steps + [step] && now' == Act(now, step) && Legal(r, steps') && now' == Final(r, steps')
  {
    Extend(r, steps, step);
    steps', now' := steps + [step], Act(now, step);
  }

  // The first chunk is imported.
  lemma Imports(trees: seq<Tree>) returns (steps: seq<Step>, now: Run)
    requires trees != []
    ensures Legal(Start(trees), steps) && now == Final(Start(trees), steps)
    ensures now.chunks == Start(trees).chunks[0 := Chunk(trees[0], Closed)] && now.total == |trees|
    ensures now.rows == map[trees[0].key := Succeeded] && now.counts == Counts(1, 1, 0, 0, 0)
  {
    steps, now := [], Start(trees);
    steps, now := Do(Start(trees), steps, now, Claim(0));
    steps, now := Do(Start(trees), steps, now, Count(0, Succeeded));
    steps, now := Do(Start(trees), steps, now, Write(0));
    var k := trees[0].key;
    assert KeysWith(now.rows, Succeeded) == {k} && KeysWith(now.rows, Skipped) == {};
    assert KeysWith(now.rows, Failed) == {} && KeysWith(now.rows, Divided) == {};
    steps, now := Do(Start(trees), steps, now, Read(0));
    steps, now := Do(Start(trees), steps, now, Store(0));
  }

  /** Two chunks with one key: the second finds its row succeeded, and the job ends at one of two. */
  lemma RepeatedKeyUncounted() returns (trees: seq<Tree>, steps: seq<Step>)
    ensures Legal(Start(trees), steps) && Ended(Final(Start(trees), steps))
    ensures var r := Final(Start(trees), steps); r.counts.processed == 1 && r.total == 2
  {
    trees := [Whole(7), Whole(7)];
    var now;
    steps, now := Imports(trees);
    steps, now := Do(Start(trees), steps, now, Find(1));
  }

  /** A late error makes the counters run ahead of the total until the next recount. */
  lemma LateErrorOvertakes() returns (trees: seq<Tree>, steps: seq<Step>)
    ensures Legal(Start(trees), steps)
    ensures var r := Final(Start(trees), steps); r.counts.processed == 2 && r.total == 1
  {
    trees := [Whole(7)];
    var now;
    steps, now := [], Start(trees);
    steps, now := Do(Start(trees), steps, now, Claim(0));
    steps, now := Do(Start(trees), steps, now, Count(0, Succeeded));
    steps, now := Do(Start(trees), steps, now, LateError(0));
    steps, now := Do(Start(trees), steps, now, Count(0, Succeeded));
  }
}
