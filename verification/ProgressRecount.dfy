/**
The counters of a run as the server keeps them.  Whoever closes a chunk first increments the job's
counters, then writes the chunk row, and then overwrites the counters by a recount of all rows; each
of these is a step of its own, and the recount is two, one that reads and one that writes.  The steps
of all chunks interleave in any order.
 */
module ProgressRecount {

  type Key = nat

  /** What a chunk would be split into; the import key is computed from the chunk's content. */
  datatype Tree = Whole(key: Key) | Halves(key: Key, left: Tree, right: Tree)

  // `Waiting` is every status that the recount passes over.
  datatype Status = Waiting | Succeeded | Skipped | Failed | Divided

  datatype Counts = Counts(processed: nat, imported: nat, skipped: nat, failed: nat, split: nat)

  datatype Pc =
    | Fresh                                      // not yet claimed
    | Trying                                     // being extracted and stored
    | Counted(outcome: Status)                   // counters incremented, row not yet written
    | Written(outcome: Status)                   // row written, recount due
    | Reading(outcome: Status, seen: Counts)     // holds the lock with the numbers it read
    | Splitting                                  // row says split, counters not yet incremented
    | Closed
    | Found                                      // its row had succeeded already: nothing to do
    | Parted

  datatype Chunk = Chunk(tree: Tree, pc: Pc)

  /** One row per import key. */
  datatype Run = Run(chunks: seq<Chunk>, rows: map<Key, Status>, counts: Counts, total: nat)

  datatype Step =
    | Claim(i: nat)
    | Touch(i: nat)                   // the row is created, or says processing or retrying
    | Find(i: nat)
    | Resume(i: nat)                  // the manifest had succeeded, the row had not
    | Count(i: nat, outcome: Status)
    | Write(i: nat)
    | Read(i: nat)
    | Store(i: nat)
    | LateError(i: nat)               // the success hook raises somewhere, and the chunk is tried again
    | Split(i: nat)
    | Part(i: nat)

  function KeysWith(rows: map<Key, Status>, status: Status): set<Key> {
    set k | k in rows && rows[k] == status
  }

  // `_recompute_import_progress`
  function Recount(rows: map<Key, Status>): Counts {
    var imported, skipped, failed := |KeysWith(rows, Succeeded)|, |KeysWith(rows, Skipped)|, |KeysWith(rows, Failed)|;
    Counts(imported + skipped + failed, imported, skipped, failed, |KeysWith(rows, Divided)|)
  }

  function Incremented(c: Counts, outcome: Status): Counts {
    var d := c.(processed := c.processed + 1);
    match outcome
    case Succeeded => d.(imported := d.imported + 1)
    case Skipped => d.(skipped := d.skipped + 1)
    case _ => d.(failed := d.failed + 1)
  }

  predicate Unlocked(cs: seq<Chunk>) {
    forall c :: c in cs ==> !c.pc.Reading?
  }

  function KeyOf(r: Run, i: nat): Key
    requires i < |r.chunks|
  {
    r.chunks[i].tree.key
  }

  predicate Possible(r: Run, step: Step) {
    step.i < |r.chunks| &&
    var c := r.chunks[step.i];
    match step
    case Claim(_) => c.pc.Fresh?
    case Touch(_) => c.pc.Fresh? || c.pc.Trying?
    case Find(_) => c.pc.Fresh? && c.tree.key in r.rows && r.rows[c.tree.key] == Succeeded
    case Resume(_) => c.pc.Fresh?
    case Count(_, outcome) => (c.pc.Fresh? && outcome in {Skipped, Failed}) || (c.pc.Trying? && outcome in {Succeeded, Failed})
    case Write(_) => c.pc.Counted?
    case Read(_) => c.pc.Written? && Unlocked(r.chunks)
    case Store(_) => c.pc.Reading?
    case LateError(_) => (c.pc.Counted? || c.pc.Written? || c.pc.Reading?) && c.pc.outcome == Succeeded
    case Split(_) => (c.pc.Fresh? || c.pc.Trying?) && c.tree.Halves?
    case Part(_) => c.pc.Splitting? && c.tree.Halves?
  }

  function Move(r: Run, i: nat, pc: Pc): Run
    requires i < |r.chunks|
  {
    r.(chunks := r.chunks[i := r.chunks[i].(pc := pc)])
  }

  function SetRow(r: Run, i: nat, status: Status): Run
    requires i < |r.chunks|
  {
    r.(rows := r.rows[KeyOf(r, i) := status])
  }

  function Act(r: Run, step: Step): Run
    requires Possible(r, step)
  {
    var c := r.chunks[step.i];
    match step
    case Claim(i) => Move(r, i, Trying)
    case Touch(i) =>
      if c.pc.Fresh? && c.tree.key in r.rows && r.rows[c.tree.key] in {Succeeded, Divided} then r else SetRow(r, i, Waiting)
    case Find(i) => Move(r, i, Found)
    case Resume(i) => Move(SetRow(r, i, Succeeded), i, Written(Succeeded))
    case Count(i, outcome) => Move(r, i, Counted(outcome)).(counts := Incremented(r.counts, outcome))
    case Write(i) => Move(SetRow(r, i, c.pc.outcome), i, Written(c.pc.outcome))
    case Read(i) => Move(r, i, Reading(c.pc.outcome, Recount(r.rows)))
    case Store(i) => Move(r, i, Closed).(counts := c.pc.seen)
    case LateError(i) => Move(r, i, Trying)
    case Split(i) => Move(SetRow(r, i, Divided), i, Splitting)
    case Part(i) =>
      var r1 := Move(r, i, Parted);
      r1.(chunks := r1.chunks + [Chunk(c.tree.left, Fresh), Chunk(c.tree.right, Fresh)],
          total := r.total + 1, counts := r.counts.(split := r.counts.split + 1))
  }

  predicate Legal(r: Run, steps: seq<Step>)
    decreases |steps|
  {
    steps != [] ==> Possible(r, steps[0]) && Legal(Act(r, steps[0]), steps[1..])
  }

  function Final(r: Run, steps: seq<Step>): Run
    requires Legal(r, steps)
    decreases |steps|
  {
    if steps == [] then r else Final(Act(r, steps[0]), steps[1..])
  }

  // The first run of a job: no rows yet
  function Start(trees: seq<Tree>): Run {
    Run(seq(|trees|, i requires 0 <= i < |trees| => Chunk(trees[i], Fresh)), map[], Counts(0, 0, 0, 0, 0), |trees|)
  }

  predicate IsSettled(pc: Pc) {
    pc.Closed? || pc.Found? || pc.Parted?
  }

  predicate Ended(r: Run) {
    forall c :: c in r.chunks ==> IsSettled(c.pc)
  }

  /** No key was worked on twice, be it as a leaf or as the parent of a split. */
  predicate KeysDiffer(cs: seq<Chunk>) {
    forall i, j :: 0 <= i < j < |cs| ==> cs[i].tree.key != cs[j].tree.key
  }

  predicate NoLate(steps: seq<Step>) {
    forall i :: 0 <= i < |steps| ==> !steps[i].LateError?
  }

  /****** numbers of chunks ******/

  function Keep(cs: seq<Chunk>, p: Pc -> bool): (r: seq<Chunk>)
    ensures |r| <= |cs|
    ensures forall c :: c in r <==> c in cs && p(c.pc)
  {
    if cs == [] then [] else
    (if p(cs[0].pc) then [cs[0]] else []) + Keep(cs[1..], p)
  }

  function One(b: bool): nat {
    if b then 1 else 0
  }

  lemma {:induction false} KeepSet(cs: seq<Chunk>, p: Pc -> bool, i: nat, c: Chunk)
    requires i < |cs|
    ensures |Keep(cs[i := c], p)| == |Keep(cs, p)| - One(p(cs[i].pc)) + One(p(c.pc))
  {
    if i > 0 {
      assert cs[i := c][1..] == cs[1..][i - 1 := c];
      KeepSet(cs[1..], p, i - 1, c);
    } else {
      assert cs[i := c][1..] == cs[1..];
    }
  }

  lemma {:induction false} KeepAppend(cs: seq<Chunk>, p: Pc -> bool, ds: seq<Chunk>)
    ensures |Keep(cs + ds, p)| == |Keep(cs, p)| + |Keep(ds, p)|
  {
    if cs == [] {
      assert cs + ds == ds;
    } else {
      assert (cs + ds)[0] == cs[0] && (cs + ds)[1..] == cs[1..] + ds;
      KeepAppend(cs[1..], p, ds);
    }
  }

  lemma {:induction false} KeepDisjoint(cs: seq<Chunk>, p: Pc -> bool, q: Pc -> bool)
    requires forall pc :: !(p(pc) && q(pc))
    ensures |Keep(cs, p)| + |Keep(cs, q)| <= |cs|
    ensures (forall c :: c in cs ==> p(c.pc) || q(c.pc)) ==> |Keep(cs, p)| + |Keep(cs, q)| == |cs|
  {
    if cs != [] {
      KeepDisjoint(cs[1..], p, q);
    }
  }

  function Keys(cs: seq<Chunk>): set<Key> {
    set c | c in cs :: c.tree.key
  }

  lemma KeysSnoc(front: seq<Chunk>, last: Chunk)
    ensures Keys(front + [last]) == Keys(front) + {last.tree.key}
    ensures last.tree.key in Keys(front) <==> exists i :: 0 <= i < |front| && front[i].tree.key == last.tree.key
  {
    var all := front + [last];
    assert last in all && forall c :: c in all <==> c in front || c == last;
  }

  lemma DifferSnoc(front: seq<Chunk>, last: Chunk)
    ensures KeysDiffer(front + [last]) <==> KeysDiffer(front) && forall i :: 0 <= i < |front| ==> front[i].tree.key != last.tree.key
  {
    var all := front + [last];
    if KeysDiffer(all) {
      forall i, j | 0 <= i < j < |front| ensures front[i].tree.key != front[j].tree.key {
        assert all[i] == front[i] && all[j] == front[j];
      }
      forall i | 0 <= i < |front| ensures front[i].tree.key != last.tree.key {
        assert all[i] == front[i] && all[|front|] == last;
      }
    }
  }

  /** There are as many keys as chunks exactly when no key comes twice. */
  lemma {:induction false} KeysAtMost(cs: seq<Chunk>)
    ensures |Keys(cs)| <= |cs| && (|Keys(cs)| == |cs| <==> KeysDiffer(cs))
  {
    if cs != [] {
      var front, last := cs[..|cs| - 1], cs[|cs| - 1];
      assert cs == front + [last];
      KeysSnoc(front, last);
      DifferSnoc(front, last);
      hide KeysDiffer, Keys;
      KeysAtMost(front);
    }
  }

  lemma {:induction false} KeepDiffers(cs: seq<Chunk>, p: Pc -> bool)
    requires KeysDiffer(cs)
    ensures KeysDiffer(Keep(cs, p))
  {
    if cs != [] {
      var rest := Keep(cs[1..], p);
      KeepDiffers(cs[1..], p);
      forall c | c in rest ensures c.tree.key != cs[0].tree.key {
        var i :| 0 <= i < |cs[1..]| && cs[1..][i] == c;
        assert cs[i + 1] == c;
      }
    }
  }

  /****** sizes and sums ******/

  function PartedOnly(): Pc -> bool {
    (pc: Pc) => pc.Parted?
  }

  function Parts(r: Run): nat {
    |Keep(r.chunks, PartedOnly())|
  }

  predicate Sums(c: Counts) {
    c.processed == c.imported + c.skipped + c.failed
  }

  // Each split turns one chunk into two more.
  predicate Sized(r: Run, initial: nat) {
    r.total == initial + Parts(r) && |r.chunks| == initial + 2 * Parts(r)
  }

  predicate Summed(r: Run) {
    Sums(r.counts) && forall i :: 0 <= i < |r.chunks| && r.chunks[i].pc.Reading? ==> Sums(r.chunks[i].pc.seen)
  }

  // At most one recount is under way.
  predicate OneReader(r: Run) {
    forall i, j :: 0 <= i < j < |r.chunks| ==> !(r.chunks[i].pc.Reading? && r.chunks[j].pc.Reading?)
  }

  predicate HasKey(cs: seq<Chunk>, k: Key) {
    exists i :: 0 <= i < |cs| && cs[i].tree.key == k
  }

  predicate RowsKnown(r: Run) {
    forall k :: k in r.rows ==> HasKey(r.chunks, k)
  }

  predicate Basic(r: Run, initial: nat) {
    Sized(r, initial) && Summed(r) && OneReader(r) && RowsKnown(r)
  }

  lemma StepKeepsSizes(r: Run, step: Step, initial: nat)
    requires Possible(r, step) && Sized(r, initial)
    ensures Sized(Act(r, step), initial)
  {
    var p, i := PartedOnly(), step.i;
    var r' := Act(r, step);
    KeepSet(r.chunks, p, i, r'.chunks[i]);
    if step.Part? {
      var c := r.chunks[i];
      KeepAppend(r.chunks[i := c.(pc := Parted)], p, [Chunk(c.tree.left, Fresh), Chunk(c.tree.right, Fresh)]);
    } else if !(step.Touch?) {
      assert r'.chunks == r.chunks[i := r'.chunks[i]];
    }
  }

  // What a step does to the chunks: one moves, and a split appends two.
  lemma StepShape(r: Run, step: Step)
    requires Possible(r, step)
    ensures var r', i := Act(r, step), step.i;
            && |r.chunks| <= |r'.chunks|
            && (forall j :: 0 <= j < |r.chunks| && j != i ==> r'.chunks[j] == r.chunks[j])
            && r'.chunks[i].tree == r.chunks[i].tree
            && (forall j :: |r.chunks| <= j < |r'.chunks| ==> r'.chunks[j].pc.Fresh?)
            && (if step.Part? then |r'.chunks| == |r.chunks| + 2 && !IsSettled(r'.chunks[|r.chunks|].pc)
                else |r'.chunks| == |r.chunks|)
            && (step.Part? ==> r'.rows == r.rows)
            && (forall k :: k != KeyOf(r, i) ==> (k in r'.rows <==> k in r.rows) && (k in r.rows ==> r'.rows[k] == r.rows[k]))
  {
  }

  lemma StepKeepsSums(r: Run, step: Step)
    requires Summed(r) && Possible(r, step)
    ensures Summed(Act(r, step))
  {
    RecountSums(r.rows);
    hide Recount;
  }

  lemma StepKeepsReader(r: Run, step: Step)
    requires OneReader(r) && Possible(r, step)
    ensures OneReader(Act(r, step))
  {
    StepShape(r, step);
    hide Recount;
    assert Act(r, step).chunks[step.i].pc.Reading? ==> step.Read? || step.Touch?;
    assert forall j :: 0 <= j < |r.chunks| ==> r.chunks[j] in r.chunks;
  }

  lemma StepKeepsKnown(r: Run, step: Step)
    requires RowsKnown(r) && Possible(r, step)
    ensures RowsKnown(Act(r, step))
  {
    StepShape(r, step);
    var r', i := Act(r, step), step.i;
    hide Act, Possible;
    forall k | k in r'.rows ensures HasKey(r'.chunks, k) {
      if k == r.chunks[i].tree.key {
        assert r'.chunks[i].tree.key == k;
      } else {
        var j :| 0 <= j < |r.chunks| && r.chunks[j].tree.key == k;
        assert r'.chunks[j].tree.key == k;
      }
    }
  }

  lemma StepKeepsBasic(r: Run, step: Step, initial: nat)
    requires Basic(r, initial) && Possible(r, step)
    ensures Basic(Act(r, step), initial)
  {
    hide Act, Possible, Sized, Summed, OneReader, RowsKnown;
    StepKeepsSizes(r, step, initial);
    StepKeepsSums(r, step);
    StepKeepsReader(r, step);
    StepKeepsKnown(r, step);
  }

  lemma RecountSums(rows: map<Key, Status>)
    ensures Sums(Recount(rows))
  {
  }

  /****** the last recount ******/

  predicate OthersSettled(cs: seq<Chunk>, i: nat) {
    forall j :: 0 <= j < |cs| && j != i ==> IsSettled(cs[j].pc)
  }

  predicate NoneFound(cs: seq<Chunk>) {
    forall c :: c in cs ==> !c.pc.Found?
  }

  // When nothing else is going on, whoever recounts reads the rows as they stay.
  predicate Recounted(r: Run) {
    NoneFound(r.chunks) ==>
      && (Ended(r) ==> r.counts == Recount(r.rows))
      && (forall i :: 0 <= i < |r.chunks| && r.chunks[i].pc.Reading? && OthersSettled(r.chunks, i) ==>
                        r.chunks[i].pc.seen == Recount(r.rows))
  }

  // The step of chunk `i` that leaves nothing open is the second half of its recount.
  lemma LastStore(r: Run, step: Step)
    requires Possible(r, step) && Ended(Act(r, step)) && NoneFound(Act(r, step).chunks)
    ensures step.Store? && OthersSettled(r.chunks, step.i)
  {
    var r' := Act(r, step);
    StepShape(r, step);
    assert forall j :: 0 <= j < |r'.chunks| ==> r'.chunks[j] in r'.chunks;
    hide Recount;
  }

  // A recount beside which nothing is open has only just begun.
  lemma JustRead(r: Run, step: Step, j: nat)
    requires Possible(r, step) && NoneFound(Act(r, step).chunks)
    requires var cs := Act(r, step).chunks; j < |cs| && cs[j].pc.Reading? && OthersSettled(cs, j)
    requires OneReader(r)
    ensures step.Read? && j == step.i
  {
    var r', i := Act(r, step), step.i;
    StepShape(r, step);
    assert r'.chunks[i] in r'.chunks;
    hide Recount;
    if j != i {
      assert false;
    }
  }

  lemma StepKeepsRecounted(r: Run, step: Step, initial: nat)
    requires Basic(r, initial) && Recounted(r) && Possible(r, step)
    ensures Recounted(Act(r, step))
  {
    var r', i := Act(r, step), step.i;
    if NoneFound(r'.chunks) {
      StillNone(r, step);
      if Ended(r') {
        LastStore(r, step);
      }
      hide Recount, Ended, OthersSettled, NoneFound;
      forall j | 0 <= j < |r'.chunks| && r'.chunks[j].pc.Reading? && OthersSettled(r'.chunks, j)
        ensures r'.chunks[j].pc.seen == Recount(r'.rows)
      {
        JustRead(r, step, j);
      }
    }
  }

  lemma StillNone(r: Run, step: Step)
    requires Possible(r, step) && NoneFound(Act(r, step).chunks)
    ensures NoneFound(r.chunks)
  {
    var r' := Act(r, step);
    StepShape(r, step);
    hide Recount;
    forall c | c in r.chunks ensures !c.pc.Found? {
      var j :| 0 <= j < |r.chunks| && r.chunks[j] == c;
      assert r'.chunks[j] in r'.chunks;
    }
  }

  /****** distinct keys, and rows from before the run ******/

  predicate IsOutcome(status: Status) {
    status in {Succeeded, Skipped, Failed}
  }

  function TreeKeys(t: Tree): set<Key> {
    match t
    case Whole(k) => {k}
    case Halves(k, left, right) => {k} + TreeKeys(left) + TreeKeys(right)
  }

  // The keys of what a chunk may be split into
  function PartKeys(t: Tree): set<Key> {
    match t
    case Whole(_) => {}
    case Halves(_, left, right) => TreeKeys(left) + TreeKeys(right)
  }

  // What the row of a chunk says at each point; `prior` are the rows the run started with.
  predicate Fits(prior: map<Key, Status>, rows: map<Key, Status>, c: Chunk) {
    var k := c.tree.key;
    match c.pc
    case Fresh => k in rows ==> rows[k] == Waiting || (k in prior && rows[k] == prior[k])
    case Trying => true
    case Counted(outcome) => IsOutcome(outcome)
    case Written(outcome) => k in rows && rows[k] == outcome && IsOutcome(outcome)
    case Reading(outcome, _) => k in rows && rows[k] == outcome && IsOutcome(outcome)
    case Closed => k in rows && IsOutcome(rows[k])
    case Found => k in rows && rows[k] == Succeeded
    case _ => k in rows && rows[k] == Divided
  }

  predicate RowsFit(r: Run, prior: map<Key, Status>) {
    forall i :: 0 <= i < |r.chunks| ==> Fits(prior, r.rows, r.chunks[i])
  }

  // Rows of other keys are as they were.
  ghost predicate OthersOld(r: Run, prior: map<Key, Status>) {
    forall k :: !HasKey(r.chunks, k) ==> (k in r.rows <==> k in prior) && (k in prior ==> r.rows[k] == prior[k])
  }

  // A chunk that was not split has parts without rows.
  predicate PartsNew(r: Run, prior: map<Key, Status>) {
    forall i :: 0 <= i < |r.chunks| ==> PartKeys(r.chunks[i].tree) !! prior.Keys
  }

  ghost predicate Resumed(r: Run, prior: map<Key, Status>) {
    RowsFit(r, prior) && OthersOld(r, prior) && PartsNew(r, prior)
  }

  lemma OwnFits(r: Run, step: Step, prior: map<Key, Status>)
    requires Possible(r, step) && Fits(prior, r.rows, r.chunks[step.i])
    ensures Fits(prior, Act(r, step).rows, Act(r, step).chunks[step.i])
  {
    hide Recount;
  }

  lemma StepKeepsOld(r: Run, step: Step, prior: map<Key, Status>)
    requires Possible(r, step) && OthersOld(r, prior)
    ensures OthersOld(Act(r, step), prior)
  {
    StepShape(r, step);
    var r', i := Act(r, step), step.i;
    hide Act, Possible;
    forall k | !HasKey(r'.chunks, k) ensures !HasKey(r.chunks, k) && k != KeyOf(r, i) {
      assert r'.chunks[i].tree.key == KeyOf(r, i);
      forall j | 0 <= j < |r.chunks| ensures r.chunks[j].tree.key != k {
        assert r'.chunks[j].tree.key == r.chunks[j].tree.key;
      }
    }
  }

  lemma StepKeepsParts(r: Run, step: Step, prior: map<Key, Status>)
    requires Possible(r, step) && PartsNew(r, prior)
    ensures PartsNew(Act(r, step), prior)
  {
    StepShape(r, step);
    var r', i := Act(r, step), step.i;
    assert PartKeys(r.chunks[i].tree) !! prior.Keys;
    if step.Part? {
      var t := r.chunks[i].tree;
      PartsWithin(t);
      assert r'.chunks[|r.chunks|].tree == t.left && r'.chunks[|r.chunks| + 1].tree == t.right;
    }
    hide Act, Possible, PartKeys;
  }

  lemma PartsWithin(t: Tree)
    ensures t.Halves? ==> PartKeys(t.left) <= PartKeys(t) && PartKeys(t.right) <= PartKeys(t)
                          && t.left.key in PartKeys(t) && t.right.key in PartKeys(t)
  {
  }

  // A chunk that was just appended has no row.
  lemma NewKey(r: Run, step: Step, prior: map<Key, Status>, j: nat)
    requires Possible(r, step) && step.Part? && Resumed(r, prior) && KeysDiffer(Act(r, step).chunks)
    requires |r.chunks| <= j < |Act(r, step).chunks|
    ensures Act(r, step).chunks[j].tree.key !in r.rows
  {
    StepShape(r, step);
    var cs, t := Act(r, step).chunks, r.chunks[step.i].tree;
    PartsWithin(t);
    assert PartKeys(t) !! prior.Keys && cs[j].tree.key in PartKeys(t);
    hide Act, Possible, PartKeys, RowsFit;
    assert !HasKey(r.chunks, cs[j].tree.key) by {
      assert forall i :: 0 <= i < |r.chunks| ==> cs[i].tree.key == r.chunks[i].tree.key;
    }
  }

  lemma StepKeepsFit(r: Run, step: Step, prior: map<Key, Status>)
    requires Possible(r, step) && KeysDiffer(Act(r, step).chunks) && Resumed(r, prior)
    ensures RowsFit(Act(r, step), prior) && KeysDiffer(r.chunks)
  {
    var r', i := Act(r, step), step.i;
    hide Act, Possible;
    StepShape(r, step);
    OwnFits(r, step, prior);
    forall j | 0 <= j < |r'.chunks| ensures Fits(prior, r'.rows, r'.chunks[j]) {
      if j >= |r.chunks| {
        NewKey(r, step, prior, j);
      } else if j != i {
        assert r'.chunks[j] == r.chunks[j] && r'.chunks[j].tree.key != r'.chunks[i].tree.key;
      }
    }
  }

  lemma StepKeepsResumed(r: Run, step: Step, prior: map<Key, Status>)
    requires Possible(r, step) && KeysDiffer(Act(r, step).chunks) && Resumed(r, prior)
    ensures Resumed(Act(r, step), prior) && KeysDiffer(r.chunks)
  {
    StepKeepsFit(r, step, prior);
    hide Act, Possible, RowsFit;
    StepKeepsOld(r, step, prior);
    StepKeepsParts(r, step, prior);
  }

  /****** the last recount on distinct keys ******/

  // Nothing more is to be recounted for this chunk: it is settled, or its row had succeeded before the run.
  predicate AtRest(r: Run, i: nat)
    requires i < |r.chunks|
  {
    var c := r.chunks[i];
    IsSettled(c.pc) || (c.pc.Fresh? && c.tree.key in r.rows && r.rows[c.tree.key] == Succeeded)
  }

  predicate OthersRest(r: Run, i: nat) {
    forall j :: 0 <= j < |r.chunks| && j != i ==> AtRest(r, j)
  }

  predicate Accounted(r: Run) {
    && ((forall j :: 0 <= j < |r.chunks| ==> AtRest(r, j)) ==> r.counts == Recount(r.rows))
    && (forall i :: 0 <= i < |r.chunks| && r.chunks[i].pc.Reading? && OthersRest(r, i) ==> r.chunks[i].pc.seen == Recount(r.rows))
  }

  // Whoever rests after a step of another chunk rested before.
  lemma RestBefore(r: Run, step: Step, j: nat)
    requires Possible(r, step) && KeysDiffer(Act(r, step).chunks) && j < |r.chunks| && j != step.i
    requires AtRest(Act(r, step), j)
    ensures AtRest(r, j)
  {
    StepShape(r, step);
    var r', i := Act(r, step), step.i;
    hide Act, Possible;
    assert r'.chunks[j].tree.key != r'.chunks[i].tree.key;
  }

  lemma NewIsOpen(r: Run, step: Step, prior: map<Key, Status>)
    requires Possible(r, step) && KeysDiffer(Act(r, step).chunks) && Resumed(r, prior)
    ensures step.Part? ==> |r.chunks| < |Act(r, step).chunks| && !AtRest(Act(r, step), |r.chunks|)
  {
    if step.Part? {
      NewKey(r, step, prior, |r.chunks|);
      hide RowsFit, OthersOld, PartsNew, KeysDiffer;
    }
  }

  // The chunk of a step after which all others rest, and it too, was stored, found, or touched in vain.
  lemma RestingStep(r: Run, step: Step, prior: map<Key, Status>)
    requires Possible(r, step) && KeysDiffer(Act(r, step).chunks) && Resumed(r, prior) && AtRest(Act(r, step), step.i)
    requires forall j :: |r.chunks| <= j < |Act(r, step).chunks| ==> AtRest(Act(r, step), j)
    ensures step.Store? || (AtRest(r, step.i) && Act(r, step).rows == r.rows && Act(r, step).counts == r.counts)
    ensures Act(r, step).rows == r.rows && (step.Store? ==> r.chunks[step.i].pc.Reading?)
  {
    NewIsOpen(r, step, prior);
    hide Recount, RowsFit, OthersOld, PartsNew, KeysDiffer;
  }

  lemma StepKeepsAccounted(r: Run, step: Step, prior: map<Key, Status>)
    requires Possible(r, step) && KeysDiffer(Act(r, step).chunks) && Resumed(r, prior) && OneReader(r) && Accounted(r)
    ensures Accounted(Act(r, step))
  {
    var r', i := Act(r, step), step.i;
    StepShape(r, step);
    if forall j :: 0 <= j < |r'.chunks| ==> AtRest(r', j) {
      LastRest(r, step, prior);
    }
    forall j | 0 <= j < |r'.chunks| && r'.chunks[j].pc.Reading? && OthersRest(r', j)
      ensures r'.chunks[j].pc.seen == Recount(r'.rows)
    {
      hide Accounted;
      if j == i {
        assert step.Read? by { hide Recount; }
      } else {
        ReaderRests(r, step, prior, j);
      }
    }
  }

  lemma LastRest(r: Run, step: Step, prior: map<Key, Status>)
    requires Possible(r, step) && KeysDiffer(Act(r, step).chunks) && Resumed(r, prior) && Accounted(r)
    requires forall j :: 0 <= j < |Act(r, step).chunks| ==> AtRest(Act(r, step), j)
    ensures Act(r, step).counts == Recount(Act(r, step).rows)
  {
    StepShape(r, step);
    RestingStep(r, step, prior);
    forall j | 0 <= j < |r.chunks| && j != step.i ensures AtRest(r, j) {
      RestBefore(r, step, j);
    }
    assert step.Store? ==> Act(r, step).counts == r.chunks[step.i].pc.seen;
    hide Recount, Resumed, KeysDiffer, Act, Possible;
    assert OthersRest(r, step.i);
  }

  lemma ReaderRests(r: Run, step: Step, prior: map<Key, Status>, j: nat)
    requires Possible(r, step) && KeysDiffer(Act(r, step).chunks) && Resumed(r, prior) && OneReader(r) && Accounted(r)
    requires var r' := Act(r, step); j < |r'.chunks| && j != step.i && r'.chunks[j].pc.Reading? && OthersRest(r', j)
    ensures Act(r, step).chunks[j].pc.seen == Recount(Act(r, step).rows)
  {
    StepShape(r, step);
    RestingStep(r, step, prior);
    forall k | 0 <= k < |r.chunks| && k != step.i && k != j ensures AtRest(r, k) {
      RestBefore(r, step, k);
    }
    hide Recount, Resumed, KeysDiffer, Act, Possible;
    assert r.chunks[j].pc.Reading?;
    assert AtRest(r, step.i);
    assert OthersRest(r, j);
  }

  /****** counting rows ******/

  function OutcomeKeys(rows: map<Key, Status>): set<Key> {
    set k | k in rows && IsOutcome(rows[k])
  }

  lemma RecountIs(rows: map<Key, Status>)
    ensures Recount(rows).processed == |OutcomeKeys(rows)| && Recount(rows).split == |KeysWith(rows, Divided)|
    ensures |OutcomeKeys(rows)| + |KeysWith(rows, Divided)| <= |rows.Keys|
  {
    var a, b, c, d := KeysWith(rows, Succeeded), KeysWith(rows, Skipped), KeysWith(rows, Failed), KeysWith(rows, Divided);
    assert OutcomeKeys(rows) == a + b + c;
    Subset(OutcomeKeys(rows) + d, rows.Keys);
  }

  lemma Subset(a: set<Key>, b: set<Key>)
    requires a <= b
    ensures |a| <= |b|
  {
    assert b == a + (b - a);
  }

  function LeafOnly(): Pc -> bool {
    (pc: Pc) => pc.Closed? || pc.Found?
  }

  // Rows of keys the run did not work on
  function Elsewhere(cs: seq<Chunk>, keys: set<Key>): set<Key> {
    set k | k in keys && !HasKey(cs, k)
  }

  // A key of the kept chunks, from either side
  lemma KeptKey(cs: seq<Chunk>, p: Pc -> bool, k: Key)
    ensures k in Keys(Keep(cs, p)) <==> exists i :: 0 <= i < |cs| && cs[i].tree.key == k && p(cs[i].pc)
  {
    if k in Keys(Keep(cs, p)) {
      var c :| c in Keep(cs, p) && c.tree.key == k;
      var i :| 0 <= i < |cs| && cs[i] == c;
    }
    if i :| 0 <= i < |cs| && cs[i].tree.key == k && p(cs[i].pc) {
      assert cs[i] in Keep(cs, p);
    }
  }

  // At the end of a run on distinct keys a row says how its chunk was settled.
  lemma EndRow(r: Run, prior: map<Key, Status>, i: nat)
    requires Ended(r) && RowsFit(r, prior) && i < |r.chunks|
    ensures var k, pc := KeyOf(r, i), r.chunks[i].pc;
            k in r.rows && (if pc.Parted? then r.rows[k] == Divided else LeafOnly()(pc) && IsOutcome(r.rows[k]))
  {
    assert r.chunks[i] in r.chunks && Fits(prior, r.rows, r.chunks[i]);
  }

  lemma LeafKey(r: Run, prior: map<Key, Status>, k: Key)
    requires Ended(r) && RowsFit(r, prior) && OthersOld(r, prior)
    ensures k in OutcomeKeys(r.rows) <==> k in Keys(Keep(r.chunks, LeafOnly())) || k in Elsewhere(r.chunks, OutcomeKeys(prior))
    ensures k in Keys(Keep(r.chunks, LeafOnly())) ==> HasKey(r.chunks, k)
  {
    KeptKey(r.chunks, LeafOnly(), k);
    hide Keep, Keys, LeafOnly;
    if HasKey(r.chunks, k) {
      var i :| 0 <= i < |r.chunks| && r.chunks[i].tree.key == k;
      EndRow(r, prior, i);
    }
    forall i | 0 <= i < |r.chunks|
      ensures r.chunks[i].tree.key == k && LeafOnly()(r.chunks[i].pc) ==> k in OutcomeKeys(r.rows)
    {
      EndRow(r, prior, i);
      assert LeafOnly()(r.chunks[i].pc) ==> !r.chunks[i].pc.Parted? by { LeafIs(r.chunks[i].pc); }
    }
  }

  lemma LeafIs(pc: Pc)
    ensures LeafOnly()(pc) ==> !pc.Parted?
  {
  }

  lemma EndLeaves(r: Run, prior: map<Key, Status>)
    requires Ended(r) && RowsFit(r, prior) && OthersOld(r, prior)
    ensures OutcomeKeys(r.rows) == Keys(Keep(r.chunks, LeafOnly())) + Elsewhere(r.chunks, OutcomeKeys(prior))
    ensures Keys(Keep(r.chunks, LeafOnly())) !! Elsewhere(r.chunks, OutcomeKeys(prior))
  {
    forall k
      ensures k in OutcomeKeys(r.rows) <==> k in Keys(Keep(r.chunks, LeafOnly())) || k in Elsewhere(r.chunks, OutcomeKeys(prior))
      ensures k in Keys(Keep(r.chunks, LeafOnly())) ==> HasKey(r.chunks, k)
    {
      LeafKey(r, prior, k);
    }
    hide Keep, Keys, OutcomeKeys, LeafOnly, HasKey, RowsFit, OthersOld, Ended;
  }

  lemma EndParted(r: Run, prior: map<Key, Status>)
    requires Ended(r) && RowsFit(r, prior) && OthersOld(r, prior)
    ensures KeysWith(r.rows, Divided) == Keys(Keep(r.chunks, PartedOnly())) + Elsewhere(r.chunks, KeysWith(prior, Divided))
    ensures Keys(Keep(r.chunks, PartedOnly())) !! Elsewhere(r.chunks, KeysWith(prior, Divided))
  {
    forall k
      ensures k in KeysWith(r.rows, Divided) <==> k in Keys(Keep(r.chunks, PartedOnly())) || k in Elsewhere(r.chunks, KeysWith(prior, Divided))
      ensures !(k in Keys(Keep(r.chunks, PartedOnly())) && k in Elsewhere(r.chunks, KeysWith(prior, Divided)))
    {
      KeptKey(r.chunks, PartedOnly(), k);
      hide Keep, Keys;
      if HasKey(r.chunks, k) {
        var i :| 0 <= i < |r.chunks| && r.chunks[i].tree.key == k;
        EndRow(r, prior, i);
      }
      forall i | 0 <= i < |r.chunks| ensures r.chunks[i].tree.key == k && r.chunks[i].pc.Parted? ==> k in KeysWith(r.rows, Divided) && HasKey(r.chunks, k) {
        EndRow(r, prior, i);
      }
    }
  }

  lemma CountKept(cs: seq<Chunk>, p: Pc -> bool)
    requires KeysDiffer(cs)
    ensures |Keys(Keep(cs, p))| == |Keep(cs, p)|
  {
    KeepDiffers(cs, p);
    KeysAtMost(Keep(cs, p));
  }

  lemma EndSizes(r: Run)
    requires Ended(r)
    ensures |Keep(r.chunks, LeafOnly())| + |Keep(r.chunks, PartedOnly())| == |r.chunks|
  {
    hide Keep;
    KeepDisjoint(r.chunks, LeafOnly(), PartedOnly());
  }

  lemma EndRecount(r: Run)
    requires Ended(r) && Accounted(r)
    ensures r.counts == Recount(r.rows)
  {
    forall j | 0 <= j < |r.chunks| ensures AtRest(r, j) {
      assert r.chunks[j] in r.chunks;
    }
    hide Recount;
  }

  // So every leaf is processed and every split counted, besides the rows of keys the run did not work on.
  lemma EndCounts(r: Run, initial: nat, prior: map<Key, Status>)
    requires Ended(r) && RowsFit(r, prior) && OthersOld(r, prior) && Sized(r, initial) && Accounted(r) && KeysDiffer(r.chunks)
    ensures r.counts.processed == r.total + |Elsewhere(r.chunks, OutcomeKeys(prior))|
    ensures r.counts.split == r.total - initial + |Elsewhere(r.chunks, KeysWith(prior, Divided))|
  {
    hide *;
    EndLeaves(r, prior);
    EndParted(r, prior);
    EndSizes(r);
    EndRecount(r);
    RecountIs(r.rows);
    CountKept(r.chunks, LeafOnly());
    CountKept(r.chunks, PartedOnly());
    SizesOf(r, initial);
  }

  lemma SizesOf(r: Run, initial: nat)
    requires Sized(r, initial)
    ensures r.total == initial + |Keep(r.chunks, PartedOnly())| && |r.chunks| == initial + 2 * |Keep(r.chunks, PartedOnly())|
  {
  }

  /****** runs without late errors ******/

  // The chunk's row has its outcome, ...
  function InRowOnly(): Pc -> bool {
    (pc: Pc) => pc.Written? || pc.Reading? || pc.Closed?
  }

  // ... or is about to get it.
  function PastOnly(): Pc -> bool {
    (pc: Pc) => pc.Counted? || pc.Written? || pc.Reading? || pc.Closed?
  }

  function ClosedOnly(): Pc -> bool {
    (pc: Pc) => pc.Closed?
  }

  function RowKeys(r: Run): set<Key> {
    Keys(Keep(r.chunks, InRowOnly()))
  }

  function Past(r: Run): nat {
    |Keep(r.chunks, PastOnly())|
  }

  predicate Between(pc: Pc) {
    pc.Counted? || pc.Written? || pc.Reading?
  }

  predicate Resting(r: Run) {
    forall i :: 0 <= i < |r.chunks| ==> !Between(r.chunks[i].pc)
  }

  // No counter runs ahead of the chunks that are closed or being closed.
  predicate Tight(r: Run) {
    && OutcomeKeys(r.rows) <= RowKeys(r)
    && (Resting(r) ==> r.counts.processed <= |RowKeys(r)|)
    && r.counts.processed <= Past(r)
    && forall i :: 0 <= i < |r.chunks| && r.chunks[i].pc.Reading? ==>
                     r.chunks[i].pc.seen.processed <= |RowKeys(r)| && r.chunks[i].pc.seen.processed <= Past(r)
  }

  lemma RowStays(r: Run, step: Step, j: nat)
    requires Possible(r, step) && !step.LateError? && j < |r.chunks| && InRowOnly()(r.chunks[j].pc)
    ensures var cs := Act(r, step).chunks; j < |cs| && cs[j].tree == r.chunks[j].tree && InRowOnly()(cs[j].pc)
  {
    hide Recount;
  }

  lemma RowKeysGrow(r: Run, step: Step)
    requires Possible(r, step) && !step.LateError?
    ensures RowKeys(r) <= RowKeys(Act(r, step)) && |RowKeys(r)| <= |RowKeys(Act(r, step))|
  {
    hide Act, Possible, InRowOnly, Keep, Keys;
    var r' := Act(r, step);
    forall k | k in RowKeys(r) ensures k in RowKeys(r') {
      KeptKey(r.chunks, InRowOnly(), k);
      KeptKey(r'.chunks, InRowOnly(), k);
      var j :| 0 <= j < |r.chunks| && r.chunks[j].tree.key == k && InRowOnly()(r.chunks[j].pc);
      RowStays(r, step, j);
    }
    Subset(RowKeys(r), RowKeys(r'));
  }

  lemma PastGrows(r: Run, step: Step)
    requires Possible(r, step) && !step.LateError?
    ensures Past(Act(r, step)) >= Past(r) + One(step.Count?)
  {
    var p, i := PastOnly(), step.i;
    var r' := Act(r, step);
    KeepSet(r.chunks, p, i, r'.chunks[i]);
    if step.Part? {
      var c := r.chunks[i];
      KeepAppend(r.chunks[i := c.(pc := Parted)], p, [Chunk(c.tree.left, Fresh), Chunk(c.tree.right, Fresh)]);
    } else if !step.Touch? {
      assert r'.chunks == r.chunks[i := r'.chunks[i]];
    }
  }

  lemma {:induction false} RowKeysBelow(cs: seq<Chunk>)
    ensures |Keys(Keep(cs, InRowOnly()))| <= |Keep(cs, InRowOnly())| <= |Keep(cs, PastOnly())|
  {
    KeysAtMost(Keep(cs, InRowOnly()));
    if cs != [] {
      RowKeysBelow(cs[1..]);
    }
  }

  // A row gets its outcome only from the chunk that writes it.
  lemma OwnOutcome(r: Run, step: Step)
    requires Possible(r, step) && !step.LateError?
    ensures var r', own := Act(r, step), KeyOf(r, step.i);
            own in OutcomeKeys(r'.rows) && own !in OutcomeKeys(r.rows) ==>
              step.i < |r'.chunks| && r'.chunks[step.i].tree.key == own && InRowOnly()(r'.chunks[step.i].pc)
  {
    hide Recount, Keep, Keys;
  }

  lemma OutcomesKnown(r: Run, step: Step)
    requires Possible(r, step) && !step.LateError? && OutcomeKeys(r.rows) <= RowKeys(r)
    ensures OutcomeKeys(Act(r, step).rows) <= RowKeys(Act(r, step))
  {
    var r' := Act(r, step);
    StepShape(r, step);
    OwnOutcome(r, step);
    hide Act, Possible, InRowOnly, Keep, Keys;
    RowKeysGrow(r, step);
    KeptKey(r'.chunks, InRowOnly(), KeyOf(r, step.i));
  }

  lemma RowsBelow(r: Run)
    ensures |RowKeys(r)| <= Past(r)
  {
    RowKeysBelow(r.chunks);
  }

  lemma StillResting(r: Run, step: Step)
    requires Possible(r, step) && Resting(Act(r, step)) && !step.Store? && !step.LateError?
    ensures Resting(r) && !step.Count?
  {
    StepShape(r, step);
    hide Recount;
    assert !Between(Act(r, step).chunks[step.i].pc);
  }

  lemma StepKeepsTight(r: Run, step: Step)
    requires Possible(r, step) && !step.LateError? && Tight(r)
    ensures Tight(Act(r, step))
  {
    hide Recount, Keep, Keys, OutcomeKeys, InRowOnly, PastOnly, Resting, RowKeys, Past;
    var r' := Act(r, step);
    StepShape(r, step);
    RowKeysGrow(r, step);
    PastGrows(r, step);
    OutcomesKnown(r, step);
    RowsBelow(r);
    RecountIs(r.rows);
    Subset(OutcomeKeys(r.rows), RowKeys(r));
    if Resting(r') && !step.Store? {
      StillResting(r, step);
    }
  }
}
