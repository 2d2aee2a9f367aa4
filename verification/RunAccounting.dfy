/**
The counters of one import run.  Workers take conversation groups from a queue and process their
chunks one by one; claims, model calls, retries and splits are decided by an arbitrary oracle, and
the workers' steps interleave in any order on the shared counters.  The hooks leave the counters
alone here; `ProgressRecount` is about the server's hooks, which recount them from the rows.
 */
module RunAccounting {
  import opened Wrappers

  /** A chunk still to be processed: how much text it has (a split divides it) and how deep it is. */
  datatype Task = Task(size: nat, depth: nat)

  datatype Phase = Claiming(tries: nat) | Trying(tries: nat)

  /** The chunks ahead of one worker, the current one first. */
  datatype Worker = Worker(stack: seq<Task>, phase: Phase)

  datatype Counters = Counters(total: nat, processed: nat, imported: nat, skipped: nat, failed: nat, split: nat, retried: nat)

  /** `late` counts success hooks that raised after the success was counted, `resumed` finished
  manifests copied without counting, `dropped` the chunks a cancelled worker left behind. */
  datatype Run = Run(
    queue: seq<seq<Task>>,
    workers: seq<Worker>,
    counters: Counters,
    late: nat,
    resumed: nat,
    dropped: nat,
    cancelled: bool)

  datatype Limits = Limits(maxAttempts: nat, maxDepth: nat)

  datatype Claim = Claimed | Duplicate | ResumeSucceeded | SplitClaim(size: nat) | BusyClaim

  // What follows an error: a split into a first part of the given size, another attempt, or failure
  datatype Reaction = SplitAt(size: nat) | Again | GiveUp

  datatype Step =
    | Pull(w: nat)
    | Known(w: nat)                              // the key was loaded as existing or superseded
    | Claim(w: nat, answer: Claim)
    | Unclaimed(w: nat)                          // duplicates are not skipped in this run
    | Succeed(w: nat)
    | SucceedLate(w: nat, reaction: Reaction)    // the success hook raises
    | Fail(w: nat, reaction: Reaction)
    | Cancel
    | Leave(w: nat)

  /****** steps ******/

  function SetWorker(r: Run, w: nat, stack: seq<Task>, phase: Phase): Run
    requires w < |r.workers|
  {
    r.(workers := r.workers[w := Worker(stack, phase)])
  }

  function Rest(r: Run, w: nat): Run
    requires w < |r.workers| && r.workers[w].stack != []
  {
    SetWorker(r, w, r.workers[w].stack[1..], Claiming(0))
  }

  function Skip(c: Counters): Counters {
    c.(processed := c.processed + 1, skipped := c.skipped + 1)
  }

  function Import(c: Counters): Counters {
    c.(processed := c.processed + 1, imported := c.imported + 1)
  }

  function Failed(c: Counters): Counters {
    c.(processed := c.processed + 1, failed := c.failed + 1)
  }

  // A split parent stays counted once in the total; its two children come first.
  function DivideInto(r: Run, w: nat, size: nat): Run
    requires w < |r.workers| && r.workers[w].stack != [] && 0 < size < r.workers[w].stack[0].size
  {
    var task, c := r.workers[w].stack[0], r.counters;
    var children := [Task(size, task.depth + 1), Task(task.size - size, task.depth + 1)];
    SetWorker(r, w, children + r.workers[w].stack[1..], Claiming(0)).(
      counters := c.(total := c.total + 1, split := c.split + 1))
  }

  function Retried(r: Run): Run {
    r.(counters := r.counters.(retried := r.counters.retried + 1))
  }

  predicate Divides(r: Run, w: nat, size: nat)
    requires w < |r.workers| && r.workers[w].stack != []
  {
    0 < size < r.workers[w].stack[0].size
  }

  predicate Ready(r: Run, w: nat) {
    w < |r.workers| && r.workers[w].stack != []
  }

  predicate CanReact(r: Run, w: nat, limits: Limits, reaction: Reaction)
    requires Ready(r, w)
  {
    match reaction
    case SplitAt(size) => r.workers[w].stack[0].depth < limits.maxDepth && Divides(r, w, size)
    case Again => r.workers[w].phase.tries + 1 < limits.maxAttempts
    case GiveUp => true
  }

  function React(r: Run, w: nat, limits: Limits, reaction: Reaction): Run
    requires Ready(r, w) && CanReact(r, w, limits, reaction)
  {
    match reaction
    case SplitAt(size) => DivideInto(r, w, size)
    case Again => SetWorker(Retried(r), w, r.workers[w].stack, Trying(r.workers[w].phase.tries + 1))
    case GiveUp => Rest(r, w).(counters := Failed(r.counters))
  }

  predicate Enabled(r: Run, limits: Limits, step: Step) {
    match step
    case Cancel => true
    case Pull(w) => w < |r.workers| && r.workers[w].stack == [] && r.queue != [] && !r.cancelled
    case Leave(w) => r.cancelled && Ready(r, w)
    case Known(w) => Ready(r, w) && r.workers[w].phase == Claiming(0)
    case Unclaimed(w) => Ready(r, w) && r.workers[w].phase == Claiming(0)
    case Claim(w, answer) =>
      && Ready(r, w) && r.workers[w].phase.Claiming? && r.workers[w].phase.tries < limits.maxAttempts
      && (answer.SplitClaim? ==> Divides(r, w, answer.size))
    case Succeed(w) => Ready(r, w) && r.workers[w].phase.Trying?
    case SucceedLate(w, reaction) => Ready(r, w) && r.workers[w].phase.Trying? && CanReact(r, w, limits, reaction)
    case Fail(w, reaction) => Ready(r, w) && r.workers[w].phase.Trying? && CanReact(r, w, limits, reaction)
  }

  function AfterClaim(r: Run, w: nat, limits: Limits, answer: Claim): Run
    requires Enabled(r, limits, Claim(w, answer))
  {
    match answer
    case Claimed => SetWorker(r, w, r.workers[w].stack, Trying(0))
    case Duplicate => Rest(r, w).(counters := Skip(r.counters))
    case ResumeSucceeded => Rest(r, w).(resumed := r.resumed + 1)
    case SplitClaim(size) => DivideInto(r, w, size)
    case BusyClaim =>
      var tries := r.workers[w].phase.tries + 1;
      if tries >= limits.maxAttempts then Rest(r, w).(counters := Failed(r.counters))
      else SetWorker(Retried(r), w, r.workers[w].stack, Claiming(tries))
  }

  function Act(r: Run, limits: Limits, step: Step): Run
    requires Enabled(r, limits, step)
  {
    match step
    case Cancel => r.(cancelled := true)
    case Pull(w) => SetWorker(r, w, r.queue[0], Claiming(0)).(queue := r.queue[1..])
    case Leave(w) => SetWorker(r, w, [], Claiming(0)).(dropped := r.dropped + |r.workers[w].stack|)
    case Known(w) => Rest(r, w).(counters := Skip(r.counters))
    case Unclaimed(w) => SetWorker(r, w, r.workers[w].stack, Trying(0))
    case Claim(w, answer) => AfterClaim(r, w, limits, answer)
    case Succeed(w) => Rest(r, w).(counters := Import(r.counters))
    case SucceedLate(w, reaction) => React(r.(counters := Import(r.counters), late := r.late + 1), w, limits, reaction)
    case Fail(w, reaction) => React(r, w, limits, reaction)
  }

  // All steps of the run were enabled when they were taken.
  predicate Legal(r: Run, limits: Limits, steps: seq<Step>)
    decreases |steps|
  {
    steps != [] ==> Enabled(r, limits, steps[0]) && Legal(Act(r, limits, steps[0]), limits, steps[1..])
  }

  function Final(r: Run, limits: Limits, steps: seq<Step>): Run
    requires Legal(r, limits, steps)
    decreases |steps|
  {
    if steps == [] then r else Final(Act(r, limits, steps[0]), limits, steps[1..])
  }

  /****** open chunks ******/

  function QueueSize(queue: seq<seq<Task>>): nat {
    if queue == [] then 0 else |queue[0]| + QueueSize(queue[1..])
  }

  function StackSizes(workers: seq<Worker>): nat {
    if workers == [] then 0 else |workers[0].stack| + StackSizes(workers[1..])
  }

  /** Chunks that are waiting or being worked on. */
  function Open(r: Run): nat {
    QueueSize(r.queue) + StackSizes(r.workers)
  }

  lemma {:induction false} StackSet(workers: seq<Worker>, w: nat, x: Worker)
    requires w < |workers|
    ensures StackSizes(workers[w := x]) == StackSizes(workers) - |workers[w].stack| + |x.stack|
  {
    if w > 0 {
      assert workers[w := x][1..] == workers[1..][w - 1 := x];
      StackSet(workers[1..], w - 1, x);
    } else {
      assert workers[w := x][1..] == workers[1..];
    }
  }

  /**
  The conservation law of the counters.  `initial` is the number of leaves the run started with.
   */
  predicate Conserved(r: Run, initial: nat) {
    && r.counters.total == initial + r.counters.split
    && r.counters.processed == r.counters.imported + r.counters.skipped + r.counters.failed
    && r.counters.total + r.late == r.counters.processed + Open(r) + r.resumed + r.dropped
  }

  lemma ClaimConserves(r: Run, limits: Limits, w: nat, answer: Claim, initial: nat)
    requires Conserved(r, initial) && Enabled(r, limits, Claim(w, answer))
    ensures Conserved(AfterClaim(r, w, limits, answer), initial)
  {
    StackSet(r.workers, w, AfterClaim(r, w, limits, answer).workers[w]);
  }

  lemma ReactConserves(r: Run, limits: Limits, w: nat, reaction: Reaction, initial: nat)
    requires Conserved(r, initial) && Ready(r, w) && CanReact(r, w, limits, reaction)
    ensures Conserved(React(r, w, limits, reaction), initial)
  {
    StackSet(r.workers, w, React(r, w, limits, reaction).workers[w]);
  }

  lemma WorkConserves(r: Run, limits: Limits, step: Step, initial: nat)
    requires Conserved(r, initial) && Enabled(r, limits, step)
    requires step.Pull? || step.Known? || step.Unclaimed? || step.Succeed? || step.Leave?
    ensures Conserved(Act(r, limits, step), initial)
  {
    hide React, AfterClaim;
    StackSet(r.workers, step.w, Act(r, limits, step).workers[step.w]);
  }

  lemma StepConserves(r: Run, limits: Limits, step: Step, initial: nat)
    requires Conserved(r, initial) && Enabled(r, limits, step)
    ensures Conserved(Act(r, limits, step), initial)
  {
    match step
    case Cancel =>
    case Claim(w, answer) =>
      hide AfterClaim, Conserved;
      ClaimConserves(r, limits, w, answer, initial);
    case SucceedLate(w, reaction) =>
      var r1 := r.(counters := Import(r.counters), late := r.late + 1);
      assert Conserved(r1, initial);
      hide React, Conserved;
      ReactConserves(r1, limits, w, reaction, initial);
    case Fail(w, reaction) =>
      hide React, Conserved;
      ReactConserves(r, limits, w, reaction, initial);
    case _ =>
      hide Act, Conserved;
      WorkConserves(r, limits, step, initial);
  }

  lemma {:induction false} RunConserves(r: Run, limits: Limits, steps: seq<Step>, initial: nat)
    requires Conserved(r, initial) && Legal(r, limits, steps)
    ensures Conserved(Final(r, limits, steps), initial)
    decreases |steps|
  {
    if steps != [] {
      StepConserves(r, limits, steps[0], initial);
      RunConserves(Act(r, limits, steps[0]), limits, steps[1..], initial);
    }
  }

  predicate Started(r: Run) {
    && (forall w :: 0 <= w < |r.workers| ==> r.workers[w] == Worker([], Claiming(0)))
    && r.counters == Counters(QueueSize(r.queue), 0, 0, 0, 0, 0, 0)
    && r.late == r.resumed == r.dropped == 0 && !r.cancelled
  }

  lemma {:induction false} NoStacks(workers: seq<Worker>)
    requires forall w :: 0 <= w < |workers| ==> workers[w].stack == []
    ensures StackSizes(workers) == 0
  {
    if workers != [] {
      NoStacks(workers[1..]);
    }
  }

  predicate Ended(r: Run) {
    r.queue == [] && forall w :: 0 <= w < |r.workers| ==> r.workers[w].stack == []
  }

  predicate NoLate(steps: seq<Step>) {
    forall i :: 0 <= i < |steps| ==> !steps[i].SucceedLate?
  }

  lemma {:induction false} LateUnchanged(r: Run, limits: Limits, steps: seq<Step>)
    requires Legal(r, limits, steps) && NoLate(steps)
    ensures Final(r, limits, steps).late == r.late
    decreases |steps|
  {
    if steps != [] {
      LateUnchanged(Act(r, limits, steps[0]), limits, steps[1..]);
    }
  }

  /** In every state of a run: each processed chunk has one outcome, and none is processed that was not counted. */
  lemma ProcessedWithinTotal(r: Run, limits: Limits, steps: seq<Step>)
    requires Started(r) && Legal(r, limits, steps)
    ensures var c := Final(r, limits, steps).counters;
            && c.processed == c.imported + c.skipped + c.failed
            && c.total == QueueSize(r.queue) + c.split
            && (NoLate(steps) ==> c.processed <= c.total)
  {
    NoStacks(r.workers);
    RunConserves(r, limits, steps, QueueSize(r.queue));
    if NoLate(steps) {
      LateUnchanged(r, limits, steps);
    }
  }

  // No claim was answered with a finished manifest, which is closed without being counted.
  predicate NoResume(steps: seq<Step>) {
    forall i :: 0 <= i < |steps| ==> !(steps[i].Claim? && steps[i].answer.ResumeSucceeded?)
  }

  lemma {:induction false} ResumedIff(r: Run, limits: Limits, steps: seq<Step>)
    requires Legal(r, limits, steps)
    ensures Final(r, limits, steps).resumed >= r.resumed && (Final(r, limits, steps).resumed == r.resumed <==> NoResume(steps))
    decreases |steps|
  {
    if steps != [] {
      var rest := steps[1..];
      ResumedIff(Act(r, limits, steps[0]), limits, rest);
      assert NoResume(steps) <==> !(steps[0].Claim? && steps[0].answer.ResumeSucceeded?) && NoResume(rest) by {
        assert steps == [steps[0]] + rest;
      }
      hide NoResume;
    }
  }

  /**
  An uncancelled run whose success hooks never raised ends with processed equal to total, the initial
  leaves plus the splits, if and only if no claim was answered with a finished manifest.
   */
  lemma EndedRunIsComplete(r: Run, limits: Limits, steps: seq<Step>)
    requires Started(r) && Legal(r, limits, steps) && NoLate(steps) && NoCancel(steps)
    requires Ended(Final(r, limits, steps))
    ensures var e := Final(r, limits, steps);
            && (e.counters.processed == e.counters.total <==> NoResume(steps))
            && e.counters.total == QueueSize(r.queue) + e.counters.split
  {
    hide Enabled, Act, NoResume;
    NoStacks(r.workers);
    RunConserves(r, limits, steps, QueueSize(r.queue));
    NoStacks(Final(r, limits, steps).workers);
    LateUnchanged(r, limits, steps);
    ResumedIff(r, limits, steps);
    NothingDropped(r, limits, steps);
  }

  lemma {:induction false} NothingDropped(r: Run, limits: Limits, steps: seq<Step>)
    requires Legal(r, limits, steps) && NoCancel(steps) && !r.cancelled
    ensures Final(r, limits, steps).dropped == r.dropped
    decreases |steps|
  {
    if steps != [] {
      NothingDropped(Act(r, limits, steps[0]), limits, steps[1..]);
    }
  }

  /****** termination ******/

  // The steps one chunk may take before it is closed or divided
  function PhaseWeight(limits: Limits, p: Phase): nat {
    match p
    case Claiming(n) => (if n < limits.maxAttempts then limits.maxAttempts - n else 0) + limits.maxAttempts + 3
    case Trying(n) => (if n < limits.maxAttempts then limits.maxAttempts - n else 0) + 1
  }

  // A chunk of size n can be divided at most n - 1 times.
  function TaskWeight(limits: Limits, t: Task): nat {
    (if t.size == 0 then 1 else 2 * t.size - 1) * (2 * limits.maxAttempts + 4)
  }

  function StackWeight(limits: Limits, ts: seq<Task>): nat {
    if ts == [] then 0 else TaskWeight(limits, ts[0]) + StackWeight(limits, ts[1..])
  }

  function WorkerWeight(limits: Limits, w: Worker): nat {
    if w.stack == [] then 0 else PhaseWeight(limits, w.phase) + StackWeight(limits, w.stack)
  }

  function WorkersWeight(limits: Limits, ws: seq<Worker>): nat {
    if ws == [] then 0 else WorkerWeight(limits, ws[0]) + WorkersWeight(limits, ws[1..])
  }

  function QueueWeight(limits: Limits, queue: seq<seq<Task>>): nat {
    if queue == [] then 0 else 2 * limits.maxAttempts + 4 + StackWeight(limits, queue[0]) + QueueWeight(limits, queue[1..])
  }

  /** An upper bound on the steps still to come. */
  function Measure(r: Run, limits: Limits): nat {
    QueueWeight(limits, r.queue) + WorkersWeight(limits, r.workers)
  }

  lemma {:induction false} WeightSet(limits: Limits, ws: seq<Worker>, w: nat, x: Worker)
    requires w < |ws|
    ensures WorkersWeight(limits, ws[w := x]) == WorkersWeight(limits, ws) - WorkerWeight(limits, ws[w]) + WorkerWeight(limits, x)
  {
    if w > 0 {
      assert ws[w := x][1..] == ws[1..][w - 1 := x];
      WeightSet(limits, ws[1..], w - 1, x);
    } else {
      assert ws[w := x][1..] == ws[1..];
    }
  }

  lemma DivideShrinks(limits: Limits, t: Task, size: nat, d: nat)
    requires 0 < size < t.size
    ensures TaskWeight(limits, Task(size, d)) + TaskWeight(limits, Task(t.size - size, d)) + 2 * limits.maxAttempts + 4
         == TaskWeight(limits, t)
  {
    var u := 2 * limits.maxAttempts + 4;
    assert (2 * size - 1) * u + (2 * (t.size - size) - 1) * u == (2 * t.size - 2) * u;
  }

  lemma TaskTakesSteps(limits: Limits, t: Task)
    ensures TaskWeight(limits, t) >= 2 * limits.maxAttempts + 4
  {
  }

  lemma DividedStack(limits: Limits, stack: seq<Task>, size: nat)
    requires stack != [] && 0 < size < stack[0].size
    ensures var d := stack[0].depth + 1;
            StackWeight(limits, [Task(size, d), Task(stack[0].size - size, d)] + stack[1..]) + 2 * limits.maxAttempts + 4
            == StackWeight(limits, stack)
  {
    var d := stack[0].depth + 1;
    var left, right := Task(size, d), Task(stack[0].size - size, d);
    DivideShrinks(limits, stack[0], size, d);
    assert ([left, right] + stack[1..])[1..] == [right] + stack[1..] && ([right] + stack[1..])[1..] == stack[1..];
    assert StackWeight(limits, [right] + stack[1..]) == TaskWeight(limits, right) + StackWeight(limits, stack[1..]);
  }

  lemma ClaimShrinks(r: Run, limits: Limits, w: nat, answer: Claim)
    requires Enabled(r, limits, Claim(w, answer))
    ensures WorkerWeight(limits, AfterClaim(r, w, limits, answer).workers[w]) < WorkerWeight(limits, r.workers[w])
  {
    TaskTakesSteps(limits, r.workers[w].stack[0]);
    if answer.SplitClaim? {
      DividedStack(limits, r.workers[w].stack, answer.size);
    }
  }

  // Whatever a worker does, its own weight falls.
  lemma WorkerShrinks(r: Run, limits: Limits, step: Step)
    requires Enabled(r, limits, step) && !step.Cancel? && !step.Pull?
    ensures WorkerWeight(limits, Act(r, limits, step).workers[step.w]) < WorkerWeight(limits, r.workers[step.w])
  {
    var stack := r.workers[step.w].stack;
    TaskTakesSteps(limits, stack[0]);
    match step
    case Claim(w, answer) =>
      hide AfterClaim;
      ClaimShrinks(r, limits, w, answer);
    case SucceedLate(_, reaction) => if reaction.SplitAt? { DividedStack(limits, stack, reaction.size); }
    case Fail(_, reaction) => if reaction.SplitAt? { DividedStack(limits, stack, reaction.size); }
    case _ =>
  }

  // A step other than a pull concerns one worker only.
  lemma OnlyThatWorker(r: Run, limits: Limits, step: Step)
    requires Enabled(r, limits, step) && !step.Cancel? && !step.Pull?
    ensures var r' := Act(r, limits, step); step.w < |r.workers| && r'.queue == r.queue && r'.workers == r.workers[step.w := r'.workers[step.w]]
  {
  }

  lemma PullShrinks(r: Run, limits: Limits, w: nat)
    requires Enabled(r, limits, Pull(w))
    ensures Measure(Act(r, limits, Pull(w)), limits) < Measure(r, limits)
  {
    WeightSet(limits, r.workers, w, Worker(r.queue[0], Claiming(0)));
    hide StackWeight, WorkersWeight;
  }

  lemma StepShrinks(r: Run, limits: Limits, step: Step)
    requires Enabled(r, limits, step) && !step.Cancel?
    ensures Measure(Act(r, limits, step), limits) < Measure(r, limits)
  {
    hide Act, Enabled, WorkerWeight, WorkersWeight, QueueWeight;
    if step.Pull? {
      PullShrinks(r, limits, step.w);
    } else {
      OnlyThatWorker(r, limits, step);
      WorkerShrinks(r, limits, step);
      WeightSet(limits, r.workers, step.w, Act(r, limits, step).workers[step.w]);
    }
  }

  predicate NoCancel(steps: seq<Step>) {
    forall i :: 0 <= i < |steps| ==> !steps[i].Cancel?
  }

  // A worker in front of a claim has tries left.
  predicate PhasesOk(r: Run, limits: Limits) {
    forall w :: 0 <= w < |r.workers| && r.workers[w].phase.Claiming? ==>
      r.workers[w].phase.tries == 0 || r.workers[w].phase.tries < limits.maxAttempts
  }

  lemma StepKeepsPhases(r: Run, limits: Limits, step: Step)
    requires PhasesOk(r, limits) && Enabled(r, limits, step)
    ensures PhasesOk(Act(r, limits, step), limits)
  {
  }

  /** Every uncancelled run is finite: it has at most as many steps as the measure says. */
  lemma {:induction false} RunIsBounded(r: Run, limits: Limits, steps: seq<Step>)
    requires Legal(r, limits, steps) && NoCancel(steps) && PhasesOk(r, limits) && !r.cancelled && r.dropped == 0
    ensures |steps| + Measure(Final(r, limits, steps), limits) <= Measure(r, limits)
    ensures var e := Final(r, limits, steps);
            PhasesOk(e, limits) && !e.cancelled && e.dropped == 0 && |e.workers| == |r.workers|
    decreases |steps|
  {
    if steps != [] {
      StepShrinks(r, limits, steps[0]);
      StepKeepsPhases(r, limits, steps[0]);
      assert !steps[0].Leave?;
      hide Act, Enabled, PhasesOk, Measure;
      StepStays(r, limits, steps[0]);
      RunIsBounded(Act(r, limits, steps[0]), limits, steps[1..]);
    }
  }

  lemma StepStays(r: Run, limits: Limits, step: Step)
    requires Enabled(r, limits, step) && !step.Cancel? && !r.cancelled && r.dropped == 0
    ensures var r' := Act(r, limits, step); !r'.cancelled && r'.dropped == 0 && |r'.workers| == |r.workers|
  {
  }

  // Nothing is left to do but to cancel.
  ghost predicate Stuck(r: Run, limits: Limits) {
    forall step: Step :: Enabled(r, limits, step) ==> step.Cancel?
  }

  lemma StuckHasEnded(r: Run, limits: Limits)
    requires PhasesOk(r, limits) && Stuck(r, limits) && |r.workers| > 0 && !r.cancelled
    ensures Ended(r)
  {
    forall w | 0 <= w < |r.workers| ensures r.workers[w].stack == [] {
      assert !Enabled(r, limits, Unclaimed(w)) && !Enabled(r, limits, Claim(w, Claimed)) && !Enabled(r, limits, Succeed(w));
    }
    assert !Enabled(r, limits, Pull(0));
  }

  /**
  An uncancelled run always ends, and once it cannot go on, every initial leaf and every split child
  was processed exactly once, if no success hook raised and exactly if nothing was resumed.
   */
  lemma RunAccountsForAll(r: Run, limits: Limits, steps: seq<Step>)
    requires Started(r) && |r.workers| > 0 && Legal(r, limits, steps) && NoCancel(steps)
    ensures |steps| <= Measure(r, limits)
    ensures var e := Final(r, limits, steps);
            Stuck(e, limits) ==>
              && Ended(e) && e.counters.total == QueueSize(r.queue) + e.counters.split
              && (NoLate(steps) ==> (e.counters.processed == e.counters.total <==> NoResume(steps)))
  {
    RunIsBounded(r, limits, steps);
    var e := Final(r, limits, steps);
    if Stuck(e, limits) {
      StuckHasEnded(e, limits);
      hide Enabled, Act, Stuck, NoResume, Ended, Measure;
      NoStacks(r.workers);
      RunConserves(r, limits, steps, QueueSize(r.queue));
      if NoLate(steps) {
        EndedRunIsComplete(r, limits, steps);
      }
    }
  }

  /****** what each counter counts ******/

  function One(b: bool): nat {
    if b then 1 else 0
  }

  function Number(steps: seq<Step>, f: Step -> bool): nat {
    if steps == [] then 0 else One(f(steps[0])) + Number(steps[1..], f)
  }

  function Reactions(step: Step): Option<Reaction> {
    match step
    case SucceedLate(_, reaction) => Some(reaction)
    case Fail(_, reaction) => Some(reaction)
    case _ => None
  }

  // A claim that stays busy for the last time, or an error behind which there is no other attempt
  predicate ClosesAsFailed(r: Run, limits: Limits, step: Step)
    requires Enabled(r, limits, step)
  {
    || Reactions(step) == Some(GiveUp)
    || (step.Claim? && step.answer.BusyClaim? && r.workers[step.w].phase.tries + 1 >= limits.maxAttempts)
  }

  /** One step: it fails a chunk exactly when that has no try left, and retries it exactly when it has. */
  lemma StepCounts(r: Run, limits: Limits, step: Step)
    requires Enabled(r, limits, step)
    ensures var c, d := r.counters, Act(r, limits, step).counters;
            && d.imported == c.imported + One(step.Succeed? || step.SucceedLate?)
            && d.skipped == c.skipped + One(step.Known? || (step.Claim? && step.answer.Duplicate?))
            && d.split == c.split + One((step.Claim? && step.answer.SplitClaim?) || (Reactions(step).Some? && Reactions(step).value.SplitAt?))
            && d.failed == c.failed + One(ClosesAsFailed(r, limits, step))
            && d.retried == c.retried + One(Reactions(step) == Some(Again)
                                            || (step.Claim? && step.answer.BusyClaim? && !ClosesAsFailed(r, limits, step)))
  {
  }

  function FailedSteps(r: Run, limits: Limits, steps: seq<Step>): nat
    requires Legal(r, limits, steps)
    decreases |steps|
  {
    if steps == [] then 0
    else One(ClosesAsFailed(r, limits, steps[0])) + FailedSteps(Act(r, limits, steps[0]), limits, steps[1..])
  }

  /** Over a whole run: each counter is the number of the steps it stands for. */
  lemma {:induction false} RunCounts(r: Run, limits: Limits, steps: seq<Step>)
    requires Legal(r, limits, steps)
    ensures var c, e := r.counters, Final(r, limits, steps).counters;
            && e.imported == c.imported + Number(steps, (s: Step) => s.Succeed? || s.SucceedLate?)
            && e.skipped == c.skipped + Number(steps, (s: Step) => s.Known? || (s.Claim? && s.answer.Duplicate?))
            && e.split == c.split + Number(steps, (s: Step) => (s.Claim? && s.answer.SplitClaim?) || (Reactions(s).Some? && Reactions(s).value.SplitAt?))
            && e.failed == c.failed + FailedSteps(r, limits, steps)
            && e.failed + e.retried == c.failed + c.retried
                 + Number(steps, (s: Step) => (s.Claim? && s.answer.BusyClaim?) || Reactions(s) == Some(GiveUp) || Reactions(s) == Some(Again))
    decreases |steps|
  {
    if steps != [] {
      StepCounts(r, limits, steps[0]);
      RunCounts(Act(r, limits, steps[0]), limits, steps[1..]);
      hide Act, Enabled;
    }
  }

  /**
  The chunk in front of a worker: a division puts its two parts in its place, one level deeper, a success, a
  skip or a failure takes it away, and all else leaves it; no other worker's chunks are touched.
   */
  lemma ChunkAhead(r: Run, limits: Limits, step: Step)
    requires Enabled(r, limits, step) && !step.Cancel? && !step.Pull? && !step.Leave?
    ensures var r' := Act(r, limits, step);
            var before, after, t := r.workers[step.w].stack, r'.workers[step.w].stack, r.workers[step.w].stack[0];
            && r'.queue == r.queue && r'.cancelled == r.cancelled
            && (forall v :: 0 <= v < |r.workers| && v != step.w ==> r'.workers[v] == r.workers[v])
            && (if r'.counters.split > r.counters.split then
                  |after| == |before| + 1 && after[2..] == before[1..] && after[0].size + after[1].size == t.size
                  && after[0].size > 0 && after[1].size > 0 && after[0].depth == after[1].depth == t.depth + 1
                else if step.Succeed? || (step.SucceedLate? && step.reaction == GiveUp) || step.Known? || ClosesAsFailed(r, limits, step)
                        || (step.Claim? && (step.answer.Duplicate? || step.answer.ResumeSucceeded?)) then after == before[1..]
                else after == before)
  {
  }

  /****** limits ******/

  predicate NotDeeper(tasks: seq<Task>, d: nat) {
    forall i :: 0 <= i < |tasks| ==> tasks[i].depth <= d
  }

  // No chunk is deeper than the limit, and nobody is behind the last attempt.
  predicate WithinLimits(r: Run, limits: Limits) {
    && (forall q :: 0 <= q < |r.queue| ==> NotDeeper(r.queue[q], limits.maxDepth))
    && forall w :: 0 <= w < |r.workers| ==>
         NotDeeper(r.workers[w].stack, limits.maxDepth)
         && (r.workers[w].phase.tries == 0 || r.workers[w].phase.tries < limits.maxAttempts)
  }

  lemma WorkerWithinLimits(r: Run, limits: Limits, step: Step)
    requires WithinLimits(r, limits) && Enabled(r, limits, step) && !step.Cancel? && !step.Pull?
    requires !(step.Claim? && step.answer.SplitClaim?)
    ensures var w := Act(r, limits, step).workers[step.w];
            NotDeeper(w.stack, limits.maxDepth) && (w.phase.tries == 0 || w.phase.tries < limits.maxAttempts)
  {
  }

  lemma StepWithinLimits(r: Run, limits: Limits, step: Step)
    requires WithinLimits(r, limits) && Enabled(r, limits, step) && !(step.Claim? && step.answer.SplitClaim?)
    ensures WithinLimits(Act(r, limits, step), limits)
  {
    if !step.Cancel? && !step.Pull? {
      WorkerWithinLimits(r, limits, step);
      OnlyThatWorker(r, limits, step);
      hide Act, Enabled, NotDeeper;
    }
  }

  /**
  Over any run that repeats no recorded split, no chunk is split below the configured depth, and no chunk is
  claimed or tried more often than configured.
   */
  lemma {:induction false} StaysWithinLimits(r: Run, limits: Limits, steps: seq<Step>)
    requires WithinLimits(r, limits) && Legal(r, limits, steps)
    requires forall i :: 0 <= i < |steps| ==> !(steps[i].Claim? && steps[i].answer.SplitClaim?)
    ensures WithinLimits(Final(r, limits, steps), limits)
    decreases |steps|
  {
    if steps != [] {
      StepWithinLimits(r, limits, steps[0]);
      hide WithinLimits;
      StaysWithinLimits(Act(r, limits, steps[0]), limits, steps[1..]);
    }
  }

  /** Once a run is cancelled it takes nothing from the queue any more, and stays cancelled. */
  lemma {:induction false} CancelledTakesNone(r: Run, limits: Limits, steps: seq<Step>)
    requires r.cancelled && Legal(r, limits, steps)
    ensures Final(r, limits, steps).queue == r.queue && Final(r, limits, steps).cancelled
    decreases |steps|
  {
    if steps != [] {
      CancelledTakesNone(Act(r, limits, steps[0]), limits, steps[1..]);
    }
  }
}
