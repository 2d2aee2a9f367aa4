/**
Concurrent guarded writers.  Each takes the locks of its scopes in order, checks, writes and
releases; writers of all projects interleave freely, and any of them may give up in between.
 */
module QuotaGuard {
  import opened Wrappers
  import opened QuotaPolicies

  datatype Stage = Locking(taken: nat) | Writing | Done

  datatype Writer = Writer(policies: seq<Policy>, project: nat, selected: nat, stage: Stage)

  datatype State = State(members: nat -> seq<nat>, stored: map<nat, nat>, locks: map<Scope, nat>, writers: seq<Writer>)

  datatype Step =
    | Lock(w: nat)
    | CheckLimits(w: nat)
    | Write(w: nat, rows: nat)
    | Abort(w: nat)
    | Forget(project: nat, rows: nat)

  function Needs(w: Writer): seq<Scope>
    requires Ordered(w.policies)
  {
    Resources(w.policies)
  }

  predicate AllOrdered(s: State) {
    forall w :: 0 <= w < |s.writers| ==> Ordered(s.writers[w].policies)
  }

  // A writer is set up from a normalized snapshot; it may write at most what it announced.
  predicate Enabled(s: State, step: Step)
    requires AllOrdered(s)
  {
    match step
    case Lock(w) =>
      && w < |s.writers| && s.writers[w].stage.Locking? && s.writers[w].stage.taken < |Needs(s.writers[w])|
      && Needs(s.writers[w])[s.writers[w].stage.taken] !in s.locks
    case CheckLimits(w) =>
      w < |s.writers| && s.writers[w].stage.Locking? && s.writers[w].stage.taken >= |Needs(s.writers[w])|
    case Write(w, rows) => w < |s.writers| && s.writers[w].stage.Writing? && rows <= s.writers[w].selected
    case Abort(w) => w < |s.writers| && !s.writers[w].stage.Done?
    case Forget(project, rows) => rows <= Count(s.stored, project)
  }

  function Release(locks: map<Scope, nat>, w: nat): map<Scope, nat> {
    map k | k in locks && locks[k] != w :: locks[k]
  }

  function SetStage(s: State, w: nat, stage: Stage): State
    requires w < |s.writers|
  {
    s.(writers := s.writers[w := s.writers[w].(stage := stage)])
  }

  function Finish(s: State, w: nat): State
    requires w < |s.writers|
  {
    SetStage(s, w, Done).(locks := Release(s.locks, w))
  }

  function Act(s: State, step: Step): (s': State)
    requires AllOrdered(s) && Enabled(s, step)
    ensures AllOrdered(s') && s'.members == s.members
  {
    match step
    case Lock(w) =>
      var taken := s.writers[w].stage.taken;
      SetStage(s, w, Locking(taken + 1)).(locks := s.locks[Needs(s.writers[w])[taken] := w])
    case CheckLimits(w) =>
      if forall p :: p in s.writers[w].policies ==> Fits(s.stored, s.members, p, s.writers[w].selected)
      then SetStage(s, w, Writing)
      else Finish(s, w)
    case Write(w, rows) =>
      var project := s.writers[w].project;
      Finish(s.(stored := s.stored[project := Count(s.stored, project) + rows]), w)
    case Abort(w) => Finish(s, w)
    case Forget(project, rows) => s.(stored := s.stored[project := Count(s.stored, project) - rows])
  }

  predicate Legal(s: State, steps: seq<Step>)
    requires AllOrdered(s)
    decreases |steps|
  {
    steps != [] ==> Enabled(s, steps[0]) && Legal(Act(s, steps[0]), steps[1..])
  }

  function ActAll(s: State, steps: seq<Step>): (s': State)
    requires AllOrdered(s) && Legal(s, steps)
    ensures AllOrdered(s') && s'.members == s.members
    decreases |steps|
  {
    if steps == [] then s else ActAll(Act(s, steps[0]), steps[1..])
  }

  /****** locks ******/

  // The scopes a writer holds: those it has come to in order
  function Held(w: Writer): seq<Scope>
    requires Ordered(w.policies)
  {
    match w.stage
    case Locking(taken) => Needs(w)[..if taken < |Needs(w)| then taken else |Needs(w)|]
    case Writing => Needs(w)
    case Done => []
  }

  /** The lock table says exactly who holds what. */
  ghost predicate LocksOk(s: State)
    requires AllOrdered(s)
  {
    && (forall k :: k in s.locks ==> s.locks[k] < |s.writers| && k in Held(s.writers[s.locks[k]]))
    && (forall w, k :: 0 <= w < |s.writers| && k in Held(s.writers[w]) ==> k in s.locks && s.locks[k] == w)
  }

  // A writer moves on without a change of locks.
  lemma StageKeepsLocks(s: State, w: nat, stage: Stage)
    requires AllOrdered(s) && LocksOk(s) && w < |s.writers|
    requires Held(s.writers[w].(stage := stage)) == Held(s.writers[w])
    ensures LocksOk(SetStage(s, w, stage))
  {
    hide Held;
    var s' := SetStage(s, w, stage);
    assert forall v :: 0 <= v < |s.writers| && v != w ==> s'.writers[v] == s.writers[v];
    assert s'.writers[w] == s.writers[w].(stage := stage);
  }

  lemma FinishKeepsLocks(s: State, w: nat)
    requires AllOrdered(s) && LocksOk(s) && w < |s.writers|
    ensures LocksOk(Finish(s, w))
  {
    hide Needs, Resources;
    var s' := Finish(s, w);
    assert Held(s'.writers[w]) == [];
    assert forall v :: 0 <= v < |s.writers| && v != w ==> s'.writers[v] == s.writers[v];
  }

  lemma TakeLock(s: State, s': State, w: nat, lock: Scope)
    requires AllOrdered(s) && AllOrdered(s') && LocksOk(s) && w < |s.writers| == |s'.writers| && lock !in s.locks
    requires forall v :: 0 <= v < |s.writers| && v != w ==> s'.writers[v] == s.writers[v]
    requires Held(s'.writers[w]) == Held(s.writers[w]) + [lock] && s'.locks == s.locks[lock := w]
    ensures LocksOk(s')
  {
    hide Held;
    forall v, k | 0 <= v < |s'.writers| && k in Held(s'.writers[v]) ensures k in s'.locks && s'.locks[k] == v {
      assert v == w || k in Held(s.writers[v]);
    }
  }

  lemma LockKeepsLocks(s: State, w: nat)
    requires AllOrdered(s) && LocksOk(s) && Enabled(s, Lock(w))
    ensures LocksOk(Act(s, Lock(w)))
  {
    hide LocksOk, Resources;
    var needs, taken := Needs(s.writers[w]), s.writers[w].stage.taken;
    var s' := Act(s, Lock(w));
    assert Held(s'.writers[w]) == needs[..taken + 1] == Held(s.writers[w]) + [needs[taken]];
    TakeLock(s, s', w, needs[taken]);
  }

  // Stored counts play no part.
  lemma StoredKeepsLocks(s: State, stored: map<nat, nat>)
    requires AllOrdered(s) && LocksOk(s)
    ensures LocksOk(s.(stored := stored))
  {
    hide Held;
  }

  lemma StepKeepsLocks(s: State, step: Step)
    requires AllOrdered(s) && LocksOk(s) && Enabled(s, step)
    ensures LocksOk(Act(s, step))
  {
    hide LocksOk, Resources, Fits;
    match step
    case Lock(w) => LockKeepsLocks(s, w);
    case CheckLimits(w) =>
      FinishKeepsLocks(s, w);
      assert Held(s.writers[w].(stage := Writing)) == Held(s.writers[w]);
      StageKeepsLocks(s, w, Writing);
    case Write(w, rows) =>
      var stored := s.stored[s.writers[w].project := Count(s.stored, s.writers[w].project) + rows];
      StoredKeepsLocks(s, stored);
      FinishKeepsLocks(s.(stored := stored), w);
    case Abort(w) => FinishKeepsLocks(s, w);
    case Forget(project, rows) => StoredKeepsLocks(s, s.stored[project := Count(s.stored, project) - rows]);
  }

  lemma {:induction false} GreatestLock(held: set<Scope>) returns (top: Scope)
    requires held != {}
    ensures top in held && forall k :: k in held ==> k == top || Below(k, top)
    decreases |held|
  {
    var first :| first in held;
    var rest := held - {first};
    top := first;
    assert forall k :: k in held ==> k == first || k in rest;
    if rest != {} {
      var next := GreatestLock(rest);
      top := if Below(first, next) then next else first;
      assert forall k :: k in rest ==> k == top || Below(k, top);
    }
  }

  /**
  No deadlock: as long as any writer is not done, some writer can take its next lock, check or
  write, without anyone giving up.
   */
  lemma NeverDeadlocked(s: State, w: nat) returns (step: Step)
    requires AllOrdered(s) && LocksOk(s) && w < |s.writers| && !s.writers[w].stage.Done?
    ensures Enabled(s, step) && !step.Abort? && !step.Forget?
  {
    var v := w;
    if s.locks.Keys != {} {
      var top := GreatestLock(s.locks.Keys);
      v := s.locks[top];
      var writer := s.writers[v];
      if writer.stage.Locking? && writer.stage.taken < |Needs(writer)| {
        var i :| 0 <= i < writer.stage.taken && Needs(writer)[i] == top;
        assert Below(top, Needs(writer)[writer.stage.taken]);
      }
    }
    step := match s.writers[v].stage
            case Writing => Write(v, 0)
            case Locking(taken) => if taken < |Needs(s.writers[v])| then Lock(v) else CheckLimits(v)
            case Done => Abort(v);
  }

  /****** limits ******/

  // Every writer into a project of the scope carries a policy of that scope, no laxer than `limit`.
  predicate Guarded(s: State, scope: Scope, limit: nat) {
    forall w :: 0 <= w < |s.writers| && s.writers[w].project in Projects(s.members, scope) ==>
      exists p :: p in s.writers[w].policies && p.scope == scope && p.limit <= limit
  }

  // The scope is within its limit, also after what a checked writer is about to add.
  predicate Within(s: State, scope: Scope, limit: nat) {
    && Used(s.stored, s.members, scope) <= limit
    && forall w :: 0 <= w < |s.writers| && s.writers[w].stage.Writing? && s.writers[w].project in Projects(s.members, scope) ==>
         Used(s.stored, s.members, scope) + s.writers[w].selected <= limit
  }

  lemma {:induction false} SumAfter(stored: map<nat, nat>, project: nat, n: nat, projects: seq<nat>)
    requires NoneTwice(projects)
    ensures Sum(stored[project := n], projects) ==
              Sum(stored, projects) + if project in projects then n - Count(stored, project) else 0
  {
    if projects != [] {
      var rest, last := projects[..|projects| - 1], projects[|projects| - 1];
      assert projects == rest + [last];
      SumAfter(stored, project, n, rest);
    }
  }

  // Two checked writers into one scope are the same writer.
  lemma OneWriter(s: State, scope: Scope, limit: nat, v: nat, w: nat)
    requires AllOrdered(s) && LocksOk(s) && Guarded(s, scope, limit) && v < |s.writers| && w < |s.writers|
    requires s.writers[v].stage.Writing? && s.writers[w].stage.Writing?
    requires s.writers[v].project in Projects(s.members, scope) && s.writers[w].project in Projects(s.members, scope)
    ensures v == w
  {
    assert scope in Held(s.writers[v]) && scope in Held(s.writers[w]);
    assert s.locks[scope] == v && s.locks[scope] == w;
  }

  lemma StepKeepsWithin(s: State, step: Step, scope: Scope, limit: nat)
    requires AllOrdered(s) && LocksOk(s) && Guarded(s, scope, limit) && Within(s, scope, limit) && Enabled(s, step)
    requires NoneTwice(Projects(s.members, scope))
    ensures Guarded(Act(s, step), scope, limit) && Within(Act(s, step), scope, limit)
  {
    hide LocksOk, Resources, Sum;
    match step
    case Write(w, rows) =>
      var project := s.writers[w].project;
      SumAfter(s.stored, project, Count(s.stored, project) + rows, Projects(s.members, scope));
      forall v | 0 <= v < |s.writers| && v != w && s.writers[v].stage.Writing? && s.writers[v].project in Projects(s.members, scope)
        ensures project !in Projects(s.members, scope)
      {
        if project in Projects(s.members, scope) {
          OneWriter(s, scope, limit, v, w);
        }
      }
    case Forget(project, rows) =>
      SumAfter(s.stored, project, Count(s.stored, project) - rows, Projects(s.members, scope));
    case CheckLimits(w) =>
    case Lock(_) =>
    case Abort(_) =>
  }

  /**
  Whatever the interleaving, the stored memories of a project or organization never exceed its hard
  limit when every writer into it carries that limit.
   */
  lemma {:induction false} LimitHolds(s: State, steps: seq<Step>, scope: Scope, limit: nat)
    requires AllOrdered(s) && LocksOk(s) && Guarded(s, scope, limit) && Within(s, scope, limit) && Legal(s, steps)
    requires NoneTwice(Projects(s.members, scope))
    ensures Used(ActAll(s, steps).stored, s.members, scope) <= limit
    ensures LocksOk(ActAll(s, steps))
    decreases |steps|
  {
    if steps != [] {
      StepKeepsLocks(s, steps[0]);
      StepKeepsWithin(s, steps[0], scope, limit);
      LimitHolds(Act(s, steps[0]), steps[1..], scope, limit);
    }
  }

  /** At the start, with no lock taken and the scope within its limit, the invariants hold. */
  lemma StartIsFine(s: State, scope: Scope, limit: nat)
    requires AllOrdered(s) && s.locks == map[] && Used(s.stored, s.members, scope) <= limit
    requires forall w :: 0 <= w < |s.writers| ==> s.writers[w].stage == Locking(0)
    ensures LocksOk(s) && Within(s, scope, limit)
  {
  }

  /****** nobody is refused without need, and nothing else is stored ******/

  /**
  A writer that holds its locks goes on exactly when each of its policies has room for what it announced, beside
  what the policy's project or the projects of its organization store; refused, it is done and gives its locks back.
   */
  lemma CheckMeans(s: State, w: nat)
    requires AllOrdered(s) && Enabled(s, CheckLimits(w))
    ensures var s', before := Act(s, CheckLimits(w)), s.writers[w];
            var room := forall p :: p in before.policies ==>
              (match p.scope
               case Project(id) => (if id in s.stored then s.stored[id] else 0) + before.selected <= p.limit
               case Organization(id) => Sum(s.stored, s.members(id)) + before.selected <= p.limit);
            && s'.stored == s.stored
            && s'.writers == s.writers[w := before.(stage := if room then Writing else Done)]
            && (forall k :: k in s'.locks <==> k in s.locks && (room || s.locks[k] != w))
            && (forall k :: k in s'.locks ==> s'.locks[k] == s.locks[k])
  {
    forall p | p in s.writers[w].policies
      ensures Fits(s.stored, s.members, p, s.writers[w].selected) <==>
                (match p.scope
                 case Project(id) => (if id in s.stored then s.stored[id] else 0) + s.writers[w].selected <= p.limit
                 case Organization(id) => Sum(s.stored, s.members(id)) + s.writers[w].selected <= p.limit)
    {
      OneProject(s.stored, p.scope.id);
    }
    hide Fits, Sum;
  }

  // What was written into a project, and what was forgotten of it
  function Added(writers: seq<Writer>, steps: seq<Step>, project: nat): nat {
    if steps == [] then 0 else
      (if steps[0].Write? && steps[0].w < |writers| && writers[steps[0].w].project == project then steps[0].rows else 0)
      + Added(writers, steps[1..], project)
  }

  function Forgotten(steps: seq<Step>, project: nat): nat {
    if steps == [] then 0 else
      (if steps[0].Forget? && steps[0].project == project then steps[0].rows else 0) + Forgotten(steps[1..], project)
  }

  predicate SameProjects(a: seq<Writer>, b: seq<Writer>) {
    |a| == |b| && forall w :: 0 <= w < |a| ==> a[w].project == b[w].project
  }

  lemma {:induction false} SameAdded(a: seq<Writer>, b: seq<Writer>, steps: seq<Step>, project: nat)
    requires SameProjects(a, b)
    ensures Added(a, steps, project) == Added(b, steps, project)
  {
    if steps != [] {
      SameAdded(a, b, steps[1..], project);
    }
  }

  /** Over every interleaving a project stores what it had, plus what was written into it, less what was forgotten. */
  lemma {:induction false} StoredIsWritten(s: State, steps: seq<Step>, project: nat)
    requires AllOrdered(s) && Legal(s, steps)
    ensures Count(ActAll(s, steps).stored, project) ==
              Count(s.stored, project) + Added(s.writers, steps, project) - Forgotten(steps, project)
    decreases |steps|
  {
    if steps != [] {
      StoredIsWritten(Act(s, steps[0]), steps[1..], project);
      SameAdded(s.writers, Act(s, steps[0]).writers, steps[1..], project);
    }
  }
}
