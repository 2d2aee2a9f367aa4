/**
The controller that lowers the number of concurrent model calls under pressure and raises it
again after a streak of successes, first as the object the workers share, then over every
interleaving of workers that release what they acquired.
 */
module AdaptiveConcurrency {
  import opened Wrappers

  datatype Settings = Settings(base: real, max: real, jitter: real)

  /** The controller's fields. */
  datatype Control = Control(
    target: nat,
    current: nat,
    active: nat,
    failures: nat,
    streak: nat,
    cooldownUntil: real,
    generation: nat)

  function Clamp(low: int, x: int, high: int): int {
    if x < low then low else if x > high then high else x
  }

  // Negative settings count as zero, and the longest delay is never below the first one.
  function Normalize(base: real, max: real, jitter: real): Settings {
    var b := if base < 0.0 then 0.0 else base;
    Settings(b, if max < b then b else max, if jitter < 0.0 then 0.0 else jitter)
  }

  function New(target: int): Control {
    Control(Clamp(1, target, 4), Clamp(1, target, 4), 0, 0, 0, 0.0, 0)
  }

  function Pow2(n: nat): (r: int)
    ensures r >= 1
  {
    if n == 0 then 1 else 2 * Pow2(n - 1)
  }

  function Delay(s: Settings, doublings: nat): real {
    var d := s.base * (Pow2(doublings) as real);
    if d < s.max then d else s.max
  }

  predicate CanEnter(c: Control, now: real) {
    c.active < c.current && c.cooldownUntil <= now
  }

  function Entered(c: Control, now: real): Control {
    if CanEnter(c, now) then c.(active := c.active + 1) else c
  }

  function Left(c: Control): Control {
    c.(active := if c.active > 0 then c.active - 1 else 0)
  }

  // Pressure, or a second failure in a row, lowers the concurrency and may start a cooldown.
  function AfterFailure(s: Settings, c: Control, pressure: bool, now: real): (Control, Option<nat>) {
    var n := c.failures + 1;
    var c1 := c.(failures := n, streak := 0);
    if !pressure && n < 2 then (c1, None) else
    var c2 := c1.(current := if c.current > 2 then c.current - 1 else 1);
    var until := now + Delay(s, if n - 1 < 6 then n - 1 else 6);
    if until >= c.cooldownUntil
    then (c2.(cooldownUntil := until, generation := c.generation + 1), Some(c.generation + 1))
    else (c2, None)
  }

  function AfterBackoff(c: Control, token: Option<nat>, now: real): Control {
    if token == Some(c.generation) && now < c.cooldownUntil then c.(cooldownUntil := now) else c
  }

  predicate Raises(c: Control, now: real) {
    && c.current < c.target
    && c.streak + 1 >= (if c.current * 2 > 4 then c.current * 2 else 4)
    && now >= c.cooldownUntil
  }

  function AfterSuccess(c: Control, now: real): Control {
    if Raises(c, now) then c.(failures := 0, streak := 0, current := c.current + 1)
    else c.(failures := 0, streak := c.streak + 1)
  }

  /****** the shared object ******/

  datatype Entry = Acquired | Cancelled | MustWait

  class Controller {
    var target: nat
    var current: nat
    var active: nat
    var failures: nat
    var streak: nat
    var cooldownUntil: real
    var generation: nat
    const settings: Settings

    ghost function State(): Control
      reads this
    {
      Control(target, current, active, failures, streak, cooldownUntil, generation)
    }

    constructor (workers: int, base: real, max: real, jitter: real)
      ensures State() == New(workers) && settings == Normalize(base, max, jitter)
    {
      target := if workers < 1 then 1 else if workers > 4 then 4 else workers;
      current := if workers < 1 then 1 else if workers > 4 then 4 else workers;
      active, failures, streak, cooldownUntil, generation := 0, 0, 0, 0.0, 0;
      settings := Normalize(base, max, jitter);
    }

    // One turn of the waiting loop
    method TryAcquire(cancelled: bool, now: real) returns (r: Entry)
      modifies this`active
      ensures State() == if cancelled then old(State()) else Entered(old(State()), now)
      ensures r.Cancelled? <==> cancelled
      ensures r.Acquired? <==> !cancelled && CanEnter(old(State()), now)
    {
      if cancelled {
        return Cancelled;
      }
      var remaining := if cooldownUntil - now > 0.0 then cooldownUntil - now else 0.0;
      if active < current && remaining <= 0.0 {
        active := active + 1;
        return Acquired;
      }
      r := MustWait;
    }

    method Release()
      modifies this`active
      ensures State() == Left(old(State()))
    {
      active := if active > 0 then active - 1 else 0;
    }

    method RecordFailure(pressure: bool, now: real) returns (token: Option<nat>)
      modifies this
      ensures (State(), token) == AfterFailure(settings, old(State()), pressure, now)
    {
      failures, streak, token := failures + 1, 0, None;
      if pressure || failures >= 2 {
        current := if current > 2 then current - 1 else 1;
        var until := now + Delay(settings, if failures - 1 < 6 then failures - 1 else 6);
        if until >= cooldownUntil {
          cooldownUntil := until;
          generation := generation + 1;
          token := Some(generation);
        }
      }
    }

    method CompleteBackoff(token: Option<nat>, now: real)
      modifies this`cooldownUntil
      ensures State() == AfterBackoff(old(State()), token, now)
    {
      if token.Some? && token.value == generation {
        cooldownUntil := if cooldownUntil < now then cooldownUntil else now;
      }
    }

    method RecordSuccess(now: real)
      modifies this
      ensures State() == AfterSuccess(old(State()), now)
    {
      failures, streak := 0, streak + 1;
      var threshold := if current * 2 > 4 then current * 2 else 4;
      if current < target && streak >= threshold && now >= cooldownUntil {
        current, streak := current + 1, 0;
      }
    }
  }

  /** The wait before attempt `n + 1`, drawn between the doubled delay and its jittered maximum. */
  function BackoffSeconds(s: Settings, n: nat, draw: real): real {
    Delay(s, n) + Delay(s, n) * s.jitter * draw
  }

  lemma Scale(a: real, b: real, c: real)
    requires a <= b && 0.0 <= c
    ensures a * c <= b * c
  {
  }

  lemma DelayBounds(s: Settings, n: nat)
    requires 0.0 <= s.base <= s.max
    ensures s.base <= Delay(s, n) <= s.max
  {
    var p := Pow2(n) as real;
    Scale(1.0, p, s.base);
    assert p * s.base == s.base * p;
  }

  // Adding a drawn part of a share of `d` stays below `d` and its whole share of the maximum.
  lemma Jittered(d: real, max: real, jitter: real, draw: real)
    requires 0.0 <= d <= max && 0.0 <= jitter && 0.0 <= draw < 1.0
    ensures 0.0 <= d * jitter * draw <= max * jitter
  {
    var share := d * jitter;
    Scale(0.0, d, jitter);
    Scale(d, max, jitter);
    Scale(0.0, draw, share);
    Scale(draw, 1.0, share);
    assert draw * share == share * draw;
  }

  lemma BackoffBounds(s: Settings, n: nat, draw: real)
    requires 0.0 <= s.base <= s.max && 0.0 <= s.jitter && 0.0 <= draw < 1.0
    ensures s.base <= Delay(s, n) <= s.max
    ensures Delay(s, n) <= BackoffSeconds(s, n, draw) <= s.max + s.max * s.jitter
  {
    DelayBounds(s, n);
    hide Delay, Pow2;
    Jittered(Delay(s, n), s.max, s.jitter, draw);
  }

  /** It grows with the draw, from the delay itself to the delay with its whole jitter. */
  lemma BackoffGrows(s: Settings, n: nat, low: real, high: real)
    requires 0.0 <= s.base <= s.max && 0.0 <= s.jitter && low <= high
    ensures BackoffSeconds(s, n, 0.0) == Delay(s, n) && BackoffSeconds(s, n, 1.0) == Delay(s, n) * (1.0 + s.jitter)
    ensures BackoffSeconds(s, n, low) <= BackoffSeconds(s, n, high)
  {
    DelayBounds(s, n);
    hide Delay, Pow2;
    var share := Delay(s, n) * s.jitter;
    Scale(0.0, Delay(s, n), s.jitter);
    Scale(low, high, share);
    assert share * low == low * share && share * high == high * share;
  }

  /** Sensible settings are taken as they are; all others are made so. */
  lemma SettingsAreSound(base: real, max: real, jitter: real)
    ensures var s := Normalize(base, max, jitter);
            && 0.0 <= s.base <= s.max && 0.0 <= s.jitter
            && (0.0 <= base ==> s.base == base) && (s.base <= max ==> s.max == max) && (0.0 <= jitter ==> s.jitter == jitter)
            && (base < 0.0 ==> s.base == 0.0) && (max < s.base ==> s.max == s.base) && (jitter < 0.0 ==> s.jitter == 0.0)
  {
  }

  /****** interleavings ******/

  type Id = nat

  /** Who is inside a call, which cooldown token each worker was given last, and what has happened so far. */
  datatype Shop = Shop(control: Control, now: real, inside: set<Id>, tokens: map<Id, nat>, successes: nat, raises: nat)

  datatype Step =
    | Enter(w: Id)
    | Exit(w: Id)
    | Success(w: Id)
    | Failure(w: Id, pressure: bool)
    | Backoff(w: Id)
    | Wait(seconds: real)

  // Workers enter once at a time and leave only what they entered.
  predicate Bracketed(s: Shop, step: Step) {
    match step
    case Enter(w) => w !in s.inside
    case Exit(w) => w in s.inside
    case Wait(d) => d >= 0.0
    case _ => true
  }

  function Act(settings: Settings, s: Shop, step: Step): Shop {
    var c := s.control;
    match step
    case Enter(w) =>
      if CanEnter(c, s.now) then s.(control := Entered(c, s.now), inside := s.inside + {w}) else s
    case Exit(w) => s.(control := Left(c), inside := s.inside - {w})
    case Success(w) =>
      s.(control := AfterSuccess(c, s.now), successes := s.successes + 1, raises := if Raises(c, s.now) then s.raises + 1 else s.raises)
    case Failure(w, pressure) =>
      var (c', token) := AfterFailure(settings, c, pressure, s.now);
      s.(control := c', tokens := if token.Some? then s.tokens[w := token.value] else s.tokens - {w})
    case Backoff(w) =>
      s.(control := AfterBackoff(c, if w in s.tokens then Some(s.tokens[w]) else None, s.now), tokens := s.tokens - {w})
    case Wait(d) => s.(now := s.now + d)
  }

  predicate BracketedRun(settings: Settings, s: Shop, steps: seq<Step>)
    decreases |steps|
  {
    steps != [] ==> Bracketed(s, steps[0]) && BracketedRun(settings, Act(settings, s, steps[0]), steps[1..])
  }

  function ActAll(settings: Settings, s: Shop, steps: seq<Step>): Shop
    decreases |steps|
  {
    if steps == [] then s else ActAll(settings, Act(settings, s, steps[0]), steps[1..])
  }

  /** What every interleaving keeps. */
  predicate Steady(s: Shop) {
    var c := s.control;
    && 1 <= c.current <= c.target <= 4
    && c.active == |s.inside| <= c.target
    && 4 * s.raises + c.streak <= s.successes
    && (forall w :: w in s.tokens ==> s.tokens[w] <= c.generation)
    && (forall v, w :: v in s.tokens && w in s.tokens && s.tokens[v] == s.tokens[w] ==> v == w)
  }

  lemma StepKeepsSteady(settings: Settings, s: Shop, step: Step)
    requires Steady(s) && Bracketed(s, step)
    ensures Steady(Act(settings, s, step)) && Act(settings, s, step).control.target == s.control.target
  {
  }

  /**
  Over every interleaving of workers that leave what they entered, the concurrency stays between one
  and the target of at most four, the count of active calls is exact and within the target, and every
  raise is paid for by four successes.
   */
  lemma {:induction false} AlwaysSteady(settings: Settings, s: Shop, steps: seq<Step>)
    requires Steady(s) && BracketedRun(settings, s, steps)
    ensures Steady(ActAll(settings, s, steps)) && ActAll(settings, s, steps).control.target == s.control.target
    decreases |steps|
  {
    if steps != [] {
      StepKeepsSteady(settings, s, steps[0]);
      AlwaysSteady(settings, Act(settings, s, steps[0]), steps[1..]);
    }
  }

  // A fresh controller at time `now`, before anyone entered
  function Opening(target: int, now: real): Shop {
    Shop(New(target), now, {}, map[], 0, 0)
  }

  lemma NewIsSteady(target: int, now: real)
    ensures Steady(Opening(target, now))
  {
  }

  /** So from a fresh controller on, the target is the wanted number clamped to one and four, and all of this holds. */
  lemma SteadyFromStart(target: int, now: real, settings: Settings, steps: seq<Step>)
    requires BracketedRun(settings, Opening(target, now), steps)
    ensures var s := ActAll(settings, Opening(target, now), steps);
            Steady(s) && s.control.target == Clamp(1, target, 4)
  {
    NewIsSteady(target, now);
    AlwaysSteady(settings, Opening(target, now), steps);
  }

  /**
  A cooldown is shortened exactly when the one worker holding the newest token finishes its backoff
  early; then it is the only one with that token, and the cooldown ends now.
   */
  lemma CooldownShortenedIff(settings: Settings, s: Shop, step: Step)
    requires Steady(s)
    ensures Act(settings, s, step).control.cooldownUntil < s.control.cooldownUntil <==>
              && step.Backoff? && step.w in s.tokens && s.tokens[step.w] == s.control.generation
              && s.now < s.control.cooldownUntil
    ensures Act(settings, s, step).control.cooldownUntil < s.control.cooldownUntil ==>
              && Act(settings, s, step).control.cooldownUntil == s.now
              && forall w :: w in s.tokens && w != step.w ==> s.tokens[w] < s.control.generation
  {
  }

  /****** what lowers and raises the limit ******/

  function Failures(steps: seq<Step>): nat {
    if steps == [] then 0 else Failures(steps[..|steps| - 1]) + if steps[|steps| - 1].Failure? then 1 else 0
  }

  function Successes(steps: seq<Step>): nat {
    if steps == [] then 0 else Successes(steps[..|steps| - 1]) + if steps[|steps| - 1].Success? then 1 else 0
  }

  lemma {:induction false} ActSnoc(settings: Settings, s: Shop, steps: seq<Step>)
    requires steps != []
    ensures ActAll(settings, s, steps) == Act(settings, ActAll(settings, s, steps[..|steps| - 1]), steps[|steps| - 1])
    decreases |steps|
  {
    if |steps| > 1 {
      var rest := steps[1..];
      ActSnoc(settings, Act(settings, s, steps[0]), rest);
      assert steps[..|steps| - 1][1..] == rest[..|rest| - 1];
    }
  }

  // Position `n` is right behind the last success, or at the start when there is none.
  predicate BehindSuccess(steps: seq<Step>, n: nat) {
    && n <= |steps| && (n == 0 || steps[n - 1].Success?)
    && forall i :: n <= i < |steps| ==> !steps[i].Success?
  }

  lemma {:induction false} InARow(settings: Settings, target: int, now: real, steps: seq<Step>, n: nat)
    requires BehindSuccess(steps, n)
    ensures ActAll(settings, Opening(target, now), steps).control.failures == Failures(steps[n..])
  {
    if steps != [] {
      ActSnoc(settings, Opening(target, now), steps);
      if n < |steps| {
        var rest := steps[..|steps| - 1];
        InARow(settings, target, now, rest, n);
        assert steps[n..][..|steps[n..]| - 1] == rest[n..];
      }
    }
  }

  /**
  Behind any run, a failure lowers the limit by one, never below one, exactly when it is pressure or
  another failure came since the last success; it then also extends the cooldown by the base delay doubled
  for each of those, and the worker that extends it gets a token newer than all others.
   */
  lemma FailureLowers(settings: Settings, target: int, now: real, steps: seq<Step>, n: nat, w: Id, pressure: bool)
    requires BracketedRun(settings, Opening(target, now), steps) && BehindSuccess(steps, n)
    ensures var s := ActAll(settings, Opening(target, now), steps);
            var s' := Act(settings, s, Step.Failure(w, pressure));
            var earlier := Failures(steps[n..]);
            var until := s.now + Delay(settings, if earlier < 6 then earlier else 6);
            var counts := pressure || earlier > 0;
            && s'.control.current == (if counts && s.control.current > 1 then s.control.current - 1 else s.control.current)
            && s'.control.cooldownUntil == (if counts && until > s.control.cooldownUntil then until else s.control.cooldownUntil)
            && (w in s'.tokens <==> counts && until >= s.control.cooldownUntil)
            && (w in s'.tokens ==> forall v :: v in s.tokens ==> s.tokens[v] < s'.tokens[w])
            && s'.control.active == s.control.active
  {
    InARow(settings, target, now, steps, n);
    SteadyFromStart(target, now, settings, steps);
    hide Delay, Failures;
  }

  /** Each further delay is twice the one before, up to the maximum. */
  lemma DelayDoubles(s: Settings, n: nat)
    requires 0.0 <= s.base <= s.max
    ensures Delay(s, 0) == s.base
    ensures Delay(s, n + 1) == if 2.0 * Delay(s, n) < s.max then 2.0 * Delay(s, n) else s.max
  {
    var p := Pow2(n) as real;
    assert Pow2(n + 1) as real == 2.0 * p;
    assert s.base * (2.0 * p) == 2.0 * (s.base * p);
  }

  // From position `n` on nothing failed and the limit was not raised.
  predicate Undisturbed(settings: Settings, start: Shop, steps: seq<Step>, n: nat) {
    && n <= |steps| && (forall i :: n <= i < |steps| ==> !steps[i].Failure?)
    && ActAll(settings, start, steps[..n]).raises == ActAll(settings, start, steps).raises
  }

  lemma RaisesGrow(settings: Settings, start: Shop, steps: seq<Step>, n: nat)
    requires n < |steps| && start.raises <= ActAll(settings, start, steps[..n]).raises
    ensures ActAll(settings, start, steps[..n]).raises <= ActAll(settings, start, steps[..|steps| - 1]).raises <= ActAll(settings, start, steps).raises
    decreases |steps|
  {
    ActSnoc(settings, start, steps);
    if n < |steps| - 1 {
      assert steps[..|steps| - 1][..n] == steps[..n];
      RaisesGrow(settings, start, steps[..|steps| - 1], n);
    }
  }

  lemma {:induction false} RaisesMonotone(settings: Settings, start: Shop, steps: seq<Step>)
    ensures start.raises <= ActAll(settings, start, steps).raises
    decreases |steps|
  {
    if steps != [] {
      RaisesMonotone(settings, Act(settings, start, steps[0]), steps[1..]);
    }
  }

  lemma {:induction false} StreakCounts(settings: Settings, target: int, now: real, steps: seq<Step>, n: nat)
    requires Undisturbed(settings, Opening(target, now), steps, n)
    ensures Successes(steps[n..]) <= ActAll(settings, Opening(target, now), steps).control.streak
  {
    var start := Opening(target, now);
    if n < |steps| {
      var rest := steps[..|steps| - 1];
      RaisesMonotone(settings, start, steps[..n]);
      RaisesGrow(settings, start, steps, n);
      ActSnoc(settings, start, steps);
      assert rest[..n] == steps[..n];
      StreakCounts(settings, target, now, rest, n);
      assert steps[n..][..|steps[n..]| - 1] == rest[n..];
    }
  }

  lemma {:induction false} StreakStart(settings: Settings, target: int, now: real, steps: seq<Step>) returns (n: nat)
    ensures Undisturbed(settings, Opening(target, now), steps, n)
    ensures Successes(steps[n..]) == ActAll(settings, Opening(target, now), steps).control.streak
  {
    var start := Opening(target, now);
    if steps == [] {
      n := 0;
    } else {
      var rest, last := steps[..|steps| - 1], steps[|steps| - 1];
      ActSnoc(settings, start, steps);
      n := StreakStart(settings, target, now, rest);
      assert steps[..|steps|] == steps;
      if last.Failure? || ActAll(settings, start, steps).raises != ActAll(settings, start, rest).raises {
        n := |steps|;
      } else {
        assert rest[..n] == steps[..n];
        assert steps[n..][..|steps[n..]| - 1] == rest[n..];
      }
    }
  }

  /**
  Behind any run, a success raises the limit by one exactly when it is below the target, no cooldown is on,
  and it completes at least four successes, and twice the limit, with no failure and no raise among them.
   */
  lemma SuccessRaises(settings: Settings, target: int, now: real, steps: seq<Step>, w: Id)
    ensures var s := ActAll(settings, Opening(target, now), steps);
            var c := Act(settings, s, Step.Success(w)).control;
            var raised := s.control.current < s.control.target && s.control.cooldownUntil <= s.now
              && exists n: nat :: Undisturbed(settings, Opening(target, now), steps, n)
                  && Successes(steps[n..]) + 1 >= 4 && Successes(steps[n..]) + 1 >= 2 * s.control.current;
            && c.current == (if raised then s.control.current + 1 else s.control.current)
            && c.cooldownUntil == s.control.cooldownUntil && c.active == s.control.active
  {
    var start := Opening(target, now);
    var s := ActAll(settings, start, steps);
    var m := StreakStart(settings, target, now, steps);
    hide Successes, ActAll;
    forall n: nat | Undisturbed(settings, start, steps, n) ensures Successes(steps[n..]) <= s.control.streak {
      StreakCounts(settings, target, now, steps, n);
    }
  }
}
