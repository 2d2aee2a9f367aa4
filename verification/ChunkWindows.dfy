/** Packing turns into overlapping windows, and windows into chunks. */
module ChunkWindows {
  import opened Wrappers
  import opened Chunking
  import opened ChunkMerge

  /** The turns of a chunk; the first `overlap` of them only repeat the end of the chunk before. */
  datatype Window = Window(turns: seq<Turn>, overlap: nat)

  function Core(w: Window): seq<Turn>
    requires w.overlap <= |w.turns|
  {
    w.turns[w.overlap..]
  }

  predicate HasCore(ws: seq<Window>) {
    forall i :: 0 <= i < |ws| ==> ws[i].overlap < |ws[i].turns|
  }

  function Cores(ws: seq<Window>): seq<Turn>
    requires HasCore(ws)
  {
    if ws == [] then [] else Cores(ws[..|ws| - 1]) + Core(ws[|ws| - 1])
  }

  predicate IsSuffix<T(==)>(a: seq<T>, b: seq<T>) {
    |a| <= |b| && a == b[|b| - |a|..]
  }

  // The overlap of a window repeats the end of the window before it.
  predicate ChainedAt(ws: seq<Window>, i: nat)
    requires HasCore(ws) && i < |ws|
  {
    if i == 0 then ws[i].overlap == 0 else IsSuffix(ws[i].turns[..ws[i].overlap], ws[i - 1].turns)
  }

  predicate Chained(ws: seq<Window>)
    requires HasCore(ws)
  {
    forall i :: 0 <= i < |ws| ==> ChainedAt(ws, i)
  }

  predicate AtMost(turns: seq<Turn>, max: nat) {
    forall i :: 0 <= i < |turns| ==> turns[i].tokens <= max
  }

  predicate Affordable(ws: seq<Window>, max: nat) {
    forall i :: 0 <= i < |ws| ==> SumTokens(ws[i].turns) <= max
  }

  predicate ShortOverlaps(ws: seq<Window>, k: nat) {
    forall i :: 0 <= i < |ws| ==> ws[i].overlap <= k
  }

  predicate Within(ws: seq<Window>, turns: seq<Turn>) {
    forall i :: 0 <= i < |ws| ==> forall x :: x in ws[i].turns ==> x in turns
  }

  /** What the windows promise about the turns they were packed from. */
  predicate Packed(ws: seq<Window>, turns: seq<Turn>, max: nat, k: nat) {
    && HasCore(ws) && Cores(ws) == turns
    && Chained(ws) && ShortOverlaps(ws, k) && Within(ws, turns)
    && (AtMost(turns, max) ==> Affordable(ws, max))
  }

  // The packing state in front of turn `n`
  ghost predicate Packing(ws: seq<Window>, current: seq<Turn>, lead: nat, tokens: nat, turns: seq<Turn>, n: nat, max: nat, k: nat) {
    && lead <= |current| && lead <= k && n <= |turns|
    && HasCore(ws) && Chained(ws) && ShortOverlaps(ws, k)
    && Within(ws, turns) && (forall x :: x in current ==> x in turns)
    && Cores(ws) + current[lead..] == turns[..n]
    && (if ws == [] then lead == 0 else IsSuffix(current[..lead], ws[|ws| - 1].turns))
    && tokens == SumTokens(current)
    && (AtMost(turns, max) ==> Affordable(ws, max) && tokens <= max)
  }

  /** Where the packer may cut, and why: a size to aim at and an oracle for strong turn boundaries. */
  datatype Aim = Aim(target: nat, strong: (Turn, Turn) -> bool)

  function Overlap(current: seq<Turn>, k: nat): seq<Turn> {
    if k == 0 then [] else if |current| <= k then current else current[|current| - k..]
  }

  // A window of these turns ends in front of `next`: it does not fit, or the window is long enough to end here.
  predicate Ends(own: seq<Turn>, next: Turn, max: nat, aim: Aim)
    requires own != []
  {
    || SumTokens(own) + next.tokens > max
    || (SumTokens(own) >= 4000 && (SumTokens(own) >= aim.target || aim.strong(own[|own| - 1], next)))
  }

  predicate Reason(w: Window, turns: seq<Turn>, p: nat, max: nat, aim: Aim) {
    p <= |turns| && w.turns != [] && (p < |turns| ==> Ends(w.turns, turns[p], max, aim))
  }

  // It did not have to end anywhere between its own turns.
  predicate Unbroken(w: Window, max: nat, aim: Aim) {
    forall j :: w.overlap < j < |w.turns| ==> !Ends(w.turns[..j], w.turns[j], max, aim)
  }

  // It repeats as many turns of the window before, up to `k`, as fit in front of its first own one.
  predicate RepeatsMost(before: seq<Turn>, w: Window, max: nat, k: nat) {
    && w.overlap < |w.turns| && w.overlap <= k && w.overlap <= |before|
    && (w.overlap > 0 ==> SumTokens(w.turns[..w.overlap]) + w.turns[w.overlap].tokens <= max)
    && (w.overlap < k && w.overlap < |before| ==> SumTokens(before[|before| - w.overlap - 1..]) + w.turns[w.overlap].tokens > max)
  }

  /** No window could have ended earlier, and none could have repeated more. */
  predicate Settled(ws: seq<Window>, max: nat, k: nat, aim: Aim) {
    && (forall i :: 0 <= i < |ws| ==> Unbroken(ws[i], max, aim))
    && forall i :: 0 < i < |ws| ==> RepeatsMost(ws[i - 1].turns, ws[i], max, k)
  }

  // The same of the window being packed in front of turn `n`
  ghost predicate Tight(ws: seq<Window>, current: seq<Turn>, lead: nat, turns: seq<Turn>, n: nat, max: nat, k: nat, aim: Aim) {
    && Settled(ws, max, k, aim) && lead <= |current| && Unbroken(Window(current, lead), max, aim)
    && (ws != [] ==> Joined(ws[|ws| - 1].turns, current, lead, turns, n, max, k))
  }

  // Below the size to aim at
  predicate Rested(current: seq<Turn>, lead: nat, aim: Aim) {
    |current| > lead ==> SumTokens(current) < 4000 || SumTokens(current) < aim.target
  }

  lemma TightClose(ws: seq<Window>, current: seq<Turn>, lead: nat, turns: seq<Turn>, n: nat, max: nat, k: nat, aim: Aim)
    requires Tight(ws, current, lead, turns, n, max, k, aim) && |current| > lead
    ensures var o := Overlap(current, k); Tight(ws + [Window(current, lead)], o, |o|, turns, n, max, k, aim)
  {
    hide Ends, SumTokens;
    var ws' := ws + [Window(current, lead)];
    forall i | 0 <= i < |ws'| ensures Unbroken(ws'[i], max, aim) && (i > 0 ==> RepeatsMost(ws'[i - 1].turns, ws'[i], max, k)) {
      if i < |ws| {
        assert ws'[i] == ws[i];
      }
    }
  }

  lemma TightPop(ws: seq<Window>, current: seq<Turn>, turns: seq<Turn>, n: nat, max: nat, k: nat, aim: Aim)
    requires Tight(ws, current, |current|, turns, n, max, k, aim) && current != [] && n < |turns|
    requires ws != [] && IsSuffix(current, ws[|ws| - 1].turns) && SumTokens(current) + turns[n].tokens > max
    ensures Tight(ws, current[1..], |current| - 1, turns, n, max, k, aim)
  {
    hide Ends, SumTokens;
  }

  lemma UnbrokenAppend(current: seq<Turn>, lead: nat, next: Turn, max: nat, aim: Aim)
    requires lead <= |current| && Unbroken(Window(current, lead), max, aim)
    requires |current| > lead ==> !Ends(current, next, max, aim)
    ensures Unbroken(Window(current + [next], lead), max, aim)
  {
    hide Ends;
    var more := current + [next];
    forall j | lead < j < |more| ensures !Ends(more[..j], more[j], max, aim) {
      if j < |current| {
        assert more[..j] == current[..j];
        assert !Ends(Window(current, lead).turns[..j], Window(current, lead).turns[j], max, aim);
      } else {
        assert more[..j] == current;
      }
    }
  }

  lemma RepeatsFirst(before: seq<Turn>, current: seq<Turn>, next: Turn, max: nat, k: nat)
    requires |current| <= k && |current| <= |before| && (current == [] || SumTokens(current) + next.tokens <= max)
    requires |current| < k && |current| < |before| ==> SumTokens(before[|before| - |current| - 1..]) + next.tokens > max
    ensures RepeatsMost(before, Window(current + [next], |current|), max, k)
  {
    hide SumTokens;
    FrontOf(current, next, |current|);
    WholeOf(current);
  }

  lemma RepeatsMore(before: seq<Turn>, current: seq<Turn>, lead: nat, next: Turn, max: nat, k: nat)
    requires lead < |current| && RepeatsMost(before, Window(current, lead), max, k)
    ensures RepeatsMost(before, Window(current + [next], lead), max, k)
  {
    FrontOf(current, next, lead);
    hide SumTokens;
  }

  lemma WholeOf(current: seq<Turn>)
    ensures current[..|current|] == current
  {
  }

  lemma FrontOf(current: seq<Turn>, next: Turn, n: nat)
    requires n <= |current|
    ensures (current + [next])[..n] == current[..n] && (current + [next])[n] == if n == |current| then next else current[n]
  {
  }

  // The window in front and the one being packed
  ghost predicate Joined(before: seq<Turn>, current: seq<Turn>, lead: nat, turns: seq<Turn>, n: nat, max: nat, k: nat)
    requires lead <= |current|
  {
    if |current| > lead then RepeatsMost(before, Window(current, lead), max, k)
    else
      && lead <= k && lead <= |before|
      && (lead < k && lead < |before| ==> n < |turns| && SumTokens(before[|before| - lead - 1..]) + turns[n].tokens > max)
  }

  lemma JoinedAppend(before: seq<Turn>, current: seq<Turn>, lead: nat, turns: seq<Turn>, n: nat, max: nat, k: nat)
    requires lead <= |current| && n < |turns| && Joined(before, current, lead, turns, n, max, k)
    requires current == [] || SumTokens(current) + turns[n].tokens <= max
    ensures Joined(before, current + [turns[n]], lead, turns, n + 1, max, k)
  {
    hide RepeatsMost, SumTokens;
    if |current| > lead {
      RepeatsMore(before, current, lead, turns[n], max, k);
    } else {
      RepeatsFirst(before, current, turns[n], max, k);
    }
  }

  lemma TightAppend(ws: seq<Window>, current: seq<Turn>, lead: nat, turns: seq<Turn>, n: nat, max: nat, k: nat, aim: Aim)
    requires Tight(ws, current, lead, turns, n, max, k, aim) && n < |turns|
    requires current == [] || SumTokens(current) + turns[n].tokens <= max
    requires |current| > lead ==> !Ends(current, turns[n], max, aim)
    ensures Tight(ws, current + [turns[n]], lead, turns, n + 1, max, k, aim)
  {
    hide Ends, SumTokens, Settled, Unbroken, Joined;
    UnbrokenAppend(current, lead, turns[n], max, aim);
    if ws != [] {
      JoinedAppend(ws[|ws| - 1].turns, current, lead, turns, n, max, k);
    }
  }

  /** Every window ends for a reason. */
  predicate Justified(ws: seq<Window>, turns: seq<Turn>, max: nat, aim: Aim)
    requires HasCore(ws)
  {
    forall i :: 0 <= i < |ws| ==> Reason(ws[i], turns, |Cores(ws[..i + 1])|, max, aim)
  }

  lemma JustifyNext(ws: seq<Window>, current: seq<Turn>, lead: nat, tokens: nat, turns: seq<Turn>, n: nat, max: nat, k: nat, aim: Aim)
    requires Packing(ws, current, lead, tokens, turns, n, max, k) && |current| > lead
    requires Justified(ws, turns, max, aim) && Reason(Window(current, lead), turns, n, max, aim)
    ensures HasCore(ws + [Window(current, lead)]) && Justified(ws + [Window(current, lead)], turns, max, aim)
  {
    var ws' := ws + [Window(current, lead)];
    forall i | 0 <= i < |ws'| ensures Reason(ws'[i], turns, |Cores(ws'[..i + 1])|, max, aim) {
      if i < |ws| {
        assert ws'[..i + 1] == ws[..i + 1];
      } else {
        assert ws'[..i + 1] == ws' && ws'[..|ws|] == ws;
      }
    }
  }

  lemma {:induction false} SumSplit(turns: seq<Turn>, i: nat)
    requires i <= |turns|
    ensures SumTokens(turns) == SumTokens(turns[..i]) + SumTokens(turns[i..])
  {
    FlattenConcat(turns[..i], turns[i..]);
    assert turns == turns[..i] + turns[i..];
  }

  // One more window behind `ws`
  lemma AddWindow(ws: seq<Window>, w: Window)
    requires HasCore(ws) && w.overlap < |w.turns|
    ensures HasCore(ws + [w]) && Cores(ws + [w]) == Cores(ws) + Core(w)
  {
    assert (ws + [w])[..|ws|] == ws;
  }

  lemma AddChained(ws: seq<Window>, w: Window)
    requires HasCore(ws) && w.overlap < |w.turns| && Chained(ws) && HasCore(ws + [w])
    requires if ws == [] then w.overlap == 0 else IsSuffix(w.turns[..w.overlap], ws[|ws| - 1].turns)
    ensures Chained(ws + [w])
  {
    var ws' := ws + [w];
    forall i | 0 <= i < |ws'| ensures ChainedAt(ws', i) {
      if i < |ws| {
        assert ChainedAt(ws, i);
      }
    }
  }

  lemma OverlapIs(current: seq<Turn>, k: nat)
    ensures var o := Overlap(current, k);
            && |o| <= k && IsSuffix(o, current) && o[..|o|] == o && o[|o|..] == [] && SumTokens(o) <= SumTokens(current)
            && forall x :: x in o ==> x in current
  {
    var o := Overlap(current, k);
    SumSplit(current, |current| - |o|);
    assert o == current[|current| - |o|..];
  }

  lemma EmitKeeps(ws: seq<Window>, current: seq<Turn>, lead: nat, tokens: nat, turns: seq<Turn>, n: nat, max: nat, k: nat)
    requires Packing(ws, current, lead, tokens, turns, n, max, k) && |current| > lead
    ensures var o := Overlap(current, k);
            Packing(ws + [Window(current, lead)], o, |o|, SumTokens(o), turns, n, max, k)
  {
    hide HasCore, Cores, Core, Chained, ShortOverlaps, Within, Affordable, AtMost, IsSuffix, SumTokens, Overlap;
    var w, o := Window(current, lead), Overlap(current, k);
    AddWindow(ws, w);
    AddChained(ws, w);
    AddBounded(ws, w, turns, max, k);
    OverlapIs(current, k);
    CoresThen(ws, w, o, turns, n);
    LastOf(ws, w);
  }

  lemma AddBounded(ws: seq<Window>, w: Window, turns: seq<Turn>, max: nat, k: nat)
    ensures ShortOverlaps(ws, k) && w.overlap <= k ==> ShortOverlaps(ws + [w], k)
    ensures Within(ws, turns) && (forall x :: x in w.turns ==> x in turns) ==> Within(ws + [w], turns)
    ensures Affordable(ws, max) && SumTokens(w.turns) <= max ==> Affordable(ws + [w], max)
  {
    hide SumTokens;
  }

  lemma CoresThen(ws: seq<Window>, w: Window, o: seq<Turn>, turns: seq<Turn>, n: nat)
    requires HasCore(ws + [w]) && HasCore(ws) && w.overlap <= |w.turns| && n <= |turns|
    requires Cores(ws + [w]) == Cores(ws) + Core(w) && Cores(ws) + w.turns[w.overlap..] == turns[..n]
    ensures Cores(ws + [w]) + o[|o|..] == turns[..n]
  {
    hide Cores, HasCore;
    assert o[|o|..] == [];
  }

  lemma LastOf(ws: seq<Window>, w: Window)
    ensures ws + [w] != [] && (ws + [w])[|ws + [w]| - 1] == w
  {
  }

  lemma PopKeeps(ws: seq<Window>, current: seq<Turn>, lead: nat, tokens: nat, turns: seq<Turn>, n: nat, max: nat, k: nat)
    requires Packing(ws, current, lead, tokens, turns, n, max, k) && |current| == lead > 0
    ensures Packing(ws, current[1..], lead - 1, SumTokens(current[1..]), turns, n, max, k)
  {
    assert current[1..][lead - 1..] == current[lead..];
    assert current[1..][..lead - 1] == current[1..] && current[..lead] == current;
  }

  lemma AppendKeeps(ws: seq<Window>, current: seq<Turn>, lead: nat, tokens: nat, turns: seq<Turn>, n: nat, max: nat, k: nat)
    requires Packing(ws, current, lead, tokens, turns, n, max, k) && n < |turns|
    requires current == [] || tokens + turns[n].tokens <= max
    ensures Packing(ws, current + [turns[n]], lead, tokens + turns[n].tokens, turns, n + 1, max, k)
  {
    FlattenConcat(current, [turns[n]]);
    assert SumTokens([turns[n]]) == turns[n].tokens + SumTokens([]);
    assert (current + [turns[n]])[lead..] == current[lead..] + [turns[n]];
    assert (current + [turns[n]])[..lead] == current[..lead];
    assert turns[..n + 1] == turns[..n] + [turns[n]];
  }

  lemma LastKeeps(ws: seq<Window>, current: seq<Turn>, lead: nat, tokens: nat, turns: seq<Turn>, max: nat, k: nat)
    requires Packing(ws, current, lead, tokens, turns, |turns|, max, k)
    ensures Packed(if |current| > lead then ws + [Window(current, lead)] else ws, turns, max, k)
  {
    assert turns[..|turns|] == turns;
    if |current| > lead {
      EmitKeeps(ws, current, lead, tokens, turns, |turns|, max, k);
      var o, ws' := Overlap(current, k), ws + [Window(current, lead)];
      assert o[|o|..] == [] && Cores(ws') + [] == Cores(ws');
    }
  }

  // The packing state, with a reason for every window so far and none for it to have been another
  ghost predicate State(ws: seq<Window>, current: seq<Turn>, lead: nat, tokens: nat, turns: seq<Turn>, n: nat, max: nat, k: nat, aim: Aim) {
    && Packing(ws, current, lead, tokens, turns, n, max, k) && Justified(ws, turns, max, aim)
    && Tight(ws, current, lead, turns, n, max, k, aim)
  }

  lemma StateFacts(ws: seq<Window>, current: seq<Turn>, lead: nat, tokens: nat, turns: seq<Turn>, n: nat, max: nat, k: nat, aim: Aim)
    requires State(ws, current, lead, tokens, turns, n, max, k, aim)
    ensures lead <= |current| && tokens == SumTokens(current)
  {
  }

  lemma CloseWindow(ws: seq<Window>, current: seq<Turn>, lead: nat, tokens: nat, turns: seq<Turn>, n: nat, max: nat, k: nat, aim: Aim)
    requires State(ws, current, lead, tokens, turns, n, max, k, aim) && |current| > lead
    requires Reason(Window(current, lead), turns, n, max, aim)
    ensures var o := Overlap(current, k);
            State(ws + [Window(current, lead)], o, |o|, SumTokens(o), turns, n, max, k, aim)
  {
    hide Packing, Justified, Tight, Reason;
    EmitKeeps(ws, current, lead, tokens, turns, n, max, k);
    JustifyNext(ws, current, lead, tokens, turns, n, max, k, aim);
    TightClose(ws, current, lead, turns, n, max, k, aim);
  }

  /** `emit`: close the current window unless it holds nothing new, and carry its last turns over. */
  method Emit(ws: seq<Window>, current: seq<Turn>, lead: nat, tokens: nat, k: nat)
    returns (ws': seq<Window>, current': seq<Turn>, lead': nat, tokens': nat)
    ensures if |current| <= lead then ws' == ws && current' == current && lead' == lead && tokens' == tokens
            else ws' == ws + [Window(current, lead)] && current' == Overlap(current, k)
                 && lead' == |current'| && tokens' == SumTokens(current')
  {
    ws', current', lead', tokens' := ws, current, lead, tokens;
    if current == [] || |current| <= lead {
      return;
    }
    ws' := ws + [Window(current, lead)];
    current' := Overlap(current, k);
    tokens' := SumTokens(current');
    lead' := |current'|;
  }

  // Drop carried-over turns, from the front, until the next turn fits.
  method DropOverlap(ghost ws: seq<Window>, current: seq<Turn>, lead: nat, tokens: nat, turns: seq<Turn>, n: nat, max: nat,
                     ghost k: nat, ghost aim: Aim)
    returns (current': seq<Turn>, lead': nat, tokens': nat)
    requires n < |turns| && State(ws, current, lead, tokens, turns, n, max, k, aim) && |current| == lead
    ensures State(ws, current', lead', tokens', turns, n, max, k, aim) && |current'| == lead'
    ensures current' == [] || tokens' + turns[n].tokens <= max
  {
    hide State;
    current', lead', tokens' := current, lead, tokens;
    while current' != [] && tokens' + turns[n].tokens > max
      invariant State(ws, current', lead', tokens', turns, n, max, k, aim) && |current'| == lead'
      decreases |current'|
    {
      StateFacts(ws, current', lead', tokens', turns, n, max, k, aim);
      Pop(ws, current', lead', tokens', turns, n, max, k, aim);
      current' := current'[1..];
      lead' := if lead' > 1 then lead' - 1 else 0;
      tokens' := SumTokens(current');
    }
  }

  /**
  Make room for the next turn.  This ends although `Emit` may hand back the very same turns: it
  turns all of them into overlap, and overlap is dropped from then on.
   */
  method MakeRoom(ws: seq<Window>, current: seq<Turn>, lead: nat, tokens: nat, turns: seq<Turn>, n: nat, max: nat, k: nat, ghost aim: Aim)
    returns (ws': seq<Window>, current': seq<Turn>, lead': nat, tokens': nat)
    requires n < |turns| && State(ws, current, lead, tokens, turns, n, max, k, aim) && Rested(current, lead, aim)
    ensures State(ws', current', lead', tokens', turns, n, max, k, aim) && Rested(current', lead', aim)
    ensures current' == [] || tokens' + turns[n].tokens <= max
  {
    hide State, Overlap;
    ws', current', lead', tokens' := ws, current, lead, tokens;
    while current' != [] && tokens' + turns[n].tokens > max
      invariant State(ws', current', lead', tokens', turns, n, max, k, aim) && Rested(current', lead', aim)
      decreases |current'| > lead', |current'|
    {
      StateFacts(ws', current', lead', tokens', turns, n, max, k, aim);
      if |current'| > lead' {
        CloseWindow(ws', current', lead', tokens', turns, n, max, k, aim);
        ws', current', lead', tokens' := Emit(ws', current', lead', tokens', k);
      } else {
        Pop(ws', current', lead', tokens', turns, n, max, k, aim);
        current' := current'[1..];
        lead' := if lead' > 1 then lead' - 1 else 0;
        tokens' := SumTokens(current');
      }
    }
  }

  // A long window ends in front of a strong boundary.
  method CutAtBoundary(ws: seq<Window>, current: seq<Turn>, lead: nat, tokens: nat, turns: seq<Turn>, n: nat, max: nat, k: nat, aim: Aim)
    returns (ws': seq<Window>, current': seq<Turn>, lead': nat, tokens': nat)
    requires n < |turns| && State(ws, current, lead, tokens, turns, n, max, k, aim) && Rested(current, lead, aim)
    requires current == [] || tokens + turns[n].tokens <= max
    ensures State(ws', current', lead', tokens', turns, n, max, k, aim)
    ensures current' == [] || tokens' + turns[n].tokens <= max
    ensures |current'| > lead' ==> !Ends(current', turns[n], max, aim)
  {
    hide State, Overlap;
    ws', current', lead', tokens' := ws, current, lead, tokens;
    StateFacts(ws, current, lead, tokens, turns, n, max, k, aim);
    if current != [] && |current| > lead && tokens >= 4000 && aim.strong(current[|current| - 1], turns[n]) {
      CloseWindow(ws, current, lead, tokens, turns, n, max, k, aim);
      ws', current', lead', tokens' := Emit(ws, current, lead, tokens, k);
      current', lead', tokens' := DropOverlap(ws', current', lead', tokens', turns, n, max, k, aim);
    }
  }

  // A window that has reached its size ends behind the turn just appended.
  method CutAtTarget(ws: seq<Window>, current: seq<Turn>, lead: nat, tokens: nat, ghost turns: seq<Turn>, ghost n: nat, ghost max: nat, k: nat, aim: Aim)
    returns (ws': seq<Window>, current': seq<Turn>, lead': nat, tokens': nat)
    requires n <= |turns| && State(ws, current, lead, tokens, turns, n, max, k, aim)
    ensures State(ws', current', lead', tokens', turns, n, max, k, aim) && Rested(current', lead', aim)
  {
    hide State, Overlap;
    ws', current', lead', tokens' := ws, current, lead, tokens;
    StateFacts(ws, current, lead, tokens, turns, n, max, k, aim);
    if tokens >= aim.target && tokens >= 4000 {
      if |current| > lead {
        CloseWindow(ws, current, lead, tokens, turns, n, max, k, aim);
      }
      ws', current', lead', tokens' := Emit(ws, current, lead, tokens, k);
    }
  }

  /** The packing loop. */
  method PackTurns(turns: seq<Turn>, aim: Aim, max: nat, k: nat) returns (ws: seq<Window>)
    ensures Packed(ws, turns, max, k) && Justified(ws, turns, max, aim) && Settled(ws, max, k, aim)
  {
    ws := [];
    var current: seq<Turn>, lead: nat, tokens: nat := [], 0, 0;
    Begin(turns, max, k, aim);
    for n := 0 to |turns|
      invariant State(ws, current, lead, tokens, turns, n, max, k, aim) && Rested(current, lead, aim)
    {
      hide *;
      ws, current, lead, tokens := MakeRoom(ws, current, lead, tokens, turns, n, max, k, aim);
      ws, current, lead, tokens := CutAtBoundary(ws, current, lead, tokens, turns, n, max, k, aim);
      Append(ws, current, lead, tokens, turns, n, max, k, aim);
      current, tokens := current + [turns[n]], tokens + turns[n].tokens;
      ws, current, lead, tokens := CutAtTarget(ws, current, lead, tokens, turns, n + 1, max, k, aim);
    }
    StateFacts(ws, current, lead, tokens, turns, |turns|, max, k, aim);
    Finish(ws, current, lead, tokens, turns, max, k, aim);
    if current != [] && |current| > lead {
      ws := ws + [Window(current, lead)];
    }
  }

  lemma Begin(turns: seq<Turn>, max: nat, k: nat, aim: Aim)
    ensures State([], [], 0, 0, turns, 0, max, k, aim) && Rested([], 0, aim)
  {
  }

  // The last window, if there is anything left to put into it
  lemma Finish(ws: seq<Window>, current: seq<Turn>, lead: nat, tokens: nat, turns: seq<Turn>, max: nat, k: nat, aim: Aim)
    requires State(ws, current, lead, tokens, turns, |turns|, max, k, aim)
    ensures var all := if |current| > lead then ws + [Window(current, lead)] else ws;
            Packed(all, turns, max, k) && Justified(all, turns, max, aim) && Settled(all, max, k, aim)
  {
    hide Packing, Justified, Tight, Packed;
    LastKeeps(ws, current, lead, tokens, turns, max, k);
    SettledLast(ws, current, lead, turns, |turns|, max, k, aim);
    if |current| > lead {
      JustifyNext(ws, current, lead, tokens, turns, |turns|, max, k, aim);
    }
  }

  lemma SettledLast(ws: seq<Window>, current: seq<Turn>, lead: nat, turns: seq<Turn>, n: nat, max: nat, k: nat, aim: Aim)
    requires Tight(ws, current, lead, turns, n, max, k, aim)
    ensures Settled(if |current| > lead then ws + [Window(current, lead)] else ws, max, k, aim)
  {
    if |current| > lead {
      TightClose(ws, current, lead, turns, n, max, k, aim);
    }
  }

  lemma Pop(ws: seq<Window>, current: seq<Turn>, lead: nat, tokens: nat, turns: seq<Turn>, n: nat, max: nat, k: nat, aim: Aim)
    requires State(ws, current, lead, tokens, turns, n, max, k, aim) && |current| == lead > 0
    requires n < |turns| && tokens + turns[n].tokens > max
    ensures State(ws, current[1..], lead - 1, SumTokens(current[1..]), turns, n, max, k, aim)
  {
    PopKeeps(ws, current, lead, tokens, turns, n, max, k);
    assert current[..lead] == current;
    TightPop(ws, current, turns, n, max, k, aim);
  }

  lemma Append(ws: seq<Window>, current: seq<Turn>, lead: nat, tokens: nat, turns: seq<Turn>, n: nat, max: nat, k: nat, aim: Aim)
    requires State(ws, current, lead, tokens, turns, n, max, k, aim) && n < |turns|
    requires current == [] || tokens + turns[n].tokens <= max
    requires |current| > lead ==> !Ends(current, turns[n], max, aim)
    ensures State(ws, current + [turns[n]], lead, tokens + turns[n].tokens, turns, n + 1, max, k, aim)
  {
    AppendKeeps(ws, current, lead, tokens, turns, n, max, k);
    TightAppend(ws, current, lead, turns, n, max, k, aim);
  }

  /****** chunks ******/

  function Filter(xs: seq<nat>, keep: set<nat>): (r: seq<nat>)
    ensures forall x :: x in r <==> x in xs && x in keep
  {
    if xs == [] then [] else
    var x := xs[|xs| - 1];
    assert xs == xs[..|xs| - 1] + [x];
    Filter(xs[..|xs| - 1], keep) + if x in keep then [x] else []
  }

  lemma {:induction false} FilterNone(xs: seq<nat>, keep: set<nat>)
    requires forall x :: x in xs ==> x !in keep
    ensures Filter(xs, keep) == []
  {
    if xs != [] {
      FilterNone(xs[..|xs| - 1], keep);
    }
  }

  lemma {:induction false} FilterAll(xs: seq<nat>, ys: seq<nat>, keep: set<nat>)
    requires (forall x :: x in xs ==> x !in keep) && forall y :: y in ys ==> y in keep
    ensures Filter(xs + ys, keep) == ys
    decreases |ys|
  {
    if ys == [] {
      FilterNone(xs, keep);
      assert xs + ys == xs;
    } else {
      var init, y := ys[..|ys| - 1], ys[|ys| - 1];
      FilterAll(xs, init, keep);
      FilterSnoc(xs + init, y, keep);
      LastApart(xs, ys);
    }
  }

  lemma FilterSnoc(xs: seq<nat>, y: nat, keep: set<nat>)
    ensures Filter(xs + [y], keep) == Filter(xs, keep) + if y in keep then [y] else []
  {
    LastApart(xs, [y]);
    assert (xs + [y])[..|xs + [y]| - 1] == xs;
  }

  lemma LastApart<T>(xs: seq<T>, ys: seq<T>)
    requires ys != []
    ensures xs + ys[..|ys| - 1] + [ys[|ys| - 1]] == xs + ys && ys[..|ys| - 1] + [ys[|ys| - 1]] == ys
  {
  }

  lemma {:induction false} FirstOfDistinct(xs: seq<nat>)
    requires forall i, j :: 0 <= i < j < |xs| ==> xs[i] != xs[j]
    ensures FirstOnly(xs) == xs
  {
    if xs != [] {
      FirstOfDistinct(xs[..|xs| - 1]);
      assert xs == xs[..|xs| - 1] + [xs[|xs| - 1]];
    }
  }

  lemma DistinctMessages(ms: seq<Message>)
    requires DistinctSources(ms)
    ensures FirstOnly(Sources(ms)) == Sources(ms)
  {
    FirstOfDistinct(Sources(ms));
  }

  // `_chunk_from_turns`
  function ChunkFromTurns(t: Tokens, turns: seq<Turn>, overlap: nat, depth: nat, parent: Option<nat>, core: Option<set<nat>>)
    : Result<Chunk, SourceClash>
  {
    match Merge(Flatten(turns))
    case Failure(e) => Failure(e)
    case Success(ms) =>
      var all := FirstOnly(Sources(ms));
      var own := if core.Some? then Filter(all, core.value)
                 else FirstOnly(Sources(Flatten(turns[if overlap < |turns| then overlap else |turns|..])));
      Success(Chunk(ms, Cost(t, ms), all, if core.None? && own == [] then all else own, overlap, depth, parent))
  }

  function ChunkOf(t: Tokens, w: Window): Result<Chunk, SourceClash> {
    ChunkFromTurns(t, w.turns, w.overlap, 0, None, None)
  }

  /** What splitting a chunk relies on: one message per source, none without text, a core among them. */
  ghost predicate WellFormed(c: Chunk) {
    DistinctSources(c.messages) && HasText(c.messages) && (forall s :: s in c.core ==> s in SourcesOf(c.messages))
  }

  // The chunk is the window's turns merged; its sources and its core are listed in the order they first occur.
  ghost predicate Records(t: Tokens, chunk: Chunk, w: Window) {
    && w.overlap < |w.turns|
    && chunk.overlap == w.overlap && chunk.tokens == Cost(t, chunk.messages)
    && DistinctSources(chunk.messages)
    && Merge(Flatten(w.turns)) == Success(chunk.messages)
    && chunk.sources == Sources(chunk.messages) && chunk.core == FirstOnly(Sources(Flatten(Core(w))))
    && chunk.depth == 0 && chunk.parent == None
    && (forall s :: TextOf(chunk.messages, s) == TextOf(Flatten(w.turns), s))
    && (forall s :: s in chunk.core <==> s in SourcesOf(Flatten(Core(w))))
    && (HasText(Flatten(w.turns)) ==> WellFormed(chunk))
  }

  lemma SourcesIn(ms: seq<Message>)
    ensures forall s :: s in Sources(ms) <==> s in SourcesOf(ms)
  {
    forall s ensures s in Sources(ms) <==> s in SourcesOf(ms) {
      if s in Sources(ms) {
        var i :| 0 <= i < |ms| && Sources(ms)[i] == s;
        assert ms[i] in ms;
      }
      if s in SourcesOf(ms) {
        var i :| 0 <= i < |ms| && ms[i].source == s;
        assert Sources(ms)[i] == s;
      }
    }
  }

  lemma {:induction false} FlattenIn(turns: seq<Turn>, x: Turn)
    requires x in turns
    ensures forall m :: m in x.messages ==> m in Flatten(turns)
  {
    if turns[0] != x {
      FlattenIn(turns[1..], x);
    }
  }

  lemma {:induction false} FlattenFrom(turns: seq<Turn>, all: seq<Turn>)
    requires forall x :: x in turns ==> x in all
    ensures forall m :: m in Flatten(turns) ==> m in Flatten(all)
  {
    if turns != [] {
      FlattenIn(all, turns[0]);
      FlattenFrom(turns[1..], all);
    }
  }

  lemma CoreWithin(w: Window)
    requires w.overlap < |w.turns|
    ensures SourcesOf(Flatten(Core(w))) <= SourcesOf(Flatten(w.turns))
  {
    FlattenFrom(Core(w), w.turns);
  }

  /** A window becomes a chunk that records it, provided every source has one role. */
  lemma ChunkRecords(t: Tokens, w: Window)
    requires w.overlap < |w.turns| && (forall x :: x in w.turns ==> x.messages != []) && OneRole([], Flatten(w.turns))
    ensures ChunkOf(t, w).Success? && Records(t, ChunkOf(t, w).value, w)
  {
    hide *;
    var fs, own := Flatten(w.turns), Flatten(Core(w));
    MergeKeeps(fs, 0);
    CoreNotEmpty(w);
    ChunkFields(t, w, Merge(fs).value);
    forall s ensures TextOf(Merge(fs).value, s) == TextOf(fs, s) {
      MergeKeeps(fs, s);
    }
    CoreWithin(w);
    SourcesIn(own);
    RecordsIs(t, w, Merge(fs).value);
  }

  lemma CoreNotEmpty(w: Window)
    requires w.overlap < |w.turns| && forall x :: x in w.turns ==> x.messages != []
    ensures FirstOnly(Sources(Flatten(Core(w)))) != []
  {
    var own, first := Flatten(Core(w)), Core(w)[0];
    assert first in w.turns && first.messages[0] in own;
    SourcesIn(own);
    hide Sources, Flatten;
    assert first.messages[0].source in FirstOnly(Sources(own));
  }

  lemma ChunkFields(t: Tokens, w: Window, ms: seq<Message>)
    requires w.overlap < |w.turns| && Merge(Flatten(w.turns)) == Success(ms) && DistinctSources(ms)
    requires FirstOnly(Sources(Flatten(Core(w)))) != []
    ensures ChunkOf(t, w) == Success(Chunk(ms, Cost(t, ms), Sources(ms), FirstOnly(Sources(Flatten(Core(w)))), w.overlap, 0, None))
  {
    DistinctMessages(ms);
    hide Merge, Flatten, DistinctSources, Sources, FirstOnly, Cost, Filter;
  }

  lemma RecordsIs(t: Tokens, w: Window, ms: seq<Message>)
    requires w.overlap < |w.turns| && Merge(Flatten(w.turns)) == Success(ms) && DistinctSources(ms)
    requires (forall s :: TextOf(ms, s) == TextOf(Flatten(w.turns), s)) && (HasText(Flatten(w.turns)) ==> HasText(ms))
    requires SourcesOf(ms) == SourcesOf(Flatten(w.turns)) && SourcesOf(Flatten(Core(w))) <= SourcesOf(Flatten(w.turns))
    requires forall s :: s in Sources(Flatten(Core(w))) <==> s in SourcesOf(Flatten(Core(w)))
    ensures Records(t, Chunk(ms, Cost(t, ms), Sources(ms), FirstOnly(Sources(Flatten(Core(w)))), w.overlap, 0, None), w)
  {
    hide Merge, TextOf, Flatten, DistinctSources, Sources, SourcesOf, FirstOnly, Cost, HasText, Precedes, Core;
  }

  /**
  `adaptive_chunk_messages`: the cores of the chunks are all turns in order, each in exactly one
  chunk; overlaps are short and repeat the end of the chunk before; no window costs more than the
  limit when no fragment does.
   */
  method AdaptiveChunkMessages(t: Tokens, ms: seq<Message>, aim: Aim, max: nat, k: nat)
    returns (r: Result<seq<Chunk>, SourceClash>, ghost ws: seq<Window>)
    requires Lossless(t)
    ensures Packed(ws, Turns(t, ms, max), max, k) && Justified(ws, Turns(t, ms, max), max, aim) && Settled(ws, max, k, aim)
    ensures FitsAlone(t, Expand(t, ms, max - 16), max) ==> Affordable(ws, max)
    ensures OneRole([], ms) ==> r.Success?
    ensures r.Success? && OneRole([], ms) ==>
              |r.value| == |ws| && forall i :: 0 <= i < |ws| ==> Records(t, r.value[i], ws[i])
    ensures r.Success? && OneRole([], ms) && HasText(ms) ==> forall i :: 0 <= i < |r.value| ==> WellFormed(r.value[i])
  {
    hide *;
    var turns := BuildTurns(t, ms, max);
    var windows := PackTurns(turns, aim, max, k);
    ws := windows;
    CostsBounded(t, ms, windows, max, k);
    var chunks: seq<Chunk> := [];
    for n := 0 to |windows|
      invariant |chunks| == n
      invariant OneRole([], ms) ==> forall i :: 0 <= i < n ==> Records(t, chunks[i], windows[i])
      invariant OneRole([], ms) && HasText(ms) ==> forall i :: 0 <= i < n ==> WellFormed(chunks[i])
    {
      if OneRole([], ms) {
        WindowReady(t, ms, windows, n, max, k);
      }
      match ChunkOf(t, windows[n])
      case Failure(e) => return Failure(e), windows;
      case Success(chunk) => chunks := chunks + [chunk];
    }
    r := Success(chunks);
  }

  lemma CostsBounded(t: Tokens, ms: seq<Message>, ws: seq<Window>, max: nat, k: nat)
    requires Packed(ws, Turns(t, ms, max), max, k)
    ensures FitsAlone(t, Expand(t, ms, max - 16), max) ==> Affordable(ws, max)
  {
    TurnsKeep(t, ms, max);
    hide Turns, Expand, FitsAlone;
  }

  // Every window becomes a chunk that records it.
  lemma WindowReady(t: Tokens, ms: seq<Message>, ws: seq<Window>, n: nat, max: nat, k: nat)
    requires Lossless(t) && OneRole([], ms) && Packed(ws, Turns(t, ms, max), max, k) && n < |ws|
    ensures ChunkOf(t, ws[n]).Success? && Records(t, ChunkOf(t, ws[n]).value, ws[n])
    ensures HasText(ms) ==> WellFormed(ChunkOf(t, ws[n]).value)
  {
    var w, turns := ws[n], Turns(t, ms, max);
    assert w.overlap < |w.turns| && forall x :: x in w.turns ==> x in turns;
    hide Packed;
    TurnsHaveRoles(t, ms, w.turns, max);
    ChunkRecords(t, w);
  }

  lemma TurnsHaveRoles(t: Tokens, ms: seq<Message>, some: seq<Turn>, max: nat)
    requires Lossless(t) && OneRole([], ms) && forall x :: x in some ==> x in Turns(t, ms, max)
    ensures (forall x :: x in some ==> x.messages != []) && OneRole([], Flatten(some))
    ensures HasText(ms) ==> HasText(Flatten(some))
  {
    TurnsKeep(t, ms, max);
    ExpandKeeps(t, ms, max - 16, 0);
    FlattenFrom(some, Turns(t, ms, max));
    assert [] + ms == ms && [] + Flatten(some) == Flatten(some);
    hide Turns, Flatten, Expand;
  }

  /** No text is lost or doubled between the cores of the chunks. */
  lemma CoresKeepText(t: Tokens, ms: seq<Message>, ws: seq<Window>, max: nat, k: nat, s: nat)
    requires Lossless(t) && Packed(ws, Turns(t, ms, max), max, k)
    ensures TextOf(Flatten(Cores(ws)), s) == TextOf(ms, s)
  {
    TurnsKeep(t, ms, max);
    ExpandKeeps(t, ms, max - 16, s);
  }
}
