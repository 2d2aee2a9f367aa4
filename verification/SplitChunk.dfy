/** The emergency split of one chunk into two children: which cut is taken and what it keeps. */
module SplitChunk {
  import opened Wrappers
  import opened TextSplit
  import opened Chunking
  import opened ChunkMerge
  import opened ChunkWindows

  function Max(a: nat, b: nat): nat { if a < b then b else a }

  function Min(a: nat, b: nat): nat { if a < b then a else b }

  function Keep(ms: seq<Message>, core: seq<nat>): seq<Message> {
    if ms == [] then [] else (if ms[0].source in core then [ms[0]] else []) + Keep(ms[1..], core)
  }

  function CoreMessages(c: Chunk): seq<Message> {
    Keep(c.messages, c.core)
  }

  // The last resort: every piece of a message is a turn of its own.
  function Singles(t: Tokens, ms: seq<Message>): seq<Turn> {
    if ms == [] then [] else [Turn([ms[0]], MessageCost(t, ms[0]))] + Singles(t, ms[1..])
  }

  /** The turns a chunk is cut between: of its core messages only, and small enough that there should be several. */
  function SplitTurns(t: Tokens, c: Chunk): seq<Turn> {
    var turns := Turns(t, CoreMessages(c), Max(1000, Min(3000, Max(1, c.tokens / 2))));
    if |turns| >= 2 then turns else Singles(t, Expand(t, CoreMessages(c), Max(500, c.tokens / 2)))
  }

  /****** the cut ******/

  predicate NonEmptyTurns(turns: seq<Turn>) {
    forall i :: 0 <= i < |turns| ==> turns[i].messages != []
  }

  // The cut in front of turn `i` separates a question from its answer.
  predicate SplitsAnswer(turns: seq<Turn>, i: nat)
    requires 0 < i < |turns| && NonEmptyTurns(turns)
  {
    turns[i - 1].messages[|turns[i - 1].messages| - 1].role.User? && turns[i].messages[0].role.Assistant?
  }

  // Messages with fragments on both sides of the cut
  ghost function Shared(turns: seq<Turn>, i: nat): set<nat>
    requires i <= |turns|
  {
    SourcesOf(Flatten(turns[..i])) * SourcesOf(Flatten(turns[i..]))
  }

  function CountShared(a: set<nat>, b: set<nat>): nat { |a * b| }

  function Abs(x: int): nat { if x < 0 then -x else x }

  datatype Penalty = Penalty(splitsAnswer: nat, shared: nat, imbalance: nat, index: nat)

  // The tuple order
  predicate Less(a: Penalty, b: Penalty) {
    if a.splitsAnswer != b.splitsAnswer then a.splitsAnswer < b.splitsAnswer
    else if a.shared != b.shared then a.shared < b.shared
    else if a.imbalance != b.imbalance then a.imbalance < b.imbalance
    else a.index < b.index
  }

  // The distance from the middle is counted in halves to stay with integers.
  ghost function PenaltyOf(turns: seq<Turn>, i: nat): Penalty
    requires 0 < i < |turns| && NonEmptyTurns(turns)
  {
    Penalty(if SplitsAnswer(turns, i) then 1 else 0, CountShared(SourcesOf(Flatten(turns[..i])), SourcesOf(Flatten(turns[i..]))),
            Abs(2 * SumTokens(turns[..i]) - SumTokens(turns)), i)
  }

  ghost function BestUpTo(turns: seq<Turn>, i: nat): (best: nat)
    requires 0 < i < |turns| && NonEmptyTurns(turns)
    ensures 0 < best <= i
  {
    if i == 1 then 1 else
    var b := BestUpTo(turns, i - 1);
    if Less(PenaltyOf(turns, i), PenaltyOf(turns, b)) then i else b
  }

  ghost function BestCut(turns: seq<Turn>): (best: nat)
    requires |turns| >= 2 && NonEmptyTurns(turns)
    ensures 0 < best < |turns|
  {
    BestUpTo(turns, |turns| - 1)
  }

  lemma LessChain(a: Penalty, b: Penalty, c: Penalty)
    ensures Less(a, b) && Less(b, c) ==> Less(a, c)
    ensures a.index != b.index ==> Less(a, b) || Less(b, a)
  {
  }

  lemma PenaltyIndex(turns: seq<Turn>, i: nat)
    requires 0 < i < |turns| && NonEmptyTurns(turns)
    ensures PenaltyOf(turns, i).index == i
  {
  }

  lemma {:induction false} BestIsLeast(turns: seq<Turn>, i: nat, j: nat)
    requires 0 < i < |turns| && NonEmptyTurns(turns) && 0 < j <= i && j != BestUpTo(turns, i)
    ensures Less(PenaltyOf(turns, BestUpTo(turns, i)), PenaltyOf(turns, j))
  {
    hide *;
    BestStep(turns, i);
    if i > 1 {
      var before := BestUpTo(turns, i - 1);
      var p, b := PenaltyOf(turns, i), PenaltyOf(turns, before);
      PenaltyIndex(turns, i);
      PenaltyIndex(turns, before);
      LessChain(p, b, PenaltyOf(turns, j));
      if j < i && j != before {
        BestIsLeast(turns, i - 1, j);
      }
    }
  }

  /**
  The cut is the least over all cuts; so whenever some cut neither separates a question from its
  answer nor divides a message, the chosen one does neither.
   */
  lemma CutIsLeast(turns: seq<Turn>, j: nat)
    requires |turns| >= 2 && NonEmptyTurns(turns) && 0 < j < |turns|
    ensures j == BestCut(turns) || Less(PenaltyOf(turns, BestCut(turns)), PenaltyOf(turns, j))
    ensures !SplitsAnswer(turns, j) && Shared(turns, j) == {} ==>
              !SplitsAnswer(turns, BestCut(turns)) && Shared(turns, BestCut(turns)) == {}
  {
    var best := BestCut(turns);
    if j != best {
      BestIsLeast(turns, |turns| - 1, j);
      hide *;
      PenaltyParts(turns, j);
      PenaltyParts(turns, best);
      LessParts(PenaltyOf(turns, best), PenaltyOf(turns, j));
    }
  }

  /**
  What is least, and in which order: no cut separates an answer unless every one does; among the rest none
  divides fewer messages; among those none is more even; and of equally even ones it is the first.
   */
  lemma CutIsMostEven(turns: seq<Turn>, j: nat)
    requires |turns| >= 2 && NonEmptyTurns(turns) && 0 < j < |turns|
    ensures var k := BestCut(turns);
            var separatesK := turns[k - 1].messages[|turns[k - 1].messages| - 1].role.User? && turns[k].messages[0].role.Assistant?;
            var separatesJ := turns[j - 1].messages[|turns[j - 1].messages| - 1].role.User? && turns[j].messages[0].role.Assistant?;
            var dividedK := SourcesOf(Flatten(turns[..k])) * SourcesOf(Flatten(turns[k..]));
            var dividedJ := SourcesOf(Flatten(turns[..j])) * SourcesOf(Flatten(turns[j..]));
            var unevenK := Abs(SumTokens(turns[..k]) - SumTokens(turns[k..]));
            var unevenJ := Abs(SumTokens(turns[..j]) - SumTokens(turns[j..]));
            && (separatesK ==> separatesJ)
            && (separatesK == separatesJ ==> |dividedK| <= |dividedJ|)
            && (separatesK == separatesJ && |dividedK| == |dividedJ| ==> unevenK <= unevenJ)
            && (separatesK == separatesJ && |dividedK| == |dividedJ| && unevenK == unevenJ ==> k <= j)
  {
    hide *;
    var k := BestCut(turns);
    PenaltyIs(turns, k);
    PenaltyIs(turns, j);
    if j != k {
      CutIsLeast(turns, j);
      LessMeans(PenaltyOf(turns, k), PenaltyOf(turns, j));
    }
  }

  lemma LessMeans(a: Penalty, b: Penalty)
    requires Less(a, b)
    ensures a.splitsAnswer <= b.splitsAnswer
    ensures a.splitsAnswer == b.splitsAnswer ==> a.shared <= b.shared
    ensures a.splitsAnswer == b.splitsAnswer && a.shared == b.shared ==> a.imbalance <= b.imbalance
    ensures a.splitsAnswer == b.splitsAnswer && a.shared == b.shared && a.imbalance == b.imbalance ==> a.index < b.index
  {
  }

  lemma PenaltyIs(turns: seq<Turn>, i: nat)
    requires 0 < i < |turns| && NonEmptyTurns(turns)
    ensures var p := PenaltyOf(turns, i);
            && p.splitsAnswer == (if turns[i - 1].messages[|turns[i - 1].messages| - 1].role.User? && turns[i].messages[0].role.Assistant? then 1 else 0)
            && p.shared == |SourcesOf(Flatten(turns[..i])) * SourcesOf(Flatten(turns[i..]))|
            && p.imbalance == Abs(SumTokens(turns[..i]) - SumTokens(turns[i..])) && p.index == i
  {
    assert turns[..i] + turns[i..] == turns;
    FlattenConcat(turns[..i], turns[i..]);
    hide SourcesOf, Flatten;
  }

  lemma PenaltyParts(turns: seq<Turn>, i: nat)
    requires 0 < i < |turns| && NonEmptyTurns(turns)
    ensures PenaltyOf(turns, i).splitsAnswer == 0 <==> !SplitsAnswer(turns, i)
    ensures PenaltyOf(turns, i).shared == 0 <==> Shared(turns, i) == {}
  {
    hide SplitsAnswer, SumTokens, SourcesOf, Flatten;
  }

  lemma LessParts(a: Penalty, b: Penalty)
    ensures Less(a, b) && b.splitsAnswer == 0 && b.shared == 0 ==> a.splitsAnswer == 0 && a.shared == 0
  {
  }

  function TurnSources(turn: Turn): set<nat> {
    set i | 0 <= i < |turn.messages| :: turn.messages[i].source
  }

  lemma {:induction false} SourcesConcat(a: seq<Message>, b: seq<Message>)
    ensures SourcesOf(a + b) == SourcesOf(a) + SourcesOf(b)
  {
    assert forall m :: m in a + b <==> m in a || m in b;
  }

  lemma SuffixStep(turns: seq<Turn>, i: nat)
    requires i < |turns|
    ensures SourcesOf(Flatten(turns[i..])) == TurnSources(turns[i]) + SourcesOf(Flatten(turns[i + 1..]))
  {
    assert turns[i..][0] == turns[i] && turns[i..][1..] == turns[i + 1..];
    SourcesConcat(turns[i].messages, Flatten(turns[i + 1..]));
    TurnSourcesOf(turns[i]);
  }

  // The sets behind every cut, filled from the back
  method SuffixSources(turns: seq<Turn>) returns (r: seq<set<nat>>)
    ensures |r| == |turns| + 1 && forall i :: 0 <= i <= |turns| ==> r[i] == SourcesOf(Flatten(turns[i..]))
  {
    var suffix := new set<nat>[|turns| + 1](_ => {});
    var i := |turns|;
    assert turns[i..] == [] && SourcesOf([]) == {};
    while i > 0
      invariant i <= |turns|
      invariant forall j :: i <= j <= |turns| ==> suffix[j] == SourcesOf(Flatten(turns[j..]))
    {
      i := i - 1;
      SuffixStep(turns, i);
      suffix[i] := suffix[i + 1] + TurnSources(turns[i]);
      hide *;
    }
    r := suffix[..];
  }

  lemma TurnSourcesOf(turn: Turn)
    ensures TurnSources(turn) == SourcesOf(turn.messages)
  {
    forall s | s in SourcesOf(turn.messages) ensures s in TurnSources(turn) {
      var m :| m in turn.messages && m.source == s;
      var i :| 0 <= i < |turn.messages| && turn.messages[i] == m;
    }
  }

  lemma PrefixStep(turns: seq<Turn>, i: nat)
    requires i < |turns|
    ensures SumTokens(turns[..i + 1]) == SumTokens(turns[..i]) + turns[i].tokens
    ensures SourcesOf(Flatten(turns[..i + 1])) == SourcesOf(Flatten(turns[..i])) + TurnSources(turns[i])
  {
    assert turns[..i + 1] == turns[..i] + [turns[i]];
    FlattenConcat(turns[..i], [turns[i]]);
    assert Flatten([turns[i]]) == turns[i].messages + Flatten([]);
    assert SumTokens([turns[i]]) == turns[i].tokens + SumTokens([]);
    SourcesConcat(Flatten(turns[..i]), turns[i].messages);
    TurnSourcesOf(turns[i]);
  }

  /**
  The candidate loop with its running total and running set, followed by the minimum.  Every cut
  is a candidate: turns have messages, so neither side is ever without sources.
   */
  method FindCut(turns: seq<Turn>) returns (cut: nat)
    requires |turns| >= 2 && NonEmptyTurns(turns)
    ensures cut == BestCut(turns)
  {
    hide *;
    var suffix := SuffixSources(turns);
    var total := SumTokens(turns);
    var running: nat, prefix: set<nat>, least: Option<Penalty> := 0, {}, None;
    cut := 1;
    ScanStart(turns);
    for i := 1 to |turns|
      invariant Scanned(turns, i, running, prefix, cut, least)
    {
      ScanStep(turns, i, running, prefix, cut, least, total, suffix[i]);
      running := running + turns[i - 1].tokens;
      prefix := prefix + TurnSources(turns[i - 1]);
      var next := Candidate(turns, i, running, total, prefix, suffix[i]);
      if least.None? || Less(next, least.value) {
        cut, least := i, Some(next);
      }
    }
    ScanEnd(turns, running, prefix, cut, least);
  }

  // In front of cut `i` the totals are those of turns[..i - 1], and `cut` is the best so far.
  ghost predicate Scanned(turns: seq<Turn>, i: nat, running: nat, prefix: set<nat>, cut: nat, least: Option<Penalty>) {
    && 1 <= i <= |turns| && NonEmptyTurns(turns)
    && running == SumTokens(turns[..i - 1]) && prefix == SourcesOf(Flatten(turns[..i - 1]))
    && (if i == 1 then least == None && cut == 1
        else 0 < cut < i && cut == BestUpTo(turns, i - 1) && least == Some(PenaltyOf(turns, cut)))
  }

  lemma ScanStart(turns: seq<Turn>)
    requires |turns| >= 2 && NonEmptyTurns(turns)
    ensures Scanned(turns, 1, 0, {}, 1, None)
  {
    assert turns[..0] == [] && SourcesOf([]) == {};
  }

  lemma ScanEnd(turns: seq<Turn>, running: nat, prefix: set<nat>, cut: nat, least: Option<Penalty>)
    requires |turns| >= 2 && NonEmptyTurns(turns) && Scanned(turns, |turns|, running, prefix, cut, least)
    ensures cut == BestCut(turns)
  {
    hide SumTokens, SourcesOf, Flatten, PenaltyOf, BestUpTo;
  }

  lemma ScanStep(turns: seq<Turn>, i: nat, running: nat, prefix: set<nat>, cut: nat, least: Option<Penalty>, total: nat, suffix: set<nat>)
    requires i < |turns| && Scanned(turns, i, running, prefix, cut, least)
    requires NonEmptyTurns(turns) && total == SumTokens(turns) && suffix == SourcesOf(Flatten(turns[i..]))
    ensures 0 < i
    ensures var running', prefix' := running + turns[i - 1].tokens, prefix + TurnSources(turns[i - 1]);
            var next := Candidate(turns, i, running', total, prefix', suffix);
            if least.None? || Less(next, least.value) then Scanned(turns, i + 1, running', prefix', i, Some(next))
            else Scanned(turns, i + 1, running', prefix', cut, least)
  {
    hide SumTokens, SourcesOf, Flatten, TurnSources, NonEmptyTurns, Candidate, PenaltyOf, Less, BestUpTo, CountShared, Shared, BestCut;
    PrefixStep(turns, i - 1);
    CandidateIs(turns, i, running + turns[i - 1].tokens, total, prefix + TurnSources(turns[i - 1]), suffix);
    BestStep(turns, i);
  }

  function Candidate(turns: seq<Turn>, i: nat, running: nat, total: nat, prefix: set<nat>, suffix: set<nat>): Penalty
    requires 0 < i < |turns| && NonEmptyTurns(turns)
  {
    Penalty(if SplitsAnswer(turns, i) then 1 else 0, CountShared(prefix, suffix), Abs(2 * running - total), i)
  }

  lemma BestStep(turns: seq<Turn>, i: nat)
    requires 0 < i < |turns| && NonEmptyTurns(turns)
    ensures BestUpTo(turns, i) ==
              if i > 1 && !Less(PenaltyOf(turns, i), PenaltyOf(turns, BestUpTo(turns, i - 1))) then BestUpTo(turns, i - 1) else i
  {
  }

  lemma CandidateIs(turns: seq<Turn>, i: nat, running: nat, total: nat, prefix: set<nat>, suffix: set<nat>)
    requires 0 < i < |turns| && NonEmptyTurns(turns)
    requires running == SumTokens(turns[..i]) && total == SumTokens(turns)
    requires prefix == SourcesOf(Flatten(turns[..i])) && suffix == SourcesOf(Flatten(turns[i..]))
    ensures Candidate(turns, i, running, total, prefix, suffix) == PenaltyOf(turns, i)
  {
  }
}
