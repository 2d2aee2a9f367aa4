/** The split and the replay as the program runs them, equal to `SplitOf` and `ExpandTree`. */
module SplitLoops {
  import opened Wrappers
  import opened TextSplit
  import opened Chunking
  import opened ChunkMerge
  import opened ChunkWindows
  import opened SplitChunk
  import opened SplitChildren
  import opened SplitTree

  method AllSources(turns: seq<Turn>) returns (sources: set<nat>)
    ensures sources == SourcesOf(Flatten(turns))
  {
    sources := {};
    assert turns[..0] == [] && SourcesOf([]) == {};
    for i := 0 to |turns|
      invariant sources == SourcesOf(Flatten(turns[..i]))
    {
      PrefixStep(turns, i);
      sources := sources + TurnSources(turns[i]);
    }
    assert turns[..|turns|] == turns;
  }

  lemma {:induction false} LastQuestionFrom(t: Tokens, a: seq<Message>, b: seq<Message>, taken: set<nat>)
    ensures LastQuestion(t, a + b, taken) ==
              if LastQuestion(t, b, taken).Some? then LastQuestion(t, b, taken) else LastQuestion(t, a, taken)
    decreases |b|
  {
    if b == [] {
      assert a + b == a;
    } else {
      assert (a + b)[..|a + b| - 1] == a + b[..|b| - 1];
      LastQuestionFrom(t, a, b[..|b| - 1], taken);
    }
  }

  // From the last turn back, and in each turn from the last message back
  method FindContext(t: Tokens, left: seq<Turn>, right: seq<Turn>) returns (q: Option<Message>)
    requires NonEmptyTurns(right)
    ensures q == Context(t, left, right)
  {
    if right == [] || !right[0].messages[0].role.Assistant? {
      return None;
    }
    var taken := AllSources(right);
    var i := |left|;
    q := None;
    assert left[i..] == [];
    while i > 0 && q.None?
      invariant i <= |left| && q == LastQuestion(t, Flatten(left[i..]), taken)
    {
      i := i - 1;
      assert left[i..][0] == left[i] && left[i..][1..] == left[i + 1..];
      LastQuestionFrom(t, left[i].messages, Flatten(left[i + 1..]), taken);
      q := LastQuestion(t, left[i].messages, taken);
    }
    assert left[..i] + left[i..] == left;
    FlattenConcat(left[..i], left[i..]);
    LastQuestionFrom(t, Flatten(left[..i]), Flatten(left[i..]), taken);
    if i == 0 {
      assert left[..i] == [];
    }
  }

  method CountLeading(turns: seq<Turn>, core: set<nat>) returns (n: nat)
    ensures n == Leading(turns, core)
  {
    n := 0;
    while n < |turns|
      invariant n <= |turns| && n + Leading(turns[n..], core) == Leading(turns, core)
    {
      assert turns[n..][0] == turns[n] && turns[n..][1..] == turns[n + 1..];
      TurnSourcesOf(turns[n]);
      if TurnSources(turns[n]) * core != {} {
        return;
      }
      n := n + 1;
    }
  }

  method MakeChild(t: Tokens, c: Chunk, key: Key, q: Option<Message>, turns: seq<Turn>) returns (r: Result<Chunk, SourceClash>)
    ensures r == Child(t, c, key, q, turns)
  {
    var group := turns;
    var context := {};
    if q.Some? {
      group := [Turn([q.value], MessageCost(t, q.value))] + turns;
      context := {q.value.source};
    }
    var sources := AllSources(group);
    var core := (sources - context) * (set s | s in c.core);
    var leading := CountLeading(group, core);
    r := ChunkFromTurns(t, group, leading, c.depth + 1, Some(key), Some(core));
  }

  method SplitMessageChunk(t: Tokens, c: Chunk, key: Key) returns (r: Split)
    ensures NonEmptyTurns(SplitTurns(t, c)) && r == SplitOf(t, c, key)
  {
    var core := Keep(c.messages, c.core);
    var turns := BuildTurns(t, core, Max(1000, Min(3000, Max(1, c.tokens / 2))));
    if |turns| < 2 {
      var pieces := ExpandMessages(t, core, Max(500, c.tokens / 2));
      turns := Singles(t, pieces);
    }
    SplitTurnsNonEmpty(t, c);
    assert turns == SplitTurns(t, c);
    hide SplitTurns, Child, Context, BestCut;
    if |turns| < 2 {
      return NoSplit;
    }
    var cut := FindCut(turns);
    var q := FindContext(t, turns[..cut], turns[cut..]);
    var left := MakeChild(t, c, key, None, turns[..cut]);
    var right := MakeChild(t, c, key, q, turns[cut..]);
    if left.Failure? || right.Failure? {
      return Clash;
    }
    r := Children(left.value, right.value);
  }

  /** The recursion of the replay; `superseded` is the shared set of leaf keys it adds to. */
  method ExpandChunk(t: Tokens, hash: Hash, statuses: map<Key, Status>, c: Chunk, ancestors: set<Key>, inherited: bool,
                     superseded: set<Key>)
    returns (r: Result<seq<Chunk>, ExpandError>, superseded': set<Key>)
    ensures match ExpandTree(t, hash, statuses, c, ancestors, inherited)
            case Success(l) => r == Success(l.chunks) && superseded' == superseded + l.superseded
            case Failure(e) => r == Failure(e)
    decreases |SplitKeys(statuses) - ancestors|
  {
    superseded' := superseded;
    ExpandEnds(t, hash, statuses, c, ancestors, inherited);
    hide ExpandTree, SplitOf, SplitTurns, NonEmptyTurns, SplitKeys;
    var key := KeyOf(hash, c);
    var below := inherited || (key in statuses && statuses[key].SupersededSplit?);
    if key !in SplitKeys(statuses) {
      if below && !(key in statuses && statuses[key].WasSucceeded?) {
        superseded' := superseded' + {key};
      }
      return Success([c]), superseded';
    }
    if key in ancestors {
      return Failure(Cycle), superseded';
    }
    var split := SplitMessageChunk(t, c, key);
    if !split.Children? {
      return Failure(NotDeterministic), superseded';
    }
    ExpandBelow(t, hash, statuses, c, ancestors, inherited, split.left, split.right);
    Fewer(SplitKeys(statuses), ancestors, key);
    var left, right;
    left, superseded' := ExpandChunk(t, hash, statuses, split.left, ancestors + {key}, below, superseded');
    if left.Failure? {
      return left, superseded';
    }
    right, superseded' := ExpandChunk(t, hash, statuses, split.right, ancestors + {key}, below, superseded');
    if right.Failure? {
      return right, superseded';
    }
    r := Success(left.value + right.value);
  }
}
