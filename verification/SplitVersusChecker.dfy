/**
The splitter beside the checker: which of the pair checks a freshly split chunk always passes, and
the exact conditions under which it passes the others.
 */
module SplitVersusChecker {
  import opened Wrappers
  import opened TextSplit
  import opened Chunking
  import opened ChunkMerge
  import opened ChunkWindows
  import opened SplitChunk
  import opened SplitChildren
  import CC = ConsistencyChecker
  import opened ConsistencyChecker

  function Entries(xs: seq<nat>): seq<Entry> {
    if xs == [] then [] else Entries(xs[..|xs| - 1]) + [Index(xs[|xs| - 1])]
  }

  /** The row kept for a chunk; what the pair checks do not look at is left blank. */
  function RowFor(c: Chunk, key: Key, parent: Option<Key>, split: bool, index: nat, path: nat): Row {
    Row(key, parent, split, c.depth, 0, false, Some(Entries(FirstOnly(Sources(c.messages)))), Some(Entries(c.core)),
        (None, None), (None, None), index, 2, path)
  }

  /** A split parent with its two children. */
  function Family(c: Chunk, left: Chunk, right: Chunk, key: Key, a: Key, b: Key, path: nat): seq<Row> {
    [RowFor(c, key, None, true, 0, path), RowFor(left, a, Some(key), false, 0, path), RowFor(right, b, Some(key), false, 1, path)]
  }

  lemma {:induction false} EntriesAre(xs: seq<nat>)
    ensures Values(Entries(xs)) == xs
  {
    if xs != [] {
      EntriesAre(xs[..|xs| - 1]);
      assert Entries(xs)[..|Entries(xs)| - 1] == Entries(xs[..|xs| - 1]);
    }
  }

  function CoreSet(c: Chunk): set<nat> {
    set s | s in c.core
  }

  lemma RowSets(c: Chunk, key: Key, parent: Option<Key>, split: bool, index: nat, path: nat)
    ensures var r := RowFor(c, key, parent, split, index, path);
            Indices(r.sources) == SourcesOf(c.messages) && Indices(r.core) == CoreSet(c)
  {
    EntriesAre(FirstOnly(Sources(c.messages)));
    EntriesAre(c.core);
    SourcesIn(c.messages);
  }

  lemma FamilyPair(c: Chunk, left: Chunk, right: Chunk, key: Key, a: Key, b: Key, path: nat)
    requires key != 0 && a != 0 && b != 0 && key != a && key != b && a != b
    ensures var rows := Family(c, left, right, key, a, b, path);
            && IsPair(rows, 0) && First(rows, 0) == 1 && Second(rows, 0) == 2
            && (forall i :: 0 <= i < 3 ==> HasRow(rows, rows[i].key) && RowOf(rows, rows[i].key) == i)
  {
    ThreeRows(Family(c, left, right, key, a, b, path), key, a, b);
  }

  lemma ThreeRows(rows: seq<Row>, key: Key, a: Key, b: Key)
    requires |rows| == 3 && rows[0].key == key && rows[1].key == a && rows[2].key == b && rows[0].split
    requires rows[0].parent == None && rows[1].parent == rows[2].parent == Some(key)
    requires key != 0 && a != 0 && b != 0 && key != a && key != b && a != b
    ensures IsPair(rows, 0) && First(rows, 0) == 1 && Second(rows, 0) == 2
    ensures forall i :: 0 <= i < 3 ==> HasRow(rows, rows[i].key) && RowOf(rows, rows[i].key) == i
  {
    var two, one := rows[..2], rows[..1];
    assert two[..1] == one && one[..0] == [];
    assert CC.Children(one, key) == [];
    assert CC.Children(two, key) == [1];
    assert CC.Children(rows, key) == [1, 2];
  }

  // The sources of the children are their cores, and for the right one its context.
  lemma ChildSources(t: Tokens, child: Chunk, q: Option<Message>, fs: seq<Message>)
    requires MadeOf(t, child, q, fs) && OneRole([], fs)
    ensures SourcesOf(child.messages) == SourcesOf(Front(q)) + SourcesOf(fs)
    ensures CoreSet(child) == SourcesOf(fs)
  {
    MergeKeeps(fs, 0);
    SourcesConcat(Front(q), Merge(fs).value);
  }

  /**
  Coverage of the core, and staying within the parent, always pass.  Core indices are doubled exactly
  when the chosen cut divides a message; sources are lost exactly when the parent had overlap, which a
  split drops; and sources overlap on the core exactly when a message is divided or a question is
  repeated as context.
   */
  lemma SplitPassesChecker(t: Tokens, c: Chunk, k: nat, key: Key, a: Key, b: Key, path: nat)
    requires Lossless(t) && WellFormed(c) && |SplitTurns(t, c)| >= 2
    requires key != 0 && a != 0 && b != 0 && key != a && key != b && a != b
    ensures NonEmptyTurns(SplitTurns(t, c)) && SplitOf(t, c, k).Children?
    ensures var turns, r := SplitTurns(t, c), SplitOf(t, c, k);
            var cut, rows := BestCut(turns), Family(c, r.left, r.right, key, a, b, path);
            && !CoreNotCovered(rows)(0) && !CoreOutsideParent(rows)(0) && !SourceOutsideParent(rows)(0)
            && !WrongChildPosition(rows)(0) && !WrongPath(rows)(0)
            && (CoreTwice(rows)(0) <==> Shared(turns, cut) != {})
            && (SourceNotCovered(rows)(0) <==> exists s :: s in SourcesOf(c.messages) && s !in c.core)
            && (OverlapOnCore(rows)(0) <==> Shared(turns, cut) != {} || Context(t, turns[..cut], turns[cut..]).Some?)
  {
    SplitIsCut(t, c, k);
    var turns, r := SplitTurns(t, c), SplitOf(t, c, k);
    var cut, rows := BestCut(turns), Family(c, r.left, r.right, key, a, b, path);
    var q, left, right := Context(t, turns[..cut], turns[cut..]), Flatten(turns[..cut]), Flatten(turns[cut..]);
    SplitMadeOf(t, c, k, q, left, right);
    hide *;
    ContextSources(q, left, right);
    FamilyRows(t, c, r.left, r.right, q, left, right, key, a, b, path);
    CoreIs(c, left, right);
    FamilySets(rows, SourcesOf(c.messages), CoreSet(c), SourcesOf(left), SourcesOf(Front(q)), SourcesOf(right));
    PositionsFine(c, r.left, r.right, key, a, b, path);
  }

  // What the two children are made of, and how the halves relate to the core
  lemma SplitMadeOf(t: Tokens, c: Chunk, k: nat, q: Option<Message>, left: seq<Message>, right: seq<Message>)
    requires Lossless(t) && WellFormed(c) && |SplitTurns(t, c)| >= 2 && NonEmptyTurns(SplitTurns(t, c))
    requires SplitOf(t, c, k).Children?
    requires var turns, r := SplitTurns(t, c), SplitOf(t, c, k);
             var cut := BestCut(turns);
             && q == Context(t, turns[..cut], turns[cut..]) && CutFrom(t, c, r.left, r.right, q)
             && left == Flatten(turns[..cut]) && right == Flatten(turns[cut..])
    ensures var turns, r := SplitTurns(t, c), SplitOf(t, c, k);
            && MadeOf(t, r.left, None, left) && MadeOf(t, r.right, q, right) && OneRole([], left) && OneRole([], right)
            && Shared(turns, BestCut(turns)) == SourcesOf(left) * SourcesOf(right)
            && (forall s :: s in c.core <==> s in SourcesOf(left) + SourcesOf(right))
            && (forall s :: s in c.core ==> s in SourcesOf(c.messages))
            && (q.Some? ==> q.value in left && q.value.source !in SourcesOf(right))
  {
    var turns := SplitTurns(t, c);
    var cut := BestCut(turns);
    HalvesOf(t, c, cut);
    ContextIsOutside(t, turns[..cut], turns[cut..]);
  }

  lemma CoreIs(c: Chunk, left: seq<Message>, right: seq<Message>)
    requires forall s :: s in c.core <==> s in SourcesOf(left) + SourcesOf(right)
    requires forall s :: s in c.core ==> s in SourcesOf(c.messages)
    ensures var core := CoreSet(c);
            && core == SourcesOf(left) + SourcesOf(right) && core <= SourcesOf(c.messages)
            && (SourcesOf(c.messages) != core <==> exists s :: s in SourcesOf(c.messages) && s !in c.core)
  {
    var core := CoreSet(c);
    if forall s :: s in SourcesOf(c.messages) ==> s in c.core {
      assert SourcesOf(c.messages) == core;
    }
  }

  // The index sets in the rows of a parent and its two children
  lemma FamilyRows(t: Tokens, c: Chunk, l: Chunk, r: Chunk, q: Option<Message>, left: seq<Message>, right: seq<Message>,
                   key: Key, a: Key, b: Key, path: nat)
    requires MadeOf(t, l, None, left) && MadeOf(t, r, q, right) && OneRole([], left) && OneRole([], right)
    requires key != 0 && a != 0 && b != 0 && key != a && key != b && a != b
    ensures var rows := Family(c, l, r, key, a, b, path);
            && |rows| == 3 && IsPair(rows, 0) && First(rows, 0) == 1 && Second(rows, 0) == 2
            && (forall i :: 0 <= i < 3 ==> HasRow(rows, rows[i].key) && RowOf(rows, rows[i].key) == i)
            && Indices(rows[0].sources) == SourcesOf(c.messages) && Indices(rows[0].core) == CoreSet(c)
            && Indices(rows[1].sources) == SourcesOf(left) && Indices(rows[1].core) == SourcesOf(left)
            && Indices(rows[2].sources) == SourcesOf(Front(q)) + SourcesOf(right) && Indices(rows[2].core) == SourcesOf(right)
  {
    var rows := Family(c, l, r, key, a, b, path);
    assert rows == [RowFor(c, key, None, true, 0, path), RowFor(l, a, Some(key), false, 0, path), RowFor(r, b, Some(key), false, 1, path)];
    assert SourcesOf(Front(None)) + SourcesOf(left) == SourcesOf(left);
    hide *;
    FamilyPair(c, l, r, key, a, b, path);
    RowSets(c, key, None, true, 0, path);
    ChildRow(t, l, None, left, a, key, 0, path);
    ChildRow(t, r, q, right, b, key, 1, path);
  }

  lemma ChildRow(t: Tokens, child: Chunk, q: Option<Message>, fs: seq<Message>, key: Key, parent: Key, index: nat, path: nat)
    requires MadeOf(t, child, q, fs) && OneRole([], fs)
    ensures var row := RowFor(child, key, Some(parent), false, index, path);
            Indices(row.sources) == SourcesOf(Front(q)) + SourcesOf(fs) && Indices(row.core) == SourcesOf(fs)
  {
    ChildSources(t, child, q, fs);
    RowSets(child, key, Some(parent), false, index, path);
  }

  lemma ContextSources(q: Option<Message>, left: seq<Message>, right: seq<Message>)
    requires q.Some? ==> q.value in left && q.value.source !in SourcesOf(right)
    ensures SourcesOf(Front(q)) <= SourcesOf(left) && SourcesOf(Front(q)) * SourcesOf(right) == {}
    ensures q.Some? <==> SourcesOf(Front(q)) != {}
  {
    if q.Some? {
      assert q.value in Front(q) && q.value.source in SourcesOf(Front(q));
    }
  }

  lemma PositionsFine(c: Chunk, left: Chunk, right: Chunk, key: Key, a: Key, b: Key, path: nat)
    requires key != 0 && a != 0 && b != 0 && key != a && key != b && a != b
    ensures var rows := Family(c, left, right, key, a, b, path); !WrongChildPosition(rows)(0) && !WrongPath(rows)(0)
  {
    FamilyPair(c, left, right, key, a, b, path);
    hide IsPair, First, Second, RowOf, HasRow, CC.Children;
  }

  // The checks on sets: `whole` and `core` of the parent, `l`, and `r` with context `x` of the children
  lemma FamilySets(rows: seq<Row>, whole: set<int>, core: set<int>, l: set<int>, x: set<int>, r: set<int>)
    requires |rows| == 3 && IsPair(rows, 0) && First(rows, 0) == 1 && Second(rows, 0) == 2
    requires forall i :: 0 <= i < 3 ==> HasRow(rows, rows[i].key) && RowOf(rows, rows[i].key) == i
    requires Indices(rows[0].sources) == whole && Indices(rows[0].core) == core
    requires Indices(rows[1].sources) == l && Indices(rows[1].core) == l
    requires Indices(rows[2].sources) == x + r && Indices(rows[2].core) == r
    requires core == l + r && core <= whole && x <= l && x * r == {}
    ensures !CoreNotCovered(rows)(0) && !CoreOutsideParent(rows)(0) && !SourceOutsideParent(rows)(0)
    ensures CoreTwice(rows)(0) <==> l * r != {}
    ensures SourceNotCovered(rows)(0) <==> whole != core
    ensures OverlapOnCore(rows)(0) <==> l * r != {} || x != {}
  {
    assert CoreAt(rows, 0) == core && CoreAt(rows, 1) == l && CoreAt(rows, 2) == r;
    assert SourcesAt(rows, 0) == whole && SourcesAt(rows, 1) == l && SourcesAt(rows, 2) == x + r;
    hide Indices, First, Second, RowOf, IsPair, CC.Children, SourcesAt, CoreAt;
    assert l * (x + r) * core == l * r + x;
    assert l + (x + r) == core;
    EitherEmpty(l * r, x);
  }

  lemma EitherEmpty(a: set<int>, b: set<int>)
    ensures a + b != {} <==> a != {} || b != {}
  {
    if a + b == {} {
      assert a <= a + b && b <= a + b;
    }
  }

  /****** an example ******/

  // Two questions behind one message of overlap
  const OVERLAPPING: Chunk :=
    Chunk([Message(User, "a", 0, 1, 0), Message(User, "b", 0, 2, 0), Message(User, "c", 0, 3, 0)], 21, [1, 2, 3], [2, 3], 1, 0, None)

  function Whole(text: string, n: int): seq<string> {
    [text]
  }

  const UNIT: Tokens := Tokens(_ => 1, Whole)

  lemma UnitIsLossless()
    ensures Lossless(UNIT)
  {
    forall text: string ensures Concat([text]) == text {
      assert Concat([text]) == text + Concat([]);
    }
  }

  lemma {:induction false} UnitExpands(ms: seq<Message>, limit: int)
    ensures |Expand(UNIT, ms, limit)| == |ms|
  {
    if ms != [] {
      UnitExpands(ms[1..], limit);
      assert [ms[0].content][1..] == [];
      assert |SplitLong(UNIT, ms[0], limit)| == 1 + |Fragment(ms[0], [], 1)|;
    }
  }

  lemma {:induction false} SinglesSize(t: Tokens, ms: seq<Message>)
    ensures |Singles(t, ms)| == |ms|
  {
    if ms != [] {
      SinglesSize(t, ms[1..]);
    }
  }

  lemma OverlappingCore()
    ensures CoreMessages(OVERLAPPING) == [OVERLAPPING.messages[1], OVERLAPPING.messages[2]]
  {
    var ms := OVERLAPPING.messages;
    var core := [ms[1], ms[2]];
    assert ms[2..] == [ms[2]] && ms[1..] == core && core[1..] == [ms[2]];
    assert Keep([ms[2]], [2, 3]) == [ms[2]] + Keep([], [2, 3]);
    assert Keep(core, [2, 3]) == [ms[1]] + Keep([ms[2]], [2, 3]);
    assert Keep(ms, [2, 3]) == Keep(core, [2, 3]);
  }

  lemma OverlappingIsFormed()
    ensures WellFormed(OVERLAPPING)
  {
    var ms := OVERLAPPING.messages;
    assert ms[1] in ms && ms[2] in ms;
  }

  lemma TwoTurns()
    ensures |SplitTurns(UNIT, OVERLAPPING)| >= 2
  {
    OverlappingCore();
    hide CoreMessages, WellFormed, Turns, Expand, Singles;
    var limit := Max(500, OVERLAPPING.tokens / 2);
    UnitExpands(CoreMessages(OVERLAPPING), limit);
    SinglesSize(UNIT, Expand(UNIT, CoreMessages(OVERLAPPING), limit));
  }

  /** The checker rejects the split of this chunk, for it drops the overlap. */
  lemma OverlapIsRejected(k: nat, path: nat)
    ensures |SplitTurns(UNIT, OVERLAPPING)| >= 2 && NonEmptyTurns(SplitTurns(UNIT, OVERLAPPING))
    ensures var r := SplitOf(UNIT, OVERLAPPING, k);
            r.Children? && SourceNotCovered(Family(OVERLAPPING, r.left, r.right, 1, 2, 3, path))(0)
  {
    UnitIsLossless();
    OverlappingIsFormed();
    TwoTurns();
    assert OVERLAPPING.messages[0] in OVERLAPPING.messages;
    assert 1 in SourcesOf(OVERLAPPING.messages) && 1 !in OVERLAPPING.core;
    hide SplitTurns, SplitOf, SourceNotCovered, Family, WellFormed, Lossless, BestCut, Context, Shared;
    SplitPassesChecker(UNIT, OVERLAPPING, k, 1, 2, 3, path);
  }
}
