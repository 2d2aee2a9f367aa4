/** The two children of a split chunk, and what they keep of their parent. */
module SplitChildren {
  import opened Wrappers
  import opened TextSplit
  import opened Chunking
  import opened ChunkMerge
  import opened ChunkWindows
  import opened SplitChunk

  /****** the question that goes along ******/

  // The last short question of `ms` whose source is not in `taken`, from the back
  function LastQuestion(t: Tokens, ms: seq<Message>, taken: set<nat>): (q: Option<Message>)
    ensures q.Some? ==> q.value in ms && q.value.role.User? && q.value.source !in taken && t.estimate(q.value.content) <= 500
  {
    if ms == [] then None else
    var m := ms[|ms| - 1];
    if m.role.User? && m.source !in taken && t.estimate(m.content) <= 500 then Some(m)
    else LastQuestion(t, ms[..|ms| - 1], taken)
  }

  /** A second half that starts inside an answer is given its question as context. */
  ghost function Context(t: Tokens, left: seq<Turn>, right: seq<Turn>): Option<Message> {
    if right != [] && right[0].messages != [] && right[0].messages[0].role.Assistant?
    then LastQuestion(t, Flatten(left), SourcesOf(Flatten(right)))
    else None
  }

  function WithContext(t: Tokens, q: Option<Message>, turns: seq<Turn>): seq<Turn> {
    if q.Some? then [Turn([q.value], MessageCost(t, q.value))] + turns else turns
  }

  // The turns in front of the first one that holds core messages
  ghost function Leading(turns: seq<Turn>, core: set<nat>): nat {
    if turns == [] || SourcesOf(turns[0].messages) * core != {} then 0 else 1 + Leading(turns[1..], core)
  }

  ghost function Child(t: Tokens, c: Chunk, key: nat, q: Option<Message>, turns: seq<Turn>): Result<Chunk, SourceClash> {
    var group := WithContext(t, q, turns);
    var core := (SourcesOf(Flatten(group)) - if q.Some? then {q.value.source} else {}) * (set s | s in c.core);
    ChunkFromTurns(t, group, Leading(group, core), c.depth + 1, Some(key), Some(core))
  }

  datatype Split = NoSplit | Clash | Children(left: Chunk, right: Chunk)

  /** `split_message_chunk` */
  ghost function SplitOf(t: Tokens, c: Chunk, key: nat): Split
    requires NonEmptyTurns(SplitTurns(t, c))
  {
    var turns := SplitTurns(t, c);
    if |turns| < 2 then NoSplit else
    var cut := BestCut(turns);
    var left, right := Child(t, c, key, None, turns[..cut]), Child(t, c, key, Context(t, turns[..cut], turns[cut..]), turns[cut..]);
    if left.Failure? || right.Failure? then Clash else Children(left.value, right.value)
  }

  /****** the split turns ******/

  lemma {:induction false} KeepIsSub(ms: seq<Message>, core: seq<nat>)
    ensures forall m :: m in Keep(ms, core) <==> m in ms && m.source in core
    ensures HasText(ms) ==> HasText(Keep(ms, core))
  {
    if ms != [] {
      KeepIsSub(ms[1..], core);
      assert ms == [ms[0]] + ms[1..];
    }
  }

  lemma {:induction false} KeepConcat(a: seq<Message>, b: seq<Message>, core: seq<nat>)
    ensures Keep(a + b, core) == Keep(a, core) + Keep(b, core)
  {
    if a == [] {
      assert a + b == b;
    } else {
      assert (a + b)[0] == a[0] && (a + b)[1..] == a[1..] + b;
      KeepConcat(a[1..], b, core);
    }
  }

  /** Keeping core messages keeps their order. */
  lemma KeepInOrder(ms: seq<Message>, core: seq<nat>, i: nat)
    requires i < |ms| && ms[i].source in core
    ensures Keep(ms, core) == Keep(ms[..i], core) + [ms[i]] + Keep(ms[i + 1..], core)
  {
    assert ms == ms[..i] + ([ms[i]] + ms[i + 1..]);
    KeepConcat(ms[..i], [ms[i]] + ms[i + 1..], core);
    KeepConcat([ms[i]], ms[i + 1..], core);
    assert Keep([ms[i]], core) == [ms[i]] + Keep([], core);
  }

  lemma {:induction false} KeepText(ms: seq<Message>, core: seq<nat>, s: nat)
    ensures TextOf(Keep(ms, core), s) == if s in core then TextOf(ms, s) else ""
  {
    if ms != [] {
      KeepText(ms[1..], core, s);
      var head := if ms[0].source in core then [ms[0]] else [];
      TextOfConcat(head, Keep(ms[1..], core), s);
      assert TextOf(head, s) == if s in core && ms[0].source == s then ms[0].content + TextOf([], s) else "";
    }
  }

  lemma {:induction false} SinglesKeep(t: Tokens, ms: seq<Message>)
    ensures Flatten(Singles(t, ms)) == ms && |Singles(t, ms)| == |ms| && NonEmptyTurns(Singles(t, ms))
  {
    if ms != [] {
      SinglesKeep(t, ms[1..]);
      assert ms == [ms[0]] + ms[1..];
    }
  }

  lemma {:induction false} HasTextAt(ms: seq<Message>, s: nat)
    ensures TextOf(ms, s) != "" ==> s in SourcesOf(ms)
    ensures HasText(ms) && s in SourcesOf(ms) ==> TextOf(ms, s) != ""
  {
    if ms != [] {
      HasTextAt(ms[1..], s);
      Head(ms);
    }
  }

  // The split turns are made of fragments of the core messages, in order and completely.
  lemma SplitTurnsAre(t: Tokens, c: Chunk) returns (limit: int)
    ensures var turns := SplitTurns(t, c); NonEmptyTurns(turns) && Flatten(turns) == Expand(t, CoreMessages(c), limit)
  {
    var core := CoreMessages(c);
    var max, piece := Max(1000, Min(3000, Max(1, c.tokens / 2))), Max(500, c.tokens / 2);
    TurnsKeep(t, core, max);
    SinglesKeep(t, Expand(t, core, piece));
    limit := if |Turns(t, core, max)| >= 2 then max - 16 else piece;
  }

  /**
  A chunk is cut between the turns of its core messages at half its size, but from 1000 to 3000 tokens; only
  when that leaves nothing to cut between, the pieces of its messages at half its size are taken one by one.
   */
  lemma TurnsToSplit(t: Tokens, c: Chunk, limit: nat, piece: nat)
    requires limit == if c.tokens / 2 < 1000 then 1000 else if c.tokens / 2 > 3000 then 3000 else c.tokens / 2
    requires piece == if c.tokens / 2 < 500 then 500 else c.tokens / 2
    ensures var fine, turns := Turns(t, CoreMessages(c), limit), SplitTurns(t, c);
            if |fine| >= 2 then turns == fine
            else
              var pieces := Expand(t, CoreMessages(c), piece);
              |turns| == |pieces| && forall i :: 0 <= i < |turns| ==> turns[i] == Turn([pieces[i]], t.estimate(pieces[i].content) + 6)
    ensures CoreMessages(c) == Keep(c.messages, c.core)
  {
    SinglesAt(t, Expand(t, CoreMessages(c), piece));
  }

  lemma {:induction false} SinglesAt(t: Tokens, ms: seq<Message>)
    ensures |Singles(t, ms)| == |ms|
    ensures forall i :: 0 <= i < |ms| ==> Singles(t, ms)[i] == Turn([ms[i]], t.estimate(ms[i].content) + 6)
  {
    if ms != [] {
      SinglesAt(t, ms[1..]);
    }
  }

  lemma SplitTurnsKeep(t: Tokens, c: Chunk, s: nat)
    requires Lossless(t)
    ensures var fs := Flatten(SplitTurns(t, c));
            && TextOf(fs, s) == (if s in c.core then TextOf(c.messages, s) else "")
            && (HasText(c.messages) ==> HasText(fs))
            && (DistinctSources(c.messages) ==> OneRole([], fs))
  {
    var limit := SplitTurnsAre(t, c);
    hide SplitTurns;
    KeepIsSub(c.messages, c.core);
    KeepText(c.messages, c.core, s);
    ExpandKeeps(t, CoreMessages(c), limit, s);
    if DistinctSources(c.messages) {
      OneRoleOf(c.messages);
      FragmentRoles(c.messages, CoreMessages(c), Flatten(SplitTurns(t, c)));
    }
  }

  lemma OneRoleOf(ms: seq<Message>)
    requires DistinctSources(ms)
    ensures OneRole([], ms)
  {
    assert [] + ms == ms;
  }

  lemma FragmentRoles(ms: seq<Message>, core: seq<Message>, fs: seq<Message>)
    requires OneRole([], ms) && (forall m :: m in core ==> m in ms)
    requires forall f :: f in fs ==> exists m :: m in core && m.source == f.source && m.role == f.role
    ensures OneRole([], fs)
  {
    assert [] + ms == ms && [] + fs == fs;
  }

  /****** one child ******/

  // A message in front whose source does not come again stays as it is.
  lemma JoinFront(q: Message, ms: seq<Message>, f: Message)
    requires q.source != f.source && Join(ms, f).Success?
    ensures Join([q] + ms, f) == Success([q] + Join(ms, f).value)
  {
    assert ([q] + ms)[0] == q && ([q] + ms)[1..] == ms;
    match Find(ms, f.source)
    case None =>
      assert [q] + ms + [f] == [q] + (ms + [f]);
    case Some(p) =>
      var m := ms[p].(content := ms[p].content + f.content);
      assert ([q] + ms)[p + 1 := m] == [q] + ms[p := m];
  }

  lemma {:induction false} MergeFront(q: Message, ms: seq<Message>, fs: seq<Message>)
    requires q.source !in SourcesOf(fs) && MergeInto(ms, fs).Success?
    ensures MergeInto([q] + ms, fs) == Success([q] + MergeInto(ms, fs).value)
    decreases |fs|
  {
    if fs != [] {
      Head(fs);
      JoinFront(q, ms, fs[0]);
      MergeFront(q, Join(ms, fs[0]).value, fs[1..]);
    }
  }

  function Front(q: Option<Message>): seq<Message> {
    if q.Some? then [q.value] else []
  }

  lemma GroupMerges(t: Tokens, q: Option<Message>, turns: seq<Turn>)
    requires OneRole([], Flatten(turns))
    requires q.Some? ==> q.value.source !in SourcesOf(Flatten(turns))
    ensures Flatten(WithContext(t, q, turns)) == Front(q) + Flatten(turns)
    ensures Merge(Flatten(turns)).Success?
    ensures Merge(Front(q) + Flatten(turns)) == Success(Front(q) + Merge(Flatten(turns)).value)
  {
    var fs := Flatten(turns);
    MergeKeeps(fs, 0);
    if q.Some? {
      var first := [Turn([q.value], MessageCost(t, q.value))];
      FlattenConcat(first, turns);
      assert Flatten(first) == [q.value] + Flatten([]);
      MergeFront(q.value, [], fs);
      assert ([q.value] + fs)[0] == q.value && ([q.value] + fs)[1..] == fs;
      assert Join([], q.value) == Success([] + [q.value]);
      assert [] + [q.value] == [q.value] + [];
    } else {
      assert Front(q) + fs == fs && Front(q) + Merge(fs).value == Merge(fs).value;
    }
  }

  // What a child is made of: the fragments of its side, merged, behind its context.
  ghost predicate MadeOf(t: Tokens, child: Chunk, q: Option<Message>, fs: seq<Message>) {
    && Merge(fs).Success?
    && child.messages == Front(q) + Merge(fs).value && child.overlap == |Front(q)|
    && child.sources == Sources(child.messages) && child.core == Sources(Merge(fs).value)
    && (forall s :: s in child.core <==> s in SourcesOf(fs))
    && child.tokens == Cost(t, child.messages)
  }

  // The child's core is what its own side holds.
  lemma OwnSources(c: Chunk, q: Option<Message>, fs: seq<Message>)
    requires forall s :: s in SourcesOf(fs) ==> s in c.core
    requires q.Some? ==> q.value.source !in SourcesOf(fs)
    ensures (SourcesOf(Front(q) + fs) - if q.Some? then {q.value.source} else {}) * (set s | s in c.core) == SourcesOf(fs)
  {
    SourcesConcat(Front(q), fs);
  }

  // A chunk with a given core: its core lists the core sources in order.
  lemma FromTurns(t: Tokens, turns: seq<Turn>, overlap: nat, depth: nat, parent: Option<nat>, core: set<nat>, ms: seq<Message>)
    requires Merge(Flatten(turns)) == Success(ms)
    ensures var r := ChunkFromTurns(t, turns, overlap, depth, parent, Some(core));
            && r.Success? && r.value.messages == ms && r.value.tokens == Cost(t, ms)
            && r.value.depth == depth && r.value.parent == parent && r.value.overlap == overlap
            && r.value.sources == FirstOnly(Sources(ms)) && r.value.core == Filter(FirstOnly(Sources(ms)), core)
            && forall s :: s in r.value.core <==> s in SourcesOf(ms) && s in core
  {
    SourcesIn(ms);
  }

  // Of a child's messages only its context is not core.
  lemma ChildLists(q: Option<Message>, ms: seq<Message>, core: set<nat>)
    requires DistinctSources(ms) && core == SourcesOf(ms) && (q.Some? ==> q.value.source !in core)
    ensures var all := Sources(Front(q) + ms); FirstOnly(all) == all && Filter(all, core) == Sources(ms)
  {
    var all := Sources(Front(q) + ms);
    assert all == Sources(Front(q)) + Sources(ms);
    MessageSources(ms);
    if q.Some? {
      assert Sources(Front(q)) == [q.value.source];
      assert all[0] == q.value.source && forall i :: 0 < i < |all| ==> all[i] == Sources(ms)[i - 1];
    } else {
      assert Sources(Front(q)) == [] && all == Sources(ms);
    }
    hide Sources, SourcesOf, Front, FirstOnly, Filter;
    FirstOfDistinct(all);
    FilterAll(Sources(Front(q)), Sources(ms), core);
  }

  lemma MessageSources(ms: seq<Message>)
    requires DistinctSources(ms)
    ensures forall i :: 0 <= i < |Sources(ms)| ==> Sources(ms)[i] in SourcesOf(ms)
    ensures forall i, j :: 0 <= i < j < |Sources(ms)| ==> Sources(ms)[i] != Sources(ms)[j]
  {
    assert forall i :: 0 <= i < |ms| ==> ms[i] in ms;
  }

  // Only the context turn comes in front of core turns.
  lemma LeadingIs(t: Tokens, q: Option<Message>, turns: seq<Turn>)
    requires turns != [] && NonEmptyTurns(turns) && (q.Some? ==> q.value.source !in SourcesOf(Flatten(turns)))
    ensures Leading(WithContext(t, q, turns), SourcesOf(Flatten(turns))) == |Front(q)|
  {
    var first := turns[0].messages[0];
    var core := SourcesOf(Flatten(turns));
    assert first in turns[0].messages && first in Flatten(turns);
    assert first.source in SourcesOf(turns[0].messages) * core;
    if q.Some? {
      var group := WithContext(t, q, turns);
      assert group[0].messages == [q.value] && group[1..] == turns;
      assert SourcesOf([q.value]) * core == {};
    }
  }

  lemma ChildMadeOf(t: Tokens, c: Chunk, key: nat, q: Option<Message>, turns: seq<Turn>)
    requires turns != [] && NonEmptyTurns(turns)
    requires OneRole([], Flatten(turns)) && (forall s :: s in SourcesOf(Flatten(turns)) ==> s in c.core)
    requires q.Some? ==> q.value.source !in SourcesOf(Flatten(turns))
    ensures Child(t, c, key, q, turns).Success?
    ensures var child := Child(t, c, key, q, turns).value;
            MadeOf(t, child, q, Flatten(turns)) && child.depth == c.depth + 1 && child.parent == Some(key)
  {
    var fs, group := Flatten(turns), WithContext(t, q, turns);
    GroupMerges(t, q, turns);
    OwnSources(c, q, fs);
    MergeKeeps(fs, 0);
    var ms, core := Front(q) + Merge(fs).value, SourcesOf(fs);
    SourcesConcat(Front(q), Merge(fs).value);
    FromTurns(t, group, Leading(group, core), c.depth + 1, Some(key), core, ms);
    ChildIs(t, c, key, q, turns, core);
    LeadingIs(t, q, turns);
    ChildLists(q, Merge(fs).value, core);
    hide *;
    var child := Child(t, c, key, q, turns).value;
    assert child.messages == ms && forall s :: s in child.core <==> s in core;
    ShowMadeOf(t, child, q, fs);
  }

  lemma ChildIs(t: Tokens, c: Chunk, key: nat, q: Option<Message>, turns: seq<Turn>, core: set<nat>)
    requires var group := WithContext(t, q, turns);
             core == (SourcesOf(Flatten(group)) - if q.Some? then {q.value.source} else {}) * (set s | s in c.core)
    ensures var group := WithContext(t, q, turns);
            Child(t, c, key, q, turns) == ChunkFromTurns(t, group, Leading(group, core), c.depth + 1, Some(key), Some(core))
  {
  }

  lemma ShowMadeOf(t: Tokens, child: Chunk, q: Option<Message>, fs: seq<Message>)
    requires Merge(fs).Success? && child.messages == Front(q) + Merge(fs).value && child.overlap == |Front(q)|
    requires child.sources == Sources(child.messages) && child.core == Sources(Merge(fs).value)
    requires (forall s :: s in child.core <==> s in SourcesOf(fs)) && child.tokens == Cost(t, child.messages)
    ensures MadeOf(t, child, q, fs)
  {
  }

  /****** text and length ******/

  function Length(ms: seq<Message>): nat {
    if ms == [] then 0 else |ms[0].content| + Length(ms[1..])
  }

  /** How much text a chunk has to be remembered from. */
  function CoreLength(c: Chunk): nat {
    Length(CoreMessages(c))
  }

  function CoreText(c: Chunk, s: nat): string {
    if s in c.core then TextOf(c.messages, s) else ""
  }

  lemma {:induction false} LengthConcat(a: seq<Message>, b: seq<Message>)
    ensures Length(a + b) == Length(a) + Length(b)
  {
    if a == [] {
      assert a + b == b;
    } else {
      assert (a + b)[0] == a[0] && (a + b)[1..] == a[1..] + b;
      LengthConcat(a[1..], b);
    }
  }

  lemma {:induction false} LengthAt(ms: seq<Message>, p: nat, m: Message)
    requires p < |ms|
    ensures Length(ms[p := m]) == Length(ms) - |ms[p].content| + |m.content|
  {
    if p > 0 {
      assert ms[p := m][0] == ms[0] && ms[p := m][1..] == ms[1..][p - 1 := m];
      LengthAt(ms[1..], p - 1, m);
    } else {
      assert ms[p := m][1..] == ms[1..];
    }
  }

  lemma {:induction false} MergeLength(ms: seq<Message>, fs: seq<Message>)
    requires MergeInto(ms, fs).Success?
    ensures Length(MergeInto(ms, fs).value) == Length(ms) + Length(fs)
    decreases |fs|
  {
    if fs != [] {
      match Find(ms, fs[0].source) {
        case None => LengthConcat(ms, [fs[0]]);
        case Some(p) => LengthAt(ms, p, ms[p].(content := ms[p].content + fs[0].content));
      }
      assert Length([fs[0]]) == |fs[0].content| + Length([]);
      MergeLength(Join(ms, fs[0]).value, fs[1..]);
    }
  }

  lemma {:induction false} FragmentLength(m: Message, parts: seq<string>, from: nat)
    ensures Length(Fragment(m, parts, from)) == |Concat(parts)|
  {
    if parts != [] {
      FragmentLength(m, parts[1..], from + 1);
    }
  }

  lemma {:induction false} ExpandLength(t: Tokens, ms: seq<Message>, limit: int)
    requires Lossless(t)
    ensures Length(Expand(t, ms, limit)) == Length(ms)
  {
    if ms != [] {
      FragmentLength(ms[0], t.split(ms[0].content, limit), 0);
      ExpandLength(t, ms[1..], limit);
      LengthConcat(SplitLong(t, ms[0], limit), Expand(t, ms[1..], limit));
    }
  }

  lemma {:induction false} KeepAll(ms: seq<Message>, core: seq<nat>)
    requires forall m :: m in ms ==> m.source in core
    ensures Keep(ms, core) == ms
  {
    if ms != [] {
      assert ms[0] in ms && forall m :: m in ms[1..] ==> m in ms;
      KeepAll(ms[1..], core);
    }
  }

  lemma KeepFront(q: Option<Message>, ms: seq<Message>, core: seq<nat>)
    requires forall m :: m in ms ==> m.source in core
    requires q.Some? ==> q.value.source !in core
    ensures Keep(Front(q) + ms, core) == ms
  {
    KeepAll(ms, core);
    if q.Some? {
      assert ([q.value] + ms)[0] == q.value && ([q.value] + ms)[1..] == ms;
      assert Keep([q.value] + ms, core) == [] + Keep(ms, core);
    } else {
      assert Front(q) + ms == ms;
    }
  }

  lemma FrontDistinct(q: Option<Message>, ms: seq<Message>)
    requires DistinctSources(ms) && HasText(ms)
    requires q.Some? ==> q.value.source !in SourcesOf(ms) && q.value.content != ""
    ensures DistinctSources(Front(q) + ms) && HasText(Front(q) + ms)
  {
    if q.Some? {
      assert forall i :: 0 <= i < |ms| ==> ms[i] in ms && ms[i].source in SourcesOf(ms);
    } else {
      assert Front(q) + ms == ms;
    }
  }

  /** A child is well formed, and its core messages are the fragments of its side merged. */
  lemma ChildKeeps(t: Tokens, child: Chunk, q: Option<Message>, fs: seq<Message>)
    requires MadeOf(t, child, q, fs) && OneRole([], fs) && HasText(fs)
    requires q.Some? ==> q.value.source !in SourcesOf(fs) && q.value.content != ""
    ensures WellFormed(child) && CoreMessages(child) == Merge(fs).value && CoreLength(child) == Length(fs)
  {
    var ms := Merge(fs).value;
    MergeKeeps(fs, 0);
    MergeLength([], fs);
    SourcesConcat(Front(q), ms);
    FrontDistinct(q, ms);
    assert forall m :: m in ms ==> m.source in SourcesOf(ms);
    hide DistinctSources, HasText, Merge, OneRole, Front;
    KeepFront(q, ms, child.core);
  }

  lemma ChildText(t: Tokens, child: Chunk, q: Option<Message>, fs: seq<Message>, s: nat)
    requires MadeOf(t, child, q, fs) && OneRole([], fs) && CoreMessages(child) == Merge(fs).value
    ensures CoreText(child, s) == TextOf(fs, s)
  {
    MergeKeeps(fs, s);
    KeepText(child.messages, child.core, s);
  }

  lemma ChildHasCore(t: Tokens, child: Chunk, q: Option<Message>, fs: seq<Message>)
    requires MadeOf(t, child, q, fs) && HasText(fs) && fs != []
    ensures child.core != [] && Length(fs) > 0 && forall s :: s in child.core <==> s in SourcesOf(fs)
  {
    assert fs[0] in fs && fs[0].source in child.core;
  }

  /****** both children ******/

  // `left` and `right` hold the turns in front of and behind the cut; only `right` may have a context.
  ghost predicate CutFrom(t: Tokens, c: Chunk, left: Chunk, right: Chunk, q: Option<Message>) {
    var turns := SplitTurns(t, c);
    && |turns| >= 2 && NonEmptyTurns(turns)
    && var cut := BestCut(turns);
    && MadeOf(t, left, None, Flatten(turns[..cut]))
    && MadeOf(t, right, q, Flatten(turns[cut..]))
    && q == Context(t, turns[..cut], turns[cut..])
  }

  lemma HalvesOf(t: Tokens, c: Chunk, i: nat)
    requires Lossless(t) && WellFormed(c) && 0 < i < |SplitTurns(t, c)|
    ensures var turns := SplitTurns(t, c);
            var left, right := Flatten(turns[..i]), Flatten(turns[i..]);
            && NonEmptyTurns(turns) && left != [] && right != [] && Flatten(turns) == left + right
            && OneRole([], left) && OneRole([], right) && HasText(left) && HasText(right)
            && (forall s :: s in c.core <==> s in SourcesOf(left) + SourcesOf(right))
            && Length(left) + Length(right) == CoreLength(c)
  {
    hide WellFormed, SplitTurns, OneRole, HasText, SourcesOf, Length, DistinctSources, Lossless, TextOf;
    var turns := SplitTurns(t, c);
    var left, right := Flatten(turns[..i]), Flatten(turns[i..]);
    var limit := SplitTurnsAre(t, c);
    assert turns == turns[..i] + turns[i..];
    FlattenConcat(turns[..i], turns[i..]);
    assert turns[..i][0].messages != [] && turns[i..][0].messages != [];
    ExpandLength(t, CoreMessages(c), limit);
    LengthConcat(left, right);
    hide *;
    SplitTurnsKeep(t, c, 0);
    ParentFine(c);
    RoleHalves(left, right);
    TextHalves(left, right);
    SourcesConcat(left, right);
    CoreLengthIs(c);
    forall s ensures s in c.core <==> s in SourcesOf(left + right) {
      SplitTurnsKeep(t, c, s);
      HasTextAt(left + right, s);
      HasTextAt(c.messages, s);
    }
  }

  lemma ParentFine(c: Chunk)
    requires WellFormed(c)
    ensures HasText(c.messages) && DistinctSources(c.messages) && forall s :: s in c.core ==> s in SourcesOf(c.messages)
  {
  }

  lemma CoreLengthIs(c: Chunk)
    ensures CoreLength(c) == Length(CoreMessages(c))
  {
  }

  lemma RoleHalves(a: seq<Message>, b: seq<Message>)
    requires OneRole([], a + b)
    ensures OneRole([], a) && OneRole([], b)
  {
    assert forall m :: m in [] + a || m in [] + b ==> m in [] + (a + b);
  }

  lemma TextHalves(a: seq<Message>, b: seq<Message>)
    requires HasText(a + b)
    ensures HasText(a) && HasText(b)
  {
    assert forall i :: 0 <= i < |a| ==> a[i] == (a + b)[i];
    assert forall i :: 0 <= i < |b| ==> b[i] == (a + b)[|a| + i];
  }

  lemma ContextIsOutside(t: Tokens, left: seq<Turn>, right: seq<Turn>)
    requires HasText(Flatten(left))
    ensures var q := Context(t, left, right);
            q.Some? ==> q.value.source !in SourcesOf(Flatten(right)) && q.value.content != "" && q.value in Flatten(left)
  {
  }

  // A short question whose message does not go on behind the cut
  ghost predicate GoesAlong(t: Tokens, m: Message, behind: set<nat>) {
    m.role.User? && m.source !in behind && t.estimate(m.content) <= 500
  }

  ghost predicate LastOfThem(t: Tokens, fs: seq<Message>, n: int, behind: set<nat>) {
    0 <= n < |fs| && GoesAlong(t, fs[n], behind) && forall j :: n < j < |fs| ==> !GoesAlong(t, fs[j], behind)
  }

  /**
  The second child gets a context exactly when its side starts with an answer and the other side has a short
  question whose message does not go on behind the cut; then it is the last of those.
   */
  lemma ContextIsLast(t: Tokens, left: seq<Turn>, right: seq<Turn>, fs: seq<Message>, behind: set<nat>)
    requires right != [] && NonEmptyTurns(right) && fs == Flatten(left) && behind == SourcesOf(Flatten(right))
    ensures var q := Context(t, left, right);
            if q.None? then right[0].messages[0].role.Assistant? ==> forall m :: m in fs ==> !GoesAlong(t, m, behind)
            else right[0].messages[0].role.Assistant? && exists n :: LastOfThem(t, fs, n, behind) && fs[n] == q.value
  {
    LastQuestionIs(t, fs, behind);
  }

  lemma {:induction false} LastQuestionIs(t: Tokens, ms: seq<Message>, behind: set<nat>)
    ensures var q := LastQuestion(t, ms, behind);
            if q.None? then forall m :: m in ms ==> !GoesAlong(t, m, behind)
            else exists n :: LastOfThem(t, ms, n, behind) && ms[n] == q.value
  {
    if ms != [] {
      var init, m := ms[..|ms| - 1], ms[|ms| - 1];
      assert ms == init + [m];
      LastQuestionIs(t, init, behind);
      if GoesAlong(t, m, behind) {
        assert LastOfThem(t, ms, |ms| - 1, behind);
      } else if LastQuestion(t, init, behind).Some? {
        var n :| LastOfThem(t, init, n, behind) && init[n] == LastQuestion(t, init, behind).value;
        assert LastOfThem(t, ms, n, behind);
      }
    }
  }

  /** A well-formed chunk has no children exactly when there is nothing to cut between; it never clashes. */
  lemma SplitIsCut(t: Tokens, c: Chunk, key: nat)
    requires Lossless(t) && WellFormed(c)
    ensures NonEmptyTurns(SplitTurns(t, c))
    ensures var turns := SplitTurns(t, c);
            if |turns| < 2 then SplitOf(t, c, key) == NoSplit
            else
              var q, r := Context(t, turns[..BestCut(turns)], turns[BestCut(turns)..]), SplitOf(t, c, key);
              && r.Children? && CutFrom(t, c, r.left, r.right, q)
              && r.left.depth == r.right.depth == c.depth + 1 && r.left.parent == r.right.parent == Some(key)
  {
    var limit := SplitTurnsAre(t, c);
    if |SplitTurns(t, c)| >= 2 {
      TwoChildren(t, c, key);
    }
  }

  lemma NonEmptyHalves(turns: seq<Turn>, cut: nat)
    requires NonEmptyTurns(turns) && 0 < cut < |turns|
    ensures turns[..cut] != [] && NonEmptyTurns(turns[..cut]) && turns[cut..] != [] && NonEmptyTurns(turns[cut..])
  {
  }

  lemma TwoChildren(t: Tokens, c: Chunk, key: nat)
    requires Lossless(t) && WellFormed(c) && |SplitTurns(t, c)| >= 2 && NonEmptyTurns(SplitTurns(t, c))
    ensures var turns := SplitTurns(t, c);
            var q, r := Context(t, turns[..BestCut(turns)], turns[BestCut(turns)..]), SplitOf(t, c, key);
            && r.Children? && CutFrom(t, c, r.left, r.right, q)
            && r.left.depth == r.right.depth == c.depth + 1 && r.left.parent == r.right.parent == Some(key)
  {
    hide SplitTurns, Context, Child, MadeOf, Flatten, OneRole, HasText, SourcesOf, WellFormed, BestCut, CoreLength, Length, NonEmptyTurns;
    var turns := SplitTurns(t, c);
    var cut := BestCut(turns);
    var q, left, right := Context(t, turns[..cut], turns[cut..]), turns[..cut], turns[cut..];
    HalvesOf(t, c, cut);
    NonEmptyHalves(turns, cut);
    ContextIsOutside(t, left, right);
    assert forall s :: s in SourcesOf(Flatten(left)) || s in SourcesOf(Flatten(right)) ==> s in c.core;
    ChildMadeOf(t, c, key, None, left);
    ChildMadeOf(t, c, key, q, right);
  }

  /**
  The children of a split have non-empty cores whose union is the parent's core; their own text,
  taken together and in order, is the parent's core text message by message; and each has strictly
  less of it.
   */
  lemma SplitConserves(t: Tokens, c: Chunk, key: nat)
    requires Lossless(t) && WellFormed(c) && |SplitTurns(t, c)| >= 2
    ensures NonEmptyTurns(SplitTurns(t, c)) && SplitOf(t, c, key).Children?
    ensures var r := SplitOf(t, c, key);
            && WellFormed(r.left) && WellFormed(r.right) && r.left.core != [] && r.right.core != []
            && (forall s :: s in c.core <==> s in r.left.core || s in r.right.core)
            && (forall s :: CoreText(r.left, s) + CoreText(r.right, s) == CoreText(c, s))
            && CoreLength(r.left) + CoreLength(r.right) == CoreLength(c)
            && CoreLength(r.left) < CoreLength(c) && CoreLength(r.right) < CoreLength(c)
  {
    SplitIsCut(t, c, key);
    var turns, r := SplitTurns(t, c), SplitOf(t, c, key);
    var cut := BestCut(turns);
    var q, left, right := Context(t, turns[..cut], turns[cut..]), Flatten(turns[..cut]), Flatten(turns[cut..]);
    HalvesOf(t, c, cut);
    ContextIsOutside(t, turns[..cut], turns[cut..]);
    assert MadeOf(t, r.left, None, left) && MadeOf(t, r.right, q, right);
    ChildHasCore(t, r.left, None, left);
    ChildHasCore(t, r.right, q, right);
    hide *;
    ChildKeeps(t, r.left, None, left);
    ChildKeeps(t, r.right, q, right);
    forall s ensures CoreText(r.left, s) + CoreText(r.right, s) == CoreText(c, s) {
      ChildText(t, r.left, None, left, s);
      ChildText(t, r.right, q, right, s);
      TextOfConcat(left, right, s);
      SplitTurnsKeep(t, c, s);
      CoreTextIs(c, s);
    }
  }

  lemma CoreTextIs(c: Chunk, s: nat)
    ensures CoreText(c, s) == if s in c.core then TextOf(c.messages, s) else ""
  {
  }

  /** The cores of the children are disjoint whenever some cut neither separates an answer nor divides a message. */
  lemma SplitIsDisjoint(t: Tokens, c: Chunk, key: nat, i: nat)
    requires Lossless(t) && WellFormed(c) && NonEmptyTurns(SplitTurns(t, c)) && 0 < i < |SplitTurns(t, c)|
    requires !SplitsAnswer(SplitTurns(t, c), i) && Shared(SplitTurns(t, c), i) == {}
    ensures SplitOf(t, c, key).Children?
    ensures var r := SplitOf(t, c, key); forall s :: !(s in r.left.core && s in r.right.core)
  {
    SplitIsCut(t, c, key);
    var turns := SplitTurns(t, c);
    CutIsLeast(turns, i);
    assert Shared(turns, BestCut(turns)) == {};
  }

  /** Exactly: the children share a core index if and only if the chosen cut divides that message. */
  lemma SharedCoreIff(t: Tokens, c: Chunk, key: nat, s: nat)
    requires Lossless(t) && WellFormed(c) && |SplitTurns(t, c)| >= 2
    ensures NonEmptyTurns(SplitTurns(t, c)) && SplitOf(t, c, key).Children?
    ensures var r, turns := SplitOf(t, c, key), SplitTurns(t, c);
            s in r.left.core && s in r.right.core <==> s in Shared(turns, BestCut(turns))
  {
    SplitIsCut(t, c, key);
  }
}
