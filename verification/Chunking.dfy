/**
From messages to chunks: long messages are cut into fragments, fragments grouped into turns,
turns into overlapping windows, and every window is written down as one chunk.
 */
module Chunking {
  import opened Wrappers
  import opened TextSplit

  datatype Role = User | Assistant | OtherRole

  /** `source` is the message's position in its conversation, `part` the fragment's position in its message. */
  datatype Message = Message(role: Role, content: string, created: int, source: nat, part: nat)

  datatype Turn = Turn(messages: seq<Message>, tokens: nat)

  /** The token estimator and the text splitter, of which only losslessness is known. */
  datatype Tokens = Tokens(estimate: string -> nat, split: (string, int) -> seq<string>)

  ghost predicate Lossless(t: Tokens) {
    forall text, n :: Concat(t.split(text, n)) == text && (text != "" ==> NoneEmpty(t.split(text, n)))
  }

  function MessageCost(t: Tokens, m: Message): nat {
    t.estimate(m.content) + 6
  }

  function Cost(t: Tokens, ms: seq<Message>): nat {
    if ms == [] then 0 else Cost(t, ms[..|ms| - 1]) + MessageCost(t, ms[|ms| - 1])
  }

  function Flatten(turns: seq<Turn>): seq<Message> {
    if turns == [] then [] else turns[0].messages + Flatten(turns[1..])
  }

  function SumTokens(turns: seq<Turn>): nat {
    if turns == [] then 0 else turns[0].tokens + SumTokens(turns[1..])
  }

  lemma {:induction false} FlattenConcat(a: seq<Turn>, b: seq<Turn>)
    ensures Flatten(a + b) == Flatten(a) + Flatten(b) && SumTokens(a + b) == SumTokens(a) + SumTokens(b)
  {
    if a == [] {
      assert a + b == b;
    } else {
      assert (a + b)[0] == a[0] && (a + b)[1..] == a[1..] + b;
      FlattenConcat(a[1..], b);
    }
  }

  lemma CostSnoc(t: Tokens, a: seq<Message>, m: Message)
    ensures Cost(t, a + [m]) == Cost(t, a) + MessageCost(t, m)
  {
    assert (a + [m])[..|a|] == a;
  }

  /****** fragments ******/

  function Fragment(m: Message, parts: seq<string>, from: nat): seq<Message> {
    if parts == [] then [] else [m.(content := parts[0], part := from)] + Fragment(m, parts[1..], from + 1)
  }

  // `split_long_message_tokens`
  function SplitLong(t: Tokens, m: Message, limit: int): seq<Message> {
    Fragment(m, t.split(m.content, limit), 0)
  }

  function Expand(t: Tokens, ms: seq<Message>, limit: int): seq<Message> {
    if ms == [] then [] else SplitLong(t, ms[0], limit) + Expand(t, ms[1..], limit)
  }

  /** The text of one source message, in the order of its fragments. */
  function TextOf(ms: seq<Message>, source: nat): string {
    if ms == [] then "" else (if ms[0].source == source then ms[0].content else "") + TextOf(ms[1..], source)
  }

  lemma {:induction false} TextOfConcat(a: seq<Message>, b: seq<Message>, source: nat)
    ensures TextOf(a + b, source) == TextOf(a, source) + TextOf(b, source)
  {
    if a == [] {
      assert a + b == b;
    } else {
      assert (a + b)[0] == a[0] && (a + b)[1..] == a[1..] + b;
      TextOfConcat(a[1..], b, source);
    }
  }

  // The parts of `m`: same role and source, their contents in order, numbered from `from`.
  lemma {:induction false} FragmentKeeps(m: Message, parts: seq<string>, from: nat, source: nat)
    ensures TextOf(Fragment(m, parts, from), source) == if m.source == source then Concat(parts) else ""
    ensures forall f :: f in Fragment(m, parts, from) ==> f.role == m.role && f.source == m.source && f.content in parts
    ensures |Fragment(m, parts, from)| == |parts|
  {
    if parts != [] {
      FragmentKeeps(m, parts[1..], from + 1, source);
    }
  }

  predicate HasText(ms: seq<Message>) {
    forall i :: 0 <= i < |ms| ==> ms[i].content != ""
  }

  /** Cutting messages loses no text, moves none to another message, and leaves no empty fragment. */
  lemma {:induction false} ExpandKeeps(t: Tokens, ms: seq<Message>, limit: int, source: nat)
    requires Lossless(t)
    ensures TextOf(Expand(t, ms, limit), source) == TextOf(ms, source)
    ensures HasText(ms) ==> HasText(Expand(t, ms, limit))
    ensures forall f :: f in Expand(t, ms, limit) ==> exists m :: m in ms && m.source == f.source && m.role == f.role
  {
    if ms != [] {
      var parts := t.split(ms[0].content, limit);
      FragmentKeeps(ms[0], parts, 0, source);
      ExpandKeeps(t, ms[1..], limit, source);
      TextOfConcat(SplitLong(t, ms[0], limit), Expand(t, ms[1..], limit), source);
      forall f | f in Expand(t, ms, limit) ensures exists m :: m in ms && m.source == f.source && m.role == f.role {
        if f in SplitLong(t, ms[0], limit) {
          assert ms[0] in ms;
        } else {
          var m :| m in ms[1..] && m.source == f.source && m.role == f.role;
          assert m in ms;
        }
      }
    }
  }

  lemma {:induction false} FragmentAt(m: Message, parts: seq<string>, from: nat, i: nat)
    requires i < |parts|
    ensures |Fragment(m, parts, from)| == |parts| && Fragment(m, parts, from)[i] == Message(m.role, parts[i], m.created, m.source, from + i)
  {
    FragmentKeeps(m, parts, from, 0);
    if i > 0 {
      FragmentAt(m, parts[1..], from + 1, i - 1);
    }
  }

  // How many fragments the messages in front of message `n` make
  function Before(t: Tokens, ms: seq<Message>, limit: int, n: nat): nat
    requires n <= |ms|
  {
    if n == 0 then 0 else |t.split(ms[n - 1].content, limit)| + Before(t, ms, limit, n - 1)
  }

  lemma {:induction false} BeforeTail(t: Tokens, ms: seq<Message>, limit: int, n: nat)
    requires 0 < n <= |ms|
    ensures Before(t, ms, limit, n) == |t.split(ms[0].content, limit)| + Before(t, ms[1..], limit, n - 1)
  {
    if n > 1 {
      BeforeTail(t, ms, limit, n - 1);
    }
  }

  /** The fragments follow each other as the messages do, and within a message as the splitter gives and numbered from 0. */
  lemma {:induction false} ExpandInOrder(t: Tokens, ms: seq<Message>, limit: int, n: nat, i: nat)
    requires n < |ms| && i < |t.split(ms[n].content, limit)|
    ensures var at, m := Before(t, ms, limit, n) + i, ms[n];
            && at < |Expand(t, ms, limit)|
            && Expand(t, ms, limit)[at] == Message(m.role, t.split(m.content, limit)[i], m.created, m.source, i)
    ensures |Expand(t, ms, limit)| == Before(t, ms, limit, |ms|)
    decreases |ms|
  {
    var first, rest := SplitLong(t, ms[0], limit), ms[1..];
    assert Expand(t, ms, limit) == first + Expand(t, rest, limit);
    ExpandCount(t, ms, limit);
    if n == 0 {
      FragmentAt(ms[0], t.split(ms[0].content, limit), 0, i);
      hide Fragment, Expand;
    } else {
      FragmentKeeps(ms[0], t.split(ms[0].content, limit), 0, 0);
      assert |first| == |t.split(ms[0].content, limit)|;
      hide Fragment, Expand, SplitLong;
      BeforeTail(t, ms, limit, n);
      ExpandInOrder(t, rest, limit, n - 1, i);
      hide Before;
    }
  }

  lemma {:induction false} ExpandCount(t: Tokens, ms: seq<Message>, limit: int)
    ensures |Expand(t, ms, limit)| == Before(t, ms, limit, |ms|)
  {
    if ms != [] {
      FragmentKeeps(ms[0], t.split(ms[0].content, limit), 0, 0);
      BeforeTail(t, ms, limit, |ms|);
      ExpandCount(t, ms[1..], limit);
    }
  }

  /****** turns ******/

  predicate StartsTurn(m: Message, current: seq<Message>, user: Option<nat>) {
    m.role.User? && current != [] && user != Some(m.source)
  }

  // The first loop of `_build_turns`; `user` is the source of the current turn's question.
  function Group(fs: seq<Message>, current: seq<Message>, user: Option<nat>): seq<seq<Message>>
    decreases |fs|
  {
    if fs == [] then (if current == [] then [] else [current]) else
    var m := fs[0];
    if StartsTurn(m, current, user) then [current] + Group(fs[1..], [m], Some(m.source))
    else Group(fs[1..], current + [m], if m.role.User? then Some(m.source) else user)
  }

  // The inner loop for a turn over the limit
  function Batch(t: Tokens, ms: seq<Message>, batch: seq<Message>, max: nat): seq<Turn>
    decreases |ms|
  {
    if ms == [] then (if batch == [] then [] else [Turn(batch, Cost(t, batch))])
    else if batch != [] && Cost(t, batch) + MessageCost(t, ms[0]) > max then
      [Turn(batch, Cost(t, batch))] + Batch(t, ms[1..], [ms[0]], max)
    else Batch(t, ms[1..], batch + [ms[0]], max)
  }

  function Bound(t: Tokens, groups: seq<seq<Message>>, max: nat): seq<Turn> {
    if groups == [] then [] else
      (if Cost(t, groups[0]) <= max then [Turn(groups[0], Cost(t, groups[0]))] else Batch(t, groups[0], [], max))
      + Bound(t, groups[1..], max)
  }

  function TurnsOf(t: Tokens, fs: seq<Message>, max: nat): seq<Turn> {
    Bound(t, Group(fs, [], None), max)
  }

  /** Turns as `_build_turns` makes them; the margin of 16 leaves room for the message frame. */
  function Turns(t: Tokens, ms: seq<Message>, max: nat): seq<Turn> {
    TurnsOf(t, Expand(t, ms, max - 16), max)
  }

  function FlattenGroups(groups: seq<seq<Message>>): seq<Message> {
    if groups == [] then [] else groups[0] + FlattenGroups(groups[1..])
  }

  lemma {:induction false} GroupKeeps(fs: seq<Message>, current: seq<Message>, user: Option<nat>)
    ensures FlattenGroups(Group(fs, current, user)) == current + fs
    ensures forall g :: g in Group(fs, current, user) ==> g != []
    decreases |fs|
  {
    if fs != [] {
      var m := fs[0];
      if StartsTurn(m, current, user) {
        GroupKeeps(fs[1..], [m], Some(m.source));
      } else {
        GroupKeeps(fs[1..], current + [m], if m.role.User? then Some(m.source) else user);
      }
    }
  }

  // All questions of a group are parts of the message `user` names, and it begins with one if it has any.
  predicate OneQuestion(g: seq<Message>, user: Option<nat>) {
    && (forall i :: 0 <= i < |g| && g[i].role.User? ==> user == Some(g[i].source))
    && (user.Some? ==> g != [] && g[0].role.User?)
  }

  ghost predicate QuestionFirst(g: seq<Message>) {
    exists user :: OneQuestion(g, user)
  }

  /** A turn holds at most one question, and asks it first; every turn but the first begins with a question. */
  lemma {:induction false} GroupsStartWithQuestion(fs: seq<Message>, current: seq<Message>, user: Option<nat>)
    requires OneQuestion(current, user)
    ensures var gs := Group(fs, current, user);
            && (forall i :: 0 <= i < |gs| ==> QuestionFirst(gs[i]))
            && (forall i :: 0 < i < |gs| ==> gs[i] != [] && gs[i][0].role.User?)
            && (current != [] && gs != [] ==> current <= gs[0])
    decreases |fs|
  {
    if fs == [] {
      assert QuestionFirst(current);
    } else {
      var m := fs[0];
      if StartsTurn(m, current, user) {
        assert QuestionFirst(current);
        assert OneQuestion([m], Some(m.source));
        GroupsStartWithQuestion(fs[1..], [m], Some(m.source));
        var rest := Group(fs[1..], [m], Some(m.source));
        GroupKeeps(fs[1..], [m], Some(m.source));
        assert [m] <= rest[0] && rest[0][0] == m;
      } else {
        GroupsStartWithQuestion(fs[1..], current + [m], if m.role.User? then Some(m.source) else user);
      }
    }
  }

  predicate FitsAlone(t: Tokens, fs: seq<Message>, max: nat) {
    forall f :: f in fs ==> MessageCost(t, f) <= max
  }

  // Turns with messages and exact costs; within the limit when every single fragment is
  predicate GoodTurns(t: Tokens, turns: seq<Turn>, fits: bool, max: nat) {
    forall i :: 0 <= i < |turns| ==>
      turns[i].messages != [] && turns[i].tokens == Cost(t, turns[i].messages) && (fits ==> turns[i].tokens <= max)
  }

  lemma GoodConcat(t: Tokens, a: seq<Turn>, b: seq<Turn>, fits: bool, max: nat)
    requires GoodTurns(t, a, fits, max) && GoodTurns(t, b, fits, max)
    ensures GoodTurns(t, a + b, fits, max)
  {
  }

  lemma FitsParts(t: Tokens, a: seq<Message>, b: seq<Message>, max: nat)
    requires FitsAlone(t, a + b, max)
    ensures FitsAlone(t, a, max) && FitsAlone(t, b, max)
  {
    assert forall f :: f in a || f in b ==> f in a + b;
  }

  lemma OneTurn(t: Tokens, ms: seq<Message>, max: nat, fits: bool)
    requires ms != [] && (fits ==> Cost(t, ms) <= max)
    ensures Flatten([Turn(ms, Cost(t, ms))]) == ms && GoodTurns(t, [Turn(ms, Cost(t, ms))], fits, max)
  {
    assert Flatten([Turn(ms, Cost(t, ms))]) == ms + Flatten([]);
  }

  lemma {:induction false} BatchKeeps(t: Tokens, ms: seq<Message>, batch: seq<Message>, max: nat, fits: bool)
    requires fits ==> FitsAlone(t, ms, max) && Cost(t, batch) <= max
    ensures Flatten(Batch(t, ms, batch, max)) == batch + ms
    ensures GoodTurns(t, Batch(t, ms, batch, max), fits, max)
    decreases |ms|
  {
    if ms == [] {
      if batch != [] {
        OneTurn(t, batch, max, fits);
      }
    } else {
      var m, rest := ms[0], ms[1..];
      assert ms == [m] + rest && [] + [m] == [m];
      if fits {
        FitsParts(t, [m], rest, max);
        assert m in [m];
      }
      CostSnoc(t, batch, m);
      CostSnoc(t, [], m);
      assert Cost(t, []) == 0;
      hide MessageCost;
      if batch != [] && Cost(t, batch) + MessageCost(t, m) > max {
        hide FitsAlone, GoodTurns, Cost, Flatten;
        OneTurn(t, batch, max, fits);
        BatchKeeps(t, rest, [m], max, fits);
        FlattenConcat([Turn(batch, Cost(t, batch))], Batch(t, rest, [m], max));
        GoodConcat(t, [Turn(batch, Cost(t, batch))], Batch(t, rest, [m], max), fits, max);
      } else {
        hide FitsAlone, GoodTurns, Cost, Flatten;
        BatchKeeps(t, rest, batch + [m], max, fits);
        assert batch + [m] + rest == batch + ms;
      }
    }
  }

  lemma FirstKeeps(t: Tokens, g: seq<Message>, max: nat, fits: bool)
    requires g != [] && (fits ==> FitsAlone(t, g, max))
    ensures var first := if Cost(t, g) <= max then [Turn(g, Cost(t, g))] else Batch(t, g, [], max);
            Flatten(first) == g && GoodTurns(t, first, fits, max)
  {
    BatchKeeps(t, g, [], max, fits);
    assert Flatten([Turn(g, Cost(t, g))]) == g + Flatten([]);
  }

  lemma {:induction false} BoundKeeps(t: Tokens, groups: seq<seq<Message>>, max: nat, fits: bool)
    requires forall g :: g in groups ==> g != []
    requires fits ==> FitsAlone(t, FlattenGroups(groups), max)
    ensures Flatten(Bound(t, groups, max)) == FlattenGroups(groups)
    ensures GoodTurns(t, Bound(t, groups, max), fits, max)
  {
    if groups != [] {
      var g := groups[0];
      assert g in groups && forall h :: h in groups[1..] ==> h in groups;
      if fits {
        FitsParts(t, g, FlattenGroups(groups[1..]), max);
      }
      hide FitsAlone, GoodTurns;
      BoundKeeps(t, groups[1..], max, fits);
      FirstKeeps(t, g, max, fits);
      var first := if Cost(t, g) <= max then [Turn(g, Cost(t, g))] else Batch(t, g, [], max);
      FlattenConcat(first, Bound(t, groups[1..], max));
      GoodConcat(t, first, Bound(t, groups[1..], max), fits, max);
    }
  }

  /**
  Turns keep every fragment once and in order, have messages and exact costs, and none is over the
  limit when no single fragment is.
   */
  lemma TurnsKeep(t: Tokens, ms: seq<Message>, max: nat)
    ensures Flatten(Turns(t, ms, max)) == Expand(t, ms, max - 16)
    ensures GoodTurns(t, Turns(t, ms, max), FitsAlone(t, Expand(t, ms, max - 16), max), max)
  {
    var fs := Expand(t, ms, max - 16);
    GroupKeeps(fs, [], None);
    assert [] + fs == fs;
    BoundKeeps(t, Group(fs, [], None), max, FitsAlone(t, fs, max));
  }

  /****** the loops of `_build_turns` ******/

  method GroupTurns(fs: seq<Message>) returns (groups: seq<seq<Message>>)
    ensures groups == Group(fs, [], None)
  {
    groups := [];
    var current: seq<Message>, user: Option<nat> := [], None;
    for n := 0 to |fs|
      invariant groups + Group(fs[n..], current, user) == Group(fs, [], None)
    {
      var m := fs[n];
      assert fs[n..][1..] == fs[n + 1..];
      if m.role.User? && current != [] && user != Some(m.source) {
        assert groups + ([current] + Group(fs[n + 1..], [m], Some(m.source)))
            == groups + [current] + Group(fs[n + 1..], [m], Some(m.source));
        assert [] + [m] == [m];
        groups, current, user := groups + [current], [], None;
      }
      current := current + [m];
      if m.role.User? {
        user := Some(m.source);
      }
    }
    if current != [] {
      groups := groups + [current];
    }
  }

  method BatchTurn(t: Tokens, ms: seq<Message>, max: nat) returns (turns: seq<Turn>)
    ensures turns == Batch(t, ms, [], max)
  {
    turns := [];
    var batch: seq<Message>, tokens: nat := [], 0;
    for n := 0 to |ms|
      invariant turns + Batch(t, ms[n..], batch, max) == Batch(t, ms, [], max)
      invariant tokens == Cost(t, batch)
    {
      var cost := MessageCost(t, ms[n]);
      assert ms[n..][1..] == ms[n + 1..];
      CostSnoc(t, batch, ms[n]);
      CostSnoc(t, [], ms[n]);
      assert [] + [ms[n]] == [ms[n]];
      if batch != [] && tokens + cost > max {
        turns, batch, tokens := turns + [Turn(batch, tokens)], [], 0;
      }
      batch, tokens := batch + [ms[n]], tokens + cost;
    }
    if batch != [] {
      turns := turns + [Turn(batch, tokens)];
    }
  }

  method ExpandMessages(t: Tokens, ms: seq<Message>, limit: int) returns (fragments: seq<Message>)
    ensures fragments == Expand(t, ms, limit)
  {
    fragments := [];
    for n := 0 to |ms|
      invariant fragments + Expand(t, ms[n..], limit) == Expand(t, ms, limit)
    {
      assert ms[n..][1..] == ms[n + 1..];
      fragments := fragments + SplitLong(t, ms[n], limit);
    }
  }

  method BuildTurns(t: Tokens, ms: seq<Message>, max: nat) returns (turns: seq<Turn>)
    ensures turns == Turns(t, ms, max)
  {
    var fragments := ExpandMessages(t, ms, max - 16);
    var groups := GroupTurns(fragments);
    turns := [];
    for n := 0 to |groups|
      invariant turns + Bound(t, groups[n..], max) == Bound(t, groups, max)
    {
      assert groups[n..][1..] == groups[n + 1..];
      var cost := Cost(t, groups[n]);
      if cost <= max {
        turns := turns + [Turn(groups[n], cost)];
      } else {
        var batches := BatchTurn(t, groups[n], max);
        turns := turns + batches;
      }
    }
  }
}
