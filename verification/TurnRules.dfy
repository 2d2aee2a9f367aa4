/** Where turns begin and end, said of the turns alone: at questions, and where the limit forces a cut. */
module TurnRules {
  import opened Wrappers
  import opened Chunking

  /** The source of the last question among the fragments, if there is one. */
  function LastAsked(fs: seq<Message>): Option<nat> {
    if fs == [] then None
    else if fs[|fs| - 1].role.User? then Some(fs[|fs| - 1].source)
    else LastAsked(fs[..|fs| - 1])
  }

  /** Behind the fragments `before`, the fragment `m` asks something new. */
  predicate AsksAnew(before: seq<Message>, m: Message) {
    m.role.User? && LastAsked(before) != Some(m.source)
  }

  // `LastAsked` from the front: `user` was asked last before `fs`.
  function Asked(user: Option<nat>, fs: seq<Message>): Option<nat>
    decreases |fs|
  {
    if fs == [] then user else Asked(if fs[0].role.User? then Some(fs[0].source) else user, fs[1..])
  }

  lemma {:induction false} AskedSnoc(user: Option<nat>, fs: seq<Message>, m: Message)
    ensures Asked(user, fs + [m]) == if m.role.User? then Some(m.source) else Asked(user, fs)
    decreases |fs|
  {
    if fs == [] {
      assert [] + [m] == [m] && [m][1..] == [];
      assert Asked(user, [m]) == Asked(if m.role.User? then Some(m.source) else user, [m][1..]);
    } else {
      assert (fs + [m])[0] == fs[0] && (fs + [m])[1..] == fs[1..] + [m];
      AskedSnoc(if fs[0].role.User? then Some(fs[0].source) else user, fs[1..], m);
    }
  }

  lemma {:induction false} AskedIsLast(fs: seq<Message>)
    ensures Asked(None, fs) == LastAsked(fs)
  {
    if fs != [] {
      var front, m := fs[..|fs| - 1], fs[|fs| - 1];
      assert fs == front + [m];
      AskedSnoc(None, front, m);
      AskedIsLast(front);
    }
  }

  // With a question in front it does not matter what was asked before.
  lemma AskedFresh(user: Option<nat>, other: Option<nat>, fs: seq<Message>)
    requires fs != [] && fs[0].role.User?
    ensures Asked(user, fs) == Asked(other, fs)
  {
  }

  lemma {:induction false} AskedConcat(user: Option<nat>, a: seq<Message>, b: seq<Message>)
    ensures Asked(user, a + b) == Asked(Asked(user, a), b)
    decreases |a|
  {
    if a == [] {
      assert a + b == b;
    } else {
      assert (a + b)[0] == a[0] && (a + b)[1..] == a[1..] + b;
      AskedConcat(if a[0].role.User? then Some(a[0].source) else user, a[1..], b);
    }
  }

  /****** groups ******/

  // A new question closes the groups in front of it.
  lemma {:induction false} GroupCut(a: seq<Message>, rest: seq<Message>, current: seq<Message>, user: Option<nat>)
    requires rest != [] && rest[0].role.User? && current + a != [] && Asked(user, a) != Some(rest[0].source)
    ensures Group(a + rest, current, user) == Group(a, current, user) + Group(rest, [], None)
    decreases |a|
  {
    if a == [] {
      assert a + rest == rest && [] + [rest[0]] == [rest[0]];
      assert Group(rest, [], None) == Group(rest[1..], [rest[0]], Some(rest[0].source));
    } else {
      var m := a[0];
      assert (a + rest)[0] == m && (a + rest)[1..] == a[1..] + rest;
      if StartsTurn(m, current, user) {
        GroupCut(a[1..], rest, [m], Some(m.source));
        assert [current] + (Group(a[1..], [m], Some(m.source)) + Group(rest, [], None))
            == [current] + Group(a[1..], [m], Some(m.source)) + Group(rest, [], None);
      } else {
        GroupCut(a[1..], rest, current + [m], if m.role.User? then Some(m.source) else user);
      }
    }
  }

  // No fragment of `fs` behind `current` asks anything new.
  predicate OneAsked(current: seq<Message>, user: Option<nat>, fs: seq<Message>) {
    forall k :: 0 <= k < |fs| && current + fs[..k] != [] && fs[k].role.User? ==> Asked(user, fs[..k]) == Some(fs[k].source)
  }

  lemma {:induction false} GroupWhole(fs: seq<Message>, current: seq<Message>, user: Option<nat>)
    requires OneAsked(current, user, fs) && current + fs != []
    ensures Group(fs, current, user) == [current + fs]
    decreases |fs|
  {
    if fs == [] {
      assert current + fs == current;
    } else {
      var m, user' := fs[0], if fs[0].role.User? then Some(fs[0].source) else user;
      assert fs[..0] == [] && current + [] == current;
      assert !StartsTurn(m, current, user);
      forall k | 0 <= k < |fs[1..]| && fs[1..][k].role.User? ensures Asked(user', fs[1..][..k]) == Some(fs[1..][k].source) {
        assert fs[..k + 1][0] == m && fs[..k + 1][1..] == fs[1..][..k];
        assert current + fs[..k + 1] != [];
      }
      GroupWhole(fs[1..], current + [m], user');
      assert current + [m] + fs[1..] == current + fs;
    }
  }

  lemma {:induction false} BoundConcat(t: Tokens, a: seq<seq<Message>>, b: seq<seq<Message>>, max: nat)
    ensures Bound(t, a + b, max) == Bound(t, a, max) + Bound(t, b, max)
  {
    if a == [] {
      assert a + b == b;
    } else {
      assert (a + b)[0] == a[0] && (a + b)[1..] == a[1..] + b;
      BoundConcat(t, a[1..], b, max);
    }
  }

  // Turns of the text up to a new question are turns of the whole text.
  lemma TurnsCut(t: Tokens, a: seq<Message>, rest: seq<Message>, max: nat)
    requires rest != [] ==> a == [] || AsksAnew(a, rest[0])
    ensures TurnsOf(t, a + rest, max) == TurnsOf(t, a, max) + TurnsOf(t, rest, max)
  {
    if rest == [] {
      assert a + rest == a;
    } else if a == [] {
      assert a + rest == rest;
    } else {
      AskedIsLast(a);
      assert [] + a == a;
      GroupCut(a, rest, [], None);
      BoundConcat(t, Group(a, [], None), Group(rest, [], None), max);
    }
  }

  lemma TurnsOfKeep(t: Tokens, fs: seq<Message>, max: nat)
    ensures Flatten(TurnsOf(t, fs, max)) == fs
  {
    GroupKeeps(fs, [], None);
    assert [] + fs == fs;
    BoundKeeps(t, Group(fs, [], None), max, false);
  }

  // A question with what follows it, up to the next one
  predicate Exchange(a: seq<Message>, g: seq<Message>, b: seq<Message>) {
    && g != [] && (a == [] || AsksAnew(a, g[0])) && (b == [] || AsksAnew(a + g, b[0]))
    && (forall k :: 0 < k < |g| ==> !AsksAnew(a + g[..k], g[k]))
  }

  lemma ExchangeIsGroup(a: seq<Message>, g: seq<Message>, b: seq<Message>)
    requires Exchange(a, g, b)
    ensures Group(g, [], None) == [g]
  {
    forall k | 0 <= k < |g| && [] + g[..k] != [] && g[k].role.User? ensures Asked(None, g[..k]) == Some(g[k].source) {
      assert k > 0 && g[..k][0] == g[0];
      AskedIsLast(a + g[..k]);
      AskedConcat(None, a, g[..k]);
      if a != [] {
        AskedFresh(Asked(None, a), None, g[..k]);
      }
    }
    GroupWhole(g, [], None);
    assert [] + g == g;
  }

  /**
  A turn begins at every new question, and a question with all that follows it up to the next one is a
  single turn whenever it costs no more than the limit.
   */
  lemma ExchangeIsTurn(t: Tokens, ms: seq<Message>, max: nat, a: seq<Message>, g: seq<Message>, b: seq<Message>)
    requires Expand(t, ms, max - 16) == a + g + b && Exchange(a, g, b)
    ensures exists i, j :: 0 <= i <= j <= |Turns(t, ms, max)| && Flatten(Turns(t, ms, max)[..i]) == a
                           && Flatten(Turns(t, ms, max)[i..j]) == g
                           && (Cost(t, g) <= max ==> Turns(t, ms, max)[i..j] == [Turn(g, Cost(t, g))])
  {
    var turns := Turns(t, ms, max);
    var x, y, z := TurnsOf(t, a, max), TurnsOf(t, g, max), TurnsOf(t, b, max);
    AfterExchange(a, g, b);
    TurnsCut(t, a + g, b, max);
    TurnsCut(t, a, g, max);
    assert turns == x + y + z;
    TurnsOfKeep(t, a, max);
    TurnsOfKeep(t, g, max);
    ExchangeIsGroup(a, g, b);
    assert [g][1..] == [];
    assert Cost(t, g) <= max ==> y == [Turn(g, Cost(t, g))] + Bound(t, [g][1..], max);
    hide TurnsOf, Turns, Exchange;
    var i, j := |x|, |x| + |y|;
    assert turns[..i] == x && turns[i..j] == y;
  }

  lemma AfterExchange(a: seq<Message>, g: seq<Message>, b: seq<Message>)
    requires Exchange(a, g, b)
    ensures b != [] ==> a + g == [] || AsksAnew(a + g, b[0])
    ensures g != [] ==> a == [] || AsksAnew(a, g[0])
  {
  }

  /****** nowhere else ******/

  // Behind `sofar`, turn `next` may begin after turn `last`.
  predicate StartOk(t: Tokens, sofar: seq<Message>, last: Turn, next: Turn, max: nat) {
    next.messages != [] && (AsksAnew(sofar, next.messages[0]) || last.tokens + MessageCost(t, next.messages[0]) > max)
  }

  predicate Starts(t: Tokens, before: seq<Message>, turns: seq<Turn>, max: nat) {
    forall i :: 0 < i < |turns| ==> StartOk(t, before + Flatten(turns[..i]), turns[i - 1], turns[i], max)
  }

  lemma StartsBehind(t: Tokens, before: seq<Message>, a: seq<Turn>, b: seq<Turn>, max: nat, j: nat)
    requires Starts(t, before + Flatten(a), b, max) && j < |b| && (a != [] || j > 0)
    requires a != [] && b != [] ==> StartOk(t, before + Flatten(a), a[|a| - 1], b[0], max)
    ensures StartOk(t, before + Flatten(a + b[..j]), if j == 0 then a[|a| - 1] else b[j - 1], b[j], max)
  {
    assert j > 0 ==> StartOk(t, before + Flatten(a) + Flatten(b[..j]), b[j - 1], b[j], max);
    hide StartOk, Starts;
    FlattenConcat(a, b[..j]);
    Regroup(before, Flatten(a), Flatten(b[..j]));
    assert j == 0 ==> a + b[..j] == a;
  }

  lemma Slices(a: seq<Turn>, b: seq<Turn>, i: nat)
    requires |a| <= i < |a + b| && (a != [] || i > 0)
    ensures var all := a + b; all[..i] == a + b[..i - |a|] && all[i] == b[i - |a|]
                              && (i > 0 ==> all[i - 1] == if i == |a| then a[|a| - 1] else b[i - |a| - 1])
  {
  }

  lemma StartsConcat(t: Tokens, before: seq<Message>, a: seq<Turn>, b: seq<Turn>, max: nat)
    requires Starts(t, before, a, max) && Starts(t, before + Flatten(a), b, max)
    requires a != [] && b != [] ==> StartOk(t, before + Flatten(a), a[|a| - 1], b[0], max)
    ensures Starts(t, before, a + b, max)
  {
    hide StartOk, Flatten;
    forall i | 0 < i < |a + b| ensures StartOk(t, before + Flatten((a + b)[..i]), (a + b)[i - 1], (a + b)[i], max) {
      if i < |a| {
        StartsFront(t, before, a, b, max, i);
      } else {
        StartsBack(t, before, a, b, max, i);
      }
    }
  }

  lemma StartsFront(t: Tokens, before: seq<Message>, a: seq<Turn>, b: seq<Turn>, max: nat, i: nat)
    requires Starts(t, before, a, max) && 0 < i < |a|
    ensures StartOk(t, before + Flatten((a + b)[..i]), (a + b)[i - 1], (a + b)[i], max)
  {
    hide StartOk, Flatten;
    assert (a + b)[..i] == a[..i] && (a + b)[i] == a[i] && (a + b)[i - 1] == a[i - 1];
  }

  lemma StartsBack(t: Tokens, before: seq<Message>, a: seq<Turn>, b: seq<Turn>, max: nat, i: nat)
    requires Starts(t, before, a, max) && Starts(t, before + Flatten(a), b, max) && |a| <= i < |a + b| && i > 0
    requires a != [] && b != [] ==> StartOk(t, before + Flatten(a), a[|a| - 1], b[0], max)
    ensures StartOk(t, before + Flatten((a + b)[..i]), (a + b)[i - 1], (a + b)[i], max)
  {
    StartsBehind(t, before, a, b, max, i - |a|);
    hide *;
    Slices(a, b, i);
  }

  lemma Regroup(a: seq<Message>, b: seq<Message>, c: seq<Message>)
    ensures a + (b + c) == a + b + c
  {
  }

  lemma {:induction false} BatchHead(t: Tokens, ms: seq<Message>, batch: seq<Message>, max: nat)
    requires batch != []
    ensures var b := Batch(t, ms, batch, max); b != [] && b[0].messages != [] && b[0].messages[0] == batch[0]
    decreases |ms|
  {
    if ms != [] && Cost(t, batch) + MessageCost(t, ms[0]) <= max {
      BatchHead(t, ms[1..], batch + [ms[0]], max);
    }
  }

  lemma {:induction false} BatchStarts(t: Tokens, before: seq<Message>, ms: seq<Message>, batch: seq<Message>, max: nat)
    ensures Starts(t, before, Batch(t, ms, batch, max), max)
    decreases |ms|
  {
    if ms != [] {
      if batch != [] && Cost(t, batch) + MessageCost(t, ms[0]) > max {
        var first := Turn(batch, Cost(t, batch));
        BatchHead(t, ms[1..], [ms[0]], max);
        BatchStarts(t, before + Flatten([first]), ms[1..], [ms[0]], max);
        StartsConcat(t, before, [first], Batch(t, ms[1..], [ms[0]], max), max);
      } else {
        BatchStarts(t, before, ms[1..], batch + [ms[0]], max);
      }
    }
  }

  // The turns of one group
  function FirstTurns(t: Tokens, g: seq<Message>, max: nat): seq<Turn> {
    if Cost(t, g) <= max then [Turn(g, Cost(t, g))] else Batch(t, g, [], max)
  }

  lemma FirstStarts(t: Tokens, before: seq<Message>, g: seq<Message>, max: nat)
    requires g != []
    ensures var f := FirstTurns(t, g, max);
            f != [] && f[0].messages != [] && f[0].messages[0] == g[0] && Starts(t, before, f, max) && Flatten(f) == g
  {
    FirstKeeps(t, g, max, false);
    BatchStarts(t, before, g, [], max);
    if Cost(t, g) > max {
      assert [] + [g[0]] == [g[0]];
      BatchHead(t, g[1..], [g[0]], max);
    }
  }

  // Every group but the first begins with something newly asked.
  predicate GroupsAsk(before: seq<Message>, groups: seq<seq<Message>>) {
    && (forall j :: 0 <= j < |groups| ==> groups[j] != [])
    && (forall j :: 0 < j < |groups| ==> AsksAnew(before + FlattenGroups(groups[..j]), groups[j][0]))
  }

  lemma GroupsAskTail(before: seq<Message>, groups: seq<seq<Message>>)
    requires groups != [] && GroupsAsk(before, groups)
    ensures GroupsAsk(before + groups[0], groups[1..])
    ensures |groups| > 1 ==> AsksAnew(before + groups[0], groups[1][0])
  {
    forall j | 0 <= j < |groups| - 1
      ensures before + FlattenGroups(groups[..j + 1]) == before + groups[0] + FlattenGroups(groups[1..][..j])
    {
      assert groups[..j + 1][0] == groups[0] && groups[..j + 1][1..] == groups[1..][..j];
    }
    assert groups[1..][..0] == [] && before + groups[0] + [] == before + groups[0];
    forall j | 0 < j < |groups[1..]| ensures AsksAnew(before + groups[0] + FlattenGroups(groups[1..][..j]), groups[1..][j][0]) {
      assert AsksAnew(before + FlattenGroups(groups[..j + 1]), groups[j + 1][0]);
    }
    if |groups| > 1 {
      assert AsksAnew(before + FlattenGroups(groups[..0 + 1]), groups[1][0]);
    }
  }

  lemma {:induction false} BoundStarts(t: Tokens, before: seq<Message>, groups: seq<seq<Message>>, max: nat)
    requires GroupsAsk(before, groups)
    ensures Starts(t, before, Bound(t, groups, max), max)
    ensures groups != [] ==> var b := Bound(t, groups, max); b != [] && b[0].messages != [] && b[0].messages[0] == groups[0][0]
    decreases |groups|
  {
    if groups != [] {
      var f, rest := FirstTurns(t, groups[0], max), Bound(t, groups[1..], max);
      assert Bound(t, groups, max) == f + rest;
      FirstStarts(t, before, groups[0], max);
      GroupsAskTail(before, groups);
      hide FirstTurns, GroupsAsk, Starts, Flatten, AsksAnew;
      BoundStarts(t, before + groups[0], groups[1..], max);
      StartsConcat(t, before, f, rest, max);
    }
  }

  lemma {:induction false} GroupHead(fs: seq<Message>, current: seq<Message>, user: Option<nat>)
    requires current != []
    ensures var g := Group(fs, current, user); g != [] && g[0] != [] && g[0][0] == current[0]
    decreases |fs|
  {
    if fs != [] && !StartsTurn(fs[0], current, user) {
      GroupHead(fs[1..], current + [fs[0]], if fs[0].role.User? then Some(fs[0].source) else user);
    }
  }

  lemma AskedNow(sofar: seq<Message>, m: Message)
    ensures LastAsked(sofar + [m]) == if m.role.User? then Some(m.source) else LastAsked(sofar)
  {
    assert (sofar + [m])[..|sofar|] == sofar;
  }

  lemma AskCons(before: seq<Message>, g: seq<Message>, groups: seq<seq<Message>>)
    requires g != [] && GroupsAsk(before + g, groups) && (groups != [] ==> AsksAnew(before + g, groups[0][0]))
    ensures GroupsAsk(before, [g] + groups)
  {
    var all := [g] + groups;
    forall j | 0 < j < |all| ensures AsksAnew(before + FlattenGroups(all[..j]), all[j][0]) {
      assert all[..j][0] == g && all[..j][1..] == groups[..j - 1];
      assert before + (g + FlattenGroups(groups[..j - 1])) == before + g + FlattenGroups(groups[..j - 1]);
      assert groups[..0] == [] && before + g + [] == before + g;
    }
  }

  lemma {:induction false} GroupAsks(before: seq<Message>, fs: seq<Message>, current: seq<Message>, user: Option<nat>)
    requires user == LastAsked(before + current)
    ensures GroupsAsk(before, Group(fs, current, user))
    decreases |fs|
  {
    if fs != [] {
      var m := fs[0];
      AskedNow(before + current, m);
      if StartsTurn(m, current, user) {
        GroupAsks(before + current, fs[1..], [m], Some(m.source));
        GroupHead(fs[1..], [m], Some(m.source));
        AskCons(before, current, Group(fs[1..], [m], Some(m.source)));
      } else {
        assert before + (current + [m]) == before + current + [m];
        GroupAsks(before, fs[1..], current + [m], if m.role.User? then Some(m.source) else user);
      }
    }
  }

  lemma {:induction false} BatchWithin(t: Tokens, ms: seq<Message>, batch: seq<Message>, max: nat)
    ensures forall turn, m :: turn in Batch(t, ms, batch, max) && m in turn.messages ==> m in batch || m in ms
    decreases |ms|
  {
    if ms != [] {
      assert ms == [ms[0]] + ms[1..];
      var first := Turn(batch, Cost(t, batch));
      if batch != [] && Cost(t, batch) + MessageCost(t, ms[0]) > max {
        BatchWithin(t, ms[1..], [ms[0]], max);
        assert forall turn :: turn in [first] + Batch(t, ms[1..], [ms[0]], max) ==> turn == first || turn in Batch(t, ms[1..], [ms[0]], max);
      } else {
        BatchWithin(t, ms[1..], batch + [ms[0]], max);
      }
    } else if batch != [] {
      assert forall turn :: turn in [Turn(batch, Cost(t, batch))] ==> turn.messages == batch;
    }
  }

  // All questions of the turn are parts of one message.
  predicate AsksOnce(turn: Turn) {
    forall m, n :: m in turn.messages && n in turn.messages && m.role.User? && n.role.User? ==> m.source == n.source
  }

  lemma {:induction false} BoundAsksOnce(t: Tokens, groups: seq<seq<Message>>, max: nat)
    requires forall i :: 0 <= i < |groups| ==> QuestionFirst(groups[i])
    ensures forall turn :: turn in Bound(t, groups, max) ==> AsksOnce(turn)
  {
    if groups != [] {
      BoundAsksOnce(t, groups[1..], max);
      BatchWithin(t, groups[0], [], max);
      var user :| OneQuestion(groups[0], user);
      assert forall m :: m in groups[0] && m.role.User? ==> user == Some(m.source);
    }
  }

  lemma TurnsAskOnce(t: Tokens, fs: seq<Message>, max: nat)
    ensures forall turn :: turn in TurnsOf(t, fs, max) ==> AsksOnce(turn)
  {
    GroupsFirst(fs, [], None, Group(fs, [], None));
    BoundAsksOnce(t, Group(fs, [], None), max);
  }

  lemma GroupsFirst(fs: seq<Message>, current: seq<Message>, user: Option<nat>, groups: seq<seq<Message>>)
    requires groups == Group(fs, current, user) && OneQuestion(current, user)
    ensures forall j :: 0 <= j < |groups| ==> QuestionFirst(groups[j])
  {
    GroupsStartWithQuestion(fs, current, user);
  }

  /**
  A turn behind the first begins nowhere else than at something newly asked, or at a fragment that would
  have taken the turn in front over the limit; and no turn holds questions of two messages.
   */
  lemma TurnsStart(t: Tokens, ms: seq<Message>, max: nat, i: nat)
    requires i < |Turns(t, ms, max)|
    ensures var turns := Turns(t, ms, max);
            && turns[i].messages != []
            && (i > 0 ==> AsksAnew(Flatten(turns[..i]), turns[i].messages[0])
                          || turns[i - 1].tokens + MessageCost(t, turns[i].messages[0]) > max)
            && (forall m, n :: m in turns[i].messages && n in turns[i].messages && m.role.User? && n.role.User? ==> m.source == n.source)
  {
    var fs := Expand(t, ms, max - 16);
    var groups, turns := Group(fs, [], None), Turns(t, ms, max);
    var none: seq<Message> := [];
    assert none + none == none;
    GroupAsks([], fs, [], None);
    BoundStarts(t, [], groups, max);
    TurnsAskOnce(t, fs, max);
    assert turns[i] in turns && AsksOnce(turns[i]);
    TurnsKeep(t, ms, max);
    if i > 0 {
      assert StartOk(t, [] + Flatten(turns[..i]), turns[i - 1], turns[i], max);
      assert [] + Flatten(turns[..i]) == Flatten(turns[..i]);
    }
  }
}
