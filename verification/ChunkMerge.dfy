/** Writing a run of turns down as one chunk: the fragments of a message become one message again. */
module ChunkMerge {
  import opened Wrappers
  import opened Chunking

  /** `parent` and `depth` are set on the children of a split. */
  datatype Chunk = Chunk(
    messages: seq<Message>,
    tokens: nat,
    sources: seq<nat>,
    core: seq<nat>,
    overlap: nat,
    depth: nat,
    parent: Option<nat>)

  // One source index under two roles
  datatype SourceClash = SourceClash(source: nat)

  function Find(ms: seq<Message>, source: nat): (p: Option<nat>)
    ensures p.Some? ==> p.value < |ms| && ms[p.value].source == source
    ensures p.None? ==> forall m :: m in ms ==> m.source != source
  {
    if ms == [] then None
    else if ms[0].source == source then Some(0)
    else match Find(ms[1..], source) case None => None case Some(p) => Some(p + 1)
  }

  function Join(ms: seq<Message>, f: Message): Result<seq<Message>, SourceClash> {
    match Find(ms, f.source)
    case None => Success(ms + [f])
    case Some(p) =>
      if ms[p].role != f.role then Failure(SourceClash(f.source))
      else Success(ms[p := ms[p].(content := ms[p].content + f.content)])
  }

  function MergeInto(ms: seq<Message>, fs: seq<Message>): Result<seq<Message>, SourceClash>
    decreases |fs|
  {
    if fs == [] then Success(ms) else
    match Join(ms, fs[0])
    case Failure(e) => Failure(e)
    case Success(ms') => MergeInto(ms', fs[1..])
  }

  function Merge(fs: seq<Message>): Result<seq<Message>, SourceClash> {
    MergeInto([], fs)
  }

  // The merge loop; the dictionary maps a source index to the position of its message.
  method MergeFragments(fs: seq<Message>) returns (r: Result<seq<Message>, SourceClash>)
    ensures r == Merge(fs)
  {
    var ms: seq<Message>, positions: map<nat, nat> := [], map[];
    for n := 0 to |fs|
      invariant MergeInto(ms, fs[n..]) == Merge(fs)
      invariant DistinctSources(ms)
      invariant positions.Keys == SourcesOf(ms)
      invariant forall s :: s in positions ==> positions[s] < |ms| && ms[positions[s]].source == s
    {
      var f := fs[n];
      assert fs[n..][1..] == fs[n + 1..];
      if Join(ms, f).Success? {
        JoinShape(ms, f);
      }
      if f.source !in positions {
        positions := positions[f.source := |ms|];
        ms := ms + [f];
      } else {
        var p := positions[f.source];
        assert ms[p] in ms && Find(ms, f.source) == Some(p);
        if ms[p].role != f.role {
          return Failure(SourceClash(f.source));
        }
        ms := ms[p := ms[p].(content := ms[p].content + f.content)];
      }
    }
    r := Success(ms);
  }

  function Sources(ms: seq<Message>): seq<nat> {
    seq(|ms|, i requires 0 <= i < |ms| => ms[i].source)
  }

  // `a` is found in `xs` before any `b` is.
  predicate Precedes(xs: seq<nat>, a: nat, b: nat) {
    exists p :: 0 <= p < |xs| && xs[p] == a && forall q :: 0 <= q <= p ==> xs[q] != b
  }

  // `dict.fromkeys`: every value once, where it first occurs
  function FirstOnly(xs: seq<nat>): (r: seq<nat>)
    ensures forall x :: x in r <==> x in xs
    ensures forall i, j :: 0 <= i < j < |r| ==> r[i] != r[j] && Precedes(xs, r[i], r[j])
  {
    if xs == [] then [] else
    var init, x := xs[..|xs| - 1], xs[|xs| - 1];
    var rest := FirstOnly(init);
    assert xs == init + [x];
    var r := if x in rest then rest else rest + [x];
    FirstOrder(init, x, rest, r);
    r
  }

  lemma FirstOrder(init: seq<nat>, x: nat, rest: seq<nat>, r: seq<nat>)
    requires r == if x in rest then rest else rest + [x]
    requires (forall y :: y in rest <==> y in init) && forall i, j :: 0 <= i < j < |rest| ==> rest[i] != rest[j] && Precedes(init, rest[i], rest[j])
    ensures forall i, j :: 0 <= i < j < |r| ==> r[i] != r[j] && Precedes(init + [x], r[i], r[j])
  {
    forall i, j | 0 <= i < j < |r| ensures r[i] != r[j] && Precedes(init + [x], r[i], r[j]) {
      if j < |rest| {
        assert Precedes(init, rest[i], rest[j]);
        var p :| 0 <= p < |init| && init[p] == rest[i] && forall q :: 0 <= q <= p ==> init[q] != rest[j];
        assert (init + [x])[p] == rest[i];
      } else {
        assert r[i] in init;
        var p :| 0 <= p < |init| && init[p] == r[i];
        assert x !in init;
        assert (init + [x])[p] == r[i] && forall q :: 0 <= q <= p ==> init[q] in init;
      }
    }
  }

  predicate DistinctSources(ms: seq<Message>) {
    forall i, j :: 0 <= i < j < |ms| ==> ms[i].source != ms[j].source
  }

  ghost function SourcesOf(ms: seq<Message>): set<nat> {
    set m | m in ms :: m.source
  }

  /** With one message per source, the text of a source is that message's content. */
  lemma {:induction false} TextIs(ms: seq<Message>, s: nat)
    requires DistinctSources(ms)
    ensures TextOf(ms, s) == match Find(ms, s) case None => "" case Some(p) => ms[p].content
  {
    if ms != [] {
      if ms[0].source == s {
        forall m | m in ms[1..] ensures m.source != s {
          var i :| 0 <= i < |ms[1..]| && ms[1..][i] == m;
          assert ms[i + 1] == m;
        }
        NoText(ms[1..], s);
      } else {
        TextIs(ms[1..], s);
      }
    }
  }

  lemma {:induction false} NoText(ms: seq<Message>, s: nat)
    requires forall m :: m in ms ==> m.source != s
    ensures TextOf(ms, s) == ""
  {
    if ms != [] {
      assert ms[0] in ms && forall m :: m in ms[1..] ==> m in ms;
      NoText(ms[1..], s);
    }
  }

  lemma JoinShape(ms: seq<Message>, f: Message)
    requires DistinctSources(ms) && Join(ms, f).Success?
    ensures var ms' := Join(ms, f).value;
            && DistinctSources(ms') && SourcesOf(ms') == SourcesOf(ms) + {f.source}
            && (HasText(ms) && f.content != "" ==> HasText(ms'))
  {
    var ms' := Join(ms, f).value;
    match Find(ms, f.source)
    case None =>
      forall i, j | 0 <= i < j < |ms'| ensures ms'[i].source != ms'[j].source {
        assert ms'[i] in ms;
      }
    case Some(p) =>
      forall s ensures s in SourcesOf(ms') <==> s in SourcesOf(ms) + {f.source} {
        if s in SourcesOf(ms) {
          var i :| 0 <= i < |ms| && ms[i].source == s;
          assert ms'[i] in ms' && ms'[i].source == s;
        }
        if s in SourcesOf(ms') {
          var i :| 0 <= i < |ms'| && ms'[i].source == s;
          assert ms[i] in ms;
        }
      }
  }

  // The message joins the text of its own source, behind what is there, and no other.
  lemma JoinText(ms: seq<Message>, f: Message, s: nat)
    requires DistinctSources(ms) && Join(ms, f).Success?
    ensures TextOf(Join(ms, f).value, s) == TextOf(ms, s) + if f.source == s then f.content else ""
  {
    var ms' := Join(ms, f).value;
    JoinShape(ms, f);
    JoinFind(ms, f, s);
    hide Join, DistinctSources, TextOf;
    TextIs(ms, s);
    TextIs(ms', s);
  }

  lemma JoinFind(ms: seq<Message>, f: Message, s: nat)
    requires DistinctSources(ms) && Join(ms, f).Success? && DistinctSources(Join(ms, f).value)
    ensures var ms' := Join(ms, f).value;
            match Find(ms', s)
            case None => Find(ms, s).None? && f.source != s
            case Some(p) =>
              ms'[p].content == (if Find(ms, s).Some? then ms[Find(ms, s).value].content else "")
                                + (if f.source == s then f.content else "")
  {
    hide HasText;
    var ms' := Join(ms, f).value;
    if Find(ms, s).Some? {
      var p := Find(ms, s).value;
      assert ms'[p] in ms' && ms'[p].source == s;
      assert Find(ms', s) == Some(p);
    } else if f.source == s {
      assert ms'[|ms|] in ms';
      assert Find(ms', s) == Some(|ms|);
    }
  }

  // Each source has one role, in `ms` and `fs` together.
  predicate OneRole(ms: seq<Message>, fs: seq<Message>) {
    forall m, n :: m in ms + fs && n in ms + fs && m.source == n.source ==> m.role == n.role
  }

  lemma JoinRoles(ms: seq<Message>, fs: seq<Message>)
    requires fs != [] && OneRole(ms, fs)
    ensures Join(ms, fs[0]).Success? && OneRole(Join(ms, fs[0]).value, fs[1..])
  {
    var f := fs[0];
    assert f in ms + fs;
    match Find(ms, f.source)
    case None =>
      assert forall m :: m in ms + [f] + fs[1..] ==> m in ms + fs;
    case Some(p) =>
      assert ms[p] in ms + fs;
      var ms' := Join(ms, f).value;
      forall m | m in ms' + fs[1..] ensures exists n :: n in ms + fs && n.source == m.source && n.role == m.role {
        if m in fs[1..] {
          assert m in ms + fs;
        } else {
          var i :| 0 <= i < |ms'| && ms'[i] == m;
          assert ms[i] in ms + fs;
        }
      }
  }

  lemma Head(fs: seq<Message>)
    requires fs != []
    ensures SourcesOf(fs) == {fs[0].source} + SourcesOf(fs[1..])
    ensures HasText(fs) ==> fs[0].content != "" && HasText(fs[1..])
  {
    assert fs == [fs[0]] + fs[1..];
  }

  lemma {:induction false} MergeIntoShape(ms: seq<Message>, fs: seq<Message>)
    requires DistinctSources(ms) && OneRole(ms, fs)
    ensures MergeInto(ms, fs).Success? && DistinctSources(MergeInto(ms, fs).value)
    ensures SourcesOf(MergeInto(ms, fs).value) == SourcesOf(ms) + SourcesOf(fs)
    ensures HasText(ms) && HasText(fs) ==> HasText(MergeInto(ms, fs).value)
    decreases |fs|
  {
    if fs != [] {
      JoinRoles(ms, fs);
      JoinShape(ms, fs[0]);
      Head(fs);
      hide Join, DistinctSources, OneRole, SourcesOf, HasText;
      MergeIntoShape(Join(ms, fs[0]).value, fs[1..]);
    }
  }

  lemma Associative(a: string, b: string, c: string)
    ensures (a + b) + c == a + (b + c)
  {
  }

  lemma {:induction false} MergeIntoText(ms: seq<Message>, fs: seq<Message>, s: nat)
    requires DistinctSources(ms) && MergeInto(ms, fs).Success?
    ensures TextOf(MergeInto(ms, fs).value, s) == TextOf(ms, s) + TextOf(fs, s)
    decreases |fs|
  {
    if fs != [] {
      var ms', own := Join(ms, fs[0]).value, if fs[0].source == s then fs[0].content else "";
      JoinShape(ms, fs[0]);
      JoinText(ms, fs[0], s);
      Associative(TextOf(ms, s), own, TextOf(fs[1..], s));
      MergeIntoText(ms', fs[1..], s);
      hide *;
      assert TextOf(ms', s) == TextOf(ms, s) + own;
    }
  }

  /**
  Merging succeeds when every source has one role.  The result has one message per source, loses
  no text and keeps the order of fragments within a message.
   */
  lemma MergeKeeps(fs: seq<Message>, s: nat)
    requires OneRole([], fs)
    ensures Merge(fs).Success?
    ensures var r := Merge(fs).value;
            && DistinctSources(r) && SourcesOf(r) == SourcesOf(fs)
            && TextOf(r, s) == TextOf(fs, s) && (HasText(fs) ==> HasText(r))
  {
    MergeIntoShape([], fs);
    MergeIntoText([], fs, s);
  }

  /****** what is kept of the first fragment ******/

  lemma {:induction false} MergeSnoc(ms: seq<Message>, fs: seq<Message>, f: Message)
    ensures MergeInto(ms, fs + [f]) == match MergeInto(ms, fs) case Failure(e) => Failure(e) case Success(r) => Join(r, f)
    decreases |fs|
  {
    var all := fs + [f];
    if fs == [] {
      assert all[1..] == [];
    } else {
      assert all[0] == fs[0] && all[1..] == fs[1..] + [f];
      match Join(ms, fs[0])
      case Failure(_) =>
      case Success(ms') => MergeSnoc(ms', fs[1..], f);
    }
  }

  // Fragment `p` is the first of its message.
  predicate IsFirst(fs: seq<Message>, p: nat) {
    p < |fs| && forall q :: 0 <= q < p ==> fs[q].source != fs[p].source
  }

  // All but the text is that of the message's first fragment.
  ghost predicate FromFirst(m: Message, fs: seq<Message>) {
    exists p: nat :: IsFirst(fs, p) && m == fs[p].(content := m.content)
  }

  ghost predicate MadeFrom(r: seq<Message>, fs: seq<Message>) {
    && Sources(r) == FirstOnly(Sources(fs)) && (forall m :: m in r ==> FromFirst(m, fs)) && RolesKept(r, fs)
  }

  // The first fragment of a message stays the first when more come.
  lemma FirstStays(m: Message, fs: seq<Message>, f: Message, content: string)
    requires FromFirst(m, fs)
    ensures FromFirst(m.(content := content), fs + [f])
  {
    var p: nat :| IsFirst(fs, p) && m == fs[p].(content := m.content);
    assert IsFirst(fs + [f], p) && (fs + [f])[p] == fs[p];
  }

  ghost predicate RolesKept(r: seq<Message>, fs: seq<Message>) {
    forall f :: f in fs ==> exists m :: m in r && m.source == f.source && m.role == f.role
  }

  ghost predicate SameRoles(r: seq<Message>, r': seq<Message>) {
    |r| <= |r'| && forall i :: 0 <= i < |r| ==> r[i].source == r'[i].source && r[i].role == r'[i].role
  }

  lemma RolesStay(r: seq<Message>, r': seq<Message>, fs: seq<Message>, f: Message)
    requires RolesKept(r, fs) && SameRoles(r, r') && exists m :: m in r' && m.source == f.source && m.role == f.role
    ensures RolesKept(r', fs + [f])
  {
    forall g | g in fs ensures exists m :: m in r' && m.source == g.source && m.role == g.role {
      var m :| m in r && m.source == g.source && m.role == g.role;
      var i :| 0 <= i < |r| && r[i] == m;
      assert r'[i] in r';
    }
  }

  lemma JoinNew(r: seq<Message>, fs: seq<Message>, f: Message)
    requires MadeFrom(r, fs) && Find(r, f.source).None?
    ensures MadeFrom(r + [f], fs + [f])
  {
    var r', fs' := r + [f], fs + [f];
    assert f in r';
    RolesStay(r, r', fs, f);
    SourcesSnoc(r, f);
    SourcesSnoc(fs, f);
    SourcesHave(r, f.source);
    NewSource(r, fs, f);
    hide Sources, FirstOnly, RolesKept;
    forall m | m in r' ensures FromFirst(m, fs') {
      if m in r {
        FirstStays(m, fs, f, m.content);
      }
    }
  }

  lemma NewSource(r: seq<Message>, fs: seq<Message>, f: Message)
    requires MadeFrom(r, fs) && Find(r, f.source).None?
    ensures f.source !in Sources(fs) && FromFirst(f, fs + [f])
  {
    var fs' := fs + [f];
    SourcesHave(fs, f.source);
    assert f.source !in Sources(fs);
    assert IsFirst(fs', |fs|) && fs'[|fs|] == f;
  }

  lemma SourcesSnoc(ms: seq<Message>, f: Message)
    ensures Sources(ms + [f]) == Sources(ms) + [f.source]
    ensures FirstOnly(Sources(ms + [f])) == if f.source in Sources(ms) then FirstOnly(Sources(ms)) else FirstOnly(Sources(ms)) + [f.source]
  {
    var xs := Sources(ms + [f]);
    assert xs == Sources(ms) + [f.source];
    assert xs[..|xs| - 1] == Sources(ms) && xs[|xs| - 1] == f.source;
  }

  lemma SourcesHave(ms: seq<Message>, s: nat)
    ensures s in Sources(ms) <==> exists m :: m in ms && m.source == s
  {
    if s in Sources(ms) {
      var i :| 0 <= i < |ms| && Sources(ms)[i] == s;
      assert ms[i] in ms;
    }
    forall m | m in ms && m.source == s ensures s in Sources(ms) {
      var i :| 0 <= i < |ms| && ms[i] == m;
      assert Sources(ms)[i] == s;
    }
  }

  lemma AllStay(r: seq<Message>, r': seq<Message>, fs: seq<Message>, f: Message)
    requires (forall m :: m in r ==> FromFirst(m, fs)) && |r| == |r'|
    requires forall i :: 0 <= i < |r| ==> r'[i] == r[i].(content := r'[i].content)
    ensures forall m :: m in r' ==> FromFirst(m, fs + [f])
  {
    forall m | m in r' ensures FromFirst(m, fs + [f]) {
      var i :| 0 <= i < |r'| && r'[i] == m;
      assert r[i] in r;
      FirstStays(r[i], fs, f, m.content);
    }
  }

  lemma LongerText(r: seq<Message>, r': seq<Message>, p: nat, text: string)
    requires p < |r| && r' == r[p := r[p].(content := text)]
    ensures |r'| == |r| && (forall i :: 0 <= i < |r| ==> r'[i] == r[i].(content := r'[i].content))
    ensures Sources(r') == Sources(r) && SameRoles(r, r')
    ensures exists m :: m in r' && m.source == r[p].source && m.role == r[p].role
  {
    assert r'[p] in r';
  }

  lemma JoinOld(r: seq<Message>, fs: seq<Message>, f: Message, p: nat, r': seq<Message>)
    requires MadeFrom(r, fs) && Find(r, f.source) == Some(p) && r[p].role == f.role
    requires r' == r[p := r[p].(content := r[p].content + f.content)]
    ensures MadeFrom(r', fs + [f])
  {
    LongerText(r, r', p, r[p].content + f.content);
    SourcesSnoc(fs, f);
    assert f.source in Sources(fs) by {
      assert r[p] in r;
      SourcesHave(r, f.source);
    }
    hide FirstOnly, RolesKept, FromFirst, Precedes, SameRoles, Sources, Find;
    RolesStay(r, r', fs, f);
    AllStay(r, r', fs, f);
  }

  lemma {:induction false} MergeIsMadeFrom(fs: seq<Message>)
    requires Merge(fs).Success?
    ensures MadeFrom(Merge(fs).value, fs)
  {
    if fs != [] {
      var rest, f := fs[..|fs| - 1], fs[|fs| - 1];
      assert fs == rest + [f];
      MergeSnoc([], rest, f);
      MergeIsMadeFrom(rest);
      match Find(Merge(rest).value, f.source)
      case None => JoinNew(Merge(rest).value, rest, f);
      case Some(p) => JoinOld(Merge(rest).value, rest, f, p, Merge(fs).value);
    }
  }

  /**
  Merging fails exactly when two fragments give one source two roles.  Otherwise the messages are in the
  order of their first fragments, and each keeps everything but the text from that one.
   */
  lemma MergeIsOrdered(fs: seq<Message>)
    ensures Merge(fs).Failure? <==> exists m, n :: m in fs && n in fs && m.source == n.source && m.role != n.role
    ensures Merge(fs).Success? ==>
              var r := Merge(fs).value;
              && (forall i :: 0 <= i < |r| ==> exists p: nat :: IsFirst(fs, p) && r[i] == fs[p].(content := TextOf(fs, r[i].source)))
              && (forall i, j :: 0 <= i < j < |r| ==> Precedes(Sources(fs), r[i].source, r[j].source))
  {
    assert [] + fs == fs;
    if OneRole([], fs) {
      MergeKeeps(fs, 0);
    }
    if Merge(fs).Success? {
      MergeIsMadeFrom(fs);
      MergedRoles(fs, Merge(fs).value);
      MergedOrder(fs, Merge(fs).value);
      forall i | 0 <= i < |Merge(fs).value|
        ensures exists p: nat :: IsFirst(fs, p) && Merge(fs).value[i] == fs[p].(content := TextOf(fs, Merge(fs).value[i].source))
      {
        var m := Merge(fs).value[i];
        MergedText(fs, i);
        assert FromFirst(m, fs);
        var p: nat :| IsFirst(fs, p) && m == fs[p].(content := m.content);
      }
    }
  }

  lemma MergedRoles(fs: seq<Message>, r: seq<Message>)
    requires MadeFrom(r, fs)
    ensures DistinctSources(r) && forall m, n :: m in fs && n in fs && m.source == n.source ==> m.role == n.role
  {
    forall i, j | 0 <= i < j < |r| ensures r[i].source != r[j].source {
      assert Sources(r)[i] != Sources(r)[j];
    }
    assert DistinctSources(r);
  }

  lemma MergedOrder(fs: seq<Message>, r: seq<Message>)
    requires MadeFrom(r, fs)
    ensures forall i, j :: 0 <= i < j < |r| ==> Precedes(Sources(fs), r[i].source, r[j].source)
  {
    forall i, j | 0 <= i < j < |r| ensures Precedes(Sources(fs), r[i].source, r[j].source) {
      assert Sources(r)[i] == r[i].source && Sources(r)[j] == r[j].source;
    }
  }

  lemma MergedText(fs: seq<Message>, i: nat)
    requires Merge(fs).Success? && i < |Merge(fs).value| && DistinctSources(Merge(fs).value)
    ensures Merge(fs).value[i].content == TextOf(fs, Merge(fs).value[i].source)
  {
    var r := Merge(fs).value;
    var s := r[i].source;
    MergeIntoText([], fs, s);
    TextIs(r, s);
    assert r[i] in r;
    var p := Find(r, s).value;
    assert p == i;
  }
}
