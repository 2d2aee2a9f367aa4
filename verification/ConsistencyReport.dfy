/** The loops that fill the split-tree counters, and the verdict drawn from them. */
module ConsistencyReport {
  import opened Wrappers
  import CC = ConsistencyChecker
  import opened ConsistencyChecker

  predicate IsIndex(rows: seq<Row>, byKey: map<Key, nat>) {
    && (forall k :: k in byKey ==> HasRow(rows, k) && byKey[k] == RowOf(rows, k))
    && (forall i :: 0 <= i < |rows| && rows[i].key != 0 ==> rows[i].key in byKey)
  }

  predicate IsGrouping(rows: seq<Row>, children: map<Key, seq<nat>>) {
    && (forall k :: k in children ==> children[k] == Children(rows, k))
    && (forall i :: 0 <= i < |rows| && rows[i].parent.Some? ==> rows[i].parent.value in children)
  }

  function One(b: bool): nat { if b then 1 else 0 }

  lemma CountStep(n: nat, f: Fault)
    ensures Count(n + 1, f) == Count(n, f) + One(f(n))
  {
  }

  lemma CountNone(f: Fault)
    ensures Count(0, f) == 0
  {
  }

  method IndexRows(rows: seq<Row>) returns (byKey: map<Key, nat>, missing: nat, repeated: nat)
    ensures IsIndex(rows, byKey)
    ensures missing == Count(|rows|, MissingKey(rows)) && repeated == Count(|rows|, RepeatedKey(rows))
  {
    byKey, missing, repeated := map[], 0, 0;
    CountNone(MissingKey(rows));
    CountNone(RepeatedKey(rows));
    for n := 0 to |rows|
      invariant IsIndex(rows[..n], byKey)
      invariant missing == Count(n, MissingKey(rows)) && repeated == Count(n, RepeatedKey(rows))
    {
      hide Count, One;
      assert rows[..n + 1] == rows[..n] + [rows[n]];
      var key := rows[n].key;
      KeyFaults(rows, n, byKey);
      CountStep(n, MissingKey(rows));
      CountStep(n, RepeatedKey(rows));
      IndexStep(rows[..n], rows[n], byKey);
      hide *;
      if key == 0 {
        missing := missing + 1;
      } else {
        if key in byKey {
          repeated := repeated + 1;
        }
        byKey := byKey[key := n];
      }
    }
    assert rows[..|rows|] == rows;
  }

  lemma KeyFaults(rows: seq<Row>, n: nat, byKey: map<Key, nat>)
    requires n < |rows| && IsIndex(rows[..n], byKey)
    ensures One(MissingKey(rows)(n)) == if rows[n].key == 0 then 1 else 0
    ensures One(RepeatedKey(rows)(n)) == if rows[n].key != 0 && rows[n].key in byKey then 1 else 0
  {
    var key := rows[n].key;
    if key in byKey {
      var j := RowOf(rows[..n], key);
      assert rows[..n][j].key == key && rows[j].key == key;
    } else if key != 0 {
      forall j | 0 <= j < n ensures rows[j].key != key {
        assert rows[..n][j] == rows[j];
      }
    }
  }

  // One more row takes over its key.
  lemma IndexStep(rows: seq<Row>, row: Row, byKey: map<Key, nat>)
    requires IsIndex(rows, byKey)
    ensures IsIndex(rows + [row], if row.key == 0 then byKey else byKey[row.key := |rows|])
  {
    var all := rows + [row];
    var after := if row.key == 0 then byKey else byKey[row.key := |rows|];
    assert all[..|all| - 1] == rows;
    forall k | k in after ensures HasRow(all, k) && after[k] == RowOf(all, k) {
      if k in byKey && k != row.key {
        var i :| 0 <= i < |rows| && rows[i].key == k;
        assert all[i].key == k;
      } else {
        assert all[|rows|].key == k;
      }
    }
  }

  method GroupChildren(rows: seq<Row>) returns (children: map<Key, seq<nat>>)
    ensures IsGrouping(rows, children)
  {
    children := map[];
    for n := 0 to |rows|
      invariant IsGrouping(rows[..n], children)
    {
      GroupStep(rows, n, children);
      hide *;
      if rows[n].parent.Some? {
        var k := rows[n].parent.value;
        children := children[k := (if k in children then children[k] else []) + [n]];
      }
    }
    assert rows[..|rows|] == rows;
  }

  // One more row is appended to the children of its parent.
  lemma GroupStep(rows: seq<Row>, n: nat, children: map<Key, seq<nat>>)
    requires n < |rows| && IsGrouping(rows[..n], children)
    ensures IsGrouping(rows[..n + 1],
                       if rows[n].parent.None? then children
                       else children[rows[n].parent.value := (if rows[n].parent.value in children then children[rows[n].parent.value] else []) + [n]])
  {
    var before, all := rows[..n], rows[..n + 1];
    assert all == before + [rows[n]] && all[..n] == before;
    if rows[n].parent.Some? && rows[n].parent.value !in children {
      NoChildren(before, rows[n].parent.value);
    }
    forall k: Key ensures CC.Children(all, k) == CC.Children(before, k) + if rows[n].parent == Some(k) then [n] else [] {
    }
    hide CC.Children;
  }

  lemma NoChildren(rows: seq<Row>, k: Key)
    requires forall i :: 0 <= i < |rows| ==> rows[i].parent != Some(k)
    ensures Children(rows, k) == []
  {
    if Children(rows, k) != [] {
      assert Children(rows, k)[0] in Children(rows, k);
    }
  }

  method CheckParents(rows: seq<Row>, byKey: map<Key, nat>)
    returns (missing: nat, unsplit: nat, depth: nat, conversation: nat, deepRoot: nat)
    requires IsIndex(rows, byKey)
    ensures missing == Count(|rows|, MissingParent(rows)) && unsplit == Count(|rows|, UnsplitParent(rows))
    ensures depth == Count(|rows|, WrongDepth(rows)) && conversation == Count(|rows|, WrongConversation(rows))
    ensures deepRoot == Count(|rows|, DeepRoot(rows))
  {
    missing, unsplit, depth, conversation, deepRoot := 0, 0, 0, 0, 0;
    for n := 0 to |rows|
      invariant missing == Count(n, MissingParent(rows)) && unsplit == Count(n, UnsplitParent(rows))
      invariant depth == Count(n, WrongDepth(rows)) && conversation == Count(n, WrongConversation(rows))
      invariant deepRoot == Count(n, DeepRoot(rows))
    {
      ParentFaults(rows, byKey, n);
      hide *;
      CountStep(n, MissingParent(rows));
      CountStep(n, UnsplitParent(rows));
      CountStep(n, WrongDepth(rows));
      CountStep(n, WrongConversation(rows));
      CountStep(n, DeepRoot(rows));
      var row := rows[n];
      match row.parent
      case None => deepRoot := if row.depth != 0 then deepRoot + 1 else deepRoot;
      case Some(k) =>
        if k !in byKey {
          missing := missing + 1;
        } else {
          var parent := rows[byKey[k]];
          unsplit := if !parent.split then unsplit + 1 else unsplit;
          depth := if row.depth != parent.depth + 1 then depth + 1 else depth;
          conversation := if row.conversation != parent.conversation then conversation + 1 else conversation;
        }
    }
  }

  // The faults of one row beside its parent
  lemma ParentFaults(rows: seq<Row>, byKey: map<Key, nat>, n: nat)
    requires IsIndex(rows, byKey) && n < |rows|
    ensures var row := rows[n];
            && One(DeepRoot(rows)(n)) == (if row.parent.None? && row.depth != 0 then 1 else 0)
            && One(MissingParent(rows)(n)) == (if row.parent.Some? && row.parent.value !in byKey then 1 else 0)
            && (if row.parent.None? || row.parent.value !in byKey then
                  One(UnsplitParent(rows)(n)) == One(WrongDepth(rows)(n)) == One(WrongConversation(rows)(n)) == 0
                else
                  && byKey[row.parent.value] < |rows|
                  && var parent := rows[byKey[row.parent.value]];
                  && One(UnsplitParent(rows)(n)) == (if !parent.split then 1 else 0)
                  && One(WrongDepth(rows)(n)) == (if row.depth != parent.depth + 1 then 1 else 0)
                  && One(WrongConversation(rows)(n)) == (if row.conversation != parent.conversation then 1 else 0))
  {
    if rows[n].parent.Some? {
      KnownIff(rows, byKey, rows[n].parent.value);
    }
  }

  lemma KnownIff(rows: seq<Row>, byKey: map<Key, nat>, k: Key)
    requires IsIndex(rows, byKey)
    ensures k in byKey <==> HasRow(rows, k)
  {
  }

  method CheckSplits(rows: seq<Row>, children: map<Key, seq<nat>>) returns (childCount: nat, state: nat)
    requires IsGrouping(rows, children)
    ensures childCount == Count(|rows|, WrongChildCount(rows)) && state == Count(|rows|, ParentWithState(rows))
  {
    childCount, state := 0, 0;
    for n := 0 to |rows|
      invariant childCount == Count(n, WrongChildCount(rows)) && state == Count(n, ParentWithState(rows))
    {
      GroupIs(rows, children, rows[n].key);
      SplitFaults(rows, n);
      hide *;
      CountStep(n, WrongChildCount(rows));
      CountStep(n, ParentWithState(rows));
      if rows[n].split {
        var own := if rows[n].key in children then children[rows[n].key] else [];
        childCount := if |own| != 2 then childCount + 1 else childCount;
        state := if rows[n].hasState then state + 1 else state;
      }
    }
  }

  lemma SplitFaults(rows: seq<Row>, n: nat)
    requires n < |rows|
    ensures One(WrongChildCount(rows)(n)) == if rows[n].split && |CC.Children(rows, rows[n].key)| != 2 then 1 else 0
    ensures One(ParentWithState(rows)(n)) == if rows[n].split && rows[n].hasState then 1 else 0
  {
    hide CC.Children;
  }

  lemma GroupIs(rows: seq<Row>, children: map<Key, seq<nat>>, k: Key)
    requires IsGrouping(rows, children)
    ensures Children(rows, k) == if k in children then children[k] else []
  {
    if k !in children {
      NoChildren(rows, k);
    }
  }

  /** Source and core indices of every keyed row, the last one of each key. */
  predicate IsProvenance(rows: seq<Row>, n: nat, provenance: map<Key, (set<int>, set<int>)>)
    requires n <= |rows|
  {
    && (forall k :: k in provenance ==>
          HasRow(rows, k) && RowOf(rows, k) < n
          && provenance[k] == (Indices(rows[RowOf(rows, k)].sources), Indices(rows[RowOf(rows, k)].core)))
    && (forall i :: 0 <= i < n && IsRowOf(rows, rows[i].key, i) ==> rows[i].key in provenance)
  }

  datatype ProvenanceFaults = ProvenanceFaults(invalid: nat, coreOutside: nat, messageBounds: nat, turnBounds: nat, position: nat, path: nat)

  predicate CountsProvenance(rows: seq<Row>, n: nat, c: ProvenanceFaults) {
    && c.invalid == Count(n, Keyed(rows, InvalidProvenance(rows))) && c.coreOutside == Count(n, Keyed(rows, CoreOutsideSource(rows)))
    && c.messageBounds == Count(n, Keyed(rows, WrongMessageBounds(rows))) && c.turnBounds == Count(n, Keyed(rows, WrongTurnBounds(rows)))
    && c.position == Count(n, Keyed(rows, WrongPosition(rows))) && c.path == Count(n, Keyed(rows, MissingPath(rows)))
  }

  // The faults of one row, from its lists
  method CheckRow(row: Row) returns (sources: set<int>, core: set<int>, c: ProvenanceFaults)
    ensures sources == Indices(row.sources) && core == Indices(row.core)
    ensures var rows := [row];
            c == ProvenanceFaults(One(InvalidProvenance(rows)(0)), One(CoreOutsideSource(rows)(0)), One(WrongMessageBounds(rows)(0)),
                                  One(WrongTurnBounds(rows)(0)), One(WrongPosition(rows)(0)), One(MissingPath(rows)(0)))
  {
    var sourceValues, invalidSource := ProvenanceIndices(row.sources);
    var coreValues, invalidCore := ProvenanceIndices(row.core);
    sources, core := set i | i in sourceValues, set i | i in coreValues;
    var messages := Extremes(sourceValues);
    var turns := Extremes(coreValues);
    BoundsUnique(sources, messages, row.messageBounds);
    BoundsUnique(core, turns, row.turnBounds);
    c := ProvenanceFaults(One(invalidSource || invalidCore || sources == {} || core == {}), One(!(core <= sources)),
                          One(row.messageBounds != messages), One(row.turnBounds != turns),
                          One(row.index < 0 || row.count < 1 || row.index >= row.count), One(row.path == 0));
  }

  lemma ProvenanceStep(rows: seq<Row>, n: nat, c: ProvenanceFaults, d: ProvenanceFaults)
    requires n < |rows| && CountsProvenance(rows, n, c)
    requires var one := [rows[n]];
             d == ProvenanceFaults(One(InvalidProvenance(one)(0)), One(CoreOutsideSource(one)(0)), One(WrongMessageBounds(one)(0)),
                                   One(WrongTurnBounds(one)(0)), One(WrongPosition(one)(0)), One(MissingPath(one)(0)))
    ensures IsRowOf(rows, rows[n].key, n) ==>
              CountsProvenance(rows, n + 1, ProvenanceFaults(c.invalid + d.invalid, c.coreOutside + d.coreOutside, c.messageBounds + d.messageBounds,
                                                             c.turnBounds + d.turnBounds, c.position + d.position, c.path + d.path))
    ensures !IsRowOf(rows, rows[n].key, n) ==> CountsProvenance(rows, n + 1, c)
  {
    hide Bounds, ValidList, Indices;
  }

  method CheckProvenance(rows: seq<Row>, byKey: map<Key, nat>)
    returns (c: ProvenanceFaults, provenance: map<Key, (set<int>, set<int>)>)
    requires IsIndex(rows, byKey)
    ensures CountsProvenance(rows, |rows|, c) && IsProvenance(rows, |rows|, provenance)
  {
    hide *;
    c, provenance := ProvenanceFaults(0, 0, 0, 0, 0, 0), map[];
    NoProvenance(rows);
    for n := 0 to |rows|
      invariant CountsProvenance(rows, n, c) && IsProvenance(rows, n, provenance)
    {
      var sources, core, d := CheckRow(rows[n]);
      ProvenanceStep(rows, n, c, d);
      LastOfKey(rows, byKey, n);
      PutProvenance(rows, n, provenance);
      if rows[n].key in byKey && byKey[rows[n].key] == n {
        c := ProvenanceFaults(c.invalid + d.invalid, c.coreOutside + d.coreOutside, c.messageBounds + d.messageBounds,
                              c.turnBounds + d.turnBounds, c.position + d.position, c.path + d.path);
        provenance := provenance[rows[n].key := (sources, core)];
      }
    }
  }

  lemma NoProvenance(rows: seq<Row>)
    ensures CountsProvenance(rows, 0, ProvenanceFaults(0, 0, 0, 0, 0, 0)) && IsProvenance(rows, 0, map[])
  {
  }

  lemma LastOfKey(rows: seq<Row>, byKey: map<Key, nat>, n: nat)
    requires IsIndex(rows, byKey) && n < |rows|
    ensures IsRowOf(rows, rows[n].key, n) <==> rows[n].key in byKey && byKey[rows[n].key] == n
  {
  }

  lemma PutProvenance(rows: seq<Row>, n: nat, provenance: map<Key, (set<int>, set<int>)>)
    requires n < |rows| && IsProvenance(rows, n, provenance)
    ensures IsProvenance(rows, n + 1, if IsRowOf(rows, rows[n].key, n)
                                      then provenance[rows[n].key := (Indices(rows[n].sources), Indices(rows[n].core))] else provenance)
  {
    hide Indices;
    if IsRowOf(rows, rows[n].key, n) {
      assert HasRow(rows, rows[n].key) && RowOf(rows, rows[n].key) == n;
    }
  }

  datatype PairFaults = PairFaults(coverage: nat, twice: nat, outside: nat, source: nat, sourceOutside: nat, overlap: nat, position: nat, path: nat)

  predicate CountsPairs(rows: seq<Row>, n: nat, c: PairFaults) {
    && c.coverage == Count(n, CoreNotCovered(rows)) && c.twice == Count(n, CoreTwice(rows))
    && c.outside == Count(n, CoreOutsideParent(rows)) && c.source == Count(n, SourceNotCovered(rows))
    && c.sourceOutside == Count(n, SourceOutsideParent(rows)) && c.overlap == Count(n, OverlapOnCore(rows))
    && c.position == Count(n, WrongChildPosition(rows)) && c.path == Count(n, WrongPath(rows))
  }

  const NO_PAIR_FAULTS := PairFaults(0, 0, 0, 0, 0, 0, 0, 0)

  function Plus(c: PairFaults, d: PairFaults): PairFaults {
    PairFaults(c.coverage + d.coverage, c.twice + d.twice, c.outside + d.outside, c.source + d.source,
               c.sourceOutside + d.sourceOutside, c.overlap + d.overlap, c.position + d.position, c.path + d.path)
  }

  // One split row with its two children, if it has exactly two
  method CheckPair(rows: seq<Row>, n: nat, children: map<Key, seq<nat>>, provenance: map<Key, (set<int>, set<int>)>) returns (d: PairFaults)
    requires n < |rows| && IsGrouping(rows, children) && IsProvenance(rows, |rows|, provenance)
    ensures d == FaultsOfPair(rows, n)
  {
    hide *;
    var row := rows[n];
    GroupIs(rows, children, row.key);
    ProvenanceAt(rows, provenance, n);
    PairIff(rows, n);
    var own := if row.key in children then children[row.key] else [];
    if row.split && |own| == 2 && row.key in provenance {
      PairMembers(rows, n, own, provenance);
      d := PairFaultsOf(row, rows[own[0]], rows[own[1]], provenance[row.key],
                        ProvenanceIn(provenance, rows[own[0]].key), ProvenanceIn(provenance, rows[own[1]].key));
    } else {
      NoPair(rows, n);
      d := NO_PAIR_FAULTS;
    }
  }

  method CheckPairs(rows: seq<Row>, children: map<Key, seq<nat>>, provenance: map<Key, (set<int>, set<int>)>) returns (c: PairFaults)
    requires IsGrouping(rows, children) && IsProvenance(rows, |rows|, provenance)
    ensures CountsPairs(rows, |rows|, c)
  {
    hide *;
    c := NO_PAIR_FAULTS;
    NoPairs(rows);
    for n := 0 to |rows|
      invariant CountsPairs(rows, n, c)
    {
      var d := CheckPair(rows, n, children, provenance);
      PairStep(rows, n, c, d);
      c := Plus(c, d);
    }
  }

  function ProvenanceIn(provenance: map<Key, (set<int>, set<int>)>, k: Key): (set<int>, set<int>) {
    if k in provenance then provenance[k] else ({}, {})
  }

  // The faults of a split row `p` with children `a` and `b`, from their source and core indices
  function PairFaultsOf(p: Row, a: Row, b: Row, whole: (set<int>, set<int>), left: (set<int>, set<int>), right: (set<int>, set<int>)): PairFaults {
    PairFaults(
      One(left.1 + right.1 != whole.1), One(left.1 * right.1 != {}), One(!(left.1 <= whole.1 && right.1 <= whole.1)),
      One(left.0 + right.0 != whole.0), One(!(left.0 <= whole.0 && right.0 <= whole.0)), One(left.0 * right.0 * whole.1 != {}),
      One(!(a.count == 2 && b.count == 2 && ((a.index == 0 && b.index == 1) || (a.index == 1 && b.index == 0)))),
      One(!(a.path == p.path && b.path == p.path)))
  }

  lemma PairIff(rows: seq<Row>, n: nat)
    requires n < |rows|
    ensures IsPair(rows, n) <==> rows[n].split && |CC.Children(rows, rows[n].key)| == 2 && rows[n].key != 0
  {
  }

  lemma PairMembers(rows: seq<Row>, n: nat, own: seq<nat>, provenance: map<Key, (set<int>, set<int>)>)
    requires n < |rows| && IsProvenance(rows, |rows|, provenance) && IsPair(rows, n) && own == CC.Children(rows, rows[n].key) && |own| == 2
    ensures own[0] < |rows| && own[1] < |rows| && rows[n].key in provenance
    ensures PairFaultsOf(rows[n], rows[own[0]], rows[own[1]], provenance[rows[n].key],
                         ProvenanceIn(provenance, rows[own[0]].key), ProvenanceIn(provenance, rows[own[1]].key)) == FaultsOfPair(rows, n)
  {
    assert own[0] == First(rows, n) && own[1] == Second(rows, n);
    hide CC.Children, SourcesAt, CoreAt, IsProvenance, First, Second, IsPair;
    ProvenanceAt(rows, provenance, n);
    ProvenanceAt(rows, provenance, own[0]);
    ProvenanceAt(rows, provenance, own[1]);
  }

  function FaultsOfPair(rows: seq<Row>, n: nat): PairFaults {
    PairFaults(One(CoreNotCovered(rows)(n)), One(CoreTwice(rows)(n)), One(CoreOutsideParent(rows)(n)), One(SourceNotCovered(rows)(n)),
               One(SourceOutsideParent(rows)(n)), One(OverlapOnCore(rows)(n)), One(WrongChildPosition(rows)(n)), One(WrongPath(rows)(n)))
  }

  lemma ProvenanceAt(rows: seq<Row>, provenance: map<Key, (set<int>, set<int>)>, i: nat)
    requires i < |rows| && IsProvenance(rows, |rows|, provenance)
    ensures rows[i].key in provenance <==> rows[i].key != 0
    ensures ProvenanceIn(provenance, rows[i].key) == (SourcesAt(rows, i), CoreAt(rows, i))
  {
    if rows[i].key != 0 {
      assert HasRow(rows, rows[i].key);
      assert IsRowOf(rows, rows[i].key, RowOf(rows, rows[i].key));
    }
  }

  lemma PairStep(rows: seq<Row>, n: nat, c: PairFaults, d: PairFaults)
    requires n < |rows| && CountsPairs(rows, n, c) && d == FaultsOfPair(rows, n)
    ensures CountsPairs(rows, n + 1, Plus(c, d))
  {
    hide CoreNotCovered, CoreTwice, CoreOutsideParent, SourceNotCovered, SourceOutsideParent, OverlapOnCore, WrongChildPosition, WrongPath;
  }

  lemma NoPairs(rows: seq<Row>)
    ensures CountsPairs(rows, 0, NO_PAIR_FAULTS)
  {
  }

  lemma NoPair(rows: seq<Row>, n: nat)
    requires n < |rows| && !IsPair(rows, n)
    ensures FaultsOfPair(rows, n) == NO_PAIR_FAULTS
  {
  }

  /** The report's counters in the order of `Faults`, and whether it lists no split-tree violation. */
  method BuildSplitTree(rows: seq<Row>) returns (counters: seq<nat>, clean: bool)
    ensures |counters| == 23 && forall f :: 0 <= f < 23 ==> counters[f] == Count(|rows|, Faults(rows)[f])
    ensures clean <==> Clean(rows)
  {
    var byKey, missingKeys, repeatedKeys := IndexRows(rows);
    var children := GroupChildren(rows);
    var missing, unsplit, depth, conversation, deepRoot := CheckParents(rows, byKey);
    var childCount, state := CheckSplits(rows, children);
    var p, provenance := CheckProvenance(rows, byKey);
    var q := CheckPairs(rows, children, provenance);
    counters := [missingKeys, repeatedKeys, missing, unsplit, depth, conversation, deepRoot, childCount, state,
                 p.invalid, p.coreOutside, p.messageBounds, p.turnBounds, p.position, p.path,
                 q.coverage, q.twice, q.outside, q.source, q.sourceOutside, q.overlap, q.position, q.path];
    clean := AllZero(counters);
  }

  method AllZero(counters: seq<nat>) returns (clean: bool)
    ensures clean <==> forall f :: 0 <= f < |counters| ==> counters[f] == 0
  {
    clean := true;
    for f := 0 to |counters|
      invariant clean <==> forall g :: 0 <= g < f ==> counters[g] == 0
    {
      clean := clean && counters[f] == 0;
    }
  }
}
