/**
What a clean report means: row-by-row checks of parents and pairs of children add up to a finite
forest whose leaves divide the core of every root among them.
 */
module CheckerSoundness {
  import opened Wrappers
  import opened ConsistencyChecker

  /****** the checks, spelled out ******/

  ghost predicate KeysFine(rows: seq<Row>) {
    forall i, j :: 0 <= i < |rows| && 0 <= j < |rows| ==> rows[i].key != 0 && (rows[i].key == rows[j].key ==> i == j)
  }

  // Row `j` is the parent of row `i`.
  predicate Parent(rows: seq<Row>, i: nat, j: nat) {
    i < |rows| && j < |rows| && rows[i].parent == Some(rows[j].key)
  }

  ghost predicate LinksFine(rows: seq<Row>) {
    && (forall i :: 0 <= i < |rows| && rows[i].parent.Some? ==> HasRow(rows, rows[i].parent.value))
    && (forall i: nat, j: nat :: Parent(rows, i, j) ==> rows[j].split && rows[i].depth == rows[j].depth + 1)
    && (forall i :: 0 <= i < |rows| && rows[i].parent.None? ==> rows[i].depth == 0)
  }

  function CoreOf(rows: seq<Row>, i: nat): set<int> {
    if i < |rows| then Indices(rows[i].core) else {}
  }

  ghost predicate PairsFine(rows: seq<Row>) {
    forall i :: 0 <= i < |rows| && rows[i].split ==>
      && IsPair(rows, i)
      && CoreOf(rows, First(rows, i)) + CoreOf(rows, Second(rows, i)) == CoreOf(rows, i)
      && CoreOf(rows, First(rows, i)) * CoreOf(rows, Second(rows, i)) == {}
  }

  ghost predicate CoresFine(rows: seq<Row>) {
    forall i :: 0 <= i < |rows| ==> CoreOf(rows, i) != {}
  }

  ghost predicate TreeFine(rows: seq<Row>) {
    KeysFine(rows) && LinksFine(rows) && PairsFine(rows) && CoresFine(rows)
  }

  lemma CleanKeys(rows: seq<Row>)
    requires Clean(rows)
    ensures KeysFine(rows)
  {
    CleanMeans(rows, 0);
    CleanMeans(rows, 1);
    assert NoFault(rows, MissingKey(rows)) && NoFault(rows, RepeatedKey(rows));
    forall i, j | 0 <= i < |rows| && 0 <= j < |rows|
      ensures rows[i].key != 0 && (rows[i].key == rows[j].key ==> i == j)
    {
      assert !MissingKey(rows)(i) && !RepeatedKey(rows)(i) && !RepeatedKey(rows)(j);
    }
  }

  lemma OwnRow(rows: seq<Row>, i: nat)
    requires KeysFine(rows) && i < |rows|
    ensures HasRow(rows, rows[i].key) && RowOf(rows, rows[i].key) == i
  {
  }

  lemma CleanLinks(rows: seq<Row>)
    requires Clean(rows) && KeysFine(rows)
    ensures LinksFine(rows)
  {
    CleanMeans(rows, 2);
    CleanMeans(rows, 3);
    CleanMeans(rows, 4);
    CleanMeans(rows, 6);
    assert NoFault(rows, MissingParent(rows)) && NoFault(rows, UnsplitParent(rows)) && NoFault(rows, WrongDepth(rows)) && NoFault(rows, DeepRoot(rows));
    hide KeysFine, Clean;
    forall i | 0 <= i < |rows| && rows[i].parent.Some? ensures HasRow(rows, rows[i].parent.value) {
      assert !MissingParent(rows)(i);
    }
    forall i: nat, j: nat | Parent(rows, i, j) ensures rows[j].split && rows[i].depth == rows[j].depth + 1 {
      OwnRow(rows, j);
      assert !UnsplitParent(rows)(i) && !WrongDepth(rows)(i);
    }
    forall i | 0 <= i < |rows| && rows[i].parent.None? ensures rows[i].depth == 0 {
      assert !DeepRoot(rows)(i);
    }
  }

  // What the pair checks say about one split row
  lemma PairFine(rows: seq<Row>, i: nat)
    requires KeysFine(rows) && i < |rows| && rows[i].split
    requires !WrongChildCount(rows)(i) && !CoreNotCovered(rows)(i) && !CoreTwice(rows)(i)
    ensures && IsPair(rows, i)
            && CoreOf(rows, First(rows, i)) + CoreOf(rows, Second(rows, i)) == CoreOf(rows, i)
            && CoreOf(rows, First(rows, i)) * CoreOf(rows, Second(rows, i)) == {}
  {
    hide Indices;
    OwnRow(rows, i);
    OwnRow(rows, First(rows, i));
    OwnRow(rows, Second(rows, i));
  }

  lemma NoPairFaults(rows: seq<Row>)
    requires Clean(rows)
    ensures NoFault(rows, WrongChildCount(rows)) && NoFault(rows, CoreNotCovered(rows)) && NoFault(rows, CoreTwice(rows))
  {
    hide Clean, NoFault, WrongChildCount, CoreNotCovered, CoreTwice;
    CleanMeans(rows, 7);
    CleanMeans(rows, 15);
    CleanMeans(rows, 16);
  }

  lemma CleanPairs(rows: seq<Row>)
    requires Clean(rows) && KeysFine(rows)
    ensures PairsFine(rows)
  {
    NoPairFaults(rows);
    hide Clean, Faults, CoreOf, WrongChildCount, CoreNotCovered, CoreTwice, IsPair, First, Second, KeysFine;
    forall i | 0 <= i < |rows| && rows[i].split
      ensures && IsPair(rows, i)
              && CoreOf(rows, First(rows, i)) + CoreOf(rows, Second(rows, i)) == CoreOf(rows, i)
              && CoreOf(rows, First(rows, i)) * CoreOf(rows, Second(rows, i)) == {}
    {
      assert !WrongChildCount(rows)(i) && !CoreNotCovered(rows)(i) && !CoreTwice(rows)(i);
      PairFine(rows, i);
    }
  }

  lemma CleanCores(rows: seq<Row>)
    requires Clean(rows) && KeysFine(rows)
    ensures CoresFine(rows)
  {
    CleanMeans(rows, 9);
    assert NoFault(rows, Keyed(rows, InvalidProvenance(rows)));
    hide Clean, Indices, Faults;
    forall i | 0 <= i < |rows| ensures CoreOf(rows, i) != {} {
      OwnRow(rows, i);
      assert !Keyed(rows, InvalidProvenance(rows))(i);
    }
  }

  lemma CleanTree(rows: seq<Row>)
    requires Clean(rows)
    ensures TreeFine(rows)
  {
    CleanKeys(rows);
    hide Clean, KeysFine, LinksFine, PairsFine, CoresFine;
    CleanLinks(rows);
    CleanPairs(rows);
    CleanCores(rows);
  }

  /****** a finite forest ******/

  lemma {:induction false} Shallowest(rows: seq<Row>) returns (m: nat)
    requires rows != []
    ensures m < |rows| && forall i :: 0 <= i < |rows| ==> rows[m].depth <= rows[i].depth
  {
    if |rows| == 1 {
      m := 0;
    } else {
      m := Shallowest(rows[..|rows| - 1]);
      if rows[|rows| - 1].depth < rows[m].depth {
        m := |rows| - 1;
      }
    }
  }

  function Deepest(rows: seq<Row>): int {
    if rows == [] then 0 else
    var d := Deepest(rows[..|rows| - 1]);
    if d < rows[|rows| - 1].depth then rows[|rows| - 1].depth else d
  }

  lemma {:induction false} DeepestIsMost(rows: seq<Row>, i: nat)
    requires i < |rows|
    ensures rows[i].depth <= Deepest(rows)
  {
    if i < |rows| - 1 {
      DeepestIsMost(rows[..|rows| - 1], i);
    }
  }

  /** No depth is negative: the shallowest row cannot have a parent, so it is a root. */
  lemma DepthsAreNatural(rows: seq<Row>, i: nat)
    requires LinksFine(rows) && i < |rows|
    ensures 0 <= rows[i].depth <= Deepest(rows)
  {
    var m := Shallowest(rows);
    if rows[m].parent.Some? {
      var j := RowOf(rows, rows[m].parent.value);
      assert Parent(rows, m, j);
    }
    DeepestIsMost(rows, i);
  }

  lemma ChildDepth(rows: seq<Row>, i: nat)
    requires TreeFine(rows) && i < |rows| && rows[i].split
    ensures IsPair(rows, i) && Parent(rows, First(rows, i), i) && Parent(rows, Second(rows, i), i)
    ensures rows[First(rows, i)].depth == rows[i].depth + 1 == rows[Second(rows, i)].depth <= Deepest(rows)
  {
    assert Parent(rows, First(rows, i), i) && Parent(rows, Second(rows, i), i);
    DeepestIsMost(rows, First(rows, i));
  }

  /** The leaves below a row, in the order of the rows. */
  ghost function Leaves(rows: seq<Row>, i: nat): seq<nat>
    requires TreeFine(rows) && i < |rows|
    decreases Deepest(rows) - rows[i].depth
  {
    if !rows[i].split then [i] else
    ChildDepth(rows, i);
    Leaves(rows, First(rows, i)) + Leaves(rows, Second(rows, i))
  }

  /** Follow the parents up to a root. */
  ghost function Root(rows: seq<Row>, i: nat): (r: nat)
    requires TreeFine(rows) && i < |rows|
    ensures r < |rows| && rows[r].parent.None?
    decreases rows[i].depth
  {
    if rows[i].parent.None? then i else
    var j := RowOf(rows, rows[i].parent.value);
    assert Parent(rows, i, j);
    DepthsAreNatural(rows, j);
    Root(rows, j)
  }

  ghost predicate Apart(rows: seq<Row>, leaves: seq<nat>) {
    forall a, b :: 0 <= a < b < |leaves| ==> CoreOf(rows, leaves[a]) * CoreOf(rows, leaves[b]) == {}
  }

  ghost predicate Covers(rows: seq<Row>, leaves: seq<nat>, core: set<int>) {
    forall x :: x in core <==> exists l :: l in leaves && x in CoreOf(rows, l)
  }

  lemma JoinLeaves(rows: seq<Row>, a: seq<nat>, b: seq<nat>, left: set<int>, right: set<int>)
    requires Apart(rows, a) && Apart(rows, b) && Covers(rows, a, left) && Covers(rows, b, right) && left * right == {}
    ensures Apart(rows, a + b) && Covers(rows, a + b, left + right)
  {
    assert forall l :: l in a + b <==> l in a || l in b;
    hide CoreOf;
    var both := a + b;
    forall i, j | 0 <= i < j < |both| ensures CoreOf(rows, both[i]) * CoreOf(rows, both[j]) == {} {
      if i < |a| <= j {
        assert both[i] == a[i] && both[j] == b[j - |a|];
        assert forall x :: x in CoreOf(rows, a[i]) ==> x in left;
        assert forall x :: x in CoreOf(rows, b[j - |a|]) ==> x in right;
      } else if j < |a| {
        assert both[i] == a[i] && both[j] == a[j];
      } else {
        assert both[i] == b[i - |a|] && both[j] == b[j - |a|];
      }
    }
  }

  /** The leaves below any row exactly divide its core among them. */
  lemma {:induction false} LeavesPartition(rows: seq<Row>, i: nat)
    requires TreeFine(rows) && i < |rows|
    ensures forall l :: l in Leaves(rows, i) ==> l < |rows| && !rows[l].split
    ensures Apart(rows, Leaves(rows, i)) && Covers(rows, Leaves(rows, i), CoreOf(rows, i))
    decreases Deepest(rows) - rows[i].depth
  {
    if rows[i].split {
      ChildDepth(rows, i);
      var a, b := First(rows, i), Second(rows, i);
      assert CoreOf(rows, a) + CoreOf(rows, b) == CoreOf(rows, i) && CoreOf(rows, a) * CoreOf(rows, b) == {};
      hide TreeFine, First, Second, Apart, Covers, CoreOf;
      LeavesPartition(rows, a);
      LeavesPartition(rows, b);
      JoinLeaves(rows, Leaves(rows, a), Leaves(rows, b), CoreOf(rows, a), CoreOf(rows, b));
    }
  }

  /** Every leaf below a row has the root of that row. */
  lemma {:induction false} LeavesShareRoot(rows: seq<Row>, i: nat, l: nat)
    requires TreeFine(rows) && i < |rows| && l in Leaves(rows, i)
    ensures l < |rows| && Root(rows, l) == Root(rows, i)
    decreases Deepest(rows) - rows[i].depth
  {
    if rows[i].split {
      ChildDepth(rows, i);
      OwnRow(rows, i);
      var c := if l in Leaves(rows, First(rows, i)) then First(rows, i) else Second(rows, i);
      LeavesShareRoot(rows, c, l);
    }
  }

  // A child of a row is one of its two.
  lemma OneOfTwo(rows: seq<Row>, i: nat, j: nat)
    requires TreeFine(rows) && Parent(rows, i, j)
    ensures rows[j].split && IsPair(rows, j) && (i == First(rows, j) || i == Second(rows, j))
  {
    assert i in Children(rows, rows[j].key);
    assert IsPair(rows, j);
  }

  /** Every leaf is found below its root. */
  lemma {:induction false} LeafIsBelowRoot(rows: seq<Row>, i: nat, l: nat)
    requires TreeFine(rows) && i < |rows| && l in Leaves(rows, i)
    ensures l in Leaves(rows, Root(rows, i))
    decreases rows[i].depth
  {
    if rows[i].parent.Some? {
      var j := RowOf(rows, rows[i].parent.value);
      assert Parent(rows, i, j);
      DepthsAreNatural(rows, j);
      OneOfTwo(rows, i, j);
      LeafIsBelowRoot(rows, j, l);
    }
  }

  /****** counting ******/

  function Positions(n: nat): (r: set<nat>)
    ensures |r| == n && forall i: nat :: i in r <==> i < n
  {
    if n == 0 then {} else Positions(n - 1) + {n - 1}
  }

  function SplitUpTo(rows: seq<Row>, n: nat): (r: set<nat>)
    requires n <= |rows|
    ensures forall i: nat :: i in r <==> i < n && rows[i].split
  {
    if n == 0 then {} else if rows[n - 1].split then SplitUpTo(rows, n - 1) + {n - 1} else SplitUpTo(rows, n - 1)
  }

  function SplitRows(rows: seq<Row>): set<nat> {
    SplitUpTo(rows, |rows|)
  }

  function LeafRows(rows: seq<Row>): set<nat> {
    set i | 0 <= i < |rows| && !rows[i].split
  }

  function RootRows(rows: seq<Row>): set<nat> {
    set i | 0 <= i < |rows| && rows[i].parent.None?
  }

  // Rows whose parent is among `parents`
  ghost function Below(rows: seq<Row>, parents: set<nat>): set<nat> {
    set i | i in Positions(|rows|) && exists j :: j in parents && Parent(rows, i, j)
  }

  lemma BelowPlus(rows: seq<Row>, parents: set<nat>, j: nat)
    ensures Below(rows, parents + {j}) == Below(rows, parents) + Below(rows, {j})
  {
  }

  // The two children of one row
  lemma BelowOne(rows: seq<Row>, j: nat)
    requires TreeFine(rows) && j in SplitRows(rows)
    ensures |Below(rows, {j})| == 2
  {
    assert IsPair(rows, j);
    var a, b := First(rows, j), Second(rows, j);
    var cs := Children(rows, rows[j].key);
    assert cs[0] < cs[1];
    assert Parent(rows, a, j) && Parent(rows, b, j);
    forall i: nat | i in Below(rows, {j}) ensures i == a || i == b {
      OneOfTwo(rows, i, j);
    }
    assert a in Below(rows, {j}) && b in Below(rows, {j});
    hide *;
    TwoElements(Below(rows, {j}), a, b);
  }

  lemma TwoElements(s: set<nat>, a: nat, b: nat)
    requires a in s && b in s && a != b && forall x :: x in s ==> x == a || x == b
    ensures |s| == 2
  {
    assert s == {a, b};
  }

  // No row is a child of two parents.
  lemma BelowApart(rows: seq<Row>, parents: set<nat>, j: nat)
    requires KeysFine(rows) && j !in parents
    ensures Below(rows, parents) * Below(rows, {j}) == {}
  {
  }

  lemma Disjoint(a: set<nat>, b: set<nat>)
    requires a * b == {}
    ensures |a + b| == |a| + |b|
  {
  }

  lemma BelowGrows(rows: seq<Row>, rest: set<nat>, j: nat)
    requires TreeFine(rows) && j in SplitRows(rows) && j !in rest
    ensures |Below(rows, rest + {j})| == |Below(rows, rest)| + 2
  {
    assert KeysFine(rows);
    hide *;
    BelowPlus(rows, rest, j);
    BelowOne(rows, j);
    BelowApart(rows, rest, j);
    Disjoint(Below(rows, rest), Below(rows, {j}));
  }

  lemma SplitStep(rows: seq<Row>, n: nat)
    requires 0 < n <= |rows| && rows[n - 1].split
    ensures SplitUpTo(rows, n) == SplitUpTo(rows, n - 1) + {n - 1} && |SplitUpTo(rows, n)| == |SplitUpTo(rows, n - 1)| + 1
    ensures n - 1 in SplitRows(rows) && n - 1 !in SplitUpTo(rows, n - 1)
  {
  }

  lemma BelowNone(rows: seq<Row>)
    ensures |Below(rows, SplitUpTo(rows, 0))| == 0 && |SplitUpTo(rows, 0)| == 0
  {
    assert Below(rows, SplitUpTo(rows, 0)) == {};
  }

  lemma SplitSkip(rows: seq<Row>, n: nat)
    requires 0 < n <= |rows| && !rows[n - 1].split
    ensures SplitUpTo(rows, n) == SplitUpTo(rows, n - 1)
  {
  }

  lemma {:induction false} TwoEach(rows: seq<Row>, n: nat)
    requires TreeFine(rows) && n <= |rows|
    ensures |Below(rows, SplitUpTo(rows, n))| == 2 * |SplitUpTo(rows, n)|
  {
    hide *;
    if n == 0 {
      BelowNone(rows);
    } else {
      TwoEach(rows, n - 1);
      if rows[n - 1].split {
        SplitStep(rows, n);
        BelowGrows(rows, SplitUpTo(rows, n - 1), n - 1);
      } else {
        SplitSkip(rows, n);
      }
    }
  }

  // A row has a parent exactly when it is a child of some split row.
  lemma RootsOrBelow(rows: seq<Row>)
    requires TreeFine(rows)
    ensures var below := Below(rows, SplitRows(rows));
            Positions(|rows|) == RootRows(rows) + below && RootRows(rows) * below == {}
  {
    forall i | i in Positions(|rows|) && rows[i].parent.Some? ensures i in Below(rows, SplitRows(rows)) {
      var j := RowOf(rows, rows[i].parent.value);
      assert Parent(rows, i, j) && j in SplitRows(rows);
    }
    hide TreeFine;
  }

  lemma SplitsAre(rows: seq<Row>)
    ensures SplitRows(rows) == SplitUpTo(rows, |rows|)
  {
  }

  lemma SplitOrLeaf(rows: seq<Row>)
    ensures Positions(|rows|) == SplitRows(rows) + LeafRows(rows) && SplitRows(rows) * LeafRows(rows) == {}
  {
  }

  /** There are as many leaves as roots and split rows together. */
  lemma LeafCount(rows: seq<Row>)
    requires TreeFine(rows)
    ensures |LeafRows(rows)| == |RootRows(rows)| + |SplitRows(rows)|
  {
    hide *;
    TwoEach(rows, |rows|);
    SplitsAre(rows);
    RootsOrBelow(rows);
    SplitOrLeaf(rows);
    Disjoint(SplitRows(rows), LeafRows(rows));
    Disjoint(RootRows(rows), Below(rows, SplitRows(rows)));
  }

  /**
  Checker soundness: when the report lists no split-tree violation, parents lead every row to a root
  in finitely many steps, the leaves below each root exactly partition its core, every leaf lies below
  its root and no other, and there are as many leaves as roots plus split parents.
   */
  lemma CleanReportIsSound(rows: seq<Row>, root: nat)
    requires Clean(rows) && root < |rows| && rows[root].parent.None?
    ensures TreeFine(rows)
    ensures forall l :: l in Leaves(rows, root) ==> l < |rows| && !rows[l].split && Root(rows, l) == root
    ensures forall l :: 0 <= l < |rows| && !rows[l].split ==> l in Leaves(rows, Root(rows, l))
    ensures Apart(rows, Leaves(rows, root)) && Covers(rows, Leaves(rows, root), CoreOf(rows, root))
    ensures |LeafRows(rows)| == |RootRows(rows)| + |SplitRows(rows)|
  {
    CleanTree(rows);
    hide Clean, TreeFine, Apart, Covers;
    LeavesPartition(rows, root);
    LeafCount(rows);
    forall l | l in Leaves(rows, root) ensures Root(rows, l) == root {
      LeavesShareRoot(rows, root, l);
    }
    forall l | 0 <= l < |rows| && !rows[l].split ensures l in Leaves(rows, Root(rows, l)) {
      LeafIsBelowRoot(rows, l, l);
    }
  }

  /****** single rows and pairs ******/

  lemma {:induction false} ValuesAre(raw: seq<Entry>)
    ensures forall x :: x in Values(raw) <==> Index(x) in raw
    ensures (forall e :: e in raw ==> e.Index?) ==> |Values(raw)| == |raw| && forall n :: 0 <= n < |raw| ==> raw[n] == Index(Values(raw)[n])
  {
    if raw != [] {
      var n := |raw| - 1;
      ValuesAre(raw[..n]);
      assert raw == raw[..n] + [raw[n]];
    }
  }

  // A list of provenance as it should be: some integers, each once
  ghost predicate Wellformed(raw: Option<seq<Entry>>) {
    && raw.Some? && raw.value != [] && (forall e :: e in raw.value ==> e.Index?)
    && forall a, b :: 0 <= a < b < |raw.value| ==> raw.value[a] != raw.value[b]
  }

  // Two numbers of the list, none below the one and none above the other
  ghost predicate LeastAndGreatest(raw: seq<Entry>, b: (Option<int>, Option<int>)) {
    && b.0.Some? && b.1.Some? && Index(b.0.value) in raw && Index(b.1.value) in raw
    && forall x :: Index(x) in raw ==> b.0.value <= x <= b.1.value
  }

  lemma ListIsFine(raw: Option<seq<Entry>>)
    requires ValidList(raw) && Indices(raw) != {}
    ensures Wellformed(raw) && forall x :: x in Indices(raw) <==> Index(x) in raw.value
    ensures forall b :: Bounds(Indices(raw), b) ==> LeastAndGreatest(raw.value, b)
  {
    ValuesAre(raw.value);
  }

  lemma NoRowFaults(rows: seq<Row>)
    requires Clean(rows)
    ensures NoFault(rows, Keyed(rows, InvalidProvenance(rows))) && NoFault(rows, Keyed(rows, CoreOutsideSource(rows)))
    ensures NoFault(rows, Keyed(rows, WrongMessageBounds(rows))) && NoFault(rows, Keyed(rows, WrongTurnBounds(rows)))
    ensures NoFault(rows, Keyed(rows, WrongPosition(rows))) && NoFault(rows, Keyed(rows, MissingPath(rows)))
  {
    hide Clean, NoFault, Keyed;
    CleanMeans(rows, 9);
    CleanMeans(rows, 10);
    CleanMeans(rows, 11);
    CleanMeans(rows, 12);
    CleanMeans(rows, 13);
    CleanMeans(rows, 14);
  }

  lemma NotFaulty(rows: seq<Row>, f: Fault, i: nat)
    requires NoFault(rows, Keyed(rows, f)) && KeysFine(rows) && i < |rows|
    ensures !f(i)
  {
    OwnRow(rows, i);
    assert !Keyed(rows, f)(i);
  }

  lemma RowFaultFree(rows: seq<Row>, i: nat)
    requires Clean(rows) && i < |rows|
    ensures !InvalidProvenance(rows)(i) && !CoreOutsideSource(rows)(i) && !WrongMessageBounds(rows)(i)
    ensures !WrongTurnBounds(rows)(i) && !WrongPosition(rows)(i) && !MissingPath(rows)(i)
  {
    hide *;
    CleanKeys(rows);
    NoRowFaults(rows);
    NotFaulty(rows, InvalidProvenance(rows), i);
    NotFaulty(rows, CoreOutsideSource(rows), i);
    NotFaulty(rows, WrongMessageBounds(rows), i);
    NotFaulty(rows, WrongTurnBounds(rows), i);
    NotFaulty(rows, WrongPosition(rows), i);
    NotFaulty(rows, MissingPath(rows), i);
  }

  /** A row by itself: its core is part of its sources, its bounds are their least and greatest numbers, its position is one of its count. */
  ghost predicate RowSound(row: Row) {
    && Wellformed(row.sources) && Wellformed(row.core) && (forall e :: e in row.core.value ==> e in row.sources.value)
    && LeastAndGreatest(row.sources.value, row.messageBounds) && LeastAndGreatest(row.core.value, row.turnBounds)
    && 0 <= row.index < row.count && row.path != 0
  }

  lemma CleanRowIsSound(rows: seq<Row>, i: nat)
    requires Clean(rows) && i < |rows|
    ensures RowSound(rows[i])
  {
    RowFaultFree(rows, i);
    hide Clean, Bounds, LeastAndGreatest, ValidList, Indices;
    var row := rows[i];
    ListIsFine(row.sources);
    ListIsFine(row.core);
    forall e | e in row.core.value ensures e in row.sources.value {
      assert e == Index(e.i) && e.i in Indices(row.core);
    }
  }

  lemma NoMorePairFaults(rows: seq<Row>)
    requires Clean(rows)
    ensures NoFault(rows, WrongConversation(rows)) && NoFault(rows, ParentWithState(rows)) && NoFault(rows, SourceNotCovered(rows))
    ensures NoFault(rows, OverlapOnCore(rows)) && NoFault(rows, WrongChildPosition(rows)) && NoFault(rows, WrongPath(rows))
  {
    hide Clean, NoFault, WrongConversation, ParentWithState, SourceNotCovered, OverlapOnCore, WrongChildPosition, WrongPath;
    CleanMeans(rows, 5);
    CleanMeans(rows, 8);
    CleanMeans(rows, 18);
    CleanMeans(rows, 20);
    CleanMeans(rows, 21);
    CleanMeans(rows, 22);
  }

  // A child is in the conversation of its parent.
  lemma SameConversation(rows: seq<Row>, c: nat, i: nat)
    requires KeysFine(rows) && Parent(rows, c, i) && NoFault(rows, WrongConversation(rows))
    ensures rows[c].conversation == rows[i].conversation
  {
    OwnRow(rows, i);
    assert !WrongConversation(rows)(c);
  }

  lemma PairFaultFree(rows: seq<Row>, i: nat)
    requires Clean(rows) && i < |rows|
    ensures !ParentWithState(rows)(i) && !SourceNotCovered(rows)(i) && !OverlapOnCore(rows)(i)
    ensures !WrongChildPosition(rows)(i) && !WrongPath(rows)(i) && NoFault(rows, WrongConversation(rows))
  {
    NoMorePairFaults(rows);
    hide Clean, ParentWithState, SourceNotCovered, OverlapOnCore, WrongChildPosition, WrongPath;
  }

  // Sources are found by key, and every row is the one of its key.
  lemma SourcesAtRow(rows: seq<Row>, i: nat)
    requires KeysFine(rows) && i < |rows|
    ensures SourcesAt(rows, i) == Indices(rows[i].sources) && CoreAt(rows, i) == Indices(rows[i].core)
  {
    OwnRow(rows, i);
  }

  lemma PairSources(rows: seq<Row>, i: nat)
    requires KeysFine(rows) && IsPair(rows, i) && !SourceNotCovered(rows)(i) && !OverlapOnCore(rows)(i)
    ensures var a, b, p := Indices(rows[First(rows, i)].sources), Indices(rows[Second(rows, i)].sources), rows[i];
            a + b == Indices(p.sources) && a * b * Indices(p.core) == {}
  {
    hide KeysFine, Indices;
    SourcesAtRow(rows, i);
    SourcesAtRow(rows, First(rows, i));
    SourcesAtRow(rows, Second(rows, i));
    hide SourcesAt, CoreAt, First, Second, IsPair;
  }

  // The rows below a pair are its two, and they differ.
  lemma PairAre(rows: seq<Row>, i: nat)
    requires KeysFine(rows) && LinksFine(rows) && IsPair(rows, i)
    ensures First(rows, i) != Second(rows, i)
    ensures forall c: nat :: Parent(rows, c, i) <==> c == First(rows, i) || c == Second(rows, i)
  {
    var cs := Children(rows, rows[i].key);
    assert cs[0] < cs[1];
    forall c: nat | Parent(rows, c, i) ensures c == First(rows, i) || c == Second(rows, i) {
      assert c in cs;
    }
  }

  lemma PairPlaces(rows: seq<Row>, i: nat) returns (a: nat, b: nat)
    requires IsPair(rows, i) && !WrongChildPosition(rows)(i) && !WrongPath(rows)(i)
    ensures (a == First(rows, i) && b == Second(rows, i)) || (a == Second(rows, i) && b == First(rows, i))
    ensures rows[a].index == 0 && rows[b].index == 1 && rows[a].count == 2 == rows[b].count
    ensures rows[a].path == rows[i].path == rows[b].path
  {
    a, b := First(rows, i), Second(rows, i);
    if rows[a].index != 0 {
      a, b := b, a;
    }
  }

  /**
  A split row and its two children, the first and the second of two: one level down in the same
  conversation and file, they divide its core, cover its sources and share none of its core as context;
  the row itself keeps no state.
   */
  ghost predicate PairSound(rows: seq<Row>, i: nat, a: nat, b: nat) {
    && i < |rows| && a < |rows| && b < |rows| && a != b && !rows[i].hasState
    && (forall c: nat :: Parent(rows, c, i) <==> c == a || c == b)
    && rows[a].index == 0 && rows[b].index == 1 && rows[a].count == 2 == rows[b].count
    && rows[a].path == rows[i].path == rows[b].path
    && rows[a].depth == rows[i].depth + 1 == rows[b].depth
    && rows[a].conversation == rows[i].conversation == rows[b].conversation
    && Indices(rows[a].core) + Indices(rows[b].core) == Indices(rows[i].core)
    && Indices(rows[a].core) * Indices(rows[b].core) == {}
    && Indices(rows[a].sources) + Indices(rows[b].sources) == Indices(rows[i].sources)
    && Indices(rows[a].sources) * Indices(rows[b].sources) * Indices(rows[i].core) == {}
  }

  lemma PairCores(rows: seq<Row>, i: nat)
    requires TreeFine(rows) && i < |rows| && rows[i].split
    ensures IsPair(rows, i)
    ensures var a, b, p := Indices(rows[First(rows, i)].core), Indices(rows[Second(rows, i)].core), Indices(rows[i].core);
            a + b == p && a * b == {}
  {
    hide Indices, First, Second;
  }

  lemma CleanPairIsSound(rows: seq<Row>, i: nat) returns (a: nat, b: nat)
    requires Clean(rows) && i < |rows| && rows[i].split
    ensures PairSound(rows, i, a, b)
  {
    CleanTree(rows);
    PairFaultFree(rows, i);
    PairCores(rows, i);
    hide Clean, KeysFine, LinksFine, SourceNotCovered, OverlapOnCore, WrongChildPosition, WrongPath, NoFault, First, Second, Indices;
    ChildDepth(rows, i);
    hide PairsFine, CoresFine, IsPair;
    PairAre(rows, i);
    PairSources(rows, i);
    a, b := PairPlaces(rows, i);
    SameConversation(rows, a, i);
    SameConversation(rows, b, i);
  }

  /** Two counters tell apart what the others already exclude: values in a child that its parent does not have. */
  lemma OutsideMeans(rows: seq<Row>, i: nat)
    requires KeysFine(rows) && IsPair(rows, i)
    ensures CoreOutsideParent(rows)(i) <==>
              exists c: nat :: Parent(rows, c, i) && !(Indices(rows[c].core) <= Indices(rows[i].core))
    ensures SourceOutsideParent(rows)(i) <==>
              exists c: nat :: Parent(rows, c, i) && !(Indices(rows[c].sources) <= Indices(rows[i].sources))
  {
    hide Indices, Parent;
    PairChildren(rows, i);
    SourcesAtRow(rows, i);
    SourcesAtRow(rows, First(rows, i));
    SourcesAtRow(rows, Second(rows, i));
    hide KeysFine, IsPair, SourcesAt, CoreAt, First, Second;
  }

  lemma PairChildren(rows: seq<Row>, i: nat)
    requires IsPair(rows, i)
    ensures forall c: nat :: Parent(rows, c, i) <==> c == First(rows, i) || c == Second(rows, i)
  {
    var cs := Children(rows, rows[i].key);
    forall c: nat | Parent(rows, c, i) ensures c == First(rows, i) || c == Second(rows, i) {
      assert c in cs;
    }
  }

  /****** when a report is clean ******/

  ghost predicate AllSound(rows: seq<Row>) {
    && KeysFine(rows) && LinksFine(rows)
    && (forall i :: 0 <= i < |rows| ==> RowSound(rows[i]))
    && forall i :: 0 <= i < |rows| && rows[i].split ==> exists a, b :: PairSound(rows, i, a, b)
  }

  lemma SoundKeys(rows: seq<Row>)
    requires KeysFine(rows)
    ensures NoFault(rows, MissingKey(rows)) && NoFault(rows, RepeatedKey(rows))
  {
  }

  lemma SoundLinks(rows: seq<Row>)
    requires KeysFine(rows) && LinksFine(rows)
    requires forall i :: 0 <= i < |rows| && rows[i].split ==> exists a, b :: PairSound(rows, i, a, b)
    ensures NoFault(rows, MissingParent(rows)) && NoFault(rows, UnsplitParent(rows)) && NoFault(rows, WrongDepth(rows))
    ensures NoFault(rows, WrongConversation(rows)) && NoFault(rows, DeepRoot(rows))
  {
    forall i: nat | HasParent(rows, i)
      ensures !UnsplitParent(rows)(i) && !WrongDepth(rows)(i) && !WrongConversation(rows)(i)
    {
      var j := RowOf(rows, rows[i].parent.value);
      assert Parent(rows, i, j);
      var a, b :| PairSound(rows, j, a, b);
    }
  }

  lemma FineList(raw: Option<seq<Entry>>)
    requires Wellformed(raw)
    ensures ValidList(raw) && Indices(raw) != {} && forall x :: x in Indices(raw) <==> Index(x) in raw.value
    ensures forall b :: LeastAndGreatest(raw.value, b) ==> Bounds(Indices(raw), b)
  {
    ValuesAre(raw.value);
    assert raw.value[0].i in Indices(raw);
  }

  lemma SoundRow(rows: seq<Row>, i: nat)
    requires i < |rows| && RowSound(rows[i])
    ensures !InvalidProvenance(rows)(i) && !CoreOutsideSource(rows)(i) && !WrongMessageBounds(rows)(i)
    ensures !WrongTurnBounds(rows)(i) && !WrongPosition(rows)(i) && !MissingPath(rows)(i)
  {
    hide Wellformed, Bounds, LeastAndGreatest, ValidList, Indices;
    var row := rows[i];
    FineList(row.sources);
    FineList(row.core);
    forall x | x in Indices(row.core) ensures x in Indices(row.sources) {
      assert Index(x) in row.core.value;
    }
  }

  lemma SoundRows(rows: seq<Row>)
    requires forall i :: 0 <= i < |rows| ==> RowSound(rows[i])
    ensures NoFault(rows, Keyed(rows, InvalidProvenance(rows))) && NoFault(rows, Keyed(rows, CoreOutsideSource(rows)))
    ensures NoFault(rows, Keyed(rows, WrongMessageBounds(rows))) && NoFault(rows, Keyed(rows, WrongTurnBounds(rows)))
    ensures NoFault(rows, Keyed(rows, WrongPosition(rows))) && NoFault(rows, Keyed(rows, MissingPath(rows)))
  {
    hide RowSound, InvalidProvenance, CoreOutsideSource, WrongMessageBounds, WrongTurnBounds, WrongPosition, MissingPath;
    forall i: nat | i < |rows|
      ensures !InvalidProvenance(rows)(i) && !CoreOutsideSource(rows)(i) && !WrongMessageBounds(rows)(i)
      ensures !WrongTurnBounds(rows)(i) && !WrongPosition(rows)(i) && !MissingPath(rows)(i)
    {
      SoundRow(rows, i);
    }
  }

  // Among three growing numbers one is neither `a` nor `b`.
  lemma AThird(cs: seq<nat>, a: nat, b: nat) returns (c: nat)
    requires |cs| > 2 && cs[0] < cs[1] < cs[2]
    ensures c in cs && c != a && c != b
  {
    c := if cs[0] != a && cs[0] != b then cs[0] else if cs[1] != a && cs[1] != b then cs[1] else cs[2];
  }

  // Two positions in growing order that hold exactly `a` and `b`
  lemma TwoOf(cs: seq<nat>, a: nat, b: nat)
    requires a != b && (forall c: nat :: c in cs <==> c == a || c == b)
    requires forall x, y :: 0 <= x < y < |cs| ==> cs[x] < cs[y]
    ensures |cs| == 2 && ((cs[0] == a && cs[1] == b) || (cs[0] == b && cs[1] == a))
  {
    assert a in cs && b in cs;
    var x :| 0 <= x < |cs| && cs[x] == a;
    var y :| 0 <= y < |cs| && cs[y] == b;
    if |cs| > 2 {
      var c := AThird(cs, a, b);
      assert false;
    }
  }

  lemma SoundPair(rows: seq<Row>, i: nat, a: nat, b: nat)
    requires KeysFine(rows) && PairSound(rows, i, a, b) && rows[i].split
    ensures IsPair(rows, i) && ((First(rows, i) == a && Second(rows, i) == b) || (First(rows, i) == b && Second(rows, i) == a))
  {
    forall c: nat ensures c in Children(rows, rows[i].key) <==> c == a || c == b {
      assert Parent(rows, c, i) <==> c in Children(rows, rows[i].key);
    }
    hide KeysFine, PairSound;
    TwoOf(Children(rows, rows[i].key), a, b);
  }

  lemma SoundSets(rows: seq<Row>, i: nat, a: nat, b: nat)
    requires KeysFine(rows) && PairSound(rows, i, a, b) && rows[i].split
    ensures !CoreNotCovered(rows)(i) && !CoreTwice(rows)(i) && !CoreOutsideParent(rows)(i)
    ensures !SourceNotCovered(rows)(i) && !SourceOutsideParent(rows)(i) && !OverlapOnCore(rows)(i)
  {
    SoundPair(rows, i, a, b);
    SourcesAtRow(rows, i);
    SourcesAtRow(rows, a);
    SourcesAtRow(rows, b);
    hide KeysFine, First, Second, IsPair, Indices, SourcesAt, CoreAt;
  }

  lemma SoundPlaces(rows: seq<Row>, i: nat, a: nat, b: nat)
    requires KeysFine(rows) && PairSound(rows, i, a, b) && rows[i].split
    ensures !WrongChildCount(rows)(i) && !ParentWithState(rows)(i) && !WrongChildPosition(rows)(i) && !WrongPath(rows)(i)
  {
    SoundPair(rows, i, a, b);
    hide KeysFine, First, Second, Indices;
  }

  lemma SoundPairs(rows: seq<Row>)
    requires KeysFine(rows) && forall i :: 0 <= i < |rows| && rows[i].split ==> exists a, b :: PairSound(rows, i, a, b)
    ensures NoFault(rows, WrongChildCount(rows)) && NoFault(rows, ParentWithState(rows))
    ensures NoFault(rows, CoreNotCovered(rows)) && NoFault(rows, CoreTwice(rows)) && NoFault(rows, CoreOutsideParent(rows))
    ensures NoFault(rows, SourceNotCovered(rows)) && NoFault(rows, SourceOutsideParent(rows)) && NoFault(rows, OverlapOnCore(rows))
    ensures NoFault(rows, WrongChildPosition(rows)) && NoFault(rows, WrongPath(rows))
  {
    hide PairSound, KeysFine, Children, First, Second, SourcesAt, CoreAt;
    forall i: nat | i < |rows| && rows[i].split
      ensures !WrongChildCount(rows)(i) && !ParentWithState(rows)(i) && !WrongChildPosition(rows)(i) && !WrongPath(rows)(i)
      ensures !CoreNotCovered(rows)(i) && !CoreTwice(rows)(i) && !CoreOutsideParent(rows)(i)
      ensures !SourceNotCovered(rows)(i) && !SourceOutsideParent(rows)(i) && !OverlapOnCore(rows)(i)
    {
      var a, b :| PairSound(rows, i, a, b);
      SoundSets(rows, i, a, b);
      SoundPlaces(rows, i, a, b);
    }
  }

  lemma SoundIsClean(rows: seq<Row>)
    requires AllSound(rows)
    ensures Clean(rows)
  {
    SoundKeys(rows);
    SoundLinks(rows);
    SoundRows(rows);
    SoundPairs(rows);
    hide AllSound, KeysFine, LinksFine, RowSound, PairSound, NoFault, MissingKey, RepeatedKey, MissingParent, UnsplitParent,
      WrongDepth, WrongConversation, DeepRoot, WrongChildCount, ParentWithState, Keyed, CoreNotCovered, CoreTwice,
      CoreOutsideParent, SourceNotCovered, SourceOutsideParent, OverlapOnCore, WrongChildPosition, WrongPath;
    forall f | 0 <= f < 23 ensures Count(|rows|, Faults(rows)[f]) == 0 {
      assert NoFault(rows, Faults(rows)[f]);
      NoFaultCounts(rows, Faults(rows)[f]);
    }
  }

  lemma NoFaultCounts(rows: seq<Row>, f: Fault)
    requires NoFault(rows, f)
    ensures Count(|rows|, f) == 0
  {
    ZeroIff(|rows|, f);
  }

  /**
  The report is clean exactly when keys are there and unique, every parent named is there, split and one
  level up, roots are at level nought, every row is sound by itself and every split row with its pair.
   */
  lemma CleanIff(rows: seq<Row>)
    ensures Clean(rows) <==> AllSound(rows)
  {
    hide Clean, KeysFine, LinksFine, RowSound, PairSound, PairsFine, CoresFine;
    if AllSound(rows) {
      SoundIsClean(rows);
    }
    if Clean(rows) {
      CleanTree(rows);
      forall i | 0 <= i < |rows| ensures RowSound(rows[i]) {
        CleanRowIsSound(rows, i);
      }
      forall i | 0 <= i < |rows| && rows[i].split ensures exists a, b :: PairSound(rows, i, a, b) {
        var a, b := CleanPairIsSound(rows, i);
      }
    }
  }
}
