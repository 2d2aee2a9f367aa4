/**
The split-tree part of the consistency report: one counter per kind of fault, each found by
looking at a row, at its parent, or at the two children of a split row.
 */
module ConsistencyChecker {
  import opened Wrappers

  type Key = nat

  // An entry of a provenance list; anything that is not an integer makes the list invalid.
  datatype Entry = Index(i: int) | NotAnIndex

  /** A persisted chunk row; key and path 0 stand for a missing text. */
  datatype Row = Row(
    key: Key,
    parent: Option<Key>,
    split: bool,
    depth: int,
    conversation: nat,
    hasState: bool,
    sources: Option<seq<Entry>>,
    core: Option<seq<Entry>>,
    messageBounds: (Option<int>, Option<int>),
    turnBounds: (Option<int>, Option<int>),
    index: int,
    count: int,
    path: nat)

  /****** provenance ******/

  function Values(raw: seq<Entry>): seq<int> {
    if raw == [] then [] else Values(raw[..|raw| - 1]) + match raw[|raw| - 1] case Index(i) => [i] case NotAnIndex => []
  }

  predicate NoneTwice(xs: seq<int>) {
    forall i, j :: 0 <= i < j < |xs| ==> xs[i] != xs[j]
  }

  predicate ValidList(raw: Option<seq<Entry>>) {
    raw.Some? && (forall e :: e in raw.value ==> e.Index?) && NoneTwice(Values(raw.value))
  }

  function Indices(raw: Option<seq<Entry>>): set<int> {
    if raw.None? then {} else set i | i in Values(raw.value)
  }

  // `_provenance_indices`
  method ProvenanceIndices(raw: Option<seq<Entry>>) returns (values: seq<int>, invalid: bool)
    ensures (set i | i in values) == Indices(raw) && (invalid <==> !ValidList(raw))
  {
    values, invalid := [], false;
    if raw.None? {
      return [], true;
    }
    for n := 0 to |raw.value|
      invariant values == Values(raw.value[..n]) && (invalid <==> exists e :: e in raw.value[..n] && e.NotAnIndex?)
    {
      assert raw.value[..n + 1] == raw.value[..n] + [raw.value[n]];
      assert raw.value[..n + 1][..n] == raw.value[..n];
      match raw.value[n]
      case Index(i) => values := values + [i];
      case NotAnIndex => invalid := true;
    }
    assert raw.value[..|raw.value|] == raw.value;
    DistinctCount(values);
    if |values| != |set i | i in values| {
      invalid := true;
    }
  }

  lemma {:induction false} DistinctCount(xs: seq<int>)
    ensures |set x | x in xs| <= |xs| && (|set x | x in xs| == |xs| <==> NoneTwice(xs))
  {
    if xs == [] {
      assert (set x | x in xs) == {};
    } else {
      var rest, last := xs[..|xs| - 1], xs[|xs| - 1];
      DistinctCount(rest);
      assert xs == rest + [last];
      assert (set x | x in xs) == (set x | x in rest) + {last};
      if last in rest {
        var i :| 0 <= i < |rest| && rest[i] == last;
        assert xs[i] == xs[|xs| - 1];
        assert (set x | x in rest) + {last} == (set x | x in rest);
      } else {
        assert NoneTwice(rest) ==> NoneTwice(xs) by {
          forall i, j | NoneTwice(rest) && 0 <= i < j < |xs| ensures xs[i] != xs[j] {
            assert xs[i] in rest;
          }
        }
        assert NoneTwice(xs) ==> NoneTwice(rest) by {
          forall i, j | NoneTwice(xs) && 0 <= i < j < |rest| ensures rest[i] != rest[j] {
            assert xs[i] == rest[i] && xs[j] == rest[j];
          }
        }
      }
    }
  }

  // `(min(s), max(s))`, or nothing for an empty set
  predicate Bounds(s: set<int>, b: (Option<int>, Option<int>)) {
    if s == {} then b == (None, None)
    else b.0.Some? && b.1.Some? && b.0.value in s && b.1.value in s && forall x :: x in s ==> b.0.value <= x <= b.1.value
  }

  method Extremes(values: seq<int>) returns (b: (Option<int>, Option<int>))
    ensures Bounds((set i | i in values), b)
  {
    if values == [] {
      return (None, None);
    }
    var low, high := values[0], values[0];
    for n := 1 to |values|
      invariant low in values && high in values && forall i :: 0 <= i < n ==> low <= values[i] <= high
    {
      low, high := if values[n] < low then values[n] else low, if high < values[n] then values[n] else high;
    }
    b := (Some(low), Some(high));
    ghost var s := set i | i in values;
    assert low in s && high in s;
    forall x | x in s ensures low <= x <= high {
      var n :| 0 <= n < |values| && values[n] == x;
    }
  }

  // There is only one such pair, so comparing with it is the test.
  lemma BoundsUnique(s: set<int>, b: (Option<int>, Option<int>), c: (Option<int>, Option<int>))
    requires Bounds(s, b)
    ensures Bounds(s, c) <==> b == c
  {
    if s != {} && Bounds(s, c) {
      assert b.0.value == c.0.value && b.1.value == c.1.value;
      assert b.0 == c.0 && b.1 == c.1;
    }
  }

  /****** faults ******/

  // The dictionary by key: the last row of a key wins.
  predicate IsRowOf(rows: seq<Row>, k: Key, i: nat) {
    k != 0 && i < |rows| && rows[i].key == k && forall j :: i < j < |rows| ==> rows[j].key != k
  }

  predicate HasRow(rows: seq<Row>, k: Key) {
    k != 0 && exists i :: 0 <= i < |rows| && rows[i].key == k
  }

  function RowOf(rows: seq<Row>, k: Key): (i: nat)
    requires HasRow(rows, k)
    ensures IsRowOf(rows, k, i)
  {
    if rows[|rows| - 1].key == k then |rows| - 1 else
    assert rows == rows[..|rows| - 1] + [rows[|rows| - 1]];
    RowOf(rows[..|rows| - 1], k)
  }

  function Children(rows: seq<Row>, k: Key): (r: seq<nat>)
    ensures forall i: nat :: i in r <==> i < |rows| && rows[i].parent == Some(k)
    ensures forall a, b :: 0 <= a < b < |r| ==> r[a] < r[b]
  {
    if rows == [] then [] else
    var n := |rows| - 1;
    var rest := Children(rows[..n], k);
    assert forall a :: 0 <= a < |rest| ==> rest[a] in rest;
    rest + if rows[n].parent == Some(k) then [n] else []
  }

  // Each fault is a set of row positions.
  type Fault = nat -> bool

  function RepeatedKey(rows: seq<Row>): Fault {
    (i: nat) => i < |rows| && rows[i].key != 0 && exists j :: 0 <= j < i && rows[j].key == rows[i].key
  }

  function MissingKey(rows: seq<Row>): Fault { (i: nat) => i < |rows| && rows[i].key == 0 }

  function MissingParent(rows: seq<Row>): Fault {
    (i: nat) => i < |rows| && rows[i].parent.Some? && !HasRow(rows, rows[i].parent.value)
  }

  predicate HasParent(rows: seq<Row>, i: nat) {
    i < |rows| && rows[i].parent.Some? && HasRow(rows, rows[i].parent.value)
  }

  function ParentOf(rows: seq<Row>, i: nat): Row
    requires HasParent(rows, i)
  {
    rows[RowOf(rows, rows[i].parent.value)]
  }

  function UnsplitParent(rows: seq<Row>): Fault { (i: nat) => HasParent(rows, i) && !ParentOf(rows, i).split }

  function WrongDepth(rows: seq<Row>): Fault { (i: nat) => HasParent(rows, i) && rows[i].depth != ParentOf(rows, i).depth + 1 }

  function WrongConversation(rows: seq<Row>): Fault {
    (i: nat) => HasParent(rows, i) && rows[i].conversation != ParentOf(rows, i).conversation
  }

  function DeepRoot(rows: seq<Row>): Fault { (i: nat) => i < |rows| && rows[i].parent.None? && rows[i].depth != 0 }

  function WrongChildCount(rows: seq<Row>): Fault {
    (i: nat) => i < |rows| && rows[i].split && |Children(rows, rows[i].key)| != 2
  }

  function ParentWithState(rows: seq<Row>): Fault { (i: nat) => i < |rows| && rows[i].split && rows[i].hasState }

  function InvalidProvenance(rows: seq<Row>): Fault {
    (i: nat) => i < |rows| && (!ValidList(rows[i].sources) || !ValidList(rows[i].core) || Indices(rows[i].sources) == {} || Indices(rows[i].core) == {})
  }

  function CoreOutsideSource(rows: seq<Row>): Fault {
    (i: nat) => i < |rows| && !(Indices(rows[i].core) <= Indices(rows[i].sources))
  }

  function WrongMessageBounds(rows: seq<Row>): Fault {
    (i: nat) => i < |rows| && !Bounds(Indices(rows[i].sources), rows[i].messageBounds)
  }

  function WrongTurnBounds(rows: seq<Row>): Fault {
    (i: nat) => i < |rows| && !Bounds(Indices(rows[i].core), rows[i].turnBounds)
  }

  function WrongPosition(rows: seq<Row>): Fault { (i: nat) => i < |rows| && !(0 <= rows[i].index < rows[i].count) }

  function MissingPath(rows: seq<Row>): Fault { (i: nat) => i < |rows| && rows[i].path == 0 }

  // Only the last row of a key is looked at.
  function Keyed(rows: seq<Row>, f: Fault): Fault {
    (i: nat) => i < |rows| && IsRowOf(rows, rows[i].key, i) && f(i)
  }

  // A split row with two children and provenance of its own
  predicate IsPair(rows: seq<Row>, i: nat) {
    i < |rows| && rows[i].split && |Children(rows, rows[i].key)| == 2 && rows[i].key != 0
  }

  // What is known of row `i`: that of the last row with its key
  function SourcesAt(rows: seq<Row>, i: nat): set<int>
    requires i < |rows|
  {
    if HasRow(rows, rows[i].key) then Indices(rows[RowOf(rows, rows[i].key)].sources) else {}
  }

  function CoreAt(rows: seq<Row>, i: nat): set<int>
    requires i < |rows|
  {
    if HasRow(rows, rows[i].key) then Indices(rows[RowOf(rows, rows[i].key)].core) else {}
  }

  function First(rows: seq<Row>, i: nat): (c: nat)
    requires IsPair(rows, i)
    ensures c < |rows| && rows[c].parent == Some(rows[i].key)
  {
    assert Children(rows, rows[i].key)[0] in Children(rows, rows[i].key);
    Children(rows, rows[i].key)[0]
  }

  function Second(rows: seq<Row>, i: nat): (c: nat)
    requires IsPair(rows, i)
    ensures c < |rows| && rows[c].parent == Some(rows[i].key)
  {
    assert Children(rows, rows[i].key)[1] in Children(rows, rows[i].key);
    Children(rows, rows[i].key)[1]
  }

  function CoreNotCovered(rows: seq<Row>): Fault {
    (i: nat) => IsPair(rows, i) && CoreAt(rows, First(rows, i)) + CoreAt(rows, Second(rows, i)) != CoreAt(rows, i)
  }

  function CoreTwice(rows: seq<Row>): Fault {
    (i: nat) => IsPair(rows, i) && CoreAt(rows, First(rows, i)) * CoreAt(rows, Second(rows, i)) != {}
  }

  function CoreOutsideParent(rows: seq<Row>): Fault {
    (i: nat) => IsPair(rows, i) && !(CoreAt(rows, First(rows, i)) <= CoreAt(rows, i) && CoreAt(rows, Second(rows, i)) <= CoreAt(rows, i))
  }

  function SourceNotCovered(rows: seq<Row>): Fault {
    (i: nat) => IsPair(rows, i) && SourcesAt(rows, First(rows, i)) + SourcesAt(rows, Second(rows, i)) != SourcesAt(rows, i)
  }

  function SourceOutsideParent(rows: seq<Row>): Fault {
    (i: nat) => IsPair(rows, i) && !(SourcesAt(rows, First(rows, i)) <= SourcesAt(rows, i) && SourcesAt(rows, Second(rows, i)) <= SourcesAt(rows, i))
  }

  function OverlapOnCore(rows: seq<Row>): Fault {
    (i: nat) => IsPair(rows, i) && SourcesAt(rows, First(rows, i)) * SourcesAt(rows, Second(rows, i)) * CoreAt(rows, i) != {}
  }

  function WrongChildPosition(rows: seq<Row>): Fault {
    (i: nat) => IsPair(rows, i) && !(var a, b := rows[First(rows, i)], rows[Second(rows, i)];
                              a.count == 2 && b.count == 2 && ((a.index == 0 && b.index == 1) || (a.index == 1 && b.index == 0)))
  }

  function WrongPath(rows: seq<Row>): Fault {
    (i: nat) => IsPair(rows, i) && !(rows[First(rows, i)].path == rows[i].path && rows[Second(rows, i)].path == rows[i].path)
  }

  /** The faults in the order the report lists their counters. */
  function Faults(rows: seq<Row>): seq<Fault> {
    [MissingKey(rows), RepeatedKey(rows), MissingParent(rows), UnsplitParent(rows), WrongDepth(rows), WrongConversation(rows),
     DeepRoot(rows), WrongChildCount(rows), ParentWithState(rows), Keyed(rows, InvalidProvenance(rows)),
     Keyed(rows, CoreOutsideSource(rows)), Keyed(rows, WrongMessageBounds(rows)), Keyed(rows, WrongTurnBounds(rows)),
     Keyed(rows, WrongPosition(rows)), Keyed(rows, MissingPath(rows)), CoreNotCovered(rows), CoreTwice(rows),
     CoreOutsideParent(rows), SourceNotCovered(rows), SourceOutsideParent(rows), OverlapOnCore(rows),
     WrongChildPosition(rows), WrongPath(rows)]
  }

  function Count(n: nat, f: Fault): nat {
    if n == 0 then 0 else Count(n - 1, f) + if f(n - 1) then 1 else 0
  }

  lemma {:induction false} ZeroIff(n: nat, f: Fault)
    ensures Count(n, f) == 0 <==> forall i :: 0 <= i < n ==> !f(i)
  {
    if n > 0 {
      ZeroIff(n - 1, f);
    }
  }

  /** A counter is the number of rows with its fault. */
  lemma {:induction false} CountIs(n: nat, f: Fault)
    ensures Count(n, f) == |set i: nat | i < n && f(i)|
  {
    if n == 0 {
      assert (set i: nat | i < 0 && f(i)) == {};
    } else {
      CountIs(n - 1, f);
      var before, now := set i: nat | i < n - 1 && f(i), set i: nat | i < n && f(i);
      assert now == if f(n - 1) then before + {n - 1} else before;
    }
  }

  /** No split-tree violation is listed. */
  predicate Clean(rows: seq<Row>) {
    forall f :: 0 <= f < 23 ==> Count(|rows|, Faults(rows)[f]) == 0
  }

  ghost predicate NoFault(rows: seq<Row>, f: Fault) {
    forall i :: 0 <= i < |rows| ==> !f(i)
  }

  lemma CleanMeans(rows: seq<Row>, f: nat)
    requires Clean(rows) && f < 23
    ensures NoFault(rows, Faults(rows)[f])
  {
    ZeroIff(|rows|, Faults(rows)[f]);
  }
}
