/**
Replaying persisted split trees.  A status map says which chunks were split; expanding a root
repeats those splits and yields the leaves, without any of the work of their parents.
 */
module SplitTree {
  import opened Wrappers
  import opened TextSplit
  import opened Chunking
  import opened ChunkMerge
  import opened ChunkWindows
  import opened SplitChunk
  import opened SplitChildren

  type Key = nat

  datatype Status = WasSplit | SupersededSplit | WasSucceeded | OtherStatus

  /** The import key hashes the messages of a chunk together with its core indices. */
  type Hash = (seq<Message>, seq<nat>) -> Key

  ghost predicate Injective(hash: Hash) {
    forall a, b, c, d :: hash(a, b) == hash(c, d) ==> a == c && b == d
  }

  function KeyOf(hash: Hash, c: Chunk): Key {
    hash(c.messages, c.core)
  }

  function SplitKeys(statuses: map<Key, Status>): set<Key> {
    set k | k in statuses && (statuses[k].WasSplit? || statuses[k].SupersededSplit?)
  }

  datatype ExpandError = Cycle | NotDeterministic

  /** Ordered leaves, and the keys of those below a superseded split that did not succeed themselves. */
  datatype Leaves = Leaves(chunks: seq<Chunk>, superseded: set<Key>)

  // The leaves of both children in order, or the first error
  function Both(left: Result<Leaves, ExpandError>, right: Result<Leaves, ExpandError>): Result<Leaves, ExpandError> {
    if left.Failure? then left
    else if right.Failure? then right
    else Success(Leaves(left.value.chunks + right.value.chunks, left.value.superseded + right.value.superseded))
  }

  lemma SplitTurnsNonEmpty(t: Tokens, c: Chunk)
    ensures NonEmptyTurns(SplitTurns(t, c))
  {
    var _ := SplitTurnsAre(t, c);
  }

  /**
  `expand_persisted_split_chunks` on one root.  It ends for any status map, whatever the chunks:
  below every split the split keys that are not yet ancestors get fewer.
   */
  ghost function ExpandTree(t: Tokens, hash: Hash, statuses: map<Key, Status>, c: Chunk, ancestors: set<Key>, inherited: bool)
    : Result<Leaves, ExpandError>
    decreases |SplitKeys(statuses) - ancestors|
  {
    var key := KeyOf(hash, c);
    var superseded := inherited || (key in statuses && statuses[key].SupersededSplit?);
    if key !in SplitKeys(statuses) then
      Success(Leaves([c], if superseded && !(key in statuses && statuses[key].WasSucceeded?) then {key} else {}))
    else if key in ancestors then Failure(Cycle)
    else
      SplitTurnsNonEmpty(t, c);
      match SplitOf(t, c, key)
      case Children(left, right) =>
        Fewer(SplitKeys(statuses), ancestors, key);
        Both(ExpandTree(t, hash, statuses, left, ancestors + {key}, superseded),
             ExpandTree(t, hash, statuses, right, ancestors + {key}, superseded))
      case _ => Failure(NotDeterministic)
  }

  lemma Fewer(all: set<Key>, ancestors: set<Key>, key: Key)
    requires key in all && key !in ancestors
    ensures |all - (ancestors + {key})| < |all - ancestors|
  {
    assert all - ancestors == (all - (ancestors + {key})) + {key};
  }

  lemma ExpandEnds(t: Tokens, hash: Hash, statuses: map<Key, Status>, c: Chunk, ancestors: set<Key>, inherited: bool)
    ensures NonEmptyTurns(SplitTurns(t, c))
    ensures var key, r := KeyOf(hash, c), ExpandTree(t, hash, statuses, c, ancestors, inherited);
            if key !in SplitKeys(statuses) then
              r == Success(Leaves([c], if (inherited || (key in statuses && statuses[key].SupersededSplit?))
                                          && !(key in statuses && statuses[key].WasSucceeded?) then {key} else {}))
            else if key in ancestors then r == Failure(Cycle)
            else !SplitOf(t, c, key).Children? ==> r == Failure(NotDeterministic)
  {
    SplitTurnsNonEmpty(t, c);
  }

  lemma ExpandBelow(t: Tokens, hash: Hash, statuses: map<Key, Status>, c: Chunk, ancestors: set<Key>, inherited: bool, left: Chunk, right: Chunk)
    requires var key := KeyOf(hash, c); key in SplitKeys(statuses) && key !in ancestors
    requires NonEmptyTurns(SplitTurns(t, c)) && SplitOf(t, c, KeyOf(hash, c)) == Children(left, right)
    ensures var key := KeyOf(hash, c);
            var below := inherited || (key in statuses && statuses[key].SupersededSplit?);
            ExpandTree(t, hash, statuses, c, ancestors, inherited) ==
              Both(ExpandTree(t, hash, statuses, left, ancestors + {key}, below),
                   ExpandTree(t, hash, statuses, right, ancestors + {key}, below))
  {
  }

  /****** the cycle error is unreachable ******/

  // Every ancestor key belongs to a chunk with more core text.
  ghost predicate Longer(hash: Hash, ancestors: set<Key>, length: nat) {
    forall a :: a in ancestors ==> exists c: Chunk :: KeyOf(hash, c) == a && CoreLength(c) > length
  }

  lemma NotAnAncestor(hash: Hash, ancestors: set<Key>, c: Chunk)
    requires Injective(hash) && Longer(hash, ancestors, CoreLength(c))
    ensures KeyOf(hash, c) !in ancestors
  {
    forall d: Chunk | KeyOf(hash, d) == KeyOf(hash, c) ensures CoreLength(d) == CoreLength(c) {
      assert d.messages == c.messages && d.core == c.core;
    }
  }

  lemma LongerBelow(hash: Hash, ancestors: set<Key>, c: Chunk, child: Chunk)
    requires Longer(hash, ancestors, CoreLength(c)) && CoreLength(child) < CoreLength(c)
    ensures Longer(hash, ancestors + {KeyOf(hash, c)}, CoreLength(child))
  {
    forall a | a in ancestors + {KeyOf(hash, c)} ensures exists d: Chunk :: KeyOf(hash, d) == a && CoreLength(d) > CoreLength(child) {
      if a in ancestors {
        var d: Chunk :| KeyOf(hash, d) == a && CoreLength(d) > CoreLength(c);
      } else {
        assert KeyOf(hash, c) == a;
      }
    }
  }

  /****** what the live run does ******/

  /** `process_chunk` when claims answer "split" on exactly the keys in `split`: the leaves in the order of their turn. */
  ghost function Visit(t: Tokens, hash: Hash, split: set<Key>, c: Chunk): Result<seq<Chunk>, ExpandError>
    requires Lossless(t) && WellFormed(c)
    decreases CoreLength(c)
  {
    if KeyOf(hash, c) !in split then Success([c]) else
    SplitTurnsNonEmpty(t, c);
    SplitIsCut(t, c, KeyOf(hash, c));
    match SplitOf(t, c, KeyOf(hash, c))
    case Children(left, right) =>
      SplitConserves(t, c, KeyOf(hash, c));
      (match Visit(t, hash, split, left)
       case Failure(e) => Failure(e)
       case Success(l) =>
         match Visit(t, hash, split, right)
         case Failure(e) => Failure(e)
         case Success(r) => Success(l + r))
    case _ => Failure(NotDeterministic)
  }

  /**
  Replay visits the same leaves in the same order as the live run, or fails where it would; the
  cycle error is never raised.
   */
  lemma {:induction false} ExpandIsVisit(t: Tokens, hash: Hash, statuses: map<Key, Status>, c: Chunk, ancestors: set<Key>, inherited: bool)
    requires Lossless(t) && WellFormed(c) && Injective(hash) && Longer(hash, ancestors, CoreLength(c))
    ensures match ExpandTree(t, hash, statuses, c, ancestors, inherited)
            case Success(l) => Visit(t, hash, SplitKeys(statuses), c) == Success(l.chunks)
            case Failure(e) => e == NotDeterministic && Visit(t, hash, SplitKeys(statuses), c) == Failure(e)
    decreases CoreLength(c)
  {
    var key, split := KeyOf(hash, c), SplitKeys(statuses);
    ExpandEnds(t, hash, statuses, c, ancestors, inherited);
    VisitEnds(t, hash, split, c);
    if key in split {
      NotAnAncestor(hash, ancestors, c);
      SplitIsCut(t, c, key);
      var below := inherited || (key in statuses && statuses[key].SupersededSplit?);
      if |SplitTurns(t, c)| >= 2 {
        SplitConserves(t, c, key);
        var r := SplitOf(t, c, key);
        LongerBelow(hash, ancestors, c, r.left);
        LongerBelow(hash, ancestors, c, r.right);
        ExpandBelow(t, hash, statuses, c, ancestors, inherited, r.left, r.right);
        VisitBelow(t, hash, split, c, r.left, r.right);
        hide Longer, SplitOf, SplitTurns, WellFormed, CoreLength, CutFrom, ExpandTree, Visit, SplitKeys;
        ExpandIsVisit(t, hash, statuses, r.left, ancestors + {key}, below);
        ExpandIsVisit(t, hash, statuses, r.right, ancestors + {key}, below);
      }
    }
  }

  lemma VisitEnds(t: Tokens, hash: Hash, split: set<Key>, c: Chunk)
    requires Lossless(t) && WellFormed(c)
    ensures NonEmptyTurns(SplitTurns(t, c))
    ensures KeyOf(hash, c) !in split ==> Visit(t, hash, split, c) == Success([c])
    ensures KeyOf(hash, c) in split && !SplitOf(t, c, KeyOf(hash, c)).Children? ==> Visit(t, hash, split, c) == Failure(NotDeterministic)
  {
    SplitTurnsNonEmpty(t, c);
  }

  lemma VisitBelow(t: Tokens, hash: Hash, split: set<Key>, c: Chunk, left: Chunk, right: Chunk)
    requires Lossless(t) && WellFormed(c) && WellFormed(left) && WellFormed(right) && KeyOf(hash, c) in split
    requires NonEmptyTurns(SplitTurns(t, c)) && SplitOf(t, c, KeyOf(hash, c)) == Children(left, right)
    ensures var l, r := Visit(t, hash, split, left), Visit(t, hash, split, right);
            Visit(t, hash, split, c) == if l.Failure? then l else if r.Failure? then r else Success(l.value + r.value)
  {
  }

  /****** what the leaves carry ******/

  function TextOfLeaves(leaves: seq<Chunk>, s: nat): string {
    if leaves == [] then "" else CoreText(leaves[0], s) + TextOfLeaves(leaves[1..], s)
  }

  ghost predicate InSomeCore(leaves: seq<Chunk>, s: nat) {
    exists l :: l in leaves && s in l.core
  }

  lemma {:induction false} LeavesConcat(a: seq<Chunk>, b: seq<Chunk>, s: nat)
    ensures TextOfLeaves(a + b, s) == TextOfLeaves(a, s) + TextOfLeaves(b, s)
  {
    hide CoreText;
    if a == [] {
      assert a + b == b;
    } else {
      assert (a + b)[0] == a[0] && (a + b)[1..] == a[1..] + b;
      LeavesConcat(a[1..], b, s);
      Associative(CoreText(a[0], s), TextOfLeaves(a[1..], s), TextOfLeaves(b, s));
    }
  }

  lemma CoresConcat(a: seq<Chunk>, b: seq<Chunk>, s: nat)
    ensures InSomeCore(a + b, s) <==> InSomeCore(a, s) || InSomeCore(b, s)
  {
    assert forall l :: l in a + b <==> l in a || l in b;
  }

  /** The leaves carry exactly the core indices and, message by message and in order, exactly the core text of their root. */
  lemma {:induction false} LeavesKeepCore(t: Tokens, hash: Hash, split: set<Key>, c: Chunk, s: nat)
    requires Lossless(t) && WellFormed(c) && Visit(t, hash, split, c).Success?
    ensures var leaves := Visit(t, hash, split, c).value;
            && TextOfLeaves(leaves, s) == CoreText(c, s)
            && (InSomeCore(leaves, s) <==> s in c.core)
    decreases CoreLength(c)
  {
    var key := KeyOf(hash, c);
    if key !in split {
      assert TextOfLeaves([c], s) == CoreText(c, s) + TextOfLeaves([], s);
      assert c in [c];
    } else {
      SplitIsCut(t, c, key);
      SplitConserves(t, c, key);
      var r := SplitOf(t, c, key);
      hide SplitOf, SplitTurns, WellFormed, CoreLength, CutFrom, CoreText, TextOfLeaves;
      LeavesKeepCore(t, hash, split, r.left, s);
      LeavesKeepCore(t, hash, split, r.right, s);
      LeavesConcat(Visit(t, hash, split, r.left).value, Visit(t, hash, split, r.right).value, s);
      CoresConcat(Visit(t, hash, split, r.left).value, Visit(t, hash, split, r.right).value, s);
    }
  }

  /** Every leaf is a chunk that was not split, with non-empty core text; there is one more leaf than there are splits below a root. */
  ghost function Splits(t: Tokens, hash: Hash, split: set<Key>, c: Chunk): nat
    requires Lossless(t) && WellFormed(c)
    decreases CoreLength(c)
  {
    if KeyOf(hash, c) !in split then 0 else
    SplitTurnsNonEmpty(t, c);
    SplitIsCut(t, c, KeyOf(hash, c));
    match SplitOf(t, c, KeyOf(hash, c))
    case Children(left, right) =>
      SplitConserves(t, c, KeyOf(hash, c));
      1 + Splits(t, hash, split, left) + Splits(t, hash, split, right)
    case _ => 0
  }

  lemma {:induction false} LeafCount(t: Tokens, hash: Hash, split: set<Key>, c: Chunk)
    requires Lossless(t) && WellFormed(c) && Visit(t, hash, split, c).Success?
    ensures var leaves := Visit(t, hash, split, c).value;
            |leaves| == Splits(t, hash, split, c) + 1 && forall l :: l in leaves ==> WellFormed(l) && KeyOf(hash, l) !in split
    decreases CoreLength(c)
  {
    var key := KeyOf(hash, c);
    if key in split {
      SplitIsCut(t, c, key);
      SplitConserves(t, c, key);
      var r := SplitOf(t, c, key);
      hide SplitOf, SplitTurns, WellFormed, CoreLength, CutFrom;
      LeafCount(t, hash, split, r.left);
      LeafCount(t, hash, split, r.right);
    }
  }

  /****** superseded leaves ******/

  predicate Unfinished(statuses: map<Key, Status>, k: Key) {
    !(k in statuses && statuses[k].WasSucceeded?)
  }

  ghost function UnfinishedKeys(hash: Hash, statuses: map<Key, Status>, leaves: seq<Chunk>): set<Key> {
    set l | l in leaves && Unfinished(statuses, KeyOf(hash, l)) :: KeyOf(hash, l)
  }

  lemma UnfinishedConcat(hash: Hash, statuses: map<Key, Status>, a: seq<Chunk>, b: seq<Chunk>)
    ensures UnfinishedKeys(hash, statuses, a + b) == UnfinishedKeys(hash, statuses, a) + UnfinishedKeys(hash, statuses, b)
  {
    assert forall l :: l in a + b <==> l in a || l in b;
  }

  /**
  Below a superseded split exactly the leaves that did not succeed are collected; without one,
  none.  In between the collected keys are always keys of unfinished leaves.
   */
  lemma {:induction false} SupersededLeaves(t: Tokens, hash: Hash, statuses: map<Key, Status>, c: Chunk, ancestors: set<Key>, inherited: bool)
    requires ExpandTree(t, hash, statuses, c, ancestors, inherited).Success?
    ensures var l := ExpandTree(t, hash, statuses, c, ancestors, inherited).value;
            && l.superseded <= UnfinishedKeys(hash, statuses, l.chunks)
            && (inherited ==> l.superseded == UnfinishedKeys(hash, statuses, l.chunks))
            && (!inherited && (forall k :: k in statuses ==> !statuses[k].SupersededSplit?) ==> l.superseded == {})
    decreases |SplitKeys(statuses) - ancestors|
  {
    var key := KeyOf(hash, c);
    var superseded := inherited || (key in statuses && statuses[key].SupersededSplit?);
    if key !in SplitKeys(statuses) {
      assert UnfinishedKeys(hash, statuses, [c]) == if Unfinished(statuses, key) then {key} else {};
    } else {
      SplitTurnsNonEmpty(t, c);
      Fewer(SplitKeys(statuses), ancestors, key);
      var r := SplitOf(t, c, key);
      hide SplitOf, UnfinishedKeys;
      SupersededLeaves(t, hash, statuses, r.left, ancestors + {key}, superseded);
      SupersededLeaves(t, hash, statuses, r.right, ancestors + {key}, superseded);
      UnfinishedConcat(hash, statuses,
                       ExpandTree(t, hash, statuses, r.left, ancestors + {key}, superseded).value.chunks,
                       ExpandTree(t, hash, statuses, r.right, ancestors + {key}, superseded).value.chunks);
    }
  }

  /****** in terms of the statuses alone ******/

  // The status map says that a chunk of this key was split, be it superseded since or not.
  predicate SaysSplit(statuses: map<Key, Status>, k: Key) {
    k in statuses && (statuses[k] == WasSplit || statuses[k] == SupersededSplit)
  }

  /**
  Replay goes on below every chunk whose status says split or superseded split, and below no other: no leaf
  has such a status, and a root without one is its own only leaf.
   */
  lemma {:induction false} LeavesWereNotSplit(t: Tokens, hash: Hash, statuses: map<Key, Status>, c: Chunk, ancestors: set<Key>, inherited: bool)
    requires ExpandTree(t, hash, statuses, c, ancestors, inherited).Success?
    ensures var leaves := ExpandTree(t, hash, statuses, c, ancestors, inherited).value.chunks;
            && (forall l :: l in leaves ==>
                  !(KeyOf(hash, l) in statuses && (statuses[KeyOf(hash, l)] == WasSplit || statuses[KeyOf(hash, l)] == SupersededSplit)))
            && (!SaysSplit(statuses, KeyOf(hash, c)) <==> leaves == [c])
    decreases |SplitKeys(statuses) - ancestors|
  {
    var key := KeyOf(hash, c);
    var superseded := inherited || (key in statuses && statuses[key].SupersededSplit?);
    if key in SplitKeys(statuses) {
      SplitTurnsNonEmpty(t, c);
      Fewer(SplitKeys(statuses), ancestors, key);
      var r := SplitOf(t, c, key);
      hide SplitOf;
      LeavesWereNotSplit(t, hash, statuses, r.left, ancestors + {key}, superseded);
      LeavesWereNotSplit(t, hash, statuses, r.right, ancestors + {key}, superseded);
      if ExpandTree(t, hash, statuses, c, ancestors, inherited).value.chunks == [c] {
        assert c in ExpandTree(t, hash, statuses, c, ancestors, inherited).value.chunks;
      }
    }
  }

  /** Below a root that is itself a superseded split, exactly the leaves whose status is not succeeded are collected. */
  lemma SupersededRoot(t: Tokens, hash: Hash, statuses: map<Key, Status>, c: Chunk, k: Key)
    requires KeyOf(hash, c) in statuses && statuses[KeyOf(hash, c)] == SupersededSplit
    requires ExpandTree(t, hash, statuses, c, {}, false).Success?
    ensures var l := ExpandTree(t, hash, statuses, c, {}, false).value;
            k in l.superseded <==> exists leaf :: leaf in l.chunks && KeyOf(hash, leaf) == k
                                                  && !(k in statuses && statuses[k] == WasSucceeded)
  {
    var key := KeyOf(hash, c);
    ExpandEnds(t, hash, statuses, c, {}, false);
    assert key in SplitKeys(statuses);
    var r := SplitOf(t, c, key);
    ExpandBelow(t, hash, statuses, c, {}, false, r.left, r.right);
    hide SplitOf, ExpandTree;
    SupersededLeaves(t, hash, statuses, r.left, {} + {key}, true);
    SupersededLeaves(t, hash, statuses, r.right, {} + {key}, true);
    UnfinishedConcat(hash, statuses,
                     ExpandTree(t, hash, statuses, r.left, {} + {key}, true).value.chunks,
                     ExpandTree(t, hash, statuses, r.right, {} + {key}, true).value.chunks);
    UnfinishedIs(hash, statuses, ExpandTree(t, hash, statuses, c, {}, false).value.chunks, k);
  }

  lemma UnfinishedIs(hash: Hash, statuses: map<Key, Status>, leaves: seq<Chunk>, k: Key)
    ensures k in UnfinishedKeys(hash, statuses, leaves) <==>
              exists leaf :: leaf in leaves && KeyOf(hash, leaf) == k && !(k in statuses && statuses[k] == WasSucceeded)
  {
  }
}
