/** When exactly the splitter without an encoder keeps a single over-long token within the limit. */
module TextPieces {
  import opened TextSplit

  // Where the apostrophe or point of a token is that starts the text; its end when there is none
  function Joint(text: string, kind: char -> Kind): (p: nat)
    requires text != ""
    ensures p <= |text|
  {
    RunEnd(text, kind, kind(text[0]), 0, |text|)
  }

  // Every character but the one at `p` belongs to one run, and that one joins two runs.
  predicate Joined(text: string, kind: char -> Kind, p: nat)
    requires text != ""
  {
    var k := kind(text[0]);
    && SameRun(k, k) && 0 < p && p != |text| - 1
    && (forall j :: 0 <= j < |text| && j != p ==> SameRun(k, kind(text[j])))
    && (p < |text| ==> Joins(k, kind(text[p])))
  }

  lemma TokenIsJoined(text: string, kind: char -> Kind, max: nat)
    requires max > 0 && OneToken(text, kind, max)
    ensures Joined(text, kind, Joint(text, kind))
  {
    var k, p := kind(text[0]), Joint(text, kind);
    if p < |text| {
      assert RunEnd(text, kind, k, p + 1, |text|) == |text|;
    }
  }

  // The weight of the piece text[s..t] of a joined token
  function PieceCount(p: nat, s: nat, t: nat): nat
    requires s < t
  {
    if p == s then 1 + CeilDiv4(t - s - 1)
    else if p == t - 1 then CeilDiv4(t - s - 1) + 1
    else CeilDiv4(t - s)
  }

  lemma PureCount(text: string, kind: char -> Kind, s: nat, t: nat)
    requires s <= t <= |text| && forall i, j :: s <= i < t && s <= j < t ==> SameRun(kind(text[i]), kind(text[j]))
    ensures Weigh(text, kind, s, t) == CeilDiv4(t - s)
  {
    if s < t {
      PieceWeight(text, kind, s, s, t, t);
    }
  }

  lemma FrontCount(text: string, kind: char -> Kind, p: nat, t: nat)
    requires text != "" && Joined(text, kind, p) && p < t <= |text|
    ensures Weigh(text, kind, p, t) == 1 + CeilDiv4(t - p - 1)
  {
    PureCount(text, kind, p + 1, t);
    assert Next(text, kind, p, t) == p + 1 && StepWeight(text, kind, p, p + 1) == 1;
  }

  lemma BackCount(text: string, kind: char -> Kind, p: nat, s: nat)
    requires text != "" && Joined(text, kind, p) && s < p < |text|
    ensures Weigh(text, kind, s, p + 1) == CeilDiv4(p - s) + 1
  {
    var k := kind(text[s]);
    assert RunEnd(text, kind, k, s, p + 1) == p;
    assert Next(text, kind, s, p + 1) == p;
    PieceWeight(text, kind, s, s, p, p);
    FrontCount(text, kind, p, p + 1);
  }

  lemma InsideCount(text: string, kind: char -> Kind, p: nat, s: nat, t: nat)
    requires text != "" && Joined(text, kind, p) && s < p < t - 1 && t <= |text|
    ensures Weigh(text, kind, s, t) == CeilDiv4(t - s)
  {
    var k := kind(text[s]);
    assert RunEnd(text, kind, k, s, t) == p;
    assert RunEnd(text, kind, k, p + 1, t) == t;
    assert Next(text, kind, s, t) == t && TokenEnd(text, kind, s, t) == t;
    assert Weigh(text, kind, t, t) == 0;
  }

  lemma AsidePure(text: string, kind: char -> Kind, p: nat, s: nat, t: nat)
    requires text != "" && Joined(text, kind, p) && s < t <= |text| && (p < s || t <= p)
    ensures forall i, j :: s <= i < t && s <= j < t ==> SameRun(kind(text[i]), kind(text[j]))
  {
  }

  /** What a piece weighs by the estimator's own count of that piece. */
  lemma PieceWeighs(text: string, kind: char -> Kind, p: nat, s: nat, t: nat)
    requires text != "" && Joined(text, kind, p) && s < t <= |text|
    ensures WeighAll(text[s..t], kind) == PieceCount(p, s, t)
  {
    hide Weigh;
    WeighShift(text, kind, s, s, t);
    if p < s || t <= p {
      AsidePure(text, kind, p, s, t);
      PureCount(text, kind, s, t);
    } else if p == s {
      FrontCount(text, kind, p, t);
    } else if p == t - 1 {
      BackCount(text, kind, p, s);
    } else {
      InsideCount(text, kind, p, s, t);
    }
  }

  /**
  The pieces that come out too heavy: one that ends with the apostrophe or point, or one that begins
  with it and has at least `4 * max - 2` characters.  Only ASCII tokens are cut into pieces that long.
   */
  predicate CutAtJoint(p: nat, n: nat, size: nat, max: nat)
    requires size > 0
  {
    p < n && size == 4 * max && (p % size == size - 1 || (p % size == 0 && n - p >= size - 2))
  }

  // The first piece of text[s..] when `s` starts a piece
  lemma PieceFits(p: nat, s: nat, n: nat, size: nat, max: nat)
    requires max > 0 && (size == max || size == 4 * max) && s < n && s % size == 0 && p != n - 1
    ensures var t := if n - s <= size then n else s + size;
            PieceCount(p, s, t) <= max <==> !(s <= p < t && CutAtJoint(p, n, size, max))
  {
    if s <= p < s + size {
      Offset(p, s, size);
    }
  }

  lemma Offset(p: nat, s: nat, size: nat)
    requires size > 0 && s % size == 0 && s <= p < s + size
    ensures p % size == p - s && (s + size) % size == 0
  {
    var m := s / size;
    assert s == size * m;
    Remainder(p, m, size);
    assert s + size == size * (m + 1);
    Remainder(s + size, m + 1, size);
  }

  lemma Grows(size: nat, a: nat, b: nat)
    requires a <= b
    ensures size * a <= size * b
  {
  }

  lemma Remainder(x: nat, m: nat, size: nat)
    requires size > 0 && size * m <= x < size * m + size
    ensures x % size == x - size * m
  {
    var q, r := x / size, x % size;
    assert x == size * q + r;
    if q < m {
      Grows(size, q + 1, m);
    } else if q > m {
      Grows(size, m + 1, q);
    }
  }

  lemma {:induction false} PiecesFit(text: string, kind: char -> Kind, p: nat, s: nat, size: nat, max: nat)
    requires text != "" && Joined(text, kind, p) && s < |text| && max > 0
    requires (size == max || size == 4 * max) && s % size == 0
    ensures Light(Pieces(text[s..], size), kind, max) <==> !(s <= p && CutAtJoint(p, |text|, size, max))
    decreases |text| - s
  {
    hide Joined, PieceCount, CutAtJoint, WeighAll;
    var n := |text|;
    NotLast(text, kind, p);
    PieceFits(p, s, n, size, max);
    if n - s <= size {
      LastIsWhole(text[s..], size);
      LightCons(text[s..], [], kind, max);
      assert text[s..] == text[s..n] && [text[s..]] + [] == [text[s..]];
      PieceWeighs(text, kind, p, s, n);
      JointInside(p, n, size, max);
    } else {
      var t := s + size;
      FirstPiece(text, s, n, size);
      assert text[s..n] == text[s..] && text[t..n] == text[t..];
      PieceWeighs(text, kind, p, s, t);
      Offset(s, s, size);
      PiecesFit(text, kind, p, t, size, max);
      LightCons(text[s..t], Pieces(text[t..], size), kind, max);
    }
  }

  lemma NotLast(text: string, kind: char -> Kind, p: nat)
    requires text != "" && Joined(text, kind, p)
    ensures p != |text| - 1
  {
  }

  lemma JointInside(p: nat, n: nat, size: nat, max: nat)
    requires size > 0
    ensures CutAtJoint(p, n, size, max) ==> p < n
  {
  }

  lemma LightCons(part: string, rest: seq<string>, kind: char -> Kind, max: nat)
    ensures Light([part] + rest, kind, max) <==> WeighAll(part, kind) <= max && Light(rest, kind, max)
  {
    var all := [part] + rest;
    assert all[0] == part && forall i :: 0 <= i < |rest| ==> all[i + 1] == rest[i];
  }

  /**
  A text that is one over-long token comes out in parts within the limit, by the estimator's own count
  of each part, if and only if no cut falls next to its apostrophe or point as `CutAtJoint` says.
   */
  lemma OneTokenLightIff(text: string, kind: char -> Kind, max: nat)
    requires max > 0 && OneToken(text, kind, max)
    ensures var size := PieceSize(text, kind, max);
            Light(Pieces(text, size), kind, max) <==> !CutAtJoint(Joint(text, kind), |text|, size, max)
  {
    TokenIsJoined(text, kind, max);
    assert text[0..] == text;
    PiecesFit(text, kind, Joint(text, kind), 0, PieceSize(text, kind, max), max);
  }

  // The kinds of the characters of an English word
  function WordKind(c: char): Kind {
    if 'a' <= c <= 'z' then Letter else if c == '\'' then Apostrophe else Other
  }

  const CONTRACTION := "abcd'fgh"

  /** The splitter cuts this word, with a limit of one, into `abcd` and `'fgh`, which weighs two. */
  lemma ContractionTooHeavy()
    ensures OneToken(CONTRACTION, WordKind, 1)
    ensures Pieces(CONTRACTION, PieceSize(CONTRACTION, WordKind, 1)) == ["abcd", "'fgh"] && WeighAll("'fgh", WordKind) == 2
  {
    var text, kind := CONTRACTION, WordKind;
    assert RunEnd(text, kind, Letter, 0, 8) == 4;
    assert RunEnd(text, kind, Letter, 5, 8) == 8;
    assert Joined(text, kind, 4);
    assert text[..4] == "abcd" && text[4..8] == "'fgh" == text[4..];
    LastIsWhole("'fgh", 4);
    PieceWeighs(text, kind, 4, 4, 8);
  }
}
