/**
Cutting a long text into parts.  Nothing is ever lost; with an encoder the cuts fall on code
point boundaries, without one the parts stay within the limit by the estimator's own count.
 */
module TextSplit {
  import opened Wrappers
  import opened Utf8

  function Concat(parts: seq<string>): string {
    if parts == [] then "" else parts[0] + Concat(parts[1..])
  }

  lemma {:induction false} ConcatAppend(a: seq<string>, b: seq<string>)
    ensures Concat(a + b) == Concat(a) + Concat(b)
  {
    if a == [] {
      assert a + b == b;
    } else {
      assert (a + b)[0] == a[0] && (a + b)[1..] == a[1..] + b;
      ConcatAppend(a[1..], b);
    }
  }

  lemma ConcatSnoc(parts: seq<string>, part: string)
    ensures Concat(parts + [part]) == Concat(parts) + part
  {
    ConcatAppend(parts, [part]);
    assert Concat([part]) == part + Concat([]);
  }

  predicate NoneEmpty(parts: seq<string>) {
    forall i :: 0 <= i < |parts| ==> parts[i] != ""
  }

  /****** the fallback tokenizer ******/

  /** All the tokenizer looks at in a character; `Other` covers ideographs and every other sign. */
  datatype Kind = Space | Letter | AsciiDigit | OtherDigit | Apostrophe | Point | Other

  predicate SameRun(k: Kind, l: Kind) {
    (k.Letter? && l.Letter?) || ((k.AsciiDigit? || k.OtherDigit?) && (l.AsciiDigit? || l.OtherDigit?))
  }

  // An apostrophe may join two words, a point two numbers.
  predicate Joins(k: Kind, l: Kind) {
    if k.Letter? then l.Apostrophe? else l.Point?
  }

  // The end of the run of letters or digits from `i` on, within text[..b]
  function RunEnd(text: string, kind: char -> Kind, k: Kind, i: nat, b: nat): (e: nat)
    requires i <= b <= |text|
    ensures i <= e <= b && (e < b ==> !SameRun(k, kind(text[e])))
    ensures forall j :: i <= j < e ==> SameRun(k, kind(text[j]))
    decreases b - i
  {
    if i < b && SameRun(k, kind(text[i])) then RunEnd(text, kind, k, i + 1, b) else i
  }

  // The end of the token that starts at `i`, within text[..b]
  function TokenEnd(text: string, kind: char -> Kind, i: nat, b: nat): (e: nat)
    requires i < b <= |text|
    ensures i < e <= b
  {
    var k := kind(text[i]);
    var e := RunEnd(text, kind, k, i, b);
    if !SameRun(k, k) then i + 1
    else if e + 1 < b && Joins(k, kind(text[e])) && SameRun(k, kind(text[e + 1])) then RunEnd(text, kind, k, e + 1, b)
    else e
  }

  function CeilDiv4(n: nat): (r: nat)
    ensures n <= 4 * r < n + 4
  {
    (n + 3) / 4
  }

  // `_fallback_token_weight(text[i:e])`: words and numbers count a quarter per character
  function TokenWeight(text: string, kind: char -> Kind, i: nat, e: nat): (w: nat)
    requires i < e <= |text|
    ensures w > 0
  {
    if SameRun(kind(text[i]), kind(text[i])) && TokenEnd(text, kind, i, e) == e then CeilDiv4(e - i) else 1
  }

  // The next place at or behind which a token may start
  function Next(text: string, kind: char -> Kind, i: nat, b: nat): (e: nat)
    requires i < b <= |text|
    ensures i < e <= b
  {
    if kind(text[i]).Space? then i + 1 else TokenEnd(text, kind, i, b)
  }

  function StepWeight(text: string, kind: char -> Kind, i: nat, e: nat): nat
    requires i < e <= |text|
  {
    if kind(text[i]).Space? then 0 else TokenWeight(text, kind, i, e)
  }

  /** The fallback count of text[i..b], before it is rounded up to at least one. */
  function Weigh(text: string, kind: char -> Kind, i: nat, b: nat): nat
    requires i <= b <= |text|
    decreases b - i
  {
    if i == b then 0 else
    var e := Next(text, kind, i, b);
    StepWeight(text, kind, i, e) + Weigh(text, kind, e, b)
  }

  function WeighAll(text: string, kind: char -> Kind): nat {
    Weigh(text, kind, 0, |text|)
  }

  /****** what a token is ******/

  // All of text[i..e] are letters, or all are digits.
  ghost predicate AllOf(text: string, kind: char -> Kind, i: nat, e: nat, letters: bool)
    requires e <= |text|
  {
    forall j :: i <= j < e ==> if letters then kind(text[j]) == Letter else kind(text[j]) == AsciiDigit || kind(text[j]) == OtherDigit
  }

  // Two words joined by an apostrophe, or two numbers by a point, at `m`
  ghost predicate JoinedAt(text: string, kind: char -> Kind, i: nat, m: nat, e: nat, letters: bool)
    requires e <= |text|
  {
    && i < m < e - 1 && AllOf(text, kind, i, m, letters) && AllOf(text, kind, m + 1, e, letters)
    && kind(text[m]) == if letters then Apostrophe else Point
  }

  /** text[i..e] is a word or a number, perhaps of two joined parts. */
  ghost predicate IsWord(text: string, kind: char -> Kind, i: nat, e: nat)
    requires i < e <= |text|
  {
    exists letters: bool :: AllOf(text, kind, i, e, letters) || exists m: nat :: JoinedAt(text, kind, i, m, e, letters)
  }

  lemma RunIsWord(text: string, kind: char -> Kind, i: nat, e: nat)
    requires i < e <= |text| && SameRun(kind(text[i]), kind(text[i])) && forall j :: i <= j < e ==> SameRun(kind(text[i]), kind(text[j]))
    ensures AllOf(text, kind, i, e, kind(text[i]).Letter?)
  {
  }

  // A word does not go on behind its first run, unless it is joined there.
  lemma WordStops(text: string, kind: char -> Kind, i: nat, b: nat, f: nat)
    requires i < f <= b <= |text| && IsWord(text, kind, i, f)
    ensures SameRun(kind(text[i]), kind(text[i]))
    ensures var e := RunEnd(text, kind, kind(text[i]), i, b);
            f <= e || (e + 1 < f && Joins(kind(text[i]), kind(text[e])) && SameRun(kind(text[i]), kind(text[e + 1]))
                       && forall j :: e < j < f ==> SameRun(kind(text[i]), kind(text[j])))
  {
    var letters :| AllOf(text, kind, i, f, letters) || exists m: nat :: JoinedAt(text, kind, i, m, f, letters);
    if !AllOf(text, kind, i, f, letters) {
      var m: nat :| JoinedAt(text, kind, i, m, f, letters);
      var e := RunEnd(text, kind, kind(text[i]), i, b);
      assert e == m;
    }
  }

  /** The token at a place is the longest word or number there, or else the single character. */
  lemma TokenIsLongest(text: string, kind: char -> Kind, i: nat, b: nat)
    requires i < b <= |text|
    ensures var e := TokenEnd(text, kind, i, b);
            && (IsWord(text, kind, i, e) || (e == i + 1 && !SameRun(kind(text[i]), kind(text[i]))))
            && forall f :: e < f <= b ==> !IsWord(text, kind, i, f)
  {
    var k := kind(text[i]);
    var r, e := RunEnd(text, kind, k, i, b), TokenEnd(text, kind, i, b);
    if SameRun(k, k) {
      if e == r {
        RunIsWord(text, kind, i, e);
      } else {
        RunIsWord(text, kind, i, r);
        assert RunEnd(text, kind, k, r + 1, b) == RunEnd(text, kind, k, r + 2, b);
        assert JoinedAt(text, kind, i, r, e, k.Letter?);
        assert AllOf(text, kind, i, e, k.Letter?) || exists m: nat :: JoinedAt(text, kind, i, m, e, k.Letter?);
      }
    }
    forall f | e < f <= b ensures !IsWord(text, kind, i, f) {
      if IsWord(text, kind, i, f) {
        WordStops(text, kind, i, b, f);
        assert false;
      }
    }
  }

  /** White space weighs nothing, a word or number a quarter of its characters, rounded up, and any other character one. */
  lemma WeightIs(text: string, kind: char -> Kind, i: nat, e: nat)
    requires i < e <= |text|
    ensures var w := StepWeight(text, kind, i, e);
            if kind(text[i]) == Space then w == 0
            else if IsWord(text, kind, i, e) then e - i <= 4 * w < e - i + 4 else w == 1
  {
    TokenIsLongest(text, kind, i, e);
    if IsWord(text, kind, i, e) {
      WordStops(text, kind, i, e, e);
    }
    hide TokenEnd, IsWord;
  }

  /****** tokenizing a part of a text ******/

  lemma {:induction false} RunEndShift(text: string, kind: char -> Kind, k: Kind, i: nat, a: nat, b: nat)
    requires a <= i <= b <= |text|
    ensures RunEnd(text, kind, k, i, b) == a + RunEnd(text[a..b], kind, k, i - a, b - a)
    decreases b - i
  {
    if i < b {
      RunEndShift(text, kind, k, i + 1, a, b);
    }
  }

  lemma TokenEndShift(text: string, kind: char -> Kind, i: nat, a: nat, b: nat)
    requires a <= i < b <= |text|
    ensures TokenEnd(text, kind, i, b) == a + TokenEnd(text[a..b], kind, i - a, b - a)
  {
    var k := kind(text[i]);
    RunEndShift(text, kind, k, i, a, b);
    var e := RunEnd(text, kind, k, i, b);
    if e + 1 < b {
      RunEndShift(text, kind, k, e + 1, a, b);
    }
  }

  lemma StepWeightShift(text: string, kind: char -> Kind, i: nat, e: nat, a: nat, b: nat)
    requires a <= i < e <= b <= |text|
    ensures StepWeight(text, kind, i, e) == StepWeight(text[a..b], kind, i - a, e - a)
  {
    hide TokenEnd;
    TokenEndShift(text, kind, i, a, e);
    TokenEndShift(text[a..b], kind, i - a, 0, e - a);
    assert text[a..b][0..e - a] == text[a..e];
  }

  /** Counting a part on its own gives what counting it in place gives. */
  lemma {:induction false} WeighShift(text: string, kind: char -> Kind, i: nat, a: nat, b: nat)
    requires a <= i <= b <= |text|
    ensures Weigh(text, kind, i, b) == Weigh(text[a..b], kind, i - a, b - a)
    decreases b - i
  {
    if i < b {
      TokenEndShift(text, kind, i, a, b);
      var e := Next(text, kind, i, b);
      StepWeightShift(text, kind, i, e, a, b);
      WeighShift(text, kind, e, a, b);
    }
  }

  // Tokenizing from `a` on comes to `p`.
  predicate Through(text: string, kind: char -> Kind, a: nat, p: nat)
    requires a <= |text| && p <= |text|
    decreases |text| - a
  {
    a == p || (a < p && Through(text, kind, Next(text, kind, a, |text|), p))
  }

  lemma {:induction false} ThroughForward(text: string, kind: char -> Kind, a: nat, p: nat)
    requires a <= |text| && p <= |text| && Through(text, kind, a, p)
    ensures a <= p
    decreases |text| - a
  {
  }

  // Cutting the text behind a token does not change the token.
  lemma NextCut(text: string, kind: char -> Kind, i: nat, p: nat)
    requires i < p <= |text| && Next(text, kind, i, |text|) <= p
    ensures Next(text, kind, i, p) == Next(text, kind, i, |text|)
  {
    var k := kind(text[i]);
    RunCut(text, kind, k, i, p);
    var e := RunEnd(text, kind, k, i, |text|);
    if e + 1 < |text| && e < p {
      RunCut(text, kind, k, e + 1, p);
    }
  }

  lemma {:induction false} RunCut(text: string, kind: char -> Kind, k: Kind, i: nat, p: nat)
    requires i <= p <= |text|
    ensures RunEnd(text, kind, k, i, |text|) <= p ==> RunEnd(text, kind, k, i, p) == RunEnd(text, kind, k, i, |text|)
    decreases p - i
  {
    if i < p {
      RunCut(text, kind, k, i + 1, p);
    }
  }

  lemma {:induction false} WeighStep(text: string, kind: char -> Kind, a: nat, p: nat)
    requires a <= p < |text| && Through(text, kind, a, p)
    ensures var e := Next(text, kind, p, |text|);
            && Through(text, kind, a, e)
            && Weigh(text, kind, a, e) == Weigh(text, kind, a, p) + StepWeight(text, kind, p, e)
    decreases |text| - a
  {
    var e := Next(text, kind, p, |text|);
    if a < p {
      var n := Next(text, kind, a, |text|);
      ThroughForward(text, kind, n, p);
      NextCut(text, kind, a, p);
      NextCut(text, kind, a, e);
      WeighStep(text, kind, n, p);
    } else {
      NextCut(text, kind, p, e);
    }
  }

  /****** pieces of over-long tokens ******/

  predicate PureRun(text: string, kind: char -> Kind, i: nat, e: nat)
    requires i < e <= |text|
  {
    forall j :: i <= j < e ==> SameRun(kind(text[i]), kind(text[j]))
  }

  // Tokens heavier than the limit contain no apostrophe and no point.
  predicate Plain(text: string, kind: char -> Kind, max: nat) {
    forall i :: 0 <= i < |text| && Through(text, kind, 0, i) && StepWeight(text, kind, i, Next(text, kind, i, |text|)) > max ==>
                  PureRun(text, kind, i, Next(text, kind, i, |text|))
  }

  lemma PieceWeight(text: string, kind: char -> Kind, i: nat, s: nat, t: nat, e: nat)
    requires i <= s < t <= e <= |text| && PureRun(text, kind, i, e)
    ensures TokenWeight(text, kind, s, t) == Weigh(text, kind, s, t) == CeilDiv4(t - s)
  {
    assert SameRun(kind(text[s]), kind(text[s]));
    assert RunEnd(text, kind, kind(text[s]), s, t) == t;
    assert Weigh(text, kind, t, t) == 0;
  }

  // The last piece of a cut token still ends where the token ended.
  lemma LastPiece(text: string, kind: char -> Kind, i: nat, s: nat)
    requires i < |text| && !kind(text[i]).Space?
    requires var e := Next(text, kind, i, |text|); i <= s < e && PureRun(text, kind, i, e)
    ensures var e := Next(text, kind, i, |text|); Next(text, kind, s, |text|) == e && Through(text, kind, s, e)
  {
    var e := Next(text, kind, i, |text|);
    var k, l := kind(text[i]), kind(text[s]);
    assert SameRun(k, l);
    assert RunEnd(text, kind, k, i, |text|) == e;
    assert RunEnd(text, kind, l, s, |text|) == e;
  }

  predicate Light(parts: seq<string>, kind: char -> Kind, max: nat) {
    forall i :: 0 <= i < |parts| ==> WeighAll(parts[i], kind) <= max
  }

  lemma AddLight(parts: seq<string>, text: string, kind: char -> Kind, a: nat, b: nat, max: nat)
    requires Light(parts, kind, max) && a <= b <= |text| && Weigh(text, kind, a, b) <= max
    ensures Light(parts + [text[a..b]], kind, max)
  {
    hide Weigh;
    WeighShift(text, kind, a, a, b);
  }

  lemma AddSlice(parts: seq<string>, text: string, a: nat, b: nat)
    requires a <= b <= |text| && Concat(parts) == text[..a]
    ensures Concat(parts + [text[a..b]]) == text[..b]
  {
    ConcatSnoc(parts, text[a..b]);
    assert text[..b] == text[..a] + text[a..b];
  }

  // The state of the splitter: `parts` hold text[..start], the current part is text[start..pos] and counts `used`.
  ghost predicate Cutting(text: string, kind: char -> Kind, max: nat, parts: seq<string>, start: nat, pos: nat, used: nat) {
    && start <= pos <= |text| && (used > 0 ==> start < pos)
    && Concat(parts) == text[..start] && NoneEmpty(parts)
    && Through(text, kind, 0, pos)
    && (Plain(text, kind, max) ==>
          Light(parts, kind, max) && Through(text, kind, start, pos) && Weigh(text, kind, start, pos) == used <= max)
  }

  lemma FlushKeeps(text: string, kind: char -> Kind, max: nat, parts: seq<string>, start: nat, pos: nat, used: nat)
    requires Cutting(text, kind, max, parts, start, pos, used) && start < pos
    ensures Cutting(text, kind, max, parts + [text[start..pos]], pos, pos, 0)
  {
    hide Plain;
    AddSlice(parts, text, start, pos);
    if Plain(text, kind, max) {
      AddLight(parts, text, kind, start, pos, max);
    }
  }

  lemma AddKeeps(text: string, kind: char -> Kind, max: nat, parts: seq<string>, start: nat, pos: nat, used: nat)
    requires Cutting(text, kind, max, parts, start, pos, used) && pos < |text|
    requires var weight := StepWeight(text, kind, pos, Next(text, kind, pos, |text|)); weight == 0 || used + weight <= max
    ensures var end := Next(text, kind, pos, |text|);
            Cutting(text, kind, max, parts, start, end, used + StepWeight(text, kind, pos, end))
  {
    hide Plain, Next, StepWeight;
    WeighStep(text, kind, 0, pos);
    if Plain(text, kind, max) {
      WeighStep(text, kind, start, pos);
    }
  }

  lemma CutKeeps(text: string, kind: char -> Kind, max: nat, before: seq<string>, parts: seq<string>, start: nat, pos: nat)
    requires Cutting(text, kind, max, before, pos, pos, 0) && pos < |text| && !kind(text[pos]).Space?
    requires var end := Next(text, kind, pos, |text|);
             && pos <= start < end && Concat(parts) == text[..start] && NoneEmpty(parts)
             && TokenWeight(text, kind, pos, end) > max > 0
             && end - start <= (if kind(text[pos]).Letter? || kind(text[pos]).AsciiDigit? then max * 4 else max)
             && (PureRun(text, kind, pos, end) && Light(before, kind, max) ==> Light(parts, kind, max))
    ensures var end := Next(text, kind, pos, |text|);
            Cutting(text, kind, max, parts, start, end, TokenWeight(text, kind, start, end))
  {
    var end := Next(text, kind, pos, |text|);
    WeighStep(text, kind, 0, pos);
    if Plain(text, kind, max) {
      assert PureRun(text, kind, pos, end);
      hide Plain, PureRun, Next, TokenWeight;
      PieceWeight(text, kind, pos, start, end, end);
      LastPiece(text, kind, pos, start);
    }
  }

  /** A text cut into pieces of `size` characters, the last one being what is left. */
  function Pieces(text: string, size: nat): (r: seq<string>)
    requires size > 0
    ensures r != []
    decreases |text|
  {
    if |text| <= size then [text] else [text[..size]] + Pieces(text[size..], size)
  }

  lemma FirstPiece(text: string, from: nat, end: nat, size: nat)
    requires from <= end <= |text| && 0 < size < end - from
    ensures Pieces(text[from..end], size) == [text[from..from + size]] + Pieces(text[from + size..end], size)
  {
    assert text[from..end][..size] == text[from..from + size] && text[from..end][size..] == text[from + size..end];
  }

  // The next piece of a token that is being cut
  lemma CutPiece(text: string, kind: char -> Kind, from: nat, end: nat, start: nat, size: nat, max: nat, parts: seq<string>)
    requires from <= start && start + size < end <= |text| && size > 0 && Concat(parts) == text[..start]
    ensures var parts' := parts + [text[start..start + size]];
            && Concat(parts') == text[..start + size] && (NoneEmpty(parts) ==> NoneEmpty(parts'))
            && (PureRun(text, kind, from, end) && Light(parts, kind, max) && CeilDiv4(size) <= max ==> Light(parts', kind, max))
  {
    var piece := text[start..start + size];
    assert piece != "";
    assert NoneEmpty(parts) ==> NoneEmpty(parts + [piece]);
    hide Concat, NoneEmpty, Weigh, TokenWeight, CeilDiv4, Light;
    AddSlice(parts, text, start, start + size);
    if PureRun(text, kind, from, end) && Light(parts, kind, max) && CeilDiv4(size) <= max {
      hide PureRun;
      PieceWeight(text, kind, from, start, start + size, end);
      AddLight(parts, text, kind, start, start + size, max);
    }
  }

  /****** why a part ends ******/

  // The token at `s` is over the limit, and `p` lies in it `k` pieces behind its start.
  ghost predicate InToken(text: string, kind: char -> Kind, max: nat, s: nat, k: nat, p: nat)
    requires max > 0
  {
    && s < p < |text| && Through(text, kind, 0, s) && p < Next(text, kind, s, |text|)
    && StepWeight(text, kind, s, Next(text, kind, s, |text|)) > max
    && p == s + k * if kind(text[s]).Letter? || kind(text[s]).AsciiDigit? then max * 4 else max
  }

  // A part from `a` on ends at `p`: the token there would take it over the limit, or an over-long token is cut.
  ghost predicate EndsFor(text: string, kind: char -> Kind, max: nat, a: nat, p: nat)
    requires max > 0
  {
    && a < p < |text|
    && ((Through(text, kind, 0, p) && Weigh(text, kind, a, p) + StepWeight(text, kind, p, Next(text, kind, p, |text|)) > max)
        || exists s: nat, k: nat :: InToken(text, kind, max, s, k, p))
  }

  /** The parts are the text between the cuts, and every cut has its reason. */
  ghost predicate Reasoned(text: string, kind: char -> Kind, max: nat, parts: seq<string>, cuts: seq<nat>)
    requires max > 0
  {
    && |cuts| == |parts| + 1 && cuts[0] == 0 && cuts[|parts|] <= |text|
    && (forall i, j :: 0 <= i < |parts| && j == i + 1 ==> cuts[i] < cuts[j] <= |text| && parts[i] == text[cuts[i]..cuts[j]])
    && forall i, j :: 0 <= i < |parts| && j == i + 1 && cuts[j] < |text| ==> EndsFor(text, kind, max, cuts[i], cuts[j])
  }

  lemma ReasonedSnoc(text: string, kind: char -> Kind, max: nat, parts: seq<string>, cuts: seq<nat>, p: nat)
    requires max > 0 && Reasoned(text, kind, max, parts, cuts) && cuts[|parts|] < p <= |text|
    requires p < |text| ==> EndsFor(text, kind, max, cuts[|parts|], p)
    ensures |cuts| == |parts| + 1 && Reasoned(text, kind, max, parts + [text[cuts[|parts|]..p]], cuts + [p])
  {
    hide EndsFor;
  }

  // The last cut is at `start`.
  ghost predicate CutSoFar(text: string, kind: char -> Kind, max: nat, parts: seq<string>, cuts: seq<nat>, start: nat)
    requires max > 0
  {
    Plain(text, kind, max) ==> Reasoned(text, kind, max, parts, cuts) && cuts[|parts|] == start
  }

  lemma FlushReasoned(text: string, kind: char -> Kind, max: nat, parts: seq<string>, cuts: seq<nat>, start: nat, pos: nat, used: nat)
    requires max > 0 && Cutting(text, kind, max, parts, start, pos, used) && start < pos <= |text|
    requires pos < |text| ==> used + StepWeight(text, kind, pos, Next(text, kind, pos, |text|)) > max
    requires CutSoFar(text, kind, max, parts, cuts, start)
    ensures Cutting(text, kind, max, parts + [text[start..pos]], pos, pos, 0)
    ensures CutSoFar(text, kind, max, parts + [text[start..pos]], cuts + [pos], pos)
  {
    if Plain(text, kind, max) {
      assert pos < |text| ==> EndsFor(text, kind, max, start, pos);
      ReasonedSnoc(text, kind, max, parts, cuts, pos);
    }
    hide Plain, Reasoned, EndsFor;
    FlushKeeps(text, kind, max, parts, start, pos, used);
    hide Cutting;
  }

  // The inner loop: cut the token text[from..end] into pieces of `size` characters, up to the last one.
  method CutToken(text: string, kind: char -> Kind, from: nat, end: nat, size: nat, max: nat, before: seq<string>, ghost was: seq<nat>)
    returns (parts: seq<string>, start: nat, ghost cuts: seq<nat>)
    requires from < end <= |text| && size > 0 && Concat(before) == text[..from]
    ensures from <= start < end && end - start <= size && Concat(parts) == text[..start]
    ensures NoneEmpty(before) ==> NoneEmpty(parts)
    ensures PureRun(text, kind, from, end) && Light(before, kind, max) && CeilDiv4(size) <= max ==> Light(parts, kind, max)
    ensures parts + [text[start..end]] == before + Pieces(text[from..end], size)
    ensures CutsToken(text, kind, from, end, size, max, before, was) ==> Reasoned(text, kind, max, parts, cuts) && cuts[|parts|] == start
  {
    StartToken(text, kind, from, end, size, max, before, was);
    hide *;
    parts, start, cuts := before, from, was;
    while end - start > size
      invariant from <= start < end && Concat(parts) == text[..start]
      invariant parts + Pieces(text[start..end], size) == before + Pieces(text[from..end], size)
      invariant NoneEmpty(before) ==> NoneEmpty(parts)
      invariant PureRun(text, kind, from, end) && Light(before, kind, max) && CeilDiv4(size) <= max ==> Light(parts, kind, max)
      invariant CutsToken(text, kind, from, end, size, max, before, was) ==> InsideToken(text, kind, from, end, size, max, parts, cuts, start)
    {
      CutPiece(text, kind, from, end, start, size, max, parts);
      FirstPiece(text, start, end, size);
      if CutsToken(text, kind, from, end, size, max, before, was) {
        InsideStep(text, kind, from, end, size, max, parts, cuts, start);
      }
      parts, start, cuts := parts + [text[start..start + size]], start + size, cuts + [start + size];
    }
    LastIsWhole(text[start..end], size);
    InsideEnds(text, kind, from, end, size, max, parts, cuts, start);
  }

  // The token at `from` is over the limit and cut into pieces of `size`.
  predicate Overlong(text: string, kind: char -> Kind, from: nat, end: nat, size: nat, max: nat) {
    && max > 0 && from < end <= |text| && Through(text, kind, 0, from) && Next(text, kind, from, |text|) == end
    && StepWeight(text, kind, from, end) > max
    && size == if kind(text[from]).Letter? || kind(text[from]).AsciiDigit? then max * 4 else max
  }

  // And the parts in front of it are well cut.
  ghost predicate CutsToken(text: string, kind: char -> Kind, from: nat, end: nat, size: nat, max: nat, before: seq<string>, cuts: seq<nat>) {
    && Overlong(text, kind, from, end, size, max)
    && Reasoned(text, kind, max, before, cuts) && cuts[|before|] == from
  }

  // Some whole pieces of the token are cut off.
  ghost predicate InsideToken(text: string, kind: char -> Kind, from: nat, end: nat, size: nat, max: nat, parts: seq<string>, cuts: seq<nat>, start: nat) {
    && Overlong(text, kind, from, end, size, max)
    && Reasoned(text, kind, max, parts, cuts) && cuts[|parts|] == start && from <= start
    && exists k: nat :: Pieced(from, k, size, start)
  }

  ghost predicate Pieced(from: nat, k: nat, size: nat, p: nat) {
    p == from + k * size
  }

  lemma StartToken(text: string, kind: char -> Kind, from: nat, end: nat, size: nat, max: nat, before: seq<string>, cuts: seq<nat>)
    ensures CutsToken(text, kind, from, end, size, max, before, cuts) ==> InsideToken(text, kind, from, end, size, max, before, cuts, from)
  {
    assert Pieced(from, 0, size, from);
  }

  lemma InsideStep(text: string, kind: char -> Kind, from: nat, end: nat, size: nat, max: nat, parts: seq<string>, cuts: seq<nat>, start: nat)
    requires InsideToken(text, kind, from, end, size, max, parts, cuts, start) && start + size < end
    ensures InsideToken(text, kind, from, end, size, max, parts + [text[start..start + size]], cuts + [start + size], start + size)
  {
    hide *;
    var k := InsideParts(text, kind, from, end, size, max, parts, cuts, start);
    InsideReason(text, kind, from, end, size, max, start, k);
    ReasonedSnoc(text, kind, max, parts, cuts, start + size);
    InsideIs(text, kind, from, end, size, max, parts + [text[start..start + size]], cuts + [start + size], start + size, k + 1);
  }

  lemma InsideParts(text: string, kind: char -> Kind, from: nat, end: nat, size: nat, max: nat, parts: seq<string>, cuts: seq<nat>, start: nat)
    returns (k: nat)
    requires InsideToken(text, kind, from, end, size, max, parts, cuts, start)
    ensures max > 0 && end <= |text| && |cuts| == |parts| + 1 && cuts[|parts|] == start && from <= start && Pieced(from, k, size, start)
    ensures Overlong(text, kind, from, end, size, max) && Reasoned(text, kind, max, parts, cuts)
    ensures size > 0
  {
    k :| Pieced(from, k, size, start);
  }

  lemma InsideIs(text: string, kind: char -> Kind, from: nat, end: nat, size: nat, max: nat, parts: seq<string>, cuts: seq<nat>, start: nat, k: nat)
    requires Overlong(text, kind, from, end, size, max) && Reasoned(text, kind, max, parts, cuts)
    requires cuts[|parts|] == start && from <= start && Pieced(from, k, size, start)
    ensures InsideToken(text, kind, from, end, size, max, parts, cuts, start)
  {
  }

  lemma InsideReason(text: string, kind: char -> Kind, from: nat, end: nat, size: nat, max: nat, start: nat, k: nat)
    requires Overlong(text, kind, from, end, size, max) && from <= start && start + size < end
    requires Pieced(from, k, size, start)
    ensures EndsFor(text, kind, max, start, start + size) && Pieced(from, k + 1, size, start + size)
  {
    hide Next, StepWeight, Through;
    OneMorePiece(from, k, size, start);
    assert InToken(text, kind, max, from, k + 1, start + size);
  }

  lemma OneMorePiece(from: nat, k: nat, size: nat, p: nat)
    requires Pieced(from, k, size, p)
    ensures Pieced(from, k + 1, size, p + size) && p + size == from + (k + 1) * size
  {
  }

  lemma InsideEnds(text: string, kind: char -> Kind, from: nat, end: nat, size: nat, max: nat, parts: seq<string>, cuts: seq<nat>, start: nat)
    ensures InsideToken(text, kind, from, end, size, max, parts, cuts, start) ==> max > 0 && Reasoned(text, kind, max, parts, cuts) && cuts[|parts|] == start
  {
  }

  lemma LastIsWhole(text: string, size: nat)
    requires size > 0 && |text| <= size
    ensures Pieces(text, size) == [text]
  {
  }

  // The text is a single token over the limit.
  predicate OneToken(text: string, kind: char -> Kind, max: nat) {
    && text != "" && !kind(text[0]).Space? && Next(text, kind, 0, |text|) == |text|
    && TokenWeight(text, kind, 0, |text|) > max
  }

  function PieceSize(text: string, kind: char -> Kind, max: nat): nat
    requires text != ""
  {
    if kind(text[0]).Letter? || kind(text[0]).AsciiDigit? then max * 4 else max
  }

  // Where the splitter is in a text of one token: in front of it or behind all but the last piece
  predicate OneTokenState(text: string, kind: char -> Kind, max: nat, parts: seq<string>, start: nat, pos: nat, used: nat)
    requires text != "" && max > 0
  {
    if pos == 0 then parts == [] && start == 0 && used == 0
    else pos == |text| && start < |text| && parts + [text[start..]] == Pieces(text, PieceSize(text, kind, max))
  }

  lemma OneTokenStart(text: string, kind: char -> Kind, max: nat, parts: seq<string>, start: nat, pos: nat, used: nat)
    requires max > 0 && OneToken(text, kind, max) && OneTokenState(text, kind, max, parts, start, pos, used) && pos < |text|
    ensures pos == start == used == 0 && parts == []
    ensures Next(text, kind, pos, |text|) == |text| && StepWeight(text, kind, pos, |text|) > max && !kind(text[pos]).Space?
  {
  }

  lemma OneTokenCut(text: string, kind: char -> Kind, max: nat, parts: seq<string>, start: nat)
    requires max > 0 && text != "" && start < |text|
    requires parts + [text[start..|text|]] == [] + Pieces(text[0..|text|], PieceSize(text, kind, max))
    ensures forall used: nat :: OneTokenState(text, kind, max, parts, start, |text|, used)
  {
    assert text[0..|text|] == text;
  }

  /**
  The splitter without an encoder: lossless, no empty part, and within the limit by the fallback
  count as long as over-long tokens contain no apostrophe and no decimal point.  A text that is one
  over-long token is cut into pieces of equal size.
   */
  method SplitFallbackText(text: string, kind: char -> Kind, max: nat) returns (parts: seq<string>)
    requires max > 0
    ensures Concat(parts) == text && (text != "" ==> NoneEmpty(parts))
    ensures Plain(text, kind, max) ==> Light(parts, kind, max)
    ensures OneToken(text, kind, max) ==> parts == Pieces(text, PieceSize(text, kind, max))
    ensures Plain(text, kind, max) && text != "" ==> exists cuts :: Reasoned(text, kind, max, parts, cuts)
  {
    hide *;
    parts := [];
    var pos: nat, start: nat, used: nat := 0, 0, 0;
    ghost var cuts: seq<nat> := [0];
    FallbackStart(text, kind, max);
    while pos < |text|
      invariant FallbackState(text, kind, max, parts, cuts, start, pos, used) && start <= pos <= |text|
    {
      var end := Next(text, kind, pos, |text|);
      var weight := StepWeight(text, kind, pos, end);
      SpaceIsFree(text, kind, pos, end);
      if !kind(text[pos]).Space? && used > 0 && used + weight > max {
        FallbackFlush(text, kind, max, parts, cuts, start, pos, used);
        parts, start, used, cuts := parts + [text[start..pos]], pos, 0, cuts + [pos];
      }
      if weight > max {
        if start < pos {
          FallbackFlush(text, kind, max, parts, cuts, start, pos, used);
          parts, start, cuts := parts + [text[start..pos]], pos, cuts + [pos];
        }
        parts, start, cuts := FallbackCut(text, kind, max, parts, cuts, pos, end, used);
        used := TokenWeight(text, kind, start, end);
      } else {
        FallbackAdd(text, kind, max, parts, cuts, start, pos, used);
        used := used + weight;
      }
      pos := end;
    }
    FallbackEnd(text, kind, max, parts, cuts, start, used);
    if start < |text| {
      parts := parts + [text[start..]];
    }
    if parts == [] {
      parts := [text];
    }
  }

  lemma SpaceIsFree(text: string, kind: char -> Kind, i: nat, e: nat)
    requires i < e <= |text|
    ensures kind(text[i]).Space? <==> StepWeight(text, kind, i, e) == 0
  {
  }

  // The state of the splitter: what it has cut, why, and, for a text of one over-long token, into what
  ghost predicate FallbackState(text: string, kind: char -> Kind, max: nat, parts: seq<string>, cuts: seq<nat>, start: nat, pos: nat, used: nat)
    requires max > 0
  {
    && CutSoFar(text, kind, max, parts, cuts, start) && Cutting(text, kind, max, parts, start, pos, used)
    && (OneToken(text, kind, max) ==> OneTokenState(text, kind, max, parts, start, pos, used))
  }

  lemma FallbackStart(text: string, kind: char -> Kind, max: nat)
    requires max > 0
    ensures FallbackState(text, kind, max, [], [0], 0, 0, 0)
  {
    hide Plain, OneToken;
  }

  lemma FallbackFlush(text: string, kind: char -> Kind, max: nat, parts: seq<string>, cuts: seq<nat>, start: nat, pos: nat, used: nat)
    requires max > 0 && FallbackState(text, kind, max, parts, cuts, start, pos, used) && pos < |text| && (used > 0 || start < pos)
    requires used + StepWeight(text, kind, pos, Next(text, kind, pos, |text|)) > max
    ensures start < pos && FallbackState(text, kind, max, parts + [text[start..pos]], cuts + [pos], pos, pos, 0)
  {
    assert start < pos;
    if OneToken(text, kind, max) {
      OneTokenStart(text, kind, max, parts, start, pos, used);
      assert false;
    }
    hide StepWeight, Next, OneToken, OneTokenState, CutSoFar, Cutting;
    FlushReasoned(text, kind, max, parts, cuts, start, pos, used);
  }

  lemma FallbackAdd(text: string, kind: char -> Kind, max: nat, parts: seq<string>, cuts: seq<nat>, start: nat, pos: nat, used: nat)
    requires max > 0 && FallbackState(text, kind, max, parts, cuts, start, pos, used) && pos < |text|
    requires var weight := StepWeight(text, kind, pos, Next(text, kind, pos, |text|)); weight == 0 || used + weight <= max
    ensures var end := Next(text, kind, pos, |text|);
            start <= end && FallbackState(text, kind, max, parts, cuts, start, end, used + StepWeight(text, kind, pos, end))
  {
    if OneToken(text, kind, max) {
      OneTokenStart(text, kind, max, parts, start, pos, used);
      assert false;
    }
    assert start <= pos;
    hide StepWeight, Next, OneToken, OneTokenState, CutSoFar, Cutting;
    AddKeeps(text, kind, max, parts, start, pos, used);
  }

  // An over-long token, with nothing pending in front of it
  method FallbackCut(text: string, kind: char -> Kind, max: nat, parts: seq<string>, ghost cuts: seq<nat>, pos: nat, end: nat, ghost used: nat)
    returns (parts': seq<string>, start: nat, ghost cuts': seq<nat>)
    requires max > 0 && FallbackState(text, kind, max, parts, cuts, pos, pos, used) && pos < |text|
    requires end == Next(text, kind, pos, |text|) && StepWeight(text, kind, pos, end) > max
    ensures start < end && FallbackState(text, kind, max, parts', cuts', start, end, TokenWeight(text, kind, start, end))
  {
    var size := if kind(text[pos]).Letter? || kind(text[pos]).AsciiDigit? then max * 4 else max;
    CutReady(text, kind, max, parts, cuts, pos, used, size);
    hide *;
    parts', start, cuts' := CutToken(text, kind, pos, end, size, max, parts, cuts);
    CutDone(text, kind, max, parts, cuts, parts', cuts', pos, start, size);
  }

  lemma CutReady(text: string, kind: char -> Kind, max: nat, parts: seq<string>, cuts: seq<nat>, pos: nat, used: nat, size: nat)
    requires max > 0 && FallbackState(text, kind, max, parts, cuts, pos, pos, used) && pos < |text|
    requires var end := Next(text, kind, pos, |text|); StepWeight(text, kind, pos, end) > max
    requires size == if kind(text[pos]).Letter? || kind(text[pos]).AsciiDigit? then max * 4 else max
    ensures size > 0 && CeilDiv4(size) <= max && Concat(parts) == text[..pos] && NoneEmpty(parts) && Cutting(text, kind, max, parts, pos, pos, 0)
    ensures Plain(text, kind, max) ==>
              CutsToken(text, kind, pos, Next(text, kind, pos, |text|), size, max, parts, cuts)
    ensures !kind(text[pos]).Space? && StepWeight(text, kind, pos, Next(text, kind, pos, |text|)) == TokenWeight(text, kind, pos, Next(text, kind, pos, |text|))
    ensures OneToken(text, kind, max) ==> pos == 0 && parts == [] && Next(text, kind, pos, |text|) == |text|
  {
    if OneToken(text, kind, max) {
      OneTokenStart(text, kind, max, parts, pos, pos, used);
    }
    hide OneToken, OneTokenState, Reasoned, Next, TokenWeight;
  }

  lemma CutDone(text: string, kind: char -> Kind, max: nat, before: seq<string>, was: seq<nat>, parts: seq<string>, cuts: seq<nat>,
                pos: nat, start: nat, size: nat)
    requires max > 0 && pos < |text| && !kind(text[pos]).Space? && Cutting(text, kind, max, before, pos, pos, 0)
    requires size == if kind(text[pos]).Letter? || kind(text[pos]).AsciiDigit? then max * 4 else max
    requires var end := Next(text, kind, pos, |text|);
             && pos <= start < end && end - start <= size && TokenWeight(text, kind, pos, end) > max
             && Concat(parts) == text[..start] && NoneEmpty(parts)
             && (PureRun(text, kind, pos, end) && Light(before, kind, max) ==> Light(parts, kind, max))
             && (Plain(text, kind, max) ==> Reasoned(text, kind, max, parts, cuts) && cuts[|parts|] == start)
             && parts + [text[start..end]] == before + Pieces(text[pos..end], size)
             && (OneToken(text, kind, max) ==> pos == 0 && before == [] && end == |text|)
    ensures var end := Next(text, kind, pos, |text|);
            FallbackState(text, kind, max, parts, cuts, start, end, TokenWeight(text, kind, start, end))
  {
    TokenDone(text, kind, max, parts, cuts, start);
    if OneToken(text, kind, max) {
      OneTokenCut(text, kind, max, parts, start);
    }
    hide Next, TokenWeight, Plain, OneToken, OneTokenState, CutSoFar, Reasoned, Pieces, PieceSize, PureRun, Light, Concat, NoneEmpty, Cutting;
    CutKeeps(text, kind, max, before, parts, start, pos);
  }

  lemma FallbackEnd(text: string, kind: char -> Kind, max: nat, parts: seq<string>, cuts: seq<nat>, start: nat, used: nat)
    requires max > 0 && FallbackState(text, kind, max, parts, cuts, start, |text|, used)
    ensures start <= |text|
    ensures var cut := if start < |text| then parts + [text[start..]] else parts;
            var all := if cut == [] then [text] else cut;
            && Concat(all) == text && (text != "" ==> NoneEmpty(all)) && (Plain(text, kind, max) ==> Light(all, kind, max))
            && (OneToken(text, kind, max) ==> all == Pieces(text, PieceSize(text, kind, max)))
            && (Plain(text, kind, max) && text != "" ==> exists cuts :: Reasoned(text, kind, max, all, cuts))
  {
    assert text[..|text|] == text && start <= |text|;
    assert text[start..] == text[start..|text|];
    if start < |text| {
      hide OneToken, Next, TokenWeight, Reasoned, Plain;
      FlushReasoned(text, kind, max, parts, cuts, start, |text|, used);
      hide Pieces;
    } else {
      EndsEmpty(text, kind, max, parts, cuts, used);
    }
  }

  lemma EndsEmpty(text: string, kind: char -> Kind, max: nat, parts: seq<string>, cuts: seq<nat>, used: nat)
    requires max > 0 && FallbackState(text, kind, max, parts, cuts, |text|, |text|, used)
    ensures var all := if parts == [] then [text] else parts;
            && Concat(all) == text && (text != "" ==> NoneEmpty(all)) && (Plain(text, kind, max) ==> Light(all, kind, max))
            && !OneToken(text, kind, max)
            && (Plain(text, kind, max) && text != "" ==> exists cuts :: Reasoned(text, kind, max, all, cuts))
  {
    assert text[..|text|] == text;
    hide Plain, Reasoned, Next, TokenWeight;
    if parts == [] {
      assert text == "";
      assert Concat([text]) == text + Concat([]);
    }
  }

  lemma TokenDone(text: string, kind: char -> Kind, max: nat, parts: seq<string>, cuts: seq<nat>, start: nat)
    requires max > 0 && (Plain(text, kind, max) ==> Reasoned(text, kind, max, parts, cuts) && cuts[|parts|] == start)
    ensures CutSoFar(text, kind, max, parts, cuts, start)
  {
  }

  /****** with an encoder ******/

  method SafeUtf8Boundary(raw: seq<Byte>, boundary: int) returns (r: nat)
    ensures r <= |raw| && (0 < r < |raw| ==> !IsContinuation(raw[r]))
    ensures boundary <= 0 ==> r == 0
    ensures r <= boundary || boundary < 0
    ensures forall p :: r < p <= boundary && p < |raw| ==> IsContinuation(raw[p])
    ensures boundary >= |raw| ==> r == |raw|
  {
    r := if boundary < 0 then 0 else if boundary > |raw| then |raw| else boundary;
    while 0 < r < |raw| && IsContinuation(raw[r])
      invariant r <= |raw| && (r <= boundary || boundary < 0) && (boundary >= |raw| ==> r == |raw|)
      invariant forall p :: r < p <= boundary && p < |raw| ==> IsContinuation(raw[p])
      decreases r
    {
      r := r - 1;
    }
  }

  // A byte position that is no continuation byte is where a code point starts.
  lemma StartHere(text: string, p: nat) returns (i: nat)
    requires p <= |Encode(text)| && (0 < p < |Encode(text)| ==> !IsContinuation(Encode(text)[p]))
    ensures StartsAt(text, i, p)
  {
    if p == 0 {
      i := 0;
    } else if p == |Encode(text)| {
      i := |text|;
      assert text[..i] == text;
    } else {
      i := ContinuationIffInside(text, p);
    }
  }

  function Total(lengths: seq<nat>): nat {
    if lengths == [] then 0 else Total(lengths[..|lengths| - 1]) + lengths[|lengths| - 1]
  }

  // The last code point start at or in front of byte `n`
  predicate LastStart(raw: seq<Byte>, n: nat, p: nat) {
    && p <= |raw| && p <= n && (0 < p < |raw| ==> !IsContinuation(raw[p]))
    && (forall q :: p < q <= n && q < |raw| ==> IsContinuation(raw[q])) && (n >= |raw| ==> p == |raw|)
  }

  lemma LastStartGrows(raw: seq<Byte>, m: nat, n: nat, p: nat, q: nat)
    requires m <= n && LastStart(raw, m, p) && LastStart(raw, n, q)
    ensures p <= q && (m == n ==> p == q)
  {
  }

  // Behind `k` tokens a part ends: it is full, and not everything is.
  predicate Full(lengths: seq<nat>, max: nat, k: nat)
    requires max > 0
  {
    0 < k < |lengths| && k % max == 0
  }

  ghost predicate Covered(raw: seq<Byte>, lengths: seq<nat>, k: nat, cuts: seq<nat>)
    requires k <= |lengths|
  {
    forall p: nat :: p > 0 && LastStart(raw, Total(lengths[..k]), p) ==> p in cuts
  }

  ghost predicate ByTokens(raw: seq<Byte>, lengths: seq<nat>, max: nat, n: nat, p: nat)
    requires max > 0 && n <= |lengths|
  {
    exists k: nat :: k <= n && Full(lengths, max, k) && LastStart(raw, Total(lengths[..k]), p)
  }

  predicate IsSlice(raw: seq<Byte>, part: string, p: nat, q: nat) {
    p < q <= |raw| && Decode(raw[p..q]) == Some(part)
  }

  ghost predicate Slices(raw: seq<Byte>, parts: seq<string>, cuts: seq<nat>) {
    && |cuts| == |parts| + 1 && cuts[0] == 0
    && forall i, j :: 0 <= i < |parts| && j == i + 1 ==> IsSlice(raw, parts[i], cuts[i], cuts[j])
  }

  /** After `n` tokens the bytes are cut at the last code point starts behind every `max` tokens, and nowhere else. */
  ghost predicate CutEvery(raw: seq<Byte>, lengths: seq<nat>, max: nat, n: nat, parts: seq<string>, cuts: seq<nat>)
    requires max > 0
  {
    && n <= |lengths| && Slices(raw, parts, cuts)
    && (forall k: nat :: k <= n && Full(lengths, max, k) ==> Covered(raw, lengths, k, cuts))
    && forall i :: 0 < i < |cuts| ==> ByTokens(raw, lengths, max, n, cuts[i])
  }

  lemma TotalStep(lengths: seq<nat>, n: nat)
    requires n < |lengths|
    ensures Total(lengths[..n + 1]) == Total(lengths[..n]) + lengths[n]
  {
    assert lengths[..n + 1][..n] == lengths[..n];
  }

  lemma {:induction false} TotalGrows(lengths: seq<nat>, k: nat, n: nat)
    requires k <= n <= |lengths|
    ensures Total(lengths[..k]) <= Total(lengths[..n])
  {
    if k < n {
      TotalGrows(lengths, k, n - 1);
      TotalStep(lengths, n - 1);
    }
  }

  lemma CutStart(raw: seq<Byte>, lengths: seq<nat>, max: nat)
    requires max > 0
    ensures CutEvery(raw, lengths, max, 0, [], [0]) && Total(lengths[..0]) == 0
  {
  }

  lemma SameByTokens(raw: seq<Byte>, lengths: seq<nat>, max: nat, n: nat, cuts: seq<nat>)
    requires max > 0 && n < |lengths| && forall i :: 0 < i < |cuts| ==> ByTokens(raw, lengths, max, n, cuts[i])
    ensures forall i :: 0 < i < |cuts| ==> ByTokens(raw, lengths, max, n + 1, cuts[i])
  {
    forall i | 0 < i < |cuts| ensures ByTokens(raw, lengths, max, n + 1, cuts[i]) {
      assert ByTokens(raw, lengths, max, n, cuts[i]);
      var k: nat :| k <= n && Full(lengths, max, k) && LastStart(raw, Total(lengths[..k]), cuts[i]);
      assert k <= n + 1;
    }
  }

  // No part is full behind the next token, or its end is where the last cut is.
  lemma NoCut(raw: seq<Byte>, lengths: seq<nat>, max: nat, n: nat, parts: seq<string>, cuts: seq<nat>, p: nat)
    requires max > 0 && n < |lengths| && CutEvery(raw, lengths, max, n, parts, cuts)
    requires Full(lengths, max, n + 1) ==> LastStart(raw, Total(lengths[..n + 1]), p) && p <= cuts[|parts|]
    ensures CutEvery(raw, lengths, max, n + 1, parts, cuts)
  {
    SameByTokens(raw, lengths, max, n, cuts);
    hide Slices, ByTokens, LastStart;
    forall k: nat | k <= n + 1 && Full(lengths, max, k) ensures Covered(raw, lengths, k, cuts) {
      if k == n + 1 {
        AlreadyCut(raw, lengths, max, n, parts, cuts, p);
      }
    }
  }

  lemma AlreadyCut(raw: seq<Byte>, lengths: seq<nat>, max: nat, n: nat, parts: seq<string>, cuts: seq<nat>, q: nat)
    requires max > 0 && n < |lengths| && CutEvery(raw, lengths, max, n, parts, cuts)
    requires LastStart(raw, Total(lengths[..n + 1]), q) && q <= cuts[|parts|]
    ensures Covered(raw, lengths, n + 1, cuts)
  {
    var last := cuts[|parts|];
    forall p: nat | p > 0 && LastStart(raw, Total(lengths[..n + 1]), p) ensures p in cuts {
      LastStartGrows(raw, Total(lengths[..n + 1]), Total(lengths[..n + 1]), p, q);
      if |parts| > 0 {
        assert ByTokens(raw, lengths, max, n, last);
        var k: nat :| k <= n && Full(lengths, max, k) && LastStart(raw, Total(lengths[..k]), last);
        TotalGrows(lengths, k, n + 1);
        LastStartGrows(raw, Total(lengths[..k]), Total(lengths[..n + 1]), last, p);
      }
    }
  }

  lemma CutOnce(raw: seq<Byte>, lengths: seq<nat>, max: nat, n: nat, parts: seq<string>, cuts: seq<nat>, part: string, p: nat)
    requires max > 0 && n < |lengths| && CutEvery(raw, lengths, max, n, parts, cuts)
    requires Full(lengths, max, n + 1) && LastStart(raw, Total(lengths[..n + 1]), p)
    requires cuts[|parts|] < p && Decode(raw[cuts[|parts|]..p]) == Some(part)
    ensures CutEvery(raw, lengths, max, n + 1, parts + [part], cuts + [p])
  {
    var cuts' := cuts + [p];
    SameByTokens(raw, lengths, max, n, cuts);
    assert ByTokens(raw, lengths, max, n + 1, p);
    SlicesSnoc(raw, parts, cuts, part, p);
    hide Slices, ByTokens, LastStart;
    assert forall q :: q in cuts ==> q in cuts';
    assert p in cuts';
    forall k: nat | k <= n + 1 && Full(lengths, max, k) ensures Covered(raw, lengths, k, cuts') {
      if k == n + 1 {
        OnlyStart(raw, lengths, k, p, cuts');
      } else {
        assert Covered(raw, lengths, k, cuts);
      }
    }
  }

  lemma OnlyStart(raw: seq<Byte>, lengths: seq<nat>, k: nat, p: nat, cuts: seq<nat>)
    requires k <= |lengths| && LastStart(raw, Total(lengths[..k]), p) && p in cuts
    ensures Covered(raw, lengths, k, cuts)
  {
  }

  lemma SlicesSnoc(raw: seq<Byte>, parts: seq<string>, cuts: seq<nat>, part: string, p: nat)
    requires Slices(raw, parts, cuts) && IsSlice(raw, part, cuts[|parts|], p)
    ensures Slices(raw, parts + [part], cuts + [p])
  {
    hide IsSlice;
  }

  // All is cut, the last part being what is left.
  ghost predicate CutBehind(raw: seq<Byte>, lengths: seq<nat>, max: nat, parts: seq<string>, cuts: seq<nat>)
    requires max > 0
  {
    && Slices(raw, parts, cuts) && cuts[|parts|] == |raw|
    && (forall k: nat :: Full(lengths, max, k) ==> Covered(raw, lengths, k, cuts))
    && forall i :: 0 < i < |cuts| - 1 ==> ByTokens(raw, lengths, max, |lengths|, cuts[i])
  }

  lemma LastCut(raw: seq<Byte>, lengths: seq<nat>, max: nat, parts: seq<string>, cuts: seq<nat>, part: string)
    requires max > 0 && CutEvery(raw, lengths, max, |lengths|, parts, cuts)
    requires cuts[|parts|] < |raw| ==> Decode(raw[cuts[|parts|]..]) == Some(part)
    ensures cuts[|parts|] == |raw| ==> CutBehind(raw, lengths, max, parts, cuts)
    ensures cuts[|parts|] < |raw| ==> CutBehind(raw, lengths, max, parts + [part], cuts + [|raw|])
  {
    if cuts[|parts|] < |raw| {
      assert raw[cuts[|parts|]..] == raw[cuts[|parts|]..|raw|];
      SlicesSnoc(raw, parts, cuts, part, |raw|);
      hide Slices, ByTokens, Decode;
      assert forall q :: q in cuts ==> q in cuts + [|raw|];
    }
  }

  /**
  The splitter with an encoder whose tokens have the given byte lengths: the parts concatenate to
  the text, none is empty, and they are cut at the last code point start behind every `max` tokens.
   */
  method SplitEncodedText(text: string, lengths: seq<nat>, max: nat) returns (parts: seq<string>)
    requires max > 0
    ensures Concat(parts) == text && (text != "" ==> NoneEmpty(parts))
    ensures |lengths| <= max ==> parts == [text]
    ensures |lengths| > max ==> exists cuts :: CutBehind(Encode(text), lengths, max, parts, cuts)
  {
    if |lengths| <= max {
      parts := [text];
      assert Concat(parts) == text + Concat([]);
      return;
    }
    var raw := Encode(text);
    parts := [];
    var previous, offset := 0, 0;
    ghost var cuts: seq<nat> := [0];
    EncodedStart(text, lengths, max);
    hide EncodedState, CutBehind, Encode, Decode, Total, LastStart, Concat, NoneEmpty, IsContinuation;
    for n := 0 to |lengths|
      invariant EncodedState(text, lengths, max, n, parts, cuts, previous) && offset == Total(lengths[..n])
    {
      TotalStep(lengths, n);
      offset := offset + lengths[n];
      if (n + 1) % max == 0 && n + 1 != |lengths| {
        var boundary := SafeUtf8Boundary(raw, offset);
        IsLastStart(raw, offset, boundary);
        EncodedStep(text, lengths, max, n, parts, cuts, previous, boundary);
        if boundary > previous {
          parts := parts + [Decode(raw[previous..boundary]).value];
          previous, cuts := boundary, cuts + [boundary];
        }
      } else {
        EncodedNoStep(text, lengths, max, n, parts, cuts, previous);
      }
    }
    EncodedEnd(text, lengths, max, parts, cuts, previous);
    if previous < |raw| {
      parts := parts + [Decode(raw[previous..]).value];
    }
  }

  // The parts so far are the text in front of `previous`, where the last cut is.
  ghost predicate EncodedState(text: string, lengths: seq<nat>, max: nat, n: nat, parts: seq<string>, cuts: seq<nat>, previous: nat)
    requires max > 0
  {
    && CutEvery(Encode(text), lengths, max, n, parts, cuts) && previous == cuts[|parts|] <= |Encode(text)|
    && NoneEmpty(parts) && exists i: nat :: StartsAt(text, i, previous) && Concat(parts) == text[..i]
  }

  lemma EncodedStart(text: string, lengths: seq<nat>, max: nat)
    requires max > 0
    ensures EncodedState(text, lengths, max, 0, [], [0], 0) && Total(lengths[..0]) == 0
  {
    CutStart(Encode(text), lengths, max);
    assert StartsAt(text, 0, 0) && Concat([]) == text[..0];
  }

  lemma EncodedNoStep(text: string, lengths: seq<nat>, max: nat, n: nat, parts: seq<string>, cuts: seq<nat>, previous: nat)
    requires max > 0 && EncodedState(text, lengths, max, n, parts, cuts, previous) && n < |lengths| && !Full(lengths, max, n + 1)
    ensures EncodedState(text, lengths, max, n + 1, parts, cuts, previous)
  {
    NoCut(Encode(text), lengths, max, n, parts, cuts, 0);
    hide CutEvery, Encode, Concat, StartsAt;
  }

  lemma EncodedStep(text: string, lengths: seq<nat>, max: nat, n: nat, parts: seq<string>, cuts: seq<nat>, previous: nat, p: nat)
    requires max > 0 && EncodedState(text, lengths, max, n, parts, cuts, previous) && n < |lengths|
    requires Full(lengths, max, n + 1) && LastStart(Encode(text), Total(lengths[..n + 1]), p)
    ensures if p <= previous then EncodedState(text, lengths, max, n + 1, parts, cuts, previous)
            else
              && p <= |Encode(text)| && Decode(Encode(text)[previous..p]).Some?
              && EncodedState(text, lengths, max, n + 1, parts + [Decode(Encode(text)[previous..p]).value], cuts + [p], p)
  {
    var raw := Encode(text);
    var i: nat :| StartsAt(text, i, previous) && Concat(parts) == text[..i];
    if p <= previous {
      NoCut(raw, lengths, max, n, parts, cuts, p);
      hide CutEvery, Encode, Concat, StartsAt;
    } else {
      var j := StartHere(text, p);
      hide CutEvery, Encode, Concat, StartsAt, LastStart, NoneEmpty, Decode;
      DecodePart(parts, text, i, j, previous, p);
      CutOnce(raw, lengths, max, n, parts, cuts, text[i..j], p);
    }
  }

  lemma EncodedEnd(text: string, lengths: seq<nat>, max: nat, parts: seq<string>, cuts: seq<nat>, previous: nat)
    requires max > 0 && EncodedState(text, lengths, max, |lengths|, parts, cuts, previous)
    ensures previous <= |Encode(text)|
    ensures if previous == |Encode(text)| then
              Concat(parts) == text && NoneEmpty(parts) && CutBehind(Encode(text), lengths, max, parts, cuts)
            else
              && Decode(Encode(text)[previous..]).Some?
              && var all := parts + [Decode(Encode(text)[previous..]).value];
              && Concat(all) == text && NoneEmpty(all) && CutBehind(Encode(text), lengths, max, all, cuts + [|Encode(text)|])
  {
    var raw := Encode(text);
    var i: nat :| StartsAt(text, i, previous) && Concat(parts) == text[..i];
    StartsAtEnd(text, i, previous);
    hide CutEvery, Encode, Concat, StartsAt, NoneEmpty, Decode, CutBehind;
    if previous < |raw| {
      DecodePart(parts, text, i, |text|, previous, |raw|);
      assert raw[previous..] == raw[previous..|raw|];
    }
    LastCut(raw, lengths, max, parts, cuts, text[i..]);
  }

  lemma StartsAtEnd(text: string, i: nat, p: nat)
    requires StartsAt(text, i, p)
    ensures i <= |text| && text[..|text|] == text && StartsAt(text, |text|, |Encode(text)|)
    ensures p == |Encode(text)| ==> i == |text|
    ensures text[i..] == text[i..|text|]
  {
    assert text[..|text|] == text;
    if p == |Encode(text)| {
      StartsInOrder(text, i, |text|, p, |Encode(text)|);
    }
  }

  lemma IsLastStart(raw: seq<Byte>, n: nat, p: nat)
    requires p <= |raw| && (0 < p < |raw| ==> !IsContinuation(raw[p])) && p <= n && (n >= |raw| ==> p == |raw|)
    requires forall q :: p < q <= n && q < |raw| ==> IsContinuation(raw[q])
    ensures LastStart(raw, n, p)
  {
  }

  lemma DecodePart(parts: seq<string>, text: string, i: nat, j: nat, p: nat, q: nat)
    requires StartsAt(text, i, p) && StartsAt(text, j, q) && p < q && Concat(parts) == text[..i]
    ensures q <= |Encode(text)| && i < j && Decode(Encode(text)[p..q]) == Some(text[i..j])
    ensures Concat(parts + [text[i..j]]) == text[..j] && (NoneEmpty(parts) ==> NoneEmpty(parts + [text[i..j]]))
  {
    StartsInOrder(text, i, j, p, q);
    SliceDecodes(text, i, j, p, q);
    AddSlice(parts, text, i, j);
  }

  /****** the text splitter ******/

  /** `encoder` gives the byte lengths of a text's tokens, or nothing when there is no usable encoder. */
  type Encoder = string -> Option<seq<nat>>

  // `estimate_tokens`
  function Estimate(encoder: Encoder, kind: char -> Kind, text: string): (n: nat)
    ensures n > 0
  {
    var count := match encoder(text) case Some(lengths) => |lengths| case None => WeighAll(text, kind);
    if count > 0 then count else 1
  }

  /** The estimate is the number of tokens, with an encoder or without, but never nought. */
  lemma EstimateIs(encoder: Encoder, kind: char -> Kind, text: string)
    ensures var count := match encoder(text) case Some(lengths) => |lengths| case None => Weigh(text, kind, 0, |text|);
            if count == 0 then Estimate(encoder, kind, text) == 1 else Estimate(encoder, kind, text) == count
  {
  }

  /** What becomes of a text that is cut by itself. */
  ghost predicate CutUp(encoder: Encoder, kind: char -> Kind, text: string, max: nat, parts: seq<string>)
    requires max > 0
  {
    && Concat(parts) == text && (text != "" ==> NoneEmpty(parts))
    && match encoder(text)
       case Some(lengths) => if |lengths| <= max then parts == [text] else exists cuts :: CutBehind(Encode(text), lengths, max, parts, cuts)
       case None => Plain(text, kind, max) ==> Light(parts, kind, max) && (text != "" ==> exists cuts :: Reasoned(text, kind, max, parts, cuts))
  }

  method SplitAtomicText(encoder: Encoder, kind: char -> Kind, text: string, max: nat) returns (parts: seq<string>)
    requires max > 0
    ensures CutUp(encoder, kind, text, max, parts)
  {
    match encoder(text)
    case Some(lengths) => parts := SplitEncodedText(text, lengths, max);
    case None => parts := SplitFallbackText(text, kind, max);
  }

  function Estimates(encoder: Encoder, kind: char -> Kind, units: seq<string>): nat {
    if units == [] then 0 else Estimates(encoder, kind, units[..|units| - 1]) + Estimate(encoder, kind, units[|units| - 1])
  }

  // A part made of consecutive units whose estimates add up to at most the limit
  predicate Run(part: string, units: seq<string>, i: nat, j: nat, encoder: Encoder, kind: char -> Kind, max: nat) {
    i < j <= |units| && part == Concat(units[i..j]) && Estimates(encoder, kind, units[i..j]) <= max
  }

  ghost predicate SomeRun(part: string, units: seq<string>, encoder: Encoder, kind: char -> Kind, max: nat) {
    exists i: nat, j: nat :: Run(part, units, i, j, encoder, kind, max)
  }

  ghost predicate AllRuns(parts: seq<string>, units: seq<string>, encoder: Encoder, kind: char -> Kind, max: nat) {
    forall p :: 0 <= p < |parts| ==> SomeRun(parts[p], units, encoder, kind, max)
  }

  ghost predicate AllFit(units: seq<string>, encoder: Encoder, kind: char -> Kind, max: nat) {
    forall u :: u in units ==> Estimate(encoder, kind, u) <= max
  }

  // The state of the splitter in front of unit `n`
  ghost predicate Splitting(parts: seq<string>, current: seq<string>, tokens: nat, units: seq<string>, n: nat,
                            encoder: Encoder, kind: char -> Kind, max: nat) {
    && |current| <= n <= |units| && current == units[n - |current|..n]
    && Concat(parts) + Concat(current) == Concat(units[..n]) && NoneEmpty(parts)
    && tokens == Estimates(encoder, kind, current) && tokens <= max
    && (AllFit(units, encoder, kind, max) ==> AllRuns(parts, units, encoder, kind, max))
  }

  lemma FlushStep(parts: seq<string>, current: seq<string>, tokens: nat, units: seq<string>, n: nat,
                  encoder: Encoder, kind: char -> Kind, max: nat)
    requires Splitting(parts, current, tokens, units, n, encoder, kind, max) && current != [] && NoneEmpty(units)
    ensures Splitting(parts + [Concat(current)], [], 0, units, n, encoder, kind, max)
  {
    var part := Concat(current);
    ConcatSnoc(parts, part);
    assert current[0] != "";
    assert Run(part, units, n - |current|, n, encoder, kind, max);
    assert SomeRun(part, units, encoder, kind, max);
  }

  lemma AddStep(parts: seq<string>, current: seq<string>, tokens: nat, units: seq<string>, n: nat,
                encoder: Encoder, kind: char -> Kind, max: nat)
    requires Splitting(parts, current, tokens, units, n, encoder, kind, max) && n < |units|
    requires tokens + Estimate(encoder, kind, units[n]) <= max
    ensures Splitting(parts, current + [units[n]], tokens + Estimate(encoder, kind, units[n]), units, n + 1, encoder, kind, max)
  {
    var unit := units[n];
    EstimatesSnoc(encoder, kind, current, unit);
    UnitsNext(units, current, n);
    hide AllRuns, AllFit, Estimate, Estimates, NoneEmpty, Concat;
    ConcatSnoc(units[..n], unit);
    ConcatSnoc(current, unit);
    Regroup(Concat(parts), Concat(current), unit);
  }

  lemma Regroup(a: string, b: string, c: string)
    ensures a + (b + c) == a + b + c
  {
  }

  lemma EstimatesSnoc(encoder: Encoder, kind: char -> Kind, current: seq<string>, unit: string)
    ensures Estimates(encoder, kind, current + [unit]) == Estimates(encoder, kind, current) + Estimate(encoder, kind, unit)
  {
    assert (current + [unit])[..|current|] == current;
  }

  lemma UnitsNext(units: seq<string>, current: seq<string>, n: nat)
    requires |current| <= n < |units| && current == units[n - |current|..n]
    ensures current + [units[n]] == units[n - |current|..n + 1] && units[..n + 1] == units[..n] + [units[n]]
  {
  }

  lemma PiecesStep(parts: seq<string>, pieces: seq<string>, units: seq<string>, n: nat,
                   encoder: Encoder, kind: char -> Kind, max: nat)
    requires Splitting(parts, [], 0, units, n, encoder, kind, max) && n < |units|
    requires Estimate(encoder, kind, units[n]) > max && Concat(pieces) == units[n] && NoneEmpty(pieces)
    ensures Splitting(parts + pieces, [], 0, units, n + 1, encoder, kind, max)
  {
    assert units[n] in units;
    hide AllRuns, Estimate;
    assert units[..n + 1] == units[..n] + [units[n]];
    ConcatSnoc(units[..n], units[n]);
    ConcatAppend(parts, pieces);
  }

  // Units `i` to `j` become `pieces`: one over-long unit cut by itself, or one part that the next unit would overfill.
  ghost predicate Filled(pieces: seq<string>, units: seq<string>, i: nat, j: nat, encoder: Encoder, kind: char -> Kind, max: nat) {
    && i < j <= |units|
    && if Estimate(encoder, kind, units[i]) > max
       then j == i + 1 && max > 0 && CutUp(encoder, kind, units[i], max, pieces)
       else pieces == [Concat(units[i..j])] && Estimates(encoder, kind, units[i..j]) <= max
            && (j < |units| ==> Estimates(encoder, kind, units[i..j]) + Estimate(encoder, kind, units[j]) > max)
  }

  /** The first `n` units become `parts`, one filling after the other. */
  ghost predicate Fills(parts: seq<string>, units: seq<string>, n: nat, encoder: Encoder, kind: char -> Kind, max: nat)
    decreases n
  {
    if n == 0 then parts == [] else
    exists i: nat, m: nat :: i < n && m <= |parts| && Fills(parts[..m], units, i, encoder, kind, max)
      && Filled(parts[m..], units, i, n, encoder, kind, max)
  }

  lemma FillMore(parts: seq<string>, pieces: seq<string>, units: seq<string>, i: nat, j: nat,
                 encoder: Encoder, kind: char -> Kind, max: nat)
    requires Fills(parts, units, i, encoder, kind, max) && Filled(pieces, units, i, j, encoder, kind, max)
    ensures Fills(parts + pieces, units, j, encoder, kind, max)
  {
    var all := parts + pieces;
    assert all[..|parts|] == parts && all[|parts|..] == pieces;
  }

  lemma {:induction false} FirstEstimate(units: seq<string>, encoder: Encoder, kind: char -> Kind)
    requires units != []
    ensures Estimate(encoder, kind, units[0]) <= Estimates(encoder, kind, units)
  {
    if |units| > 1 {
      FirstEstimate(units[..|units| - 1], encoder, kind);
    }
  }

  ghost predicate Filling(parts: seq<string>, current: seq<string>, tokens: nat, units: seq<string>, n: nat,
                          encoder: Encoder, kind: char -> Kind, max: nat) {
    && Splitting(parts, current, tokens, units, n, encoder, kind, max)
    && Fills(parts, units, n - |current|, encoder, kind, max)
  }

  lemma FillFlush(parts: seq<string>, current: seq<string>, tokens: nat, units: seq<string>, n: nat,
                  encoder: Encoder, kind: char -> Kind, max: nat)
    requires Filling(parts, current, tokens, units, n, encoder, kind, max) && current != [] && NoneEmpty(units)
    requires n < |units| ==> tokens + Estimate(encoder, kind, units[n]) > max
    ensures Filling(parts + [Concat(current)], [], 0, units, n, encoder, kind, max)
  {
    assert |current| <= n;
    FlushStep(parts, current, tokens, units, n, encoder, kind, max);
    CurrentFills(parts, current, tokens, units, n, encoder, kind, max);
    FillingParts(parts, current, tokens, units, n, encoder, kind, max);
    hide *;
    FillMore(parts, [Concat(current)], units, n - |current|, n, encoder, kind, max);
    FillingIs(parts + [Concat(current)], units, n, encoder, kind, max);
  }

  lemma FillingParts(parts: seq<string>, current: seq<string>, tokens: nat, units: seq<string>, n: nat,
                     encoder: Encoder, kind: char -> Kind, max: nat)
    requires Filling(parts, current, tokens, units, n, encoder, kind, max)
    ensures Fills(parts, units, n - |current|, encoder, kind, max)
  {
  }

  lemma FillingIs(parts: seq<string>, units: seq<string>, n: nat, encoder: Encoder, kind: char -> Kind, max: nat)
    requires Splitting(parts, [], 0, units, n, encoder, kind, max) && Fills(parts, units, n, encoder, kind, max)
    ensures Filling(parts, [], 0, units, n, encoder, kind, max)
  {
  }

  lemma CurrentFills(parts: seq<string>, current: seq<string>, tokens: nat, units: seq<string>, n: nat,
                     encoder: Encoder, kind: char -> Kind, max: nat)
    requires Splitting(parts, current, tokens, units, n, encoder, kind, max) && current != []
    requires n < |units| ==> tokens + Estimate(encoder, kind, units[n]) > max
    ensures Filled([Concat(current)], units, n - |current|, n, encoder, kind, max)
  {
    FirstEstimate(current, encoder, kind);
    hide AllRuns, AllFit, Estimate, Estimates, NoneEmpty, Concat;
  }

  lemma FillPieces(parts: seq<string>, pieces: seq<string>, units: seq<string>, n: nat,
                   encoder: Encoder, kind: char -> Kind, max: nat)
    requires Filling(parts, [], 0, units, n, encoder, kind, max)
    requires n < |units| && Estimate(encoder, kind, units[n]) > max > 0 && NoneEmpty(units)
    requires CutUp(encoder, kind, units[n], max, pieces)
    ensures Filling(parts + pieces, [], 0, units, n + 1, encoder, kind, max)
  {
    hide Reasoned, CutBehind, Plain;
    assert units[n] != "" && Concat(pieces) == units[n] && NoneEmpty(pieces);
    PiecesStep(parts, pieces, units, n, encoder, kind, max);
    hide CutUp, Estimate, Estimates, NoneEmpty, Concat, Fills, Plain, Light;
    FillMore(parts, pieces, units, n, n + 1, encoder, kind, max);
  }

  lemma FillAdd(parts: seq<string>, current: seq<string>, tokens: nat, units: seq<string>, n: nat,
                encoder: Encoder, kind: char -> Kind, max: nat)
    requires Filling(parts, current, tokens, units, n, encoder, kind, max) && n < |units|
    requires tokens + Estimate(encoder, kind, units[n]) <= max
    ensures Filling(parts, current + [units[n]], tokens + Estimate(encoder, kind, units[n]), units, n + 1, encoder, kind, max)
  {
    AddStep(parts, current, tokens, units, n, encoder, kind, max);
    hide Splitting, Fills, Estimate;
    assert n + 1 - |current + [units[n]]| == n - |current|;
  }

  // `flush`
  method Flush(parts: seq<string>, current: seq<string>, ghost tokens: nat, ghost units: seq<string>, ghost n: nat,
               ghost encoder: Encoder, ghost kind: char -> Kind, ghost max: nat)
    returns (parts': seq<string>)
    requires Filling(parts, current, tokens, units, n, encoder, kind, max) && NoneEmpty(units)
    requires n < |units| && current != [] ==> tokens + Estimate(encoder, kind, units[n]) > max
    ensures Filling(parts', [], 0, units, n, encoder, kind, max)
  {
    parts' := parts;
    if current != [] {
      FillFlush(parts, current, tokens, units, n, encoder, kind, max);
      parts' := parts' + [Concat(current)];
    } else {
      EmptyTokens(parts, current, tokens, units, n, encoder, kind, max);
    }
  }

  // A unit over the limit is cut by itself.
  method CutUnit(parts: seq<string>, ghost units: seq<string>, ghost n: nat, unit: string, encoder: Encoder, kind: char -> Kind, max: nat)
    returns (parts': seq<string>)
    requires Filling(parts, [], 0, units, n, encoder, kind, max) && NoneEmpty(units)
    requires n < |units| && unit == units[n] && Estimate(encoder, kind, unit) > max > 0
    ensures Filling(parts', [], 0, units, n + 1, encoder, kind, max)
  {
    var pieces := SplitAtomicText(encoder, kind, unit, max);
    FillPieces(parts, pieces, units, n, encoder, kind, max);
    parts' := parts + pieces;
  }

  // One turn of the loop
  method AddUnit(parts: seq<string>, current: seq<string>, tokens: nat, units: seq<string>, n: nat,
                 encoder: Encoder, kind: char -> Kind, max: nat)
    returns (parts': seq<string>, current': seq<string>, tokens': nat)
    requires Filling(parts, current, tokens, units, n, encoder, kind, max) && NoneEmpty(units) && n < |units| && max > 0
    ensures Filling(parts', current', tokens', units, n + 1, encoder, kind, max)
  {
    hide *;
    parts', current', tokens' := parts, current, tokens;
    var size := Estimate(encoder, kind, units[n]);
    if size > max {
      parts' := Flush(parts, current, tokens, units, n, encoder, kind, max);
      parts' := CutUnit(parts', units, n, units[n], encoder, kind, max);
      return parts', [], 0;
    }
    if current != [] && tokens + size > max {
      parts' := Flush(parts, current, tokens, units, n, encoder, kind, max);
      current', tokens' := [], 0;
    }
    EmptyTokens(parts', current', tokens', units, n, encoder, kind, max);
    FillAdd(parts', current', tokens', units, n, encoder, kind, max);
    current', tokens' := current' + [units[n]], tokens' + size;
  }

  /**
  A text cut into units (paragraphs and sentences with their white space) is split: losslessly, one filling after the
  other, and, when no single unit is over the limit, into runs of units within it.
   */
  ghost predicate WellSplit(parts: seq<string>, units: seq<string>, encoder: Encoder, kind: char -> Kind, max: nat) {
    if units == [] then parts == [""] else
    && Concat(parts) == Concat(units) && NoneEmpty(parts) && Fills(parts, units, |units|, encoder, kind, max)
    && (AllFit(units, encoder, kind, max) ==> AllRuns(parts, units, encoder, kind, max))
  }

  /** The splitter on such a text. */
  method SplitTextByTokens(encoder: Encoder, kind: char -> Kind, units: seq<string>, maxTokens: int) returns (parts: seq<string>)
    requires NoneEmpty(units)
    ensures WellSplit(parts, units, encoder, kind, if maxTokens < 1 then 1 else maxTokens)
  {
    hide *;
    var max: nat := if maxTokens < 1 then 1 else maxTokens;
    parts := [];
    var current: seq<string>, tokens: nat := [], 0;
    StartSplitting(units, encoder, kind, max);
    for n := 0 to |units|
      invariant Filling(parts, current, tokens, units, n, encoder, kind, max)
    {
      parts, current, tokens := AddUnit(parts, current, tokens, units, n, encoder, kind, max);
    }
    parts := Flush(parts, current, tokens, units, |units|, encoder, kind, max);
    EndSplitting(parts, units, encoder, kind, max);
    if parts == [] {
      parts := [""];
    }
  }

  lemma StartSplitting(units: seq<string>, encoder: Encoder, kind: char -> Kind, max: nat)
    requires NoneEmpty(units)
    ensures Filling([], [], 0, units, 0, encoder, kind, max)
  {
  }

  lemma EndSplitting(parts: seq<string>, units: seq<string>, encoder: Encoder, kind: char -> Kind, max: nat)
    requires Filling(parts, [], 0, units, |units|, encoder, kind, max) && NoneEmpty(units)
    ensures WellSplit(if parts == [] then [""] else parts, units, encoder, kind, max)
  {
    assert units[..|units|] == units;
    if parts == [] {
      NotEmpty(units);
    }
    hide AllFit, AllRuns;
  }

  lemma EmptyTokens(parts: seq<string>, current: seq<string>, tokens: nat, units: seq<string>, n: nat,
                    encoder: Encoder, kind: char -> Kind, max: nat)
    requires Filling(parts, current, tokens, units, n, encoder, kind, max)
    ensures current == [] ==> tokens == 0
  {
  }

  lemma NotEmpty(units: seq<string>)
    requires NoneEmpty(units)
    ensures Concat(units) == "" ==> units == []
  {
    assert units != [] ==> units[0] != "";
  }
}
