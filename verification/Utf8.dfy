/** UTF-8 as sections 3 and 4 of RFC 3629 define it, on Unicode scalar values. */
module Utf8 {
  import opened Wrappers

  type Byte = x: int | 0 <= x < 256

  predicate IsContinuation(b: Byte) {
    0x80 <= b < 0xC0
  }

  // A lead byte of the given class followed by six bits per continuation byte
  function EncodeChar(c: char): seq<Byte> {
    var v := c as int;
    if v < 0x80 then [v]
    else if v < 0x800 then [0xC0 + v / 64, 0x80 + v % 64]
    else if v < 0x10000 then [0xE0 + v / 64 / 64, 0x80 + v / 64 % 64, 0x80 + v % 64]
    else [0xF0 + v / 64 / 64 / 64, 0x80 + v / 64 / 64 % 64, 0x80 + v / 64 % 64, 0x80 + v % 64]
  }

  function Encode(text: string): seq<Byte> {
    if text == [] then [] else EncodeChar(text[0]) + Encode(text[1..])
  }

  // How many bytes a lead byte announces; none for a byte that cannot lead
  function Announces(b: Byte): nat {
    if b < 0x80 then 1 else if b < 0xC0 then 0 else if b < 0xE0 then 2 else if b < 0xF0 then 3 else 4
  }

  function Tail(high: int, b: Byte): int {
    high * 64 + (b - 0x80)
  }

  function Scalar(raw: seq<Byte>): int
    requires |raw| > 0 && Announces(raw[0]) == |raw|
  {
    var lead: int := raw[0];
    if |raw| == 1 then lead
    else if |raw| == 2 then Tail(lead - 0xC0, raw[1])
    else if |raw| == 3 then Tail(Tail(lead - 0xE0, raw[1]), raw[2])
    else Tail(Tail(Tail(lead - 0xF0, raw[1]), raw[2]), raw[3])
  }

  predicate IsScalar(v: int) {
    0 <= v < 0xD800 || 0xE000 <= v < 0x11_0000
  }

  // The strict decoder: it accepts exactly what the encoder produces.
  function Decode(raw: seq<Byte>): Option<string> {
    if raw == [] then Some("") else
    var n := Announces(raw[0]);
    if n == 0 || n > |raw| then None else
    var v := Scalar(raw[..n]);
    if !IsScalar(v) || EncodeChar(v as char) != raw[..n] then None else
    match Decode(raw[n..])
    case None => None
    case Some(rest) => Some([v as char] + rest)
  }

  lemma CharRoundTrip(c: char)
    ensures var e := EncodeChar(c); |e| > 0 && Announces(e[0]) == |e| && Scalar(e) == c as int && IsScalar(Scalar(e))
    ensures var e := EncodeChar(c); !IsContinuation(e[0]) && forall i :: 1 <= i < |e| ==> IsContinuation(e[i])
  {
  }

  /** Decoding what was encoded gives the text back. */
  lemma {:induction false} RoundTrip(text: string)
    ensures Decode(Encode(text)) == Some(text)
  {
    if text != [] {
      var e, raw := EncodeChar(text[0]), Encode(text);
      CharRoundTrip(text[0]);
      RoundTrip(text[1..]);
      hide EncodeChar, Scalar, Announces;
      assert raw[0] == e[0] && raw[..|e|] == e && raw[|e|..] == Encode(text[1..]);
      assert Decode(raw) == Some([Scalar(e) as char] + text[1..]);
      assert [Scalar(e) as char] + text[1..] == text;
    }
  }

  lemma {:induction false} EncodeConcat(a: string, b: string)
    ensures Encode(a + b) == Encode(a) + Encode(b)
  {
    if a == [] {
      assert a + b == b;
    } else {
      assert (a + b)[0] == a[0] && (a + b)[1..] == a[1..] + b;
      EncodeConcat(a[1..], b);
    }
  }

  // Byte position `p` is where the code point with index `i` starts (or the end of the text).
  predicate StartsAt(text: string, i: nat, p: nat) {
    i <= |text| && p == |Encode(text[..i])|
  }

  /** A byte of encoded text is a continuation byte exactly when no code point starts there. */
  lemma {:induction false} ContinuationIffInside(text: string, p: nat) returns (i: nat)
    requires p < |Encode(text)|
    ensures i < |text|
    ensures StartsAt(text, i, p) || (forall j: nat :: !StartsAt(text, j, p))
    ensures IsContinuation(Encode(text)[p]) <==> !StartsAt(text, i, p)
  {
    hide EncodeChar, Scalar, Announces;
    var e := EncodeChar(text[0]);
    CharRoundTrip(text[0]);
    if p < |e| {
      i := 0;
      if p > 0 {
        forall j: nat ensures !StartsAt(text, j, p) {
          if 0 < j <= |text| { HeadFirst(text, j); }
        }
      }
    } else {
      i := ContinuationIffInside(text[1..], p - |e|);
      HeadFirst(text, i + 1);
      i := i + 1;
      if !StartsAt(text, i, p) {
        forall j: nat ensures !StartsAt(text, j, p) {
          if 0 < j <= |text| {
            HeadFirst(text, j);
            assert !StartsAt(text[1..], j - 1, p - |e|);
          }
        }
      }
    }
  }

  lemma HeadFirst(text: string, j: nat)
    requires 0 < j <= |text|
    ensures Encode(text[..j]) == EncodeChar(text[0]) + Encode(text[1..][..j - 1])
  {
    assert text[..j][0] == text[0] && text[..j][1..] == text[1..][..j - 1];
  }

  /** The bytes between two code point starts are the encoding of the text between them. */
  lemma SliceDecodes(text: string, i: nat, j: nat, p: nat, q: nat)
    requires i <= j && StartsAt(text, i, p) && StartsAt(text, j, q)
    ensures p <= q <= |Encode(text)| && Encode(text)[p..q] == Encode(text[i..j])
    ensures Decode(Encode(text)[p..q]) == Some(text[i..j])
  {
    hide EncodeChar, Decode;
    assert text[..j] == text[..i] + text[i..j];
    EncodeConcat(text[..i], text[i..j]);
    assert text == text[..j] + text[j..];
    EncodeConcat(text[..j], text[j..]);
    RoundTrip(text[i..j]);
  }

  // Different code points start at different positions, in order.
  lemma StartsInOrder(text: string, i: nat, j: nat, p: nat, q: nat)
    requires StartsAt(text, i, p) && StartsAt(text, j, q)
    ensures i < j ==> p < q
    ensures p < q ==> i < j
  {
    if i < j {
      StrictlyLonger(text, i, j);
    } else if j < i {
      StrictlyLonger(text, j, i);
    }
  }

  lemma StrictlyLonger(text: string, i: nat, j: nat)
    requires i < j <= |text|
    ensures |Encode(text[..i])| < |Encode(text[..j])|
  {
    assert text[..j] == text[..i] + text[i..j];
    EncodeConcat(text[..i], text[i..j]);
    CharRoundTrip(text[i]);
    assert text[i..j][0] == text[i];
  }
}
