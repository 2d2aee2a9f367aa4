/**
PNG files as signature and chunks (sections 3.1 to 3.4 of RFC 2083), and the modification notice
kept as a tEXt chunk (section 4.2.3) directly behind the header.
 */
module PngNotice {
  import opened Wrappers
  import opened Utf8

  type Bytes = seq<Byte>

  const SIGNATURE: Bytes := [0x89, 0x50, 0x4E, 0x47, 0x0D, 0x0A, 0x1A, 0x0A]
  const IHDR: Bytes := [0x49, 0x48, 0x44, 0x52]
  const IEND: Bytes := [0x49, 0x45, 0x4E, 0x44]
  const TEXT: Bytes := [0x74, 0x45, 0x58, 0x74]

  /** The checksum of kind and payload, reduced to 32 bits. */
  type Crc = Bytes -> nat

  const WORD := 0x1_0000_0000

  // Four bytes, most significant first
  function BigEndian(n: nat): (b: Bytes)
    requires n < WORD
    ensures |b| == 4
  {
    [n / 0x100_0000, n / 0x1_0000 % 0x100, n / 0x100 % 0x100, n % 0x100]
  }

  function FromBigEndian(b: Bytes): (n: nat)
    requires |b| == 4
    ensures n < WORD
  {
    var b0: int, b1: int, b2: int, b3: int := b[0], b[1], b[2], b[3];
    ((b0 * 0x100 + b1) * 0x100 + b2) * 0x100 + b3
  }

  lemma BigEndianRoundTrip(n: nat)
    requires n < WORD
    ensures FromBigEndian(BigEndian(n)) == n
  {
    assert n / 0x1_0000 == n / 0x100_0000 * 0x100 + n / 0x1_0000 % 0x100;
    assert n / 0x100 == n / 0x1_0000 * 0x100 + n / 0x100 % 0x100;
  }

  lemma BigEndianUnique(b: Bytes)
    requires |b| == 4
    ensures BigEndian(FromBigEndian(b)) == b
  {
    var b0: int, b1: int, b2: int, b3: int := b[0], b[1], b[2], b[3];
    var n := FromBigEndian(b);
    assert n / 0x100 == (b0 * 0x100 + b1) * 0x100 + b2 && n % 0x100 == b3;
    assert n / 0x1_0000 == b0 * 0x100 + b1 && n / 0x100_0000 == b0;
  }

  datatype PngChunk = PngChunk(kind: Bytes, payload: Bytes, start: nat, end: nat)

  datatype PngError = BadSignature | Truncated | BadLength | BadCrc | BadOrder | WrongNotice

  function Checksum(crc: Crc, kind: Bytes, payload: Bytes): nat {
    crc(kind + payload) % WORD
  }

  /****** parsing ******/

  // The chunk at `offset`, or what is wrong with it
  function ChunkAt(raw: Bytes, offset: nat, crc: Crc): (r: Result<PngChunk, PngError>)
    ensures r.Success? ==> r.value.start == offset && offset + 12 <= r.value.end <= |raw|
  {
    if offset + 12 > |raw| then Failure(Truncated) else
    var length := FromBigEndian(raw[offset..offset + 4]);
    var end := offset + 12 + length;
    if end > |raw| then Failure(BadLength) else
    var kind, payload := raw[offset + 4..offset + 8], raw[offset + 8..offset + 8 + length];
    if Checksum(crc, kind, payload) != FromBigEndian(raw[offset + 8 + length..end]) then Failure(BadCrc)
    else Success(PngChunk(kind, payload, offset, end))
  }

  // Chunks from `offset` up to the first end chunk, and where they stop
  function ChunksFrom(raw: Bytes, offset: nat, crc: Crc): Result<(seq<PngChunk>, nat), PngError>
    requires offset <= |raw|
    decreases |raw| - offset
  {
    if offset >= |raw| then Success(([], offset)) else
    match ChunkAt(raw, offset, crc)
    case Failure(e) => Failure(e)
    case Success(c) =>
      if c.kind == IEND then Success(([c], c.end)) else
      match ChunksFrom(raw, c.end, crc)
      case Failure(e) => Failure(e)
      case Success(rest) => Success(([c] + rest.0, rest.1))
  }

  predicate StartsWith(raw: Bytes, prefix: Bytes) {
    |raw| >= |prefix| && raw[..|prefix|] == prefix
  }

  predicate InOrder(cs: seq<PngChunk>, stop: nat, size: nat) {
    cs != [] && cs[0].kind == IHDR && cs[|cs| - 1].kind == IEND && stop == size
  }

  function Parse(raw: Bytes, crc: Crc): Result<seq<PngChunk>, PngError> {
    if !StartsWith(raw, SIGNATURE) then Failure(BadSignature) else
    match ChunksFrom(raw, |SIGNATURE|, crc)
    case Failure(e) => Failure(e)
    case Success(r) => if InOrder(r.0, r.1, |raw|) then Success(r.0) else Failure(BadOrder)
  }

  type Found = Result<(seq<PngChunk>, nat), PngError>

  function Prepend(cs: seq<PngChunk>, r: Found): Found {
    match r
    case Failure(e) => Failure(e)
    case Success(found) => Success((cs + found.0, found.1))
  }

  lemma PrependTwice(cs: seq<PngChunk>, c: PngChunk, r: Found)
    ensures Prepend([], r) == r
    ensures Prepend(cs, Prepend([c], r)) == Prepend(cs + [c], r)
  {
    if r.Success? {
      assert [] + r.value.0 == r.value.0;
      assert cs + ([c] + r.value.0) == cs + [c] + r.value.0;
    }
  }

  // One chunk further
  lemma ChunksStep(raw: Bytes, offset: nat, crc: Crc)
    requires offset < |raw|
    ensures match ChunkAt(raw, offset, crc)
            case Failure(e) => ChunksFrom(raw, offset, crc) == Failure(e)
            case Success(c) =>
              ChunksFrom(raw, offset, crc) == if c.kind == IEND then Success(([c], c.end)) else Prepend([c], ChunksFrom(raw, c.end, crc))
  {
  }

  /** The parsing loop. */
  method PngChunks(raw: Bytes, crc: Crc) returns (r: Result<seq<PngChunk>, PngError>)
    ensures r == Parse(raw, crc)
  {
    hide *;
    ParseIs(raw, crc);
    if !StartsWith(raw, SIGNATURE) {
      return Failure(BadSignature);
    }
    var chunks: seq<PngChunk>, offset := [], 8;
    var ended := false;
    ghost var all := ChunksFrom(raw, 8, crc);
    PrependTwice([], PngChunk([], [], 0, 0), all);
    while offset < |raw| && !ended
      invariant 8 <= offset <= |raw|
      invariant all == if ended then Success((chunks, offset)) else Prepend(chunks, ChunksFrom(raw, offset, crc))
      decreases |raw| - offset
    {
      ChunksStep(raw, offset, crc);
      match ChunkAt(raw, offset, crc) {
        case Failure(e) =>
          PrependFailure(chunks, e);
          return Failure(e);
        case Success(c) =>
          PrependTwice(chunks, c, ChunksFrom(raw, c.end, crc));
          PrependFound(chunks, [c], c.end);
          chunks, offset := chunks + [c], c.end;
          ended := c.kind == IEND;
      }
    }
    ChunksEnd(raw, offset, crc, chunks);
    if chunks == [] || chunks[0].kind != IHDR || chunks[|chunks| - 1].kind != IEND || offset != |raw| {
      return Failure(BadOrder);
    }
    r := Success(chunks);
  }

  lemma PrependFailure(cs: seq<PngChunk>, e: PngError)
    ensures Prepend(cs, Failure(e)) == Failure(e)
  {
  }

  lemma ChunksEnd(raw: Bytes, offset: nat, crc: Crc, cs: seq<PngChunk>)
    requires offset <= |raw|
    ensures offset == |raw| ==> Prepend(cs, ChunksFrom(raw, offset, crc)) == Success((cs, offset))
  {
    assert cs + [] == cs;
  }

  lemma ParseIs(raw: Bytes, crc: Crc)
    ensures |SIGNATURE| == 8
    ensures if !StartsWith(raw, SIGNATURE) then Parse(raw, crc) == Failure(BadSignature)
            else
              && |raw| >= 8
              && match ChunksFrom(raw, 8, crc)
                 case Failure(e) => Parse(raw, crc) == Failure(e)
                 case Success(f) =>
                   if f.0 == [] || f.0[0].kind != IHDR || f.0[|f.0| - 1].kind != IEND || f.1 != |raw| then Parse(raw, crc) == Failure(BadOrder)
                   else Parse(raw, crc) == Success(f.0)
  {
    hide ChunksFrom;
  }

  /****** encoding ******/

  /** What a chunk says, wherever it stands. */
  datatype Piece = Piece(kind: Bytes, payload: Bytes)

  predicate ValidPiece(p: Piece) {
    |p.kind| == 4 && |p.payload| < WORD
  }

  function Encode(p: Piece, crc: Crc): (b: Bytes)
    requires ValidPiece(p)
    ensures |b| == 12 + |p.payload|
  {
    BigEndian(|p.payload|) + p.kind + p.payload + BigEndian(Checksum(crc, p.kind, p.payload))
  }

  predicate ValidPieces(ps: seq<Piece>) {
    forall i :: 0 <= i < |ps| ==> ValidPiece(ps[i])
  }

  function EncodeAll(ps: seq<Piece>, crc: Crc): Bytes
    requires ValidPieces(ps)
  {
    if ps == [] then [] else Encode(ps[0], crc) + EncodeAll(ps[1..], crc)
  }

  function Place(ps: seq<Piece>, offset: nat): seq<PngChunk> {
    if ps == [] then [] else
    var end := offset + 12 + |ps[0].payload|;
    [PngChunk(ps[0].kind, ps[0].payload, offset, end)] + Place(ps[1..], end)
  }

  function Pieces(cs: seq<PngChunk>): seq<Piece> {
    if cs == [] then [] else [Piece(cs[0].kind, cs[0].payload)] + Pieces(cs[1..])
  }

  /** A whole file: a header chunk first and the only end chunk last. */
  predicate ValidFile(ps: seq<Piece>) {
    && ValidPieces(ps) && ps != [] && ps[0].kind == IHDR && ps[|ps| - 1].kind == IEND
    && forall i :: 0 <= i < |ps| - 1 ==> ps[i].kind != IEND
  }

  // Reading a chunk back where it was written
  lemma ReadBack(before: Bytes, p: Piece, after: Bytes, crc: Crc)
    requires ValidPiece(p)
    ensures ChunkAt(before + Encode(p, crc) + after, |before|, crc) ==
              Success(PngChunk(p.kind, p.payload, |before|, |before| + 12 + |p.payload|))
  {
    var raw, o, n := before + Encode(p, crc) + after, |before|, |p.payload|;
    BigEndianRoundTrip(n);
    BigEndianRoundTrip(Checksum(crc, p.kind, p.payload));
    assert raw[o..o + 4] == BigEndian(n);
    assert raw[o + 4..o + 8] == p.kind;
    assert raw[o + 8..o + 8 + n] == p.payload;
    assert raw[o + 8 + n..o + 12 + n] == BigEndian(Checksum(crc, p.kind, p.payload));
  }

  lemma ReadFront(before: Bytes, p: Piece, rest: Bytes, crc: Crc)
    requires ValidPiece(p)
    ensures var head := Encode(p, crc);
            var raw, c := before + head + rest, PngChunk(p.kind, p.payload, |before|, |before + head|);
            ChunksFrom(raw, |before|, crc) == if p.kind == IEND then Success(([c], |before + head|)) else Prepend([c], ChunksFrom(raw, |before + head|, crc))
  {
    ReadBack(before, p, rest, crc);
    ChunksStep(before + Encode(p, crc) + rest, |before|, crc);
  }

  // The last chunk
  lemma ReadLast(before: Bytes, p: Piece, crc: Crc)
    requires ValidPiece(p) && p.kind == IEND
    ensures ChunksFrom(before + EncodeAll([p], crc), |before|, crc) ==
              Success((Place([p], |before|), |before + EncodeAll([p], crc)|))
  {
    ReadFront(before, p, [], crc);
    assert EncodeAll([p], crc) == Encode(p, crc) + [];
    assert before + EncodeAll([p], crc) == before + Encode(p, crc) + [];
    PlaceFront(p, [], |before|);
    assert [p] + [] == [p];
    var c := PngChunk(p.kind, p.payload, |before|, |before| + 12 + |p.payload|);
    assert [c] + Place([], c.end) == [c];
  }

  lemma EncodeFront(p: Piece, rest: seq<Piece>, crc: Crc)
    requires ValidPiece(p) && ValidPieces(rest)
    ensures ValidPieces([p] + rest) && EncodeAll([p] + rest, crc) == Encode(p, crc) + EncodeAll(rest, crc)
  {
    assert ([p] + rest)[1..] == rest;
  }

  // Any other chunk, when the rest is read back
  lemma ReadMore(before: Bytes, p: Piece, rest: seq<Piece>, crc: Crc)
    requires ValidPiece(p) && p.kind != IEND && ValidPieces(rest)
    requires var further := before + Encode(p, crc);
             ChunksFrom(further + EncodeAll(rest, crc), |further|, crc) ==
               Success((Place(rest, |further|), |further + EncodeAll(rest, crc)|))
    ensures ValidPieces([p] + rest)
    ensures var all := before + EncodeAll([p] + rest, crc);
            ChunksFrom(all, |before|, crc) == Success((Place([p] + rest, |before|), |all|))
  {
    hide *;
    var further := before + Encode(p, crc);
    EncodeFront(p, rest, crc);
    ReadFront(before, p, EncodeAll(rest, crc), crc);
    PlaceFront(p, rest, |before|);
    Regroup(before, Encode(p, crc), EncodeAll(rest, crc));
    PrependFound([PngChunk(p.kind, p.payload, |before|, |further|)], Place(rest, |further|), |further + EncodeAll(rest, crc)|);
  }

  lemma {:induction false} ReadAllBack(before: Bytes, ps: seq<Piece>, crc: Crc)
    requires ValidPieces(ps) && (ps != [] ==> ps[|ps| - 1].kind == IEND)
    requires forall i :: 0 <= i < |ps| - 1 ==> ps[i].kind != IEND
    ensures ChunksFrom(before + EncodeAll(ps, crc), |before|, crc) ==
              Success((Place(ps, |before|), |before + EncodeAll(ps, crc)|))
    decreases |ps|
  {
    if ps == [] {
      assert before + [] == before;
    } else if |ps| == 1 {
      assert ps == [ps[0]];
      hide *;
      ReadLast(before, ps[0], crc);
    } else {
      assert ps == [ps[0]] + ps[1..] && ValidPiece(ps[0]) && ValidPieces(ps[1..]);
      hide *;
      ReadAllBack(before + Encode(ps[0], crc), ps[1..], crc);
      ReadMore(before, ps[0], ps[1..], crc);
    }
  }

  lemma Regroup(a: Bytes, b: Bytes, c: Bytes)
    ensures a + (b + c) == a + b + c
  {
  }

  lemma PrependFound(cs: seq<PngChunk>, found: seq<PngChunk>, stop: nat)
    ensures Prepend(cs, Success((found, stop))) == Success((cs + found, stop))
  {
  }

  /** Parsing what was encoded gives the chunks back, each in its place. */
  lemma ParseOfEncode(ps: seq<Piece>, crc: Crc)
    requires ValidFile(ps)
    ensures Parse(SIGNATURE + EncodeAll(ps, crc), crc) == Success(Place(ps, |SIGNATURE|))
  {
    ReadAllBack(SIGNATURE, ps, crc);
    PlaceKeeps(ps, |SIGNATURE|);
    StartsSo(SIGNATURE, EncodeAll(ps, crc));
    hide ChunksFrom, EncodeAll, Place, Pieces, StartsWith;
  }

  lemma StartsSo(prefix: Bytes, rest: Bytes)
    ensures StartsWith(prefix + rest, prefix)
  {
    assert (prefix + rest)[..|prefix|] == prefix;
  }

  lemma {:induction false} PlaceKeeps(ps: seq<Piece>, offset: nat)
    ensures |Place(ps, offset)| == |ps| && Pieces(Place(ps, offset)) == ps
    ensures forall i :: 0 <= i < |ps| ==> Place(ps, offset)[i].kind == ps[i].kind && Place(ps, offset)[i].payload == ps[i].payload
  {
    if ps != [] {
      PlaceKeeps(ps[1..], offset + 12 + |ps[0].payload|);
      assert Place(ps, offset)[1..] == Place(ps[1..], offset + 12 + |ps[0].payload|);
    }
  }

  // A chunk that was read is its encoding.
  lemma WriteBack(raw: Bytes, offset: nat, crc: Crc)
    requires ChunkAt(raw, offset, crc).Success?
    ensures var c := ChunkAt(raw, offset, crc).value;
            && ValidPiece(Piece(c.kind, c.payload)) && c.end == offset + 12 + |c.payload|
            && raw[offset..c.end] == Encode(Piece(c.kind, c.payload), crc)
  {
    var c := ChunkAt(raw, offset, crc).value;
    var n := FromBigEndian(raw[offset..offset + 4]);
    BigEndianUnique(raw[offset..offset + 4]);
    BigEndianUnique(raw[offset + 8 + n..c.end]);
    FourSlices(raw, offset, offset + 4, offset + 8, offset + 8 + n, c.end);
    hide BigEndian, FromBigEndian;
  }

  lemma FourSlices<T>(raw: seq<T>, a: nat, b: nat, c: nat, d: nat, e: nat)
    requires a <= b <= c <= d <= e <= |raw|
    ensures raw[a..e] == raw[a..b] + raw[b..c] + raw[c..d] + raw[d..e]
  {
    TwoSlices(raw, a, d, e);
    TwoSlices(raw, a, c, d);
    TwoSlices(raw, a, b, c);
  }

  lemma TwoSlices<T>(raw: seq<T>, a: nat, b: nat, c: nat)
    requires a <= b <= c <= |raw|
    ensures raw[a..c] == raw[a..b] + raw[b..c]
  {
  }

  // What reading chunks from `offset` on came to
  predicate WrittenBack(raw: Bytes, offset: nat, crc: Crc, cs: seq<PngChunk>, stop: nat) {
    && offset <= stop <= |raw| && ValidPieces(Pieces(cs))
    && raw[offset..stop] == EncodeAll(Pieces(cs), crc) && cs == Place(Pieces(cs), offset)
    && (forall i :: 0 <= i < |cs| - 1 ==> cs[i].kind != IEND)
    && |Pieces(cs)| == |cs| && forall i :: 0 <= i < |cs| ==> Pieces(cs)[i].kind == cs[i].kind
  }

  lemma WrittenFront(raw: Bytes, c: PngChunk, crc: Crc, cs: seq<PngChunk>, stop: nat)
    requires WrittenBack(raw, c.end, crc, cs, stop) && ValidPiece(Piece(c.kind, c.payload))
    requires c.start <= c.end == c.start + 12 + |c.payload| && (cs != [] ==> c.kind != IEND)
    requires c.end <= |raw| && raw[c.start..c.end] == Encode(Piece(c.kind, c.payload), crc)
    ensures WrittenBack(raw, c.start, crc, [c] + cs, stop)
  {
    var p, all := Piece(c.kind, c.payload), [c] + cs;
    assert all[1..] == cs && Pieces(all) == [p] + Pieces(cs);
    EncodeFront(p, Pieces(cs), crc);
    PlaceFront(p, Pieces(cs), c.start);
    TwoSlices(raw, c.start, c.end, stop);
    hide Encode, EncodeAll, Place, Pieces;
    assert forall i :: 0 < i < |all| ==> all[i] == cs[i - 1] && Pieces(all)[i] == Pieces(cs)[i - 1];
  }

  lemma NothingWritten(raw: Bytes, offset: nat, crc: Crc)
    requires offset <= |raw|
    ensures WrittenBack(raw, offset, crc, [], offset)
  {
    assert Pieces([]) == [] && Place([], offset) == [];
    assert raw[offset..offset] == [];
  }

  lemma {:induction false} WriteAllBack(raw: Bytes, offset: nat, crc: Crc)
    requires offset <= |raw| && ChunksFrom(raw, offset, crc).Success?
    ensures var r := ChunksFrom(raw, offset, crc).value; WrittenBack(raw, offset, crc, r.0, r.1)
    decreases |raw| - offset
  {
    if offset >= |raw| {
      NothingWritten(raw, offset, crc);
    } else {
      ChunksStep(raw, offset, crc);
      WriteBack(raw, offset, crc);
      var c := ChunkAt(raw, offset, crc).value;
      hide ChunkAt, ChunksFrom, WrittenBack, Encode;
      NothingWritten(raw, c.end, crc);
      assert [c] + [] == [c];
      if c.kind == IEND {
        WrittenFront(raw, c, crc, [], c.end);
      } else {
        WriteAllBack(raw, c.end, crc);
        var rest := ChunksFrom(raw, c.end, crc).value;
        WrittenFront(raw, c, crc, rest.0, rest.1);
      }
    }
  }

  /** A successful parse tiles the whole file: it is the signature followed by exactly the chunks read. */
  lemma ParseTiles(raw: Bytes, crc: Crc)
    requires Parse(raw, crc).Success?
    ensures var cs := Parse(raw, crc).value;
            && ValidFile(Pieces(cs)) && cs == Place(Pieces(cs), |SIGNATURE|)
            && raw == SIGNATURE + EncodeAll(Pieces(cs), crc)
  {
    WriteAllBack(raw, |SIGNATURE|, crc);
    assert raw == raw[..|SIGNATURE|] + raw[|SIGNATURE|..];
  }

  /****** the notice ******/

  /** `key` and `text` of the notice; the payload separates them by a zero byte. */
  datatype Notice = Notice(key: Bytes, text: Bytes)

  function Payload(n: Notice): Bytes {
    n.key + [0] + n.text
  }

  predicate IsNotice(c: PngChunk, n: Notice) {
    c.kind == TEXT && StartsWith(c.payload, n.key + [0])
  }

  function Notices(cs: seq<PngChunk>, n: Notice): seq<PngChunk> {
    if cs == [] then [] else (if IsNotice(cs[0], n) then [cs[0]] else []) + Notices(cs[1..], n)
  }

  // `apply_png_notice`
  function Apply(raw: Bytes, n: Notice, crc: Crc): Result<Bytes, PngError>
    requires |Payload(n)| < WORD
  {
    match Parse(raw, crc)
    case Failure(e) => Failure(e)
    case Success(cs) =>
      var ns := Notices(cs, n);
      if ns != [] then (if |ns| != 1 || ns[0].payload != Payload(n) then Failure(WrongNotice) else Success(raw))
      else if cs == [] || cs[0].end > |raw| then Failure(BadOrder)
      else Success(raw[..cs[0].end] + Encode(Piece(TEXT, Payload(n)), crc) + raw[cs[0].end..])
  }

  datatype Verdict = Fine | MissingOrWrong | NotBehindHeader

  // The PNG branch of `check_notice`
  function Check(raw: Bytes, n: Notice, crc: Crc): Result<Verdict, PngError> {
    match Parse(raw, crc)
    case Failure(e) => Failure(e)
    case Success(cs) =>
      var ns := Notices(cs, n);
      if |ns| != 1 || ns[0].payload != Payload(n) then Success(MissingOrWrong)
      else if |cs| < 2 || cs[1] != ns[0] then Success(NotBehindHeader)
      else Success(Fine)
  }

  function Inserted(ps: seq<Piece>, n: Notice): seq<Piece>
    requires ps != []
  {
    [ps[0], Piece(TEXT, Payload(n))] + ps[1..]
  }

  lemma {:induction false} NoticesOf(cs: seq<PngChunk>, n: Notice)
    ensures Notices(cs, n) == [] <==> forall i :: 0 <= i < |cs| ==> !IsNotice(cs[i], n)
    ensures forall c :: c in Notices(cs, n) ==> c in cs && IsNotice(c, n)
  {
    if cs != [] {
      NoticesOf(cs[1..], n);
      assert cs == [cs[0]] + cs[1..];
    }
  }

  // Where the new bytes go
  lemma ApplySplices(raw: Bytes, n: Notice, crc: Crc)
    requires |Payload(n)| < WORD && Parse(raw, crc).Success? && Notices(Parse(raw, crc).value, n) == []
    ensures var ps := Pieces(Parse(raw, crc).value);
            && ps != [] && ValidPiece(ps[0]) && ValidPieces(ps[1..])
            && Apply(raw, n, crc) == Success(SIGNATURE + Encode(ps[0], crc) + Encode(Piece(TEXT, Payload(n)), crc) + EncodeAll(ps[1..], crc))
  {
    ParseTiles(raw, crc);
    var cs := Parse(raw, crc).value;
    var ps := Pieces(cs);
    var head, tail := Encode(ps[0], crc), EncodeAll(ps[1..], crc);
    assert cs[0].end == |SIGNATURE + head|;
    Regroup(SIGNATURE, head, tail);
    assert raw == SIGNATURE + head + tail;
    hide ChunksFrom, Place, Encode, EncodeAll;
    assert raw[..cs[0].end] == SIGNATURE + head && raw[cs[0].end..] == tail;
  }

  lemma EncodeInserted(ps: seq<Piece>, n: Notice, crc: Crc)
    requires ps != [] && ValidPiece(ps[0]) && ValidPieces(ps[1..]) && |Payload(n)| < WORD
    ensures ValidPieces(Inserted(ps, n))
    ensures SIGNATURE + Encode(ps[0], crc) + Encode(Piece(TEXT, Payload(n)), crc) + EncodeAll(ps[1..], crc)
         == SIGNATURE + EncodeAll(Inserted(ps, n), crc)
  {
    var notice, rest := Piece(TEXT, Payload(n)), ps[1..];
    assert Inserted(ps, n) == [ps[0]] + ([notice] + rest) && ValidPiece(notice);
    hide Encode, EncodeAll, ValidPieces, ValidPiece, Inserted;
    EncodeFront(notice, rest, crc);
    EncodeFront(ps[0], [notice] + rest, crc);
    Regroup(SIGNATURE + Encode(ps[0], crc), Encode(notice, crc), EncodeAll(rest, crc));
    Regroup(SIGNATURE, Encode(ps[0], crc), Encode(notice, crc) + EncodeAll(rest, crc));
  }

  /** On a file without a notice, applying inserts one chunk, second, and changes nothing else. */
  lemma ApplyInserts(raw: Bytes, n: Notice, crc: Crc)
    requires |Payload(n)| < WORD && Parse(raw, crc).Success? && Notices(Parse(raw, crc).value, n) == []
    ensures var ps := Pieces(Parse(raw, crc).value);
            && ps != [] && ValidFile(Inserted(ps, n)) && ValidPieces(Inserted(ps, n))
            && Apply(raw, n, crc) == Success(SIGNATURE + EncodeAll(Inserted(ps, n), crc))
            && Parse(Apply(raw, n, crc).value, crc) == Success(Place(Inserted(ps, n), |SIGNATURE|))
  {
    hide *;
    ParseTiles(raw, crc);
    var ps := Pieces(Parse(raw, crc).value);
    ApplySplices(raw, n, crc);
    EncodeInserted(ps, n, crc);
    InsertedValid(ps, n);
    ParseOfEncode(Inserted(ps, n), crc);
  }

  lemma InsertedValid(ps: seq<Piece>, n: Notice)
    requires ValidFile(ps) && |Payload(n)| < WORD
    ensures ValidFile(Inserted(ps, n))
  {
    var qs := Inserted(ps, n);
    assert |ps| > 1;
    forall i | 0 <= i < |qs| ensures ValidPiece(qs[i]) && (i < |qs| - 1 ==> qs[i].kind != IEND) {
      assert i >= 2 ==> qs[i] == ps[i - 1];
    }
    assert qs[|qs| - 1] == ps[|ps| - 1];
  }

  lemma {:induction false} NoticesPlaced(ps: seq<Piece>, n: Notice, a: nat, b: nat)
    ensures Notices(Place(ps, a), n) == [] <==> Notices(Place(ps, b), n) == []
  {
    if ps != [] {
      NoticesPlaced(ps[1..], n, a + 12 + |ps[0].payload|, b + 12 + |ps[0].payload|);
      assert Place(ps, a)[1..] == Place(ps[1..], a + 12 + |ps[0].payload|);
      assert Place(ps, b)[1..] == Place(ps[1..], b + 12 + |ps[0].payload|);
    }
  }

  // After an insertion the notice is the only one.
  lemma InsertedNotice(ps: seq<Piece>, n: Notice)
    requires ValidFile(ps) && Notices(Place(ps, |SIGNATURE|), n) == []
    ensures var qs := Place(Inserted(ps, n), |SIGNATURE|);
            |qs| >= 2 && Notices(qs, n) == [qs[1]] && qs[1].payload == Payload(n)
  {
    var notice, rest := Piece(TEXT, Payload(n)), ps[1..];
    var a := |SIGNATURE| + 12 + |ps[0].payload|;
    var b := a + 12 + |Payload(n)|;
    assert ps == [ps[0]] + rest && Inserted(ps, n) == [ps[0]] + ([notice] + rest);
    PlaceFront(ps[0], rest, |SIGNATURE|);
    PlaceFront(ps[0], [notice] + rest, |SIGNATURE|);
    PlaceFront(notice, rest, a);
    var first, second := PngChunk(ps[0].kind, ps[0].payload, |SIGNATURE|, a), PngChunk(TEXT, Payload(n), a, b);
    NoticesPlaced(rest, n, a, b);
    NoticesFront(first, Place(rest, a), n);
    NoticesFront(first, [second] + Place(rest, b), n);
    NoticesFront(second, Place(rest, b), n);
    assert Payload(n)[..|n.key + [0]|] == n.key + [0];
  }

  lemma PlaceFront(p: Piece, rest: seq<Piece>, o: nat)
    ensures Place([p] + rest, o) == [PngChunk(p.kind, p.payload, o, o + 12 + |p.payload|)] + Place(rest, o + 12 + |p.payload|)
  {
    assert ([p] + rest)[1..] == rest;
  }

  lemma NoticesFront(c: PngChunk, rest: seq<PngChunk>, n: Notice)
    ensures Notices([c] + rest, n) == (if IsNotice(c, n) then [c] else []) + Notices(rest, n)
  {
    assert ([c] + rest)[1..] == rest;
  }

  /** After applying to a file without a notice the check passes. */
  lemma ApplyThenCheck(raw: Bytes, n: Notice, crc: Crc)
    requires |Payload(n)| < WORD && Parse(raw, crc).Success? && Notices(Parse(raw, crc).value, n) == []
    ensures Apply(raw, n, crc).Success? && Check(Apply(raw, n, crc).value, n, crc) == Success(Fine)
  {
    ApplyInserts(raw, n, crc);
    ParseTiles(raw, crc);
    InsertedNotice(Pieces(Parse(raw, crc).value), n);
  }

  /** A successful application can be repeated without effect; the check passes afterwards if and only
  if there was no notice before or the one notice was already second. */
  lemma ApplyTwice(raw: Bytes, n: Notice, crc: Crc)
    requires |Payload(n)| < WORD && Apply(raw, n, crc).Success?
    ensures var once := Apply(raw, n, crc).value;
            && Apply(once, n, crc) == Success(once)
            && var cs := Parse(raw, crc).value;
            && (Check(once, n, crc) == Success(Fine) <==> Notices(cs, n) == [] || (|cs| > 1 && IsNotice(cs[1], n)))
  {
    var cs := Parse(raw, crc).value;
    NoticesOf(cs, n);
    if Notices(cs, n) == [] {
      ApplyInserts(raw, n, crc);
      ApplyThenCheck(raw, n, crc);
      ParseTiles(raw, crc);
      InsertedNotice(Pieces(cs), n);
    } else if |cs| > 1 {
      OnlyNotice(cs, n, 1);
    }
  }

  lemma {:induction false} OnlyNotice(cs: seq<PngChunk>, n: Notice, i: nat)
    requires i < |cs| && |Notices(cs, n)| == 1
    ensures IsNotice(cs[i], n) ==> Notices(cs, n)[0] == cs[i]
    decreases |cs|
  {
    if i > 0 {
      assert cs[1..][i - 1] == cs[i];
      NoticesOf(cs[1..], n);
      if !IsNotice(cs[0], n) {
        OnlyNotice(cs[1..], n, i - 1);
      }
    }
  }

  /****** exactly when ******/

  // A text chunk under the notice's key
  predicate UnderKey(c: PngChunk, n: Notice) {
    c.kind == [0x74, 0x45, 0x58, 0x74] && n.key + [0] <= c.payload
  }

  // Chunk `i` is the notice as it should be, and nothing else stands under its key.
  ghost predicate OnlyAt(cs: seq<PngChunk>, n: Notice, i: nat) {
    && i < |cs| && UnderKey(cs[i], n) && cs[i].payload == n.key + [0] + n.text
    && forall j :: 0 <= j < |cs| && j != i ==> !UnderKey(cs[j], n)
  }

  lemma {:induction false} NoneUnderKey(cs: seq<PngChunk>, n: Notice)
    ensures Notices(cs, n) == [] <==> forall i :: 0 <= i < |cs| ==> !UnderKey(cs[i], n)
  {
    if cs != [] {
      NoneUnderKey(cs[1..], n);
      assert cs == [cs[0]] + cs[1..];
    }
  }

  lemma {:induction false} OneUnderKey(cs: seq<PngChunk>, n: Notice, i: nat)
    requires i < |cs| && UnderKey(cs[i], n)
    ensures |Notices(cs, n)| == 1 <==> forall j :: 0 <= j < |cs| && j != i ==> !UnderKey(cs[j], n)
    ensures |Notices(cs, n)| == 1 ==> Notices(cs, n)[0] == cs[i]
    ensures Notices(cs, n) != []
    decreases |cs|
  {
    var rest := cs[1..];
    NoneUnderKey(rest, n);
    assert forall j :: 0 < j < |cs| ==> cs[j] == rest[j - 1];
    if i > 0 {
      OneUnderKey(rest, n, i - 1);
      assert UnderKey(cs[0], n) ==> |Notices(cs, n)| == 1 + |Notices(rest, n)|;
      assert forall j :: 0 <= j < |rest| ==> rest[j] == cs[j + 1];
    } else {
      assert |Notices(cs, n)| == 1 + |Notices(rest, n)|;
      assert forall j :: 0 <= j < |rest| ==> rest[j] == cs[j + 1];
    }
  }

  /**
  Applying to a well-formed file leaves it alone exactly when the notice is there and nothing else stands under its
  key, inserts exactly when nothing does, and fails in every other case.
   */
  lemma ApplyCases(raw: Bytes, n: Notice, crc: Crc)
    requires |Payload(n)| < WORD && Parse(raw, crc).Success?
    ensures var cs, r := Parse(raw, crc).value, Apply(raw, n, crc);
            && (r == Success(raw) <==> exists i :: 0 <= i < |cs| && OnlyAt(cs, n, i))
            && (r.Success? && r.value != raw <==> forall i :: 0 <= i < |cs| ==> !UnderKey(cs[i], n))
            && (r.Failure? ==> r.error == WrongNotice)
  {
    var cs := Parse(raw, crc).value;
    NoneUnderKey(cs, n);
    if i :| 0 <= i < |cs| && UnderKey(cs[i], n) {
      OneUnderKey(cs, n, i);
      forall k | 0 <= k < |cs| && OnlyAt(cs, n, k) ensures k == i {
      }
      if |Notices(cs, n)| == 1 && cs[i].payload == Payload(n) {
        assert OnlyAt(cs, n, i);
      }
      hide Parse, Notices;
    } else {
      ApplyLonger(raw, n, crc);
    }
  }

  lemma ApplyLonger(raw: Bytes, n: Notice, crc: Crc)
    requires |Payload(n)| < WORD && Parse(raw, crc).Success? && Notices(Parse(raw, crc).value, n) == []
    ensures Apply(raw, n, crc).Success? && |Apply(raw, n, crc).value| > |raw|
  {
    ApplySplices(raw, n, crc);
    ParseTiles(raw, crc);
    hide Parse, Apply, Encode;
  }

  /** The check passes exactly when the notice is the second chunk and nothing else stands under its key. */
  lemma CheckCases(raw: Bytes, n: Notice, crc: Crc)
    requires Parse(raw, crc).Success?
    ensures var cs, r := Parse(raw, crc).value, Check(raw, n, crc);
            && (r == Success(Fine) <==> OnlyAt(cs, n, 1))
            && (r == Success(MissingOrWrong) <==> forall i :: 0 <= i < |cs| ==> !OnlyAt(cs, n, i))
  {
    var cs := Parse(raw, crc).value;
    NoneUnderKey(cs, n);
    if i :| 0 <= i < |cs| && UnderKey(cs[i], n) {
      OneUnderKey(cs, n, i);
      if |Notices(cs, n)| == 1 {
        assert cs[i].payload == Payload(n) ==> OnlyAt(cs, n, i);
        if |cs| > 1 && cs[1] == cs[i] {
          assert UnderKey(cs[1], n);
        }
      }
      hide Parse, Notices;
    }
  }
}
