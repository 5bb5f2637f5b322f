/**
 The transport payload codec: optional gzip, then base64 (section 4 of RFC 4648) in one piece or in
 chunks, and the decoder of the resulting envelope fields.
 */
module PayloadCodec {
  import opened PyValue

  datatype CodecError =
    | Ambiguous | PayloadMissing | ChunksInvalid | ChunksMissing | ChunkCountMismatch | NotBase64
    | CompressionUnsupported | CompressionInvalid

  // ---------------------------------------------------------------- base64

  function Symbol(i: nat): (c: char)
    requires i < 64
    ensures c != '='
  {
    if i < 26 then ('A' as int + i) as char
    else if i < 52 then ('a' as int + i - 26) as char
    else if i < 62 then ('0' as int + i - 52) as char
    else if i == 62 then '+' else '/'
  }

  /** The value of an alphabet character. */
  function Sextet(c: char): (r: Option<nat>)
    ensures r.Some? ==> r.value < 64 && Symbol(r.value) == c
  {
    if 'A' <= c <= 'Z' then Some(c as int - 'A' as int)
    else if 'a' <= c <= 'z' then Some(c as int - 'a' as int + 26)
    else if '0' <= c <= '9' then Some(c as int - '0' as int + 52)
    else if c == '+' then Some(62) else if c == '/' then Some(63) else None
  }

  lemma SymbolReadsBack(i: nat)
    requires i < 64
    ensures Sextet(Symbol(i)) == Some(i)
  {
  }

  function Encode(b: Bytes): string {
    if |b| == 0 then ""
    else if |b| == 1 then [Symbol(High(b[0])), Symbol(HighMid(b[0], 0)), '=', '=']
    else if |b| == 2 then [Symbol(High(b[0])), Symbol(HighMid(b[0], b[1])), Symbol(LowMid(b[1], 0)), '=']
    else [Symbol(High(b[0])), Symbol(HighMid(b[0], b[1])), Symbol(LowMid(b[1], b[2])),
          Symbol(b[2] % 64)] + Encode(b[3..])
  }

  /** The sextets of three bytes, from the highest bits down; the last one is `z % 64`. */
  function High(x: Byte): (r: nat)
    ensures r < 64
  {
    x / 4
  }

  function HighMid(x: Byte, y: Byte): (r: nat)
    ensures r < 64
  {
    x % 4 * 16 + y / 16
  }

  function LowMid(y: Byte, z: Byte): (r: nat)
    ensures r < 64
  {
    y % 16 * 4 + z / 64
  }

  /** `b64decode(validate=True)`: full quads, then at most one correctly padded quad. */
  function Decode(s: string): Option<Bytes> {
    if s == "" then Some([])
    else if |s| < 4 || Sextet(s[0]).None? || Sextet(s[1]).None? then None
    else
      var x, y := Sextet(s[0]).value, Sextet(s[1]).value;
      if s[2] == '=' then (if |s| == 4 && s[3] == '=' then Some([x * 4 + y / 16]) else None)
      else if Sextet(s[2]).None? then None
      else
        var z := Sextet(s[2]).value;
        if s[3] == '=' then (if |s| == 4 then Some([x * 4 + y / 16, y % 16 * 16 + z / 4]) else None)
        else if Sextet(s[3]).None? then None
        else
          var rest := Decode(s[4..]);
          if rest.None? then None
          else Some([x * 4 + y / 16, y % 16 * 16 + z / 4, z % 4 * 64 + Sextet(s[3]).value] + rest.value)
  }

  /** Four sextets hold three bytes. */
  lemma SextetsJoin(x: Byte, y: Byte, z: Byte)
    ensures High(x) * 4 + HighMid(x, y) / 16 == x
    ensures HighMid(x, y) % 16 * 16 + LowMid(y, z) / 4 == y
    ensures LowMid(y, z) % 4 * 64 + z % 64 == z
  {
    var a, b, c, d := x % 4, y / 16, y % 16, z / 64;
    assert (a * 16 + b) / 16 == a && (a * 16 + b) % 16 == b;
    assert (c * 4 + d) / 4 == c && (c * 4 + d) % 4 == d;
  }

  /** One step of the decoder on a full quad of known sextets. */
  lemma DecodeStep(t: string, p: nat, q: nat, r: nat, u: nat)
    requires |t| >= 4 && p < 64 && q < 64 && r < 64 && u < 64
    requires t[0] == Symbol(p) && t[1] == Symbol(q) && t[2] == Symbol(r) && t[3] == Symbol(u) && Decode(t[4..]).Some?
    ensures Decode(t) == Some([p * 4 + q / 16, q % 16 * 16 + r / 4, r % 4 * 64 + u] + Decode(t[4..]).value)
  {
    SymbolReadsBack(p);
    SymbolReadsBack(q);
    SymbolReadsBack(r);
    SymbolReadsBack(u);
  }

  lemma QuadStep(p: nat, q: nat, r: nat, u: nat, x: Byte, y: Byte, z: Byte, s: string, rest: Bytes)
    requires p < 64 && q < 64 && r < 64 && u < 64 && Decode(s) == Some(rest)
    requires p * 4 + q / 16 == x && q % 16 * 16 + r / 4 == y && r % 4 * 64 + u == z
    ensures Decode([Symbol(p), Symbol(q), Symbol(r), Symbol(u)] + s) == Some([x, y, z] + rest)
  {
    var t := [Symbol(p), Symbol(q), Symbol(r), Symbol(u)] + s;
    assert t[4..] == s;
    DecodeStep(t, p, q, r, u);
  }

  lemma OneByteStep(p: nat, q: nat)
    requires p < 64 && q < 64
    ensures Decode([Symbol(p), Symbol(q), '=', '=']) == Some([p * 4 + q / 16])
  {
    SymbolReadsBack(p);
    SymbolReadsBack(q);
  }

  lemma TwoBytesStep(p: nat, q: nat, r: nat)
    requires p < 64 && q < 64 && r < 64
    ensures Decode([Symbol(p), Symbol(q), Symbol(r), '=']) == Some([p * 4 + q / 16, q % 16 * 16 + r / 4])
  {
    SymbolReadsBack(p);
    SymbolReadsBack(q);
    SymbolReadsBack(r);
  }

  lemma OneByteRoundTrip(x: Byte)
    ensures Decode([Symbol(High(x)), Symbol(HighMid(x, 0)), '=', '=']) == Some([x])
  {
    OneByteStep(High(x), HighMid(x, 0));
    SextetsJoin(x, 0, 0);
  }

  lemma TwoByteRoundTrip(x: Byte, y: Byte)
    ensures Decode([Symbol(High(x)), Symbol(HighMid(x, y)), Symbol(LowMid(y, 0)), '=']) == Some([x, y])
  {
    TwoBytesStep(High(x), HighMid(x, y), LowMid(y, 0));
    SextetsJoin(x, y, 0);
  }

  /** Decoding an encoding gives the bytes back. */
  lemma {:induction false} Base64RoundTrip(b: Bytes)
    ensures Decode(Encode(b)) == Some(b)
  {
    if |b| == 1 {
      assert b == [b[0]];
      OneByteRoundTrip(b[0]);
    } else if |b| == 2 {
      assert b == [b[0], b[1]];
      TwoByteRoundTrip(b[0], b[1]);
    } else if |b| > 2 {
      assert b == [b[0], b[1], b[2]] + b[3..];
      Base64RoundTrip(b[3..]);
      SextetsJoin(b[0], b[1], b[2]);
      QuadStep(High(b[0]), HighMid(b[0], b[1]), LowMid(b[1], b[2]), b[2] % 64, b[0], b[1], b[2], Encode(b[3..]),
               b[3..]);
    }
  }

  predicate InAlphabet(c: char) { Sextet(c).Some? }

  /** Whole quads of alphabet characters, of which the last may end in "=" or "==". */
  ghost predicate IsBase64(s: string) {
    && |s| % 4 == 0
    && (forall i :: 0 <= i < |s| - 2 ==> InAlphabet(s[i]))
    && (s != "" ==> IsEnding(s[|s| - 2], s[|s| - 1]))
  }

  predicate IsEnding(c: char, d: char) { (InAlphabet(c) && (InAlphabet(d) || d == '=')) || (c == '=' && d == '=') }

  /** The decoder accepts exactly those texts. */
  lemma {:induction false} DecodeAcceptsExactlyBase64(s: string)
    ensures Decode(s).Some? <==> IsBase64(s)
  {
    if |s| > 4 {
      DecodeAcceptsExactlyBase64(s[4..]);
      Base64OfRest(s);
    }
  }

  lemma Base64OfRest(s: string)
    requires |s| > 4
    ensures IsBase64(s) <==>
              && InAlphabet(s[0]) && InAlphabet(s[1]) && InAlphabet(s[2]) && InAlphabet(s[3])
              && IsBase64(s[4..])
  {
    var rest := s[4..];
    assert |rest| % 4 == |s| % 4;
    if IsBase64(s) {
      assert |s| >= 8;
      forall i | 0 <= i < |rest| - 2 ensures InAlphabet(rest[i]) { assert rest[i] == s[i + 4]; }
    }
    if InAlphabet(s[0]) && InAlphabet(s[1]) && InAlphabet(s[2]) && InAlphabet(s[3]) && IsBase64(rest) {
      forall i | 0 <= i < |s| - 2 ensures InAlphabet(s[i]) { if i >= 4 { assert s[i] == rest[i - 4]; } }
    }
  }

  // ---------------------------------------------------------------- the alphabet and the bits

  const UPPER := "ABCDEFGHIJKLMNOPQRSTUVWXYZ"
  const LOWER := "abcdefghijklmnopqrstuvwxyz"
  const DIGITS := "0123456789+/"

  /** The alphabet of RFC 4648, in order. */
  function Alphabet(): string { UPPER + LOWER + DIGITS }

  lemma SymbolIsInPlace(i: nat)
    requires i < 64
    ensures |UPPER| == |LOWER| == 26 && |DIGITS| == 12 && Symbol(i) == Alphabet()[i]
  {
    PartsInPlace(i);
    if i < 26 {
      UpperInPlace(i);
    } else if i < 52 {
      LowerInPlace(i - 26);
    } else {
      DigitsInPlace(i - 52);
    }
  }

  lemma PartsInPlace(i: nat)
    requires i < 64
    ensures |UPPER| == |LOWER| == 26 && |DIGITS| == 12
    ensures Alphabet()[i] == if i < 26 then UPPER[i] else if i < 52 then LOWER[i - 26] else DIGITS[i - 52]
  {
  }

  lemma UpperInPlace(k: nat)
    requires k < 26
    ensures Symbol(k) == UPPER[k]
  {
  }

  lemma LowerInPlace(k: nat)
    requires k < 26
    ensures Symbol(26 + k) == LOWER[k]
  {
  }

  lemma DigitsInPlace(k: nat)
    requires k < 12
    ensures Symbol(52 + k) == DIGITS[k]
  {
  }

  /** The value of a character is its place in the alphabet, and no other character has one. */
  lemma AlphabetIsExact(c: char, i: nat)
    requires i < 64
    ensures |Alphabet()| == 64 && Symbol(i) == Alphabet()[i]
    ensures Sextet(c) == Some(i) <==> c == Alphabet()[i]
    ensures InAlphabet(c) <==> c in Alphabet()
  {
    SymbolIsInPlace(i);
    SymbolReadsBack(i);
    if Sextet(c).Some? { SymbolIsInPlace(Sextet(c).value); }
    if c in Alphabet() {
      var k :| 0 <= k < |Alphabet()| && Alphabet()[k] == c;
      SymbolIsInPlace(k);
      SymbolReadsBack(k);
    }
  }

  /** The number that four characters spell, six bits each, highest first. */
  function Spelled(s: string, at: nat): nat
    requires FullQuad(s, at)
  {
    Sextet(s[at]).value * 262144 + Sextet(s[at + 1]).value * 4096 + Sextet(s[at + 2]).value * 64
    + Sextet(s[at + 3]).value
  }

  predicate FullQuad(s: string, at: nat) {
    at + 4 <= |s| && InAlphabet(s[at]) && InAlphabet(s[at + 1]) && InAlphabet(s[at + 2]) && InAlphabet(s[at + 3])
  }

  /** The number that three bytes spell, eight bits each, highest first. */
  function Packed(b: Bytes, at: nat): nat
    requires at + 3 <= |b|
  {
    b[at] as int * 65536 + b[at + 1] as int * 256 + b[at + 2]
  }

  lemma QuadSpells(p: nat, q: nat, r: nat, u: nat)
    requires p < 64 && q < 64 && r < 64 && u < 64
    ensures (p * 4 + q / 16) * 65536 + (q % 16 * 16 + r / 4) * 256 + (r % 4 * 64 + u) ==
        p * 262144 + q * 4096 + r * 64 + u
  {
    assert q == q / 16 * 16 + q % 16 && r == r / 4 * 4 + r % 4;
  }

  /** Every full quad of an accepted text is the number its three bytes are. */
  lemma {:induction false} DecodedQuadIsExact(s: string, k: nat)
    requires Decode(s).Some? && FullQuad(s, 4 * k)
    ensures 3 * k + 3 <= |Decode(s).value| && Packed(Decode(s).value, 3 * k) == Spelled(s, 4 * k)
  {
    QuadSpells(Sextet(s[4 * k]).value, Sextet(s[4 * k + 1]).value, Sextet(s[4 * k + 2]).value,
               Sextet(s[4 * k + 3]).value);
    if k == 0 {
      assert !(s[2] == '=') && !(s[3] == '=');
    } else {
      DecodedQuadIsExact(s[4..], k - 1);
    }
  }

  /** The last quad, if it is padded, is cut off after its whole bytes. */
  lemma {:induction false} DecodedEndIsExact(s: string)
    requires Decode(s).Some? && s != "" && s[|s| - 1] == '='
    ensures var n, b := |s|, Decode(s).value;
            && n % 4 == 0 && InAlphabet(s[n - 4]) && InAlphabet(s[n - 3])
            && var x, y := Sextet(s[n - 4]).value, Sextet(s[n - 3]).value;
               if s[n - 2] == '=' then 4 * |b| == 3 * n - 8 && b[|b| - 1] == (x * 64 + y) / 16
               else
                 && 4 * |b| == 3 * n - 4 && InAlphabet(s[n - 2])
                 && b[|b| - 2] as int * 256 + b[|b| - 1] == (x * 4096 + y * 64 + Sextet(s[n - 2]).value) / 4
  {
    if |s| == 4 {
    } else {
      DecodeAcceptsExactlyBase64(s);
      assert |s| >= 8;
      assert Decode(s[4..]).Some? && s[4..][|s[4..]| - 1] == '=';
      DecodedEndIsExact(s[4..]);
    }
  }

  // ---------------------------------------------------------------- compression

  datatype Gzip = Gzip(compress: Bytes -> Bytes, decompress: Bytes -> Option<Bytes>)

  ghost predicate Lossless(g: Gzip) { forall b: Bytes :: g.decompress(g.compress(b)) == Some(b) }

  /** A configured compression: blank and "none" mean none, and only "gzip" is known. */
  function NormalizeCompression(v: Option<string>): Result<Option<string>, CodecError> {
    var clean := Lower(Strip(if v.Some? then v.value else ""));
    if clean == "" || clean == "none" then Ok(None)
    else if clean != "gzip" then Err(CompressionUnsupported)
    else Ok(Some(clean))
  }

  /** A setting is accepted exactly when it is absent, blank, "none" or "gzip" in any case; only "gzip" compresses. */
  lemma CompressionIsExact(v: Option<string>)
    ensures NormalizeCompression(v) == Ok(None) <==>
              v.None? || Strip(v.value) == "" || Lower(Strip(v.value)) == "none"
    ensures NormalizeCompression(v) == Ok(Some("gzip")) <==> v.Some? && Lower(Strip(v.value)) == "gzip"
    ensures NormalizeCompression(v).Ok? ==> NormalizeCompression(v).value in {None, Some("gzip")}
  {
    assert "gzip" != "none" && Strip("") == "" && Lower("") == "";
    if v.Some? { assert |Lower(Strip(v.value))| == |Strip(v.value)|; }
  }

  function Pack(g: Gzip, payload: Bytes, compression: Option<string>): Result<Bytes, CodecError> {
    if compression.None? then Ok(payload)
    else if compression.value == "gzip" then Ok(g.compress(payload))
    else Err(CompressionUnsupported)
  }

  function Unpack(g: Gzip, packed: Bytes, compression: Option<string>): Result<Bytes, CodecError> {
    if compression.None? then Ok(packed)
    else if compression.value == "gzip" then
      if g.decompress(packed).Some? then Ok(g.decompress(packed).value) else Err(CompressionInvalid)
    else Err(CompressionUnsupported)
  }

  // ---------------------------------------------------------------- envelope fields

  /** The payload fields of an envelope, as raw values; other envelope fields play no part. */
  datatype Envelope = Envelope(payloadBase64: Value, payloadChunksBase64: Value, payloadChunkCount: Value,
                               payloadChunkSizeBytes: Value,
                               payloadCompression: Value)

  function Chunked(b: Bytes, size: int): seq<Bytes>
    requires size > 0
    decreases |b|
  {
    if b == [] then [] else if |b| <= size then [b] else [b[..size]] + Chunked(b[size..], size)
  }

  function EncodeAll(chunks: seq<Bytes>): (texts: seq<Value>)
    ensures |texts| == |chunks|
  {
    seq(|chunks|, i requires 0 <= i < |chunks| => Text(Encode(chunks[i])))
  }

  /** One piece unless the payload is longer than a positive chunk size. */
  function PayloadFields(b: Bytes, chunkSize: Option<int>, compression: Option<string>): Envelope {
    if chunkSize.None? || chunkSize.value <= 0 || |b| <= chunkSize.value then
      Envelope(Text(Encode(b)), Null, Null, Null, FromText(compression))
    else
      var texts := EncodeAll(Chunked(b, chunkSize.value));
      Envelope(Null, List(texts, ""), Num(|texts|), Num(chunkSize.value), FromText(compression))
  }

  function DecodeChunk(v: Value): Result<Bytes, CodecError> {
    if v.Text? && Decode(v.text).Some? then Ok(Decode(v.text).value) else Err(NotBase64)
  }

  function DecodeChunks(vs: seq<Value>): Result<Bytes, CodecError> {
    if vs == [] then Ok([])
    else
      var first :- DecodeChunk(vs[0]);
      var rest :- DecodeChunks(vs[1..]);
      Ok(first + rest)
  }

  function EncodedBytes(e: Envelope): Result<Bytes, CodecError> {
    if !e.payloadBase64.Null? && !e.payloadChunksBase64.Null? then Err(Ambiguous)
    else if !e.payloadBase64.Null? then
      if !e.payloadBase64.Text? then Err(PayloadMissing) else DecodeChunk(e.payloadBase64)
    else if !e.payloadChunksBase64.Null? then
      if !e.payloadChunksBase64.List? then Err(ChunksInvalid)
      else if e.payloadChunksBase64.items == [] then Err(ChunksMissing)
      else if OptInt(e.payloadChunkCount).Some?
          && OptInt(e.payloadChunkCount).value != |e.payloadChunksBase64.items| then Err(ChunkCountMismatch)
      else DecodeChunks(e.payloadChunksBase64.items)
    else Err(PayloadMissing)
  }

  function DecodeEnvelope(g: Gzip, e: Envelope): Result<Bytes, CodecError> {
    var packed :- EncodedBytes(e);
    var compression := Lower(Clean(e.payloadCompression));
    if compression != "" && compression != "gzip" then Err(CompressionUnsupported)
    else Unpack(g, packed, NonEmpty(compression))
  }

  // ---------------------------------------------------------------- round trip

  lemma {:induction false} ChunksDecode(chunks: seq<Bytes>)
    ensures DecodeChunks(EncodeAll(chunks)) == Ok(Joined(chunks))
  {
    if chunks == [] {
    } else {
      Base64RoundTrip(chunks[0]);
      ChunksDecode(chunks[1..]);
      assert EncodeAll(chunks)[1..] == EncodeAll(chunks[1..]);
    }
  }

  ghost function Joined(chunks: seq<Bytes>): Bytes {
    if chunks == [] then [] else chunks[0] + Joined(chunks[1..])
  }

  /** Splitting loses nothing, and only the last chunk may be short. */
  lemma {:induction false} ChunkedShape(b: Bytes, size: int)
    requires size > 0
    ensures Joined(Chunked(b, size)) == b && ChunksFit(Chunked(b, size), size)
    decreases |b|
  {
    if |b| > size {
      ChunkedShape(b[size..], size);
      assert Chunked(b, size)[1..] == Chunked(b[size..], size);
      assert b[..size] + b[size..] == b;
    } else if b != [] {
      assert Chunked(b, size)[1..] == [];
      assert b + [] == b;
    }
  }

  ghost predicate ChunksFit(chunks: seq<Bytes>, size: int) {
    chunks == [] || (0 < |chunks[0]| <= size && (|chunks| > 1 ==> |chunks[0]| == size) && ChunksFit(chunks[1..], size))
  }

  lemma {:induction false} ChunkFitsAt(chunks: seq<Bytes>, size: int, i: nat)
    requires ChunksFit(chunks, size) && i < |chunks|
    ensures 0 < |chunks[i]| <= size && (i < |chunks| - 1 ==> |chunks[i]| == size)
  {
    if i > 0 { ChunkFitsAt(chunks[1..], size, i - 1); }
  }

  /** There are `ceil(length / size)` chunks. */
  lemma {:induction false} ChunkedCount(b: Bytes, size: int)
    requires size > 0
    ensures |Chunked(b, size)| == (|b| + size - 1) / size
    decreases |b|
  {
    if |b| > size {
      ChunkedCount(b[size..], size);
      QuotientStep(|b| - 1, size);
    } else if b != [] {
      QuotientStep(|b| - 1, size);
      SmallQuotient(|b| - 1, size);
    } else {
      SmallQuotient(size - 1, size);
    }
  }

  lemma SmallQuotient(n: int, size: int)
    requires 0 <= n < size
    ensures n / size == 0
  {
  }

  lemma QuotientStep(n: int, size: int)
    requires size > 0
    ensures (n + size) / size == n / size + 1
  {
    var q, r := n / size, n % size;
    assert n + size == size * (q + 1) + r by { assert n == size * q + r; }
    QuotientIs(n + size, size, q + 1, r);
  }

  lemma QuotientIs(n: int, size: int, q: int, r: int)
    requires size > 0 && n == size * q + r && 0 <= r < size
    ensures n / size == q
  {
    var d := n / size - q;
    assert size * d == r - n % size;
    MultipleBound(size, d);
  }

  lemma MultipleBound(size: int, d: int)
    requires size > 0
    ensures d >= 1 ==> size * d >= size
    ensures d <= -1 ==> size * d <= -size
  {
  }

  /** The chunked form: how many chunks there are and what each of them decodes to. */
  lemma ChunkFields(b: Bytes, size: int, compression: Option<string>)
    requires 0 < size < |b|
    ensures var e := PayloadFields(b, Some(size), compression);
            && e.payloadChunksBase64.List?
            && var texts := e.payloadChunksBase64.items;
               && e.payloadChunkCount == Num(|texts|) && |texts| == (|b| + size - 1) / size
               && (forall i :: 0 <= i < |texts| ==>
                     DecodeChunk(texts[i]).Ok? && 0 < |DecodeChunk(texts[i]).value| <= size
                     && (i < |texts| - 1 ==> |DecodeChunk(texts[i]).value| == size))
  {
    var chunks := Chunked(b, size);
    ChunkedShape(b, size);
    ChunkedCount(b, size);
    forall i | 0 <= i < |chunks|
      ensures DecodeChunk(EncodeAll(chunks)[i]) == Ok(chunks[i]) && 0 < |chunks[i]| <= size
      ensures (i < |chunks| - 1 ==> |chunks[i]| == size)
    {
      Base64RoundTrip(chunks[i]);
      ChunkFitsAt(chunks, size, i);
    }
  }

  lemma GzipNameIsClean()
    ensures Lower(Clean(Text("gzip"))) == "gzip"
  {
    assert Lower("gzip") == "gzip";
  }

  lemma FieldsReadBack(b: Bytes, chunkSize: Option<int>, compression: Option<string>)
    ensures EncodedBytes(PayloadFields(b, chunkSize, compression)) == Ok(b)
  {
    if chunkSize.None? || chunkSize.value <= 0 || |b| <= chunkSize.value {
      Base64RoundTrip(b);
    } else {
      ChunkedReadsBack(b, chunkSize.value);
      ListReadsBack(EncodeAll(Chunked(b, chunkSize.value)), chunkSize.value, compression);
    }
  }

  lemma ChunkedReadsBack(b: Bytes, size: int)
    requires 0 < size < |b|
    ensures DecodeChunks(EncodeAll(Chunked(b, size))) == Ok(b) && Chunked(b, size) != []
  {
    ChunksDecode(Chunked(b, size));
    ChunkedShape(b, size);
  }

  lemma ListReadsBack(texts: seq<Value>, size: int, compression: Option<string>)
    requires texts != []
    ensures EncodedBytes(Envelope(Null, List(texts, ""), Num(|texts|), Num(size), FromText(compression))) ==
            DecodeChunks(texts)
  {
  }

  /** Round trip for every payload, every chunk size and every accepted compression setting. */
  lemma PayloadRoundTrip(g: Gzip, payload: Bytes, chunkSize: Option<int>, setting: Option<string>)
    requires Lossless(g) && NormalizeCompression(setting).Ok?
    ensures var compression := NormalizeCompression(setting).value;
            var packed := Pack(g, payload, compression);
            packed.Ok? && DecodeEnvelope(g, PayloadFields(packed.value, chunkSize, compression)) == Ok(payload)
  {
    var compression := NormalizeCompression(setting).value;
    var packed := Pack(g, payload, compression).value;
    FieldsReadBack(packed, chunkSize, compression);
    GzipNameIsClean();
  }

  // ---------------------------------------------------------------- which envelopes are accepted

  predicate IsChunk(v: Value) { v.Text? && Decode(v.text).Some? }

  lemma {:induction false} ChunksAreExact(vs: seq<Value>)
    ensures DecodeChunks(vs).Ok? <==> forall i :: 0 <= i < |vs| ==> IsChunk(vs[i])
    ensures DecodeChunks(vs).Ok? ==>
              DecodeChunks(vs).value == Joined(seq(|vs|, i requires 0 <= i < |vs| =>
                                                 if IsChunk(vs[i]) then Decode(vs[i].text).value else []))
  {
    if vs == [] {
    } else {
      ChunksAreExact(vs[1..]);
      assert (forall i :: 0 <= i < |vs| ==> IsChunk(vs[i])) <==>
             IsChunk(vs[0]) && (forall i :: 0 <= i < |vs[1..]| ==> IsChunk(vs[1..][i])) by {
        assert forall i :: 0 < i < |vs| ==> vs[i] == vs[1..][i - 1];
      }
      if DecodeChunks(vs).Ok? {
        var pieces := seq(|vs|, i requires 0 <= i < |vs| => if IsChunk(vs[i]) then Decode(vs[i].text).value else []);
        assert pieces[1..] == seq(|vs[1..]|, i requires 0 <= i < |vs[1..]| =>
                                    if IsChunk(vs[1..][i]) then Decode(vs[1..][i].text).value else []);
      }
    }
  }

  /** The envelope has one payload, in one piece or in a list of as many chunks as it states, all of them base64. */
  ghost predicate HasPayload(e: Envelope) {
    || (e.payloadChunksBase64.Null? && IsChunk(e.payloadBase64))
    || (e.payloadBase64.Null? && e.payloadChunksBase64.List? && e.payloadChunksBase64.items != []
        && (OptInt(e.payloadChunkCount).Some? ==> OptInt(e.payloadChunkCount).value == |e.payloadChunksBase64.items|)
        && forall i :: 0 <= i < |e.payloadChunksBase64.items| ==> IsChunk(e.payloadChunksBase64.items[i]))
  }

  /** An envelope is accepted exactly when it has a payload that is not compressed, or is gzip that decompresses. */
  lemma EnvelopeIsAcceptedIff(g: Gzip, e: Envelope)
    ensures EncodedBytes(e).Ok? <==> HasPayload(e)
    ensures DecodeEnvelope(g, e).Ok? <==>
              && HasPayload(e)
              && (|| Lower(Clean(e.payloadCompression)) == ""
                  || (Lower(Clean(e.payloadCompression)) == "gzip" && g.decompress(EncodedBytes(e).value).Some?))
  {
    if e.payloadChunksBase64.List? { ChunksAreExact(e.payloadChunksBase64.items); }
  }
}
