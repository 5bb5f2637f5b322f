/**
 Chunk windows of an artifact file: the engine's lenient chunk parser, the two digest loops, and the
 materialized shard window.
 */
module ChunkWindows {
  import opened PyValue
  import opened ArtifactContract

  /** A chunk as the assignment engine keeps it; absent keys are `None`, absent tensor names `[]`. */
  datatype LenientChunk = LenientChunk(
    chunkId: string, offset: nat, size: nat, sha: Option<string>,
    layerStart: Option<int>, layerEnd: Option<int>, tensors: seq<string>)

  /** What a digest loop reads from a chunk. */
  datatype Window = Window(chunkId: string, offset: nat, size: nat, sha: Option<string>)

  datatype WindowError = ShortRead | ChunkHashMismatch | NoDigestSource

  datatype WindowDigest = WindowDigest(digest: string, source: string, bytesRead: nat)

  // ---------------------------------------------------------------- lenient parser

  function LenientNames(items: seq<Value>): seq<string> {
    if items == [] then []
    else if Strip(StrOf(items[0])) == "" then LenientNames(items[1..])
    else [Strip(StrOf(items[0]))] + LenientNames(items[1..])
  }

  function LenientItem(item: ChunkItem): Option<LenientChunk> {
    if item.NotMapping? || OptNat(item.offsetBytes).None? || OptNat(item.sizeBytes).None? then None
    else Some(LenientChunk(
                Clean(item.chunkId), OptNat(item.offsetBytes).value, OptNat(item.sizeBytes).value,
                NonEmpty(Lower(Clean(item.sha256Hex))), OptInt(item.layerStart), OptInt(item.layerEnd),
                if item.tensorNames.List? then LenientNames(item.tensorNames.items) else []))
  }

  function LenientItems(items: seq<ChunkItem>): seq<LenientChunk> {
    if items == [] then []
    else if LenientItem(items[0]).None? then LenientItems(items[1..])
    else [LenientItem(items[0]).value] + LenientItems(items[1..])
  }

  function LenientRanges(artifact: Artifact): seq<LenientChunk> {
    if artifact.chunkRanges.NotAList? then [] else LenientItems(artifact.chunkRanges.items)
  }

  /** The append loop of the lenient parser. */
  method ParseLenientRanges(artifact: Artifact) returns (output: seq<LenientChunk>)
    ensures output == LenientRanges(artifact)
  {
    output := [];
    if artifact.chunkRanges.NotAList? {
      return;
    }
    var items := artifact.chunkRanges.items;
    assert items[0..] == items;
    for i := 0 to |items|
      invariant LenientItems(items) == output + LenientItems(items[i..])
    {
      assert items[i..][1..] == items[i + 1..];
      var parsed := LenientItem(items[i]);
      if parsed.Some? {
        output := output + [parsed.value];
      }
    }
  }

  predicate SameChunk(s: ChunkRange, l: LenientChunk) {
    && s.chunkId == l.chunkId && s.offset == l.offset && s.size == l.size && s.sha == l.sha
    && s.tensors == l.tensors
    && s.layerStart == NonNegative(l.layerStart) && s.layerEnd == NonNegative(l.layerEnd)
  }

  predicate SameChunks(ss: seq<ChunkRange>, ls: seq<LenientChunk>) {
    |ss| == |ls| && forall i :: 0 <= i < |ss| ==> SameChunk(ss[i], ls[i])
  }

  lemma {:induction false} NamesAgree(items: seq<Value>)
    requires StrictNames(items).Ok?
    ensures LenientNames(items) == StrictNames(items).value
  {
    if items == [] {
    } else {
      NamesAgree(items[1..]);
    }
  }

  lemma {:induction false} ItemParsersAgree(items: seq<ChunkItem>)
    requires StrictItems(items).Ok?
    ensures SameChunks(StrictItems(items).value, LenientItems(items))
  {
    if items == [] {
    } else {
      ItemParsersAgree(items[1..]);
      if items[0].Item? {
        ItemsAgree(items[0]);
        SameChunksGrow(StrictItem(items[0]).value, LenientItem(items[0]).value, StrictItems(items[1..]).value,
                       LenientItems(items[1..]));
      }
    }
  }

  lemma SameChunksGrow(s: ChunkRange, l: LenientChunk, ss: seq<ChunkRange>, ls: seq<LenientChunk>)
    requires SameChunk(s, l) && SameChunks(ss, ls)
    ensures SameChunks([s] + ss, [l] + ls)
  {
  }

  lemma ItemsAgree(item: ChunkItem)
    requires item.Item? && StrictItem(item).Ok?
    ensures LenientItem(item).Some? && SameChunk(StrictItem(item).value, LenientItem(item).value)
  {
    if item.tensorNames.List? { NamesAgree(item.tensorNames.items); }
  }

  /** Whenever the strict parser accepts, the lenient parser reads the same chunks. */
  lemma ParsersAgree(artifact: Artifact)
    requires StrictRanges(artifact).Ok?
    ensures SameChunks(StrictRanges(artifact).value, LenientRanges(artifact))
    ensures StrictWindows(StrictRanges(artifact).value) == LenientWindows(LenientRanges(artifact))
  {
    if artifact.chunkRanges.Items? { ItemParsersAgree(artifact.chunkRanges.items); }
  }

  // ---------------------------------------------------------------- window digest

  function StrictWindows(ranges: seq<ChunkRange>): (ws: seq<Window>)
    ensures |ws| == |ranges|
  {
    seq(|ranges|, i requires 0 <= i < |ranges| =>
      Window(ranges[i].chunkId, ranges[i].offset, ranges[i].size, ranges[i].sha))
  }

  function LenientWindows(chunks: seq<LenientChunk>): (ws: seq<Window>)
    ensures |ws| == |chunks|
  {
    seq(|chunks|, i requires 0 <= i < |chunks| =>
      Window(chunks[i].chunkId, chunks[i].offset, chunks[i].size, chunks[i].sha))
  }

  /** `seek(offset); read(size)`: short at the end of the file. */
  function ReadAt(file: Bytes, offset: nat, size: nat): (r: Bytes)
    ensures |r| <= size
    ensures |r| == size && size > 0 ==> offset + size <= |file| && r == file[offset..offset + size]
    ensures offset + size <= |file| ==> r == file[offset..offset + size]
  {
    if offset + size <= |file| then file[offset..offset + size]
    else if offset < |file| then file[offset..]
    else []
  }

  function ExpectedHash(sha: Option<string>): string {
    if sha.Some? then Lower(Strip(sha.value)) else ""
  }

  /** The bytes fed to the outer hasher: for every window its id and the hash of its content. */
  function HashedWindows(w: World, file: Bytes, windows: seq<Window>): Result<Bytes, WindowError> {
    if windows == [] then Ok([])
    else
      var head := windows[0];
      var payload := ReadAt(file, head.offset, head.size);
      var hash := w.sha256(payload);
      if |payload| != head.size then Err(ShortRead)
      else if ExpectedHash(head.sha) != "" && hash != ExpectedHash(head.sha) then Err(ChunkHashMismatch)
      else
        var rest :- HashedWindows(w, file, windows[1..]);
        Ok(w.utf8(head.chunkId) + w.utf8(hash) + rest)
  }

  function WindowBytes(windows: seq<Window>): nat {
    if windows == [] then 0 else windows[0].size + WindowBytes(windows[1..])
  }

  function DigestOf(w: World, file: Bytes, windows: seq<Window>,
                    expected: Option<string>): Result<WindowDigest, WindowError> {
    if windows != [] then
      var hashed :- HashedWindows(w, file, windows);
      Ok(WindowDigest("chunk_ranges:" + w.sha256(hashed), "chunk_ranges", WindowBytes(windows)))
    else if expected.Some? && expected.value != "" then Ok(WindowDigest(expected.value, "expected_digest", 0))
    else Err(NoDigestSource)
  }

  /** Loop state after `i` windows: what is hashed so far plus the rest is the whole. */
  ghost predicate DigestSoFar(w: World, file: Bytes, windows: seq<Window>, i: nat, hashed: Bytes, bytesRead: nat)
    requires i <= |windows|
  {
    && bytesRead + WindowBytes(windows[i..]) == WindowBytes(windows)
    && match HashedWindows(w, file, windows[i..])
       case Ok(rest) => HashedWindows(w, file, windows) == Ok(hashed + rest)
       case Err(e) => HashedWindows(w, file, windows) == Err(e)
  }

  lemma DigestStart(w: World, file: Bytes, windows: seq<Window>)
    ensures DigestSoFar(w, file, windows, 0, [], 0)
  {
    assert windows[0..] == windows && forall rest: Bytes :: [] + rest == rest;
  }

  lemma DigestEnd(w: World, file: Bytes, windows: seq<Window>, hashed: Bytes, bytesRead: nat)
    requires DigestSoFar(w, file, windows, |windows|, hashed, bytesRead)
    ensures HashedWindows(w, file, windows) == Ok(hashed) && bytesRead == WindowBytes(windows)
  {
    assert windows[|windows|..] == [] && hashed + [] == hashed;
  }

  lemma DigestStep(w: World, file: Bytes, windows: seq<Window>, i: nat, hashed: Bytes, bytesRead: nat)
    requires i < |windows| && DigestSoFar(w, file, windows, i, hashed, bytesRead)
    ensures var payload := ReadAt(file, windows[i].offset, windows[i].size);
            var expected := ExpectedHash(windows[i].sha);
            if |payload| != windows[i].size then HashedWindows(w, file, windows) == Err(ShortRead)
            else if expected != "" && w.sha256(payload) != expected then
              HashedWindows(w, file, windows) == Err(ChunkHashMismatch)
            else DigestSoFar(w, file, windows, i + 1, hashed + w.utf8(windows[i].chunkId) + w.utf8(w.sha256(payload)),
                             bytesRead + windows[i].size)
  {
    assert windows[i..][1..] == windows[i + 1..];
    var entry := w.utf8(windows[i].chunkId) + w.utf8(w.sha256(ReadAt(file, windows[i].offset, windows[i].size)));
    assert forall rest: Bytes :: hashed + (entry + rest) == hashed + entry + rest;
    assert hashed + entry == hashed + w.utf8(windows[i].chunkId) +
        w.utf8(w.sha256(ReadAt(file, windows[i].offset, windows[i].size)));
  }

  /** The assignment engine's digest loop. */
  method EngineWindowDigest(w: World, file: Bytes, chunks: seq<LenientChunk>, expected: Option<string>)
      returns (r: Result<WindowDigest, WindowError>)
    ensures r == DigestOf(w, file, LenientWindows(chunks), expected)
  {
    if |chunks| > 0 {
      ghost var windows := LenientWindows(chunks);
      var hashed: Bytes, bytesRead: nat := [], 0;
      DigestStart(w, file, windows);
      for i := 0 to |chunks|
        invariant DigestSoFar(w, file, windows, i, hashed, bytesRead)
      {
        DigestStep(w, file, windows, i, hashed, bytesRead);
        var payload := ReadAt(file, chunks[i].offset, chunks[i].size);
        if |payload| != chunks[i].size {
          return Err(ShortRead);
        }
        var payloadHash := w.sha256(payload);
        var expectedHash := ExpectedHash(chunks[i].sha);
        if expectedHash != "" && payloadHash != expectedHash {
          return Err(ChunkHashMismatch);
        }
        hashed := hashed + w.utf8(chunks[i].chunkId) + w.utf8(payloadHash);
        bytesRead := bytesRead + chunks[i].size;
      }
      DigestEnd(w, file, windows, hashed, bytesRead);
      return Ok(WindowDigest("chunk_ranges:" + w.sha256(hashed), "chunk_ranges", bytesRead));
    }
    if expected.Some? && expected.value != "" {
      return Ok(WindowDigest(expected.value, "expected_digest", 0));
    }
    return Err(NoDigestSource);
  }

  /** The reference binary's digest loop, written separately over strictly parsed ranges. */
  method BinaryWindowDigest(w: World, file: Bytes, ranges: seq<ChunkRange>, expected: Option<string>)
      returns (r: Result<WindowDigest, WindowError>)
    ensures r == DigestOf(w, file, StrictWindows(ranges), expected)
  {
    if |ranges| > 0 {
      ghost var windows := StrictWindows(ranges);
      var hashed: Bytes, bytesRead: nat := [], 0;
      DigestStart(w, file, windows);
      for i := 0 to |ranges|
        invariant DigestSoFar(w, file, windows, i, hashed, bytesRead)
      {
        DigestStep(w, file, windows, i, hashed, bytesRead);
        var payload := ReadAt(file, ranges[i].offset, ranges[i].size);
        if |payload| != ranges[i].size {
          return Err(ShortRead);
        }
        var payloadHash := w.sha256(payload);
        var expectedHash := ExpectedHash(ranges[i].sha);
        if expectedHash != "" && payloadHash != expectedHash {
          return Err(ChunkHashMismatch);
        }
        hashed := hashed + w.utf8(ranges[i].chunkId) + w.utf8(payloadHash);
        bytesRead := bytesRead + ranges[i].size;
      }
      DigestEnd(w, file, windows, hashed, bytesRead);
      return Ok(WindowDigest("chunk_ranges:" + w.sha256(hashed), "chunk_ranges", bytesRead));
    }
    if expected.Some? && expected.value != "" {
      return Ok(WindowDigest(expected.value, "expected_digest", 0));
    }
    return Err(NoDigestSource);
  }

  /** Two parsers, one digest: whatever the strict parser accepts, both sides digest alike. */
  lemma OneDigest(w: World, file: Bytes, artifact: Artifact, expected: Option<string>)
    requires StrictRanges(artifact).Ok?
    ensures DigestOf(w, file, StrictWindows(StrictRanges(artifact).value), expected)
         == DigestOf(w, file, LenientWindows(LenientRanges(artifact)), expected)
  {
    ParsersAgree(artifact);
  }

  /** A hex digest is written as 64 ASCII bytes that tell it from every other digest. */
  ghost predicate DigestsEncode(w: World) {
    && (forall d: Digest :: |w.utf8(d)| == 64)
    && (forall d: Digest, e: Digest :: w.utf8(d) == w.utf8(e) ==> d == e)
  }

  predicate NoCollision(w: World, x: Bytes, y: Bytes) { w.sha256(x) == w.sha256(y) ==> x == y }

  /** No window of one file collides with the same window of the other. */
  ghost predicate NoWindowCollides(w: World, f: Bytes, g: Bytes, windows: seq<Window>) {
    forall i :: 0 <= i < |windows| ==>
      NoCollision(w, ReadAt(f, windows[i].offset, windows[i].size), ReadAt(g, windows[i].offset, windows[i].size))
  }

  lemma {:induction false} HashedTextPinsContent(w: World, f: Bytes, g: Bytes, windows: seq<Window>)
    requires DigestsEncode(w) && NoWindowCollides(w, f, g, windows)
    requires HashedWindows(w, f, windows).Ok? && HashedWindows(w, f, windows) == HashedWindows(w, g, windows)
    ensures Materialized(f, windows) == Materialized(g, windows)
  {
    if windows == [] {
    } else {
      var head := windows[0];
      var p, q := ReadAt(f, head.offset, head.size), ReadAt(g, head.offset, head.size);
      var hashed := HashedWindows(w, f, windows).value;
      var restF, restG := HashedWindows(w, f, windows[1..]).value, HashedWindows(w, g, windows[1..]).value;
      var n := |w.utf8(head.chunkId)|;
      assert hashed == w.utf8(head.chunkId) + w.utf8(w.sha256(p)) + restF ==
          w.utf8(head.chunkId) + w.utf8(w.sha256(q)) + restG;
      assert w.utf8(w.sha256(p)) == hashed[n..n + 64] == w.utf8(w.sha256(q));
      assert restF == hashed[n + 64..] == restG;
      assert NoCollision(w, p, q);
      HashedTextPinsContent(w, f, g, windows[1..]);
    }
  }

  lemma LabelledDigestsDiffer(prefix: string, d: Digest, e: Digest)
    requires prefix + d == prefix + e
    ensures d == e
  {
    assert d == (prefix + d)[|prefix|..] == (prefix + e)[|prefix|..] == e;
  }

  /** The texts that the outer hash reads are told apart by it. */
  predicate NoOuterCollision(w: World, f: Bytes, g: Bytes, windows: seq<Window>) {
    var hashedF, hashedG := HashedWindows(w, f, windows), HashedWindows(w, g, windows);
    hashedF.Ok? && hashedG.Ok? ==> NoCollision(w, hashedF.value, hashedG.value)
  }

  /** Two files with one window digest have the same content in every window, unless something collides. */
  lemma DigestPinsContent(w: World, f: Bytes, g: Bytes, windows: seq<Window>, expected: Option<string>)
    requires windows != [] && DigestsEncode(w) && NoWindowCollides(w, f, g, windows)
    requires NoOuterCollision(w, f, g, windows)
    requires DigestOf(w, f, windows, expected).Ok? && DigestOf(w, g, windows, expected).Ok?
    requires DigestOf(w, f, windows, expected).value.digest == DigestOf(w, g, windows, expected).value.digest
    ensures Materialized(f, windows) == Materialized(g, windows)
  {
    var hashedF, hashedG := HashedWindows(w, f, windows).value, HashedWindows(w, g, windows).value;
    LabelledDigestsDiffer("chunk_ranges:", w.sha256(hashedF), w.sha256(hashedG));
    HashedTextPinsContent(w, f, g, windows);
  }

  // ---------------------------------------------------------------- what a digest stands for

  /** The window lies in the file; an empty window lies anywhere. */
  predicate Inside(file: Bytes, x: Window) { x.size == 0 || x.offset + x.size <= |file| }

  /** The file's bytes in the window. */
  function Content(file: Bytes, x: Window): Bytes {
    if x.size == 0 || |file| < x.offset + x.size then [] else file[x.offset..x.offset + x.size]
  }

  /** The window lies in the file and its content has the stated hash, trimmed and in lower case, if one is stated. */
  predicate Intact(w: World, file: Bytes, x: Window) {
    && Inside(file, x)
    && (x.sha.Some? && Strip(x.sha.value) != "" ==> Lower(Strip(x.sha.value)) == w.sha256(Content(file, x)))
  }

  ghost predicate AllIntact(w: World, file: Bytes, windows: seq<Window>) {
    forall i :: 0 <= i < |windows| ==> Intact(w, file, windows[i])
  }

  /** What one window adds to the hashed text: its id and the hash of its content. */
  function EntryOf(w: World, file: Bytes, x: Window): Bytes { w.utf8(x.chunkId) + w.utf8(w.sha256(Content(file, x))) }

  function EntriesOf(w: World, file: Bytes, windows: seq<Window>): seq<Bytes> {
    seq(|windows|, i requires 0 <= i < |windows| => EntryOf(w, file, windows[i]))
  }

  lemma WindowIsRead(w: World, file: Bytes, x: Window)
    ensures |ReadAt(file, x.offset, x.size)| == x.size <==> Inside(file, x)
    ensures Inside(file, x) ==> ReadAt(file, x.offset, x.size) == Content(file, x)
    ensures ExpectedHash(x.sha) != "" <==> x.sha.Some? && Strip(x.sha.value) != ""
  {
    if x.sha.Some? { assert |Lower(Strip(x.sha.value))| == |Strip(x.sha.value)|; }
  }

  lemma {:induction false} HashedTextIsExact(w: World, file: Bytes, windows: seq<Window>)
    ensures HashedWindows(w, file, windows).Ok? <==> AllIntact(w, file, windows)
    ensures HashedWindows(w, file, windows).Ok? ==>
              HashedWindows(w, file, windows).value == Joined(EntriesOf(w, file, windows))
  {
    if windows == [] {
    } else {
      var rest := windows[1..];
      HashedTextIsExact(w, file, rest);
      WindowIsRead(w, file, windows[0]);
      assert AllIntact(w, file, windows) <==> Intact(w, file, windows[0]) && AllIntact(w, file, rest) by {
        IntactSplits(w, file, windows);
      }
      assert EntriesOf(w, file, windows)[1..] == EntriesOf(w, file, rest);
    }
  }

  lemma IntactSplits(w: World, file: Bytes, windows: seq<Window>)
    requires windows != []
    ensures AllIntact(w, file, windows) <==> Intact(w, file, windows[0]) && AllIntact(w, file, windows[1..])
  {
    if Intact(w, file, windows[0]) && AllIntact(w, file, windows[1..]) {
      forall i | 0 <= i < |windows| ensures Intact(w, file, windows[i]) {
        if i > 0 { assert windows[i] == windows[1..][i - 1]; }
      }
    }
  }

  /**
   When there is a digest and what it is: over windows that are all intact, the hash of their ids and content hashes
   one after the other; without windows the stated one.
   */
  lemma DigestIsExact(w: World, file: Bytes, windows: seq<Window>, expected: Option<string>)
    ensures var d := DigestOf(w, file, windows, expected);
            if windows == [] then
              && (d.Ok? <==> expected.Some? && expected.value != "")
              && (d.Ok? ==> d.value == WindowDigest(expected.value, "expected_digest", 0))
            else
              && (d.Ok? <==> AllIntact(w, file, windows))
              && (d.Ok? ==>
                    d.value == WindowDigest("chunk_ranges:" + w.sha256(Joined(EntriesOf(w, file, windows))),
                                            "chunk_ranges", WindowBytes(windows)))
  {
    HashedTextIsExact(w, file, windows);
  }

  // ---------------------------------------------------------------- materialized window

  /** What the copy loop has written when it stops, and whether it got to the end. */
  datatype Written = Written(content: Bytes, complete: bool)

  function Materialized(source: Bytes, windows: seq<Window>): Written {
    if windows == [] then Written([], true)
    else
      var payload := ReadAt(source, windows[0].offset, windows[0].size);
      if |payload| != windows[0].size then Written([], false)
      else
        var rest := Materialized(source, windows[1..]);
        Written(payload + rest.content, rest.complete)
  }

  datatype Prepared = Prepared(content: Bytes, complete: bool, sha: Digest, size: nat, mode: string)

  /** `target` is what the first `i` windows give. */
  ghost predicate CopiedSoFar(source: Bytes, windows: seq<Window>, i: nat, target: Bytes)
    requires i <= |windows|
  {
    var rest := Materialized(source, windows[i..]);
    Materialized(source, windows) == Written(target + rest.content, rest.complete)
  }

  lemma CopyStart(source: Bytes, windows: seq<Window>)
    ensures CopiedSoFar(source, windows, 0, [])
  {
    assert windows[0..] == windows && [] + Materialized(source, windows).content ==
        Materialized(source, windows).content;
  }

  lemma CopyStep(source: Bytes, windows: seq<Window>, i: nat, target: Bytes)
    requires i < |windows| && CopiedSoFar(source, windows, i, target)
    ensures var payload := ReadAt(source, windows[i].offset, windows[i].size);
            if |payload| == windows[i].size then CopiedSoFar(source, windows, i + 1, target + payload)
            else Materialized(source, windows) == Written(target, false)
  {
    var payload := ReadAt(source, windows[i].offset, windows[i].size);
    assert windows[i..][1..] == windows[i + 1..];
    assert target + [] == target;
    var rest := Materialized(source, windows[i + 1..]).content;
    assert target + (payload + rest) == target + payload + rest;
  }

  lemma CopyEnd(source: Bytes, windows: seq<Window>, target: Bytes)
    requires CopiedSoFar(source, windows, |windows|, target)
    ensures Materialized(source, windows) == Written(target, true)
  {
    assert windows[|windows|..] == [] && target + [] == target;
  }

  /** The copy loop; without ranges the whole artifact is copied. */
  method MaterializeWindow(w: World, source: Bytes, ranges: seq<ChunkRange>) returns (p: Prepared)
    ensures p.mode == if ranges == [] then "full_artifact" else "chunk_ranges"
    ensures Written(p.content, p.complete) ==
              if ranges == [] then Written(source, true) else Materialized(source, StrictWindows(ranges))
    ensures p.size == |p.content| && p.sha == w.sha256(p.content)
  {
    if |ranges| == 0 {
      return Prepared(source, true, w.sha256(source), |source|, "full_artifact");
    }
    ghost var windows := StrictWindows(ranges);
    var target: Bytes, bytesWritten := [], 0;
    CopyStart(source, windows);
    for i := 0 to |ranges|
      invariant bytesWritten == |target| && CopiedSoFar(source, windows, i, target)
    {
      CopyStep(source, windows, i, target);
      var payload := ReadAt(source, ranges[i].offset, ranges[i].size);
      if |payload| != ranges[i].size {
        return Prepared(target, false, w.sha256(target), bytesWritten, "chunk_ranges");
      }
      target := target + payload;
      bytesWritten := bytesWritten + |payload|;
    }
    CopyEnd(source, windows, target);
    return Prepared(target, true, w.sha256(target), bytesWritten, "chunk_ranges");
  }

  function Joined(pieces: seq<Bytes>): Bytes {
    if pieces == [] then [] else pieces[0] + Joined(pieces[1..])
  }

  /** How many bytes the pieces before piece `j` take. */
  function Ahead(pieces: seq<Bytes>, j: nat): nat
    requires j <= |pieces|
  {
    if j == 0 then 0 else |pieces[0]| + Ahead(pieces[1..], j - 1)
  }

  lemma {:induction false} JoinedByte(pieces: seq<Bytes>, j: nat, k: nat)
    requires j < |pieces| && k < |pieces[j]|
    ensures Ahead(pieces, j) + k < |Joined(pieces)| && Joined(pieces)[Ahead(pieces, j) + k] == pieces[j][k]
  {
    if j == 0 {
    } else {
      JoinedByte(pieces[1..], j - 1, k);
    }
  }

  function Payloads(source: Bytes, windows: seq<Window>): seq<Bytes> {
    if windows == [] then []
    else [ReadAt(source, windows[0].offset, windows[0].size)] + Payloads(source, windows[1..])
  }

  lemma {:induction false} PayloadAt(source: Bytes, windows: seq<Window>, j: nat)
    requires j < |windows|
    ensures |Payloads(source, windows)| == |windows|
    ensures Payloads(source, windows)[j] == ReadAt(source, windows[j].offset, windows[j].size)
  {
    if |windows| == 1 {
    } else {
      PayloadAt(source, windows[1..], if j == 0 then 0 else j - 1);
    }
  }

  /** A complete copy is the payloads one after the other, each as long as its window. */
  lemma {:induction false} CompleteCopyIsJoined(source: Bytes, windows: seq<Window>, j: nat)
    requires Materialized(source, windows).complete && j <= |windows|
    ensures Materialized(source, windows).content == Joined(Payloads(source, windows))
    ensures |Payloads(source, windows)| == |windows| && Ahead(Payloads(source, windows), j) == BytesBefore(windows, j)
    ensures j < |windows| ==> |ReadAt(source, windows[j].offset, windows[j].size)| == windows[j].size
  {
    if windows == [] {
    } else {
      CompleteCopyIsJoined(source, windows[1..], if j == 0 then 0 else j - 1);
      assert Payloads(source, windows)[1..] == Payloads(source, windows[1..]);
    }
  }

  /** How many bytes the windows before window `j` take. */
  function BytesBefore(windows: seq<Window>, j: nat): nat
    requires j <= |windows|
  {
    if j == 0 then 0 else windows[0].size + BytesBefore(windows[1..], j - 1)
  }

  lemma PayloadByte(source: Bytes, window: Window, k: nat)
    requires k < window.size == |ReadAt(source, window.offset, window.size)|
    ensures window.offset + k < |source| && ReadAt(source, window.offset, window.size)[k] == source[window.offset + k]
  {
  }

  /** Byte `k` of window `j` lands in the materialized file right after the windows before it. */
  lemma MaterializedByte(source: Bytes, windows: seq<Window>, j: nat, k: nat)
    requires Materialized(source, windows).complete && j < |windows| && k < windows[j].size
    ensures BytesBefore(windows, j) + k < |Materialized(source, windows).content| && windows[j].offset + k < |source|
    ensures Materialized(source, windows).content[BytesBefore(windows, j) + k] == source[windows[j].offset + k]
  {
    CompleteCopyIsJoined(source, windows, j);
    PayloadAt(source, windows, j);
    PayloadByte(source, windows[j], k);
    JoinedByte(Payloads(source, windows), j, k);
  }

  /** Once the digest loop has passed, the copy is complete and as long as the windows together. */
  lemma {:induction false} DigestedWindowMaterializes(w: World, file: Bytes, windows: seq<Window>)
    requires HashedWindows(w, file, windows).Ok?
    ensures Materialized(file, windows).complete
    ensures |Materialized(file, windows).content| == WindowBytes(windows)
  {
    if windows == [] {
    } else {
      DigestedWindowMaterializes(w, file, windows[1..]);
    }
  }

  lemma {:induction false} WindowBytesIsTotalSize(ranges: seq<ChunkRange>)
    ensures WindowBytes(StrictWindows(ranges)) == TotalSize(ranges)
  {
    if ranges == [] {
    } else {
      WindowBytesIsTotalSize(ranges[1..]);
      assert StrictWindows(ranges)[1..] == StrictWindows(ranges[1..]);
    }
  }

  /** Byte offsets of the artifact that some range covers. */
  ghost function CoveredOffsets(ranges: seq<ChunkRange>): set<int> {
    if ranges == [] then {}
    else Offsets(ranges[0].offset, ranges[0].offset + ranges[0].size) + CoveredOffsets(ranges[1..])
  }

  ghost function Offsets(lo: int, hi: int): set<int>
    decreases hi - lo
  {
    if hi <= lo then {} else Offsets(lo, hi - 1) + {hi - 1}
  }

  lemma {:induction false} OffsetsMembers(lo: int, hi: int, k: int)
    ensures k in Offsets(lo, hi) <==> lo <= k < hi
    decreases hi - lo
  {
    if lo < hi { OffsetsMembers(lo, hi - 1, k); }
  }

  predicate Apart(x: ChunkRange, y: ChunkRange) {
    x.offset + x.size <= y.offset || y.offset + y.size <= x.offset
  }

  ghost predicate PairwiseDisjoint(ranges: seq<ChunkRange>) {
    forall i, j :: 0 <= i < j < |ranges| ==> Apart(ranges[i], ranges[j])
  }

  lemma {:induction false} OffsetsCount(lo: int, hi: int)
    requires lo <= hi
    ensures |Offsets(lo, hi)| == hi - lo
    decreases hi - lo
  {
    if lo < hi {
      OffsetsCount(lo, hi - 1);
      OffsetsMembers(lo, hi - 1, hi - 1);
    }
  }

  lemma {:induction false} CoveredOffsetsMembers(ranges: seq<ChunkRange>, k: int)
    ensures k in CoveredOffsets(ranges) <==>
              exists i :: 0 <= i < |ranges| && ranges[i].offset <= k < ranges[i].offset + ranges[i].size
  {
    if ranges == [] {
    } else {
      CoveredOffsetsMembers(ranges[1..], k);
      OffsetsMembers(ranges[0].offset, ranges[0].offset + ranges[0].size, k);
      if i :| 0 <= i < |ranges[1..]| && ranges[1..][i].offset <= k < ranges[1..][i].offset + ranges[1..][i].size {
        assert ranges[i + 1].offset <= k;
      }
      if i :| 0 < i < |ranges| && ranges[i].offset <= k < ranges[i].offset + ranges[i].size {
        assert ranges[1..][i - 1].offset <= k;
      }
    }
  }

  /** The offsets of the first range. */
  ghost function FirstOffsets(ranges: seq<ChunkRange>): set<int>
    requires ranges != []
  {
    Offsets(ranges[0].offset, ranges[0].offset + ranges[0].size)
  }

  lemma FirstOffsetsCount(ranges: seq<ChunkRange>)
    requires ranges != []
    ensures |FirstOffsets(ranges)| == ranges[0].size
  {
    OffsetsCount(ranges[0].offset, ranges[0].offset + ranges[0].size);
  }

  lemma UnionCount(a: set<int>, b: set<int>)
    ensures |a + b| + |a * b| == |a| + |b|
  {
    assert a + b == a + (b - a) && b == (b - a) + (a * b);
  }

  /** The first range shares a byte with the rest exactly when it is not apart from some later range. */
  lemma FirstShares(ranges: seq<ChunkRange>)
    requires ranges != [] && AllWellFormed(ranges)
    ensures FirstOffsets(ranges) * CoveredOffsets(ranges[1..]) == {} <==> forall j :: 0 < j < |ranges| ==>
        Apart(ranges[0], ranges[j])
  {
    var first, rest := FirstOffsets(ranges), CoveredOffsets(ranges[1..]);
    if j :| 0 < j < |ranges| && !Apart(ranges[0], ranges[j]) {
      SharedByte(ranges, j);
    } else {
      forall k | k in rest ensures k !in first { RestIsApart(ranges, k); }
    }
  }

  lemma SharedByte(ranges: seq<ChunkRange>, j: int)
    requires 0 < j < |ranges| && AllWellFormed(ranges) && !Apart(ranges[0], ranges[j])
    ensures FirstOffsets(ranges) * CoveredOffsets(ranges[1..]) != {}
  {
    var k := Max(ranges[0].offset, ranges[j].offset);
    assert WellFormed(ranges[0]) && WellFormed(ranges[j]);
    OffsetsMembers(ranges[0].offset, ranges[0].offset + ranges[0].size, k);
    CoveredOffsetsMembers(ranges[1..], k);
    assert ranges[1..][j - 1] == ranges[j];
    assert k in FirstOffsets(ranges) * CoveredOffsets(ranges[1..]);
  }

  lemma RestIsApart(ranges: seq<ChunkRange>, k: int)
    requires ranges != [] && k in CoveredOffsets(ranges[1..])
    requires forall j :: 0 < j < |ranges| ==> Apart(ranges[0], ranges[j])
    ensures k !in FirstOffsets(ranges)
  {
    CoveredOffsetsMembers(ranges[1..], k);
    OffsetsMembers(ranges[0].offset, ranges[0].offset + ranges[0].size, k);
    var i :| 0 <= i < |ranges[1..]| && ranges[1..][i].offset <= k < ranges[1..][i].offset + ranges[1..][i].size;
    assert ranges[1..][i] == ranges[i + 1] && Apart(ranges[0], ranges[i + 1]);
  }

  lemma DisjointSplits(ranges: seq<ChunkRange>)
    requires ranges != []
    ensures PairwiseDisjoint(ranges) <==>
              && PairwiseDisjoint(ranges[1..])
              && (forall j :: 0 < j < |ranges| ==> Apart(ranges[0], ranges[j]))
  {
    if PairwiseDisjoint(ranges[1..]) && forall j :: 0 < j < |ranges| ==> Apart(ranges[0], ranges[j]) {
      forall i, j | 0 <= i < j < |ranges| ensures Apart(ranges[i], ranges[j]) {
        if i > 0 { assert ranges[1..][i - 1] == ranges[i] && ranges[1..][j - 1] == ranges[j]; }
      }
    }
    if PairwiseDisjoint(ranges) {
      forall i, j | 0 <= i < j < |ranges[1..]| ensures Apart(ranges[1..][i], ranges[1..][j]) {
        assert Apart(ranges[i + 1], ranges[j + 1]);
      }
    }
  }

  /** Summed sizes never fall short of the distinct covered bytes, and count them exactly when no two ranges overlap. */
  lemma {:induction false} DisjointRangesCountBytes(ranges: seq<ChunkRange>)
    requires AllWellFormed(ranges)
    ensures |CoveredOffsets(ranges)| <= TotalSize(ranges)
    ensures |CoveredOffsets(ranges)| == TotalSize(ranges) <==> PairwiseDisjoint(ranges)
  {
    if ranges == [] {
    } else {
      DisjointRangesCountBytes(ranges[1..]);
      DisjointSplits(ranges);
      FirstShares(ranges);
      FirstOffsetsCount(ranges);
      CountStep(FirstOffsets(ranges), CoveredOffsets(ranges[1..]));
    }
  }

  lemma CountStep(a: set<int>, b: set<int>)
    ensures |a + b| <= |a| + |b|
    ensures |a + b| == |a| + |b| <==> a * b == {}
  {
    UnionCount(a, b);
    if a * b != {} { assert |a * b| > 0; }
  }

  lemma CoveredOffsetsFit(ranges: seq<ChunkRange>, size: nat)
    requires InBounds(ranges, size)
    ensures |CoveredOffsets(ranges)| <= size
  {
    forall k | k in CoveredOffsets(ranges) ensures k in Offsets(0, size) {
      CoveredOffsetsMembers(ranges, k);
      OffsetsMembers(0, size, k);
    }
    OffsetsCount(0, size);
    SubsetCount(CoveredOffsets(ranges), Offsets(0, size));
  }

  lemma {:induction false} SubsetCount(a: set<int>, b: set<int>)
    requires a <= b
    ensures |a| <= |b|
  {
    assert b == a + (b - a);
  }

  /** What the copy leaves behind; without ranges the whole artifact is copied. */
  function CopyOf(file: Bytes, ranges: seq<ChunkRange>): Written {
    if ranges == [] then Written(file, true) else Materialized(file, StrictWindows(ranges))
  }

  /**
   The prepared shard window of a validated artifact that was digested: complete and, without chunk ranges, the
   whole artifact; with ranges, as long as the declared covered byte count, which is the number of distinct
   covered bytes exactly when no two ranges overlap, and then at most the artifact size.
   */
  lemma PreparedWindowMatchesCoverage(w: World, file: Bytes, artifact: Artifact, c: Coverage, expected: Option<string>)
    requires ResolveCoverage(artifact) == Ok(Some(c))
    requires DigestOf(w, file, StrictWindows(StrictRanges(artifact).value), expected).Ok?
    ensures var ranges := StrictRanges(artifact).value;
            var out := CopyOf(file, ranges);
            && out.complete && (ranges == [] ==> out.content == file)
            && (ranges != [] ==>
                  && |out.content| == c.coveredBytes && |ranges| == c.coveredRanges
                  && |CoveredOffsets(ranges)| <= Min(c.coveredBytes, c.artifactSize)
                  && (c.coveredBytes == |CoveredOffsets(ranges)| <==> PairwiseDisjoint(ranges)))
  {
    var ranges := StrictRanges(artifact).value;
    if ranges != [] {
      DigestedWindowMaterializes(w, file, StrictWindows(ranges));
      WindowBytesIsTotalSize(ranges);
      DisjointRangesCountBytes(ranges);
      CoveredOffsetsFit(ranges, c.artifactSize);
    }
  }

  /** Without chunk ranges nothing is checked against the declared byte count: any count is accepted. */
  lemma UnrangedCountIsUnchecked(artifact: Artifact, c: Coverage, count: nat)
    requires ResolveCoverage(artifact) == Ok(Some(c)) && StrictRanges(artifact) == Ok([])
    ensures ResolveCoverage(artifact.(coverage := artifact.coverage.(coveredByteCount := Num(count)))) ==
        Ok(Some(c.(coveredBytes := count)))
  {
    assert StrictRanges(artifact.(coverage := artifact.coverage.(coveredByteCount := Num(count)))) == Ok([]);
  }

  /** An artifact of four bytes with the overlapping ranges `[0, 2)` and `[1, 3)`. */
  function OverlappingArtifact(): Artifact {
    Artifact(Null, Null, Null, Null, Null, Null, Null,
             Items([Item(Null, Num(0), Num(2), Null, Null, Null, Null),
                    Item(Null, Num(1), Num(2), Null, Null, Null, Null)]),
             CoverageDoc(Text(COVERAGE_ABI), Text("m"), Num(4), Num(4), Num(2), Bool(true)))
  }

  lemma OverlappingRanges()
    ensures var ranges := StrictRanges(OverlappingArtifact());
            && ranges.Ok? && |ranges.value| == 2 && TotalSize(ranges.value) == 4 && InBounds(ranges.value, 4)
            && !PairwiseDisjoint(ranges.value)
  {
    var items := OverlappingArtifact().chunkRanges.items;
    assert StrictItem(items[0]).Ok? && StrictItem(items[1]).Ok?;
    assert items[1..] == [items[1]] && items[1..][1..] == [];
    var ranges := StrictItems(items).value;
    assert ranges == [StrictItem(items[0]).value, StrictItem(items[1]).value];
    assert ranges[1..] == [ranges[1]] && ranges[1..][1..] == [];
    assert !Apart(ranges[0], ranges[1]);
  }

  lemma OverlapLabelsAreClean()
    ensures Clean(Text(COVERAGE_ABI)) == COVERAGE_ABI && Clean(Text("m")) == "m" && "m" != "sparse_full_size"
  {
    assert COVERAGE_ABI[0] == 'c' && COVERAGE_ABI[|COVERAGE_ABI| - 1] == '1';
  }

  lemma TrueCountsAreAccepted(a: Artifact, ranges: seq<ChunkRange>, abi: string, mode: string, size: nat, bytes: nat)
    requires StrictRanges(a) == Ok(ranges) && ranges != [] && InBounds(ranges, size) && size > 0
    requires bytes == TotalSize(ranges)
    requires a.coverage == CoverageDoc(Text(abi), Text(mode), Num(size), Num(bytes), Num(|ranges|), Bool(true))
    requires a.sizeBytes == Null
    requires abi == COVERAGE_ABI == Clean(Text(abi)) && Clean(Text(mode)) == mode != ""
    ensures ResolveCoverage(a) == Ok(Some(Coverage(COVERAGE_ABI, mode, size, bytes, |ranges|, true)))
  {
    NumReads(size);
    NumReads(bytes);
    NumReads(|ranges|);
    CoverageIsExact(a, Coverage(COVERAGE_ABI, mode, size, bytes, |ranges|, true));
  }

  lemma NumReads(n: nat)
    ensures OptNat(Num(n)) == Some(n)
  {
  }

  /** An accepted coverage that declares four covered bytes although fewer are covered. */
  lemma OverlapIsCountedTwice()
    ensures var a := OverlappingArtifact();
            var r := ResolveCoverage(a);
            r.Ok? && r.value.Some? && r.value.value.coveredBytes == 4 > |CoveredOffsets(StrictRanges(a).value)|
  {
    var a := OverlappingArtifact();
    var ranges := StrictRanges(a).value;
    OverlappingRanges();
    OverlapLabelsAreClean();
    TrueCountsAreAccepted(a, ranges, COVERAGE_ABI, "m", 4, 4);
    DisjointRangesCountBytes(ranges);
  }
}
