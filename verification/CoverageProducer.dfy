/**
 The bridge side of the coverage contract: it turns the manifest's required chunks into chunk ranges
 and a coverage payload, which `ArtifactContract.ResolveCoverage` later checks.
 */
module CoverageProducer {
  import opened PyValue
  import opened ArtifactContract
  import opened ChunkWindows

  /** A chunk of the model package manifest. */
  datatype ManifestChunk = ManifestChunk(
    chunkId: string, artifactId: string, offset: int, size: int, sha: string,
    layerStart: Option<int>, layerEnd: Option<int>, tensors: seq<string>)

  // ---------------------------------------------------------------- selection and order

  function ForArtifact(chunks: seq<ManifestChunk>, artifactId: string): seq<ManifestChunk> {
    if chunks == [] then []
    else if Strip(chunks[0].artifactId) == artifactId then [chunks[0]] + ForArtifact(chunks[1..], artifactId)
    else ForArtifact(chunks[1..], artifactId)
  }

  function InsertByOffset(c: ManifestChunk, s: seq<ManifestChunk>): seq<ManifestChunk> {
    if s == [] then [c]
    else if c.offset <= s[0].offset then [c] + s
    else [s[0]] + InsertByOffset(c, s[1..])
  }

  function ByOffset(s: seq<ManifestChunk>): seq<ManifestChunk> {
    if s == [] then [] else InsertByOffset(s[0], ByOffset(s[1..]))
  }

  // ---------------------------------------------------------------- chunk ranges

  function NamedTensors(names: seq<string>): seq<Value> {
    if names == [] then []
    else if Strip(names[0]) == "" then NamedTensors(names[1..])
    else [Text(names[0])] + NamedTensors(names[1..])
  }

  function ProducedItem(c: ManifestChunk): ChunkItem {
    Item(Text(c.chunkId), Num(c.offset), Num(c.size), Text(c.sha), FromInt(c.layerStart), FromInt(c.layerEnd),
         if c.tensors == [] then Null else List(NamedTensors(c.tensors), ""))
  }

  function ProducedItems(chunks: seq<ManifestChunk>): (items: seq<ChunkItem>)
    ensures |items| == |chunks|
  {
    seq(|chunks|, i requires 0 <= i < |chunks| => ProducedItem(chunks[i]))
  }

  lemma {:induction false} SomeSelected(chunks: seq<ManifestChunk>, artifactId: string)
    ensures ForArtifact(chunks, artifactId) != [] <==>
              exists i :: 0 <= i < |chunks| && Strip(chunks[i].artifactId) == artifactId
  {
    if chunks == [] {
    } else {
      SomeSelected(chunks[1..], artifactId);
      if i :| 0 <= i < |chunks[1..]| && Strip(chunks[1..][i].artifactId) == artifactId {
        assert Strip(chunks[i + 1].artifactId) == artifactId;
      }
      if i :| 0 < i < |chunks| && Strip(chunks[i].artifactId) == artifactId {
        assert Strip(chunks[1..][i - 1].artifactId) == artifactId;
      }
    }
  }

  /** The bridge lists nothing for an unusable request or when no chunk of the artifact is required. */
  method AssignmentChunkRanges(required: seq<ManifestChunk>, artifactId: string, layerStart: Option<int>,
                               layerEnd: Option<int>)
      returns (r: Option<seq<ChunkItem>>)
    ensures r.Some? <==>
              && artifactId != "" && layerStart.Some? && layerEnd.Some? && 0 <= layerStart.value < layerEnd.value
              && exists i :: 0 <= i < |required| && Strip(required[i].artifactId) == artifactId
    ensures r.Some? ==> r.value == ProducedItems(ByOffset(ForArtifact(required, artifactId)))
  {
    SomeSelected(required, artifactId);
    if artifactId == "" || layerStart.None? || layerEnd.None? || layerStart.value < 0
        || layerEnd.value <= layerStart.value {
      return None;
    }
    var chunks := ByOffset(ForArtifact(required, artifactId));
    ByOffsetKeepsChunks(ForArtifact(required, artifactId));
    if |chunks| == 0 {
      return None;
    }
    var output := BuildItems(chunks);
    return Some(output);
  }

  method BuildItems(chunks: seq<ManifestChunk>) returns (output: seq<ChunkItem>)
    ensures output == ProducedItems(chunks)
  {
    output := [];
    for i := 0 to |chunks|
      invariant |output| == i && forall k :: 0 <= k < i ==> output[k] == ProducedItem(chunks[k])
    {
      output := output + [ProducedItem(chunks[i])];
    }
  }

  /** How many of the chunks are this one, if it is one of the artifact's. */
  ghost function Wanted(chunks: seq<ManifestChunk>, artifactId: string, c: ManifestChunk): nat {
    if Strip(c.artifactId) == artifactId then multiset(chunks)[c] else 0
  }

  /** The selection keeps exactly the artifact's chunks, each as often as it occurs. */
  lemma {:induction false} SelectionIsExact(chunks: seq<ManifestChunk>, artifactId: string, c: ManifestChunk)
    ensures multiset(ForArtifact(chunks, artifactId))[c] == Wanted(chunks, artifactId, c)
  {
    if chunks == [] {
    } else {
      SelectionIsExact(chunks[1..], artifactId, c);
      OneMore(chunks[0], chunks[1..]);
      assert chunks == [chunks[0]] + chunks[1..];
      OneMore(chunks[0], ForArtifact(chunks[1..], artifactId));
    }
  }

  /** And in their order: what comes first in the manifest is selected first. */
  lemma {:induction false} SelectionKeepsOrder(a: seq<ManifestChunk>, b: seq<ManifestChunk>, artifactId: string)
    ensures ForArtifact(a + b, artifactId) == ForArtifact(a, artifactId) + ForArtifact(b, artifactId)
  {
    if a == [] {
      assert a + b == b;
    } else {
      SelectionKeepsOrder(a[1..], b, artifactId);
      TailOfWhole(a, b);
      SelectionOfWhole(a, a + b, artifactId, ForArtifact(a[1..], artifactId), ForArtifact(b, artifactId));
    }
  }

  lemma TailOfWhole(a: seq<ManifestChunk>, b: seq<ManifestChunk>)
    requires a != []
    ensures (a + b)[0] == a[0] && (a + b)[1..] == a[1..] + b
  {
  }

  lemma SelectionOfWhole(a: seq<ManifestChunk>, whole: seq<ManifestChunk>, artifactId: string, x: seq<ManifestChunk>,
                         y: seq<ManifestChunk>)
    requires a != [] && whole != [] && whole[0] == a[0]
    requires ForArtifact(whole[1..], artifactId) == x + y && ForArtifact(a[1..], artifactId) == x
    ensures ForArtifact(whole, artifactId) == ForArtifact(a, artifactId) + y
  {
    SelectionSplits(a, artifactId);
    SelectionSplits(whole, artifactId);
    Reassociate(One(a[0], artifactId), x, y);
  }

  /** The chunk itself if it is the artifact's. */
  ghost function One(c: ManifestChunk, artifactId: string): (r: seq<ManifestChunk>) {
    if Strip(c.artifactId) == artifactId then [c] else []
  }

  lemma SelectionSplits(chunks: seq<ManifestChunk>, artifactId: string)
    requires chunks != []
    ensures ForArtifact(chunks, artifactId) == One(chunks[0], artifactId) + ForArtifact(chunks[1..], artifactId)
  {
    var rest := ForArtifact(chunks[1..], artifactId);
    assert [] + rest == rest;
  }

  lemma Reassociate(x: seq<ManifestChunk>, y: seq<ManifestChunk>, z: seq<ManifestChunk>)
    ensures x + (y + z) == x + y + z
  {
  }

  /** The listed chunks are exactly the artifact's chunks, ordered by offset, equal offsets in manifest order. */
  lemma ListedChunksAreExact(required: seq<ManifestChunk>, artifactId: string, c: ManifestChunk, offset: int)
    ensures var listed := ByOffset(ForArtifact(required, artifactId));
            && multiset(listed)[c] == Wanted(required, artifactId, c)
            && OffsetOrdered(listed) && At(listed, offset) == At(ForArtifact(required, artifactId), offset)
  {
    var chosen := ForArtifact(required, artifactId);
    SelectionIsExact(required, artifactId, c);
    ByOffsetKeepsChunks(chosen);
    ByOffsetIsSorted(chosen, offset);
  }

  // ---------------------------------------------------------------- coverage payload

  function CountedBytes(items: seq<ChunkItem>): int {
    if items == [] then 0
    else CountedBytes(items[..|items| - 1]) + Counted(items[|items| - 1])
  }

  /** `int(item.get("sizeBytes") or 0)` where it converts; see `CountsOne` for where it does not. */
  function Counted(item: ChunkItem): int {
    if item.NotMapping? || !Truthy(item.sizeBytes) || OptInt(item.sizeBytes).None? then 0
    else OptInt(item.sizeBytes).value
  }

  predicate CountsOne(item: ChunkItem) {
    item.Item? && (!Truthy(item.sizeBytes) || OptInt(item.sizeBytes).Some?)
  }

  function CountedItems(items: seq<ChunkItem>): nat {
    if items == [] then 0
    else CountedItems(items[..|items| - 1]) + if CountsOne(items[|items| - 1]) then 1 else 0
  }

  /** The accumulator loop of the coverage payload. */
  method CoveragePayload(artifactSize: int, items: seq<ChunkItem>) returns (doc: CoverageDoc)
    ensures doc == CoverageDoc(Text(COVERAGE_ABI), Text("sparse_full_size"), Num(Max(0, artifactSize)),
                               Num(Max(0, CountedBytes(items))), Num(CountedItems(items)), Bool(true))
  {
    var bytes, count := 0, 0;
    for i := 0 to |items|
      invariant bytes == CountedBytes(items[..i]) && count == CountedItems(items[..i])
    {
      assert items[..i + 1][..i] == items[..i];
      if CountsOne(items[i]) {
        bytes := bytes + Counted(items[i]);
        count := count + 1;
      }
    }
    assert items[..|items|] == items;
    doc := CoverageDoc(Text(COVERAGE_ABI), Text("sparse_full_size"), Num(Max(0, artifactSize)),
                       Num(Max(0, bytes)), Num(Max(0, count)), Bool(true));
  }

  /** The artifact the bridge hands on for a materialized assignment. */
  function MaterializedAssignment(artifactId: string, path: string, size: int, digest: string, layerStart: int,
                                  layerEnd: int,
                                  chunks: seq<ManifestChunk>): Artifact
  {
    var items := ProducedItems(chunks);
    Artifact(Text(artifactId), Text("materialized_assignment"), Text(path), Num(size), Text(digest),
             Num(layerStart), Num(layerEnd), Items(items),
             CoverageDoc(Text(COVERAGE_ABI), Text("sparse_full_size"), Num(Max(0, size)),
                         Num(Max(0, CountedBytes(items))), Num(CountedItems(items)), Bool(true)))
  }

  /** What the stages read of it is what the bridge put in. */
  lemma MaterializedReadsBack(artifactId: string, path: string, size: int, digest: string, layerStart: int,
                              layerEnd: int, chunks: seq<ManifestChunk>)
    ensures var a := MaterializedAssignment(artifactId, path, size, digest, layerStart, layerEnd, chunks);
            && Clean(a.artifactId) == Strip(artifactId) && Clean(a.localPath) == Strip(path)
            && Clean(a.expectedDigest) == Strip(digest) && Clean(a.source) == "materialized_assignment"
            && OptInt(a.sizeBytes) == Some(size)
            && OptInt(a.layerStart) == Some(layerStart) && OptInt(a.layerEnd) == Some(layerEnd)
  {
    assert Clean(Text("materialized_assignment")) == "materialized_assignment";
  }

  // ---------------------------------------------------------------- agreement with the resolver

  /** What a manifest chunk must satisfy for the resolver to accept it; checkable before producing. */
  predicate Acceptable(c: ManifestChunk, artifactSize: int) {
    var start, end := NonNegative(c.layerStart), NonNegative(c.layerEnd);
    && 0 <= c.offset && 0 < c.size && c.offset + c.size <= artifactSize
    && start.None? == end.None?
    && (start.Some? ==> start.value < end.value)
  }

  function SumOfSizes(chunks: seq<ManifestChunk>): int {
    if chunks == [] then 0 else chunks[0].size + SumOfSizes(chunks[1..])
  }

  ghost predicate OffsetOrdered(s: seq<ManifestChunk>) {
    forall i, j :: 0 <= i < j < |s| ==> s[i].offset <= s[j].offset
  }

  /** The chunks at one offset, in order. */
  function At(s: seq<ManifestChunk>, offset: int): seq<ManifestChunk> {
    if s == [] then [] else OneAt(s[0], offset) + At(s[1..], offset)
  }

  function OneAt(c: ManifestChunk, offset: int): seq<ManifestChunk> { if c.offset == offset then [c] else [] }

  lemma AtFirst(c: ManifestChunk, s: seq<ManifestChunk>, offset: int)
    ensures At([c] + s, offset) == OneAt(c, offset) + At(s, offset)
  {
    assert ([c] + s)[1..] == s;
  }

  /** Chunks at different offsets may change places. */
  lemma SwapAt(c: ManifestChunk, d: ManifestChunk, rest: seq<ManifestChunk>, offset: int)
    requires c.offset != d.offset
    ensures OneAt(c, offset) + (OneAt(d, offset) + rest) == OneAt(d, offset) + (OneAt(c, offset) + rest)
  {
  }

  lemma {:induction false} InsertIsOrdered(c: ManifestChunk, s: seq<ManifestChunk>)
    requires OffsetOrdered(s)
    ensures OffsetOrdered(InsertByOffset(c, s))
    ensures forall x :: x in InsertByOffset(c, s) ==> x == c || x in s
  {
    if s == [] || c.offset <= s[0].offset {
    } else {
      InsertIsOrdered(c, s[1..]);
      var rest := InsertByOffset(c, s[1..]);
      forall j | 0 <= j < |rest| ensures s[0].offset <= rest[j].offset {
        assert rest[j] in rest;
      }
      OrderedBehind(s[0], rest);
    }
  }

  lemma OrderedBehind(c: ManifestChunk, s: seq<ManifestChunk>)
    requires OffsetOrdered(s) && forall j :: 0 <= j < |s| ==> c.offset <= s[j].offset
    ensures OffsetOrdered([c] + s)
  {
  }

  lemma {:induction false} InsertIsStable(c: ManifestChunk, s: seq<ManifestChunk>, offset: int)
    ensures At(InsertByOffset(c, s), offset) == OneAt(c, offset) + At(s, offset)
  {
    if s == [] || c.offset <= s[0].offset {
      AtFirst(c, s, offset);
    } else {
      InsertIsStable(c, s[1..], offset);
      AtFirst(s[0], InsertByOffset(c, s[1..]), offset);
      SwapAt(c, s[0], At(s[1..], offset), offset);
    }
  }

  /** The bridge's order: by offset, and chunks at one offset as they came. */
  lemma {:induction false} ByOffsetIsSorted(s: seq<ManifestChunk>, offset: int)
    ensures OffsetOrdered(ByOffset(s)) && At(ByOffset(s), offset) == At(s, offset)
  {
    if s == [] {
    } else {
      ByOffsetIsSorted(s[1..], offset);
      InsertIsOrdered(s[0], ByOffset(s[1..]));
      InsertIsStable(s[0], ByOffset(s[1..]), offset);
    }
  }

  lemma {:induction false} ByOffsetKeepsChunks(s: seq<ManifestChunk>)
    ensures multiset(ByOffset(s)) == multiset(s)
    ensures SumOfSizes(ByOffset(s)) == SumOfSizes(s) && |ByOffset(s)| == |s|
  {
    if s == [] {
    } else {
      ByOffsetKeepsChunks(s[1..]);
      InsertKeepsMembers(s[0], ByOffset(s[1..]));
      InsertKeepsSizes(s[0], ByOffset(s[1..]));
      assert s == [s[0]] + s[1..];
    }
  }

  lemma {:induction false} InsertKeepsMembers(c: ManifestChunk, s: seq<ManifestChunk>)
    ensures multiset(InsertByOffset(c, s)) == multiset{c} + multiset(s)
  {
    if s != [] && c.offset > s[0].offset {
      InsertKeepsMembers(c, s[1..]);
      MoreBehind(s[0], s[1..], c, InsertByOffset(c, s[1..]));
      assert s == [s[0]] + s[1..];
    } else {
      OneMore(c, s);
    }
  }

  lemma MoreBehind(head: ManifestChunk, tail: seq<ManifestChunk>, c: ManifestChunk, longer: seq<ManifestChunk>)
    requires multiset(longer) == multiset{c} + multiset(tail)
    ensures multiset([head] + longer) == multiset{c} + multiset([head] + tail)
  {
    OneMore(head, longer);
    OneMore(head, tail);
  }

  lemma OneMore(c: ManifestChunk, s: seq<ManifestChunk>)
    ensures multiset([c] + s) == multiset{c} + multiset(s)
  {
  }

  lemma {:induction false} InsertKeepsSizes(c: ManifestChunk, s: seq<ManifestChunk>)
    ensures SumOfSizes(InsertByOffset(c, s)) == c.size + SumOfSizes(s) && |InsertByOffset(c, s)| == |s| + 1
  {
    if s != [] && c.offset > s[0].offset {
      InsertKeepsSizes(c, s[1..]);
      assert InsertByOffset(c, s)[1..] == InsertByOffset(c, s[1..]);
    } else {
      assert ([c] + s)[1..] == s;
    }
  }

  lemma {:induction false} NamesAreAccepted(names: seq<string>)
    ensures StrictNames(NamedTensors(names)).Ok?
  {
    if names == [] {
    } else {
      NamesAreAccepted(names[1..]);
      if Strip(names[0]) != "" {
        assert NamedTensors(names)[1..] == NamedTensors(names[1..]);
        assert Clean(NamedTensors(names)[0]) == Strip(names[0]);
      }
    }
  }

  lemma TensorsAreAccepted(c: ManifestChunk)
    ensures StrictTensorNames(ProducedItem(c).tensorNames).Ok?
  {
    NamesAreAccepted(c.tensors);
  }

  /** What the strict parser reads of a produced item. */
  lemma ProducedNumbers(c: ManifestChunk)
    ensures var item := ProducedItem(c);
            && OptNat(item.offsetBytes) == NonNegative(Some(c.offset))
            && OptNat(item.sizeBytes) == NonNegative(Some(c.size))
            && OptNat(item.layerStart) == NonNegative(c.layerStart) && OptNat(item.layerEnd) == NonNegative(c.layerEnd)
            && Clean(item.chunkId) == Strip(c.chunkId)
  {
  }

  predicate SoundNumbers(c: ManifestChunk) {
    var start, end := NonNegative(c.layerStart), NonNegative(c.layerEnd);
    0 <= c.offset && 0 < c.size && start.None? == end.None? && (start.Some? ==> start.value < end.value)
  }

  /** Tensor names as the parsers keep them: stripped, and without blank ones. */
  function KeptNames(names: seq<string>): seq<string> {
    if names == [] then []
    else (if Strip(names[0]) == "" then [] else [Strip(names[0])]) + KeptNames(names[1..])
  }

  lemma {:induction false} NamesReadBack(names: seq<string>)
    ensures StrictNames(NamedTensors(names)) == Ok(KeptNames(names))
  {
    if names == [] {
    } else {
      NamesReadBack(names[1..]);
      if Strip(names[0]) != "" {
        assert NamedTensors(names)[1..] == NamedTensors(names[1..]);
        assert Clean(NamedTensors(names)[0]) == Strip(names[0]);
      } else {
        assert KeptNames(names) == KeptNames(names[1..]);
      }
    }
  }

  /** The hash and the tensor names of a produced item are read back as the manifest states them. */
  lemma ProducedTextsReadBack(c: ManifestChunk)
    requires StrictItem(ProducedItem(c)).Ok?
    ensures StrictItem(ProducedItem(c)).value.sha == NonEmpty(Lower(Strip(c.sha)))
    ensures StrictItem(ProducedItem(c)).value.tensors == KeptNames(c.tensors)
  {
    NamesReadBack(c.tensors);
    assert Clean(Text(c.sha)) == Strip(c.sha);
  }

  lemma ProducedItemReads(c: ManifestChunk)
    ensures StrictItem(ProducedItem(c)).Ok? <==> SoundNumbers(c)
    ensures StrictItem(ProducedItem(c)).Ok? ==>
              var r := StrictItem(ProducedItem(c)).value;
              && r.chunkId == Strip(c.chunkId) && r.offset == c.offset && r.size == c.size
              && r.layerStart == NonNegative(c.layerStart) && r.layerEnd == NonNegative(c.layerEnd)
  {
    TensorsAreAccepted(c);
    ProducedNumbers(c);
  }

  /** Per chunk: the strict parser accepts the produced item exactly when its numbers are sound. */
  lemma ProducedItemParses(c: ManifestChunk, artifactSize: int)
    ensures var r := StrictItem(ProducedItem(c));
            r.Ok? && r.value.offset + r.value.size <= artifactSize <==> Acceptable(c, artifactSize)
    ensures var r := StrictItem(ProducedItem(c));
            r.Ok? ==> r.value.offset == c.offset && r.value.size == c.size
  {
    ProducedItemReads(c);
  }

  ghost predicate AllAcceptable(chunks: seq<ManifestChunk>, artifactSize: int) {
    forall i :: 0 <= i < |chunks| ==> Acceptable(chunks[i], artifactSize)
  }

  lemma AcceptableSplits(chunks: seq<ManifestChunk>, artifactSize: int)
    requires chunks != []
    ensures AllAcceptable(chunks, artifactSize) <==>
              Acceptable(chunks[0], artifactSize) && AllAcceptable(chunks[1..], artifactSize)
  {
    if Acceptable(chunks[0], artifactSize) && AllAcceptable(chunks[1..], artifactSize) {
      forall i | 0 <= i < |chunks| ensures Acceptable(chunks[i], artifactSize) {
        if i > 0 { assert chunks[1..][i - 1] == chunks[i]; }
      }
    }
  }

  lemma BoundsSplit(first: ChunkRange, rest: seq<ChunkRange>, artifactSize: nat)
    ensures InBounds([first] + rest, artifactSize) <==>
              first.offset + first.size <= artifactSize && InBounds(rest, artifactSize)
    ensures TotalSize([first] + rest) == first.size + TotalSize(rest)
  {
    var all := [first] + rest;
    assert all[1..] == rest;
    if InBounds(all, artifactSize) {
      assert all[0] == first;
      forall i | 0 <= i < |rest| ensures rest[i].offset + rest[i].size <= artifactSize { assert rest[i] == all[i + 1]; }
    }
    if first.offset + first.size <= artifactSize && InBounds(rest, artifactSize) {
      forall i | 0 <= i < |all| ensures all[i].offset + all[i].size <= artifactSize {
        if i > 0 { assert all[i] == rest[i - 1]; }
      }
    }
  }

  lemma ProducedSplits(chunks: seq<ManifestChunk>)
    requires chunks != []
    ensures var first, rest := StrictItem(ProducedItem(chunks[0])), StrictItems(ProducedItems(chunks[1..]));
            var r := StrictItems(ProducedItems(chunks));
            if first.Ok? && rest.Ok? then r == Ok([first.value] + rest.value) else r.Err?
  {
    assert ProducedItems(chunks)[1..] == ProducedItems(chunks[1..]);
  }

  lemma {:induction false} ProducedItemsParse(chunks: seq<ManifestChunk>, artifactSize: nat)
    ensures var r := StrictItems(ProducedItems(chunks));
            r.Ok? && InBounds(r.value, artifactSize) <==> AllAcceptable(chunks, artifactSize)
    ensures var r := StrictItems(ProducedItems(chunks));
            r.Ok? ==> |r.value| == |chunks| && TotalSize(r.value) == SumOfSizes(chunks)
  {
    if chunks == [] {
    } else {
      ProducedItemsParse(chunks[1..], artifactSize);
      ProducedItemParses(chunks[0], artifactSize);
      ProducedSplits(chunks);
      AcceptableSplits(chunks, artifactSize);
      var first, rest := StrictItem(ProducedItem(chunks[0])), StrictItems(ProducedItems(chunks[1..]));
      if first.Ok? && rest.Ok? { BoundsSplit(first.value, rest.value, artifactSize); }
    }
  }

  lemma {:induction false} PayloadCounts(chunks: seq<ManifestChunk>)
    ensures CountedItems(ProducedItems(chunks)) == |chunks|
    ensures CountedBytes(ProducedItems(chunks)) == SumOfSizes(chunks)
  {
    if chunks == [] {
    } else {
      var n := |chunks| - 1;
      PayloadCounts(chunks[..n]);
      assert ProducedItems(chunks)[..n] == ProducedItems(chunks[..n]);
      SumOfSizesSnoc(chunks);
    }
  }

  lemma {:induction false} SumOfSizesSnoc(chunks: seq<ManifestChunk>)
    requires chunks != []
    ensures SumOfSizes(chunks) == SumOfSizes(chunks[..|chunks| - 1]) + chunks[|chunks| - 1].size
  {
    if |chunks| > 1 {
      SumOfSizesSnoc(chunks[1..]);
      assert chunks[..|chunks| - 1][1..] == chunks[1..][..|chunks[1..]| - 1];
    }
  }

  /**
   Producer and consumer agree: the resolver accepts the bridge's artifact exactly when every chunk is
   acceptable, and then reads back the chunk count, the byte count and the artifact size.
   */
  lemma ProducedCoverageIsAccepted(artifactId: string, path: string, size: int, digest: string,
                                   layerStart: int, layerEnd: int, chunks: seq<ManifestChunk>)
    requires chunks != []
    ensures var a := MaterializedAssignment(artifactId, path, size, digest, layerStart, layerEnd, chunks);
            var r := ResolveCoverage(a);
            && (r.Ok? <==> AllAcceptable(chunks, size))
            && (r.Ok? ==> r.value.Some? && r.value.value.artifactSize == size && r.value.value.zeroFilled
                          && r.value.value.coveredBytes == SumOfSizes(chunks)
                          && r.value.value.coveredRanges == |chunks|)
  {
    LabelsAreClean();
    DeclaredCountsAreAccepted(MaterializedAssignment(artifactId, path, size, digest, layerStart, layerEnd, chunks),
                              COVERAGE_ABI, "sparse_full_size", size, chunks);
  }

  lemma LabelsAreClean()
    ensures Clean(Text(COVERAGE_ABI)) == COVERAGE_ABI
    ensures Clean(Text("sparse_full_size")) == "sparse_full_size"
  {
    assert COVERAGE_ABI[0] == 'c' && COVERAGE_ABI[|COVERAGE_ABI| - 1] == '1';
  }

  lemma DeclaredCountsAreAccepted(artifact: Artifact, abi: string, mode: string, size: int, chunks: seq<ManifestChunk>)
    requires chunks != []
    requires Clean(Text(abi)) == abi == COVERAGE_ABI && Clean(Text(mode)) == mode != ""
    requires artifact.chunkRanges == Items(ProducedItems(chunks)) && artifact.sizeBytes == Num(size)
    requires artifact.coverage == CoverageDoc(Text(abi), Text(mode), Num(Max(0, size)),
                                              Num(Max(0, CountedBytes(ProducedItems(chunks)))),
                                              Num(CountedItems(ProducedItems(chunks))), Bool(true))
    ensures var r := ResolveCoverage(artifact);
            && (r.Ok? <==> AllAcceptable(chunks, size))
            && (r.Ok? ==> r.value.Some? && r.value.value.artifactSize == size && r.value.value.zeroFilled
                          && r.value.value.coveredBytes == SumOfSizes(chunks)
                          && r.value.value.coveredRanges == |chunks|)
  {
    PayloadCounts(chunks);
    ProducedRanges(artifact, chunks, size);
    ResolverOnDeclaredCounts(artifact, abi, mode, Max(0, size), Max(0, SumOfSizes(chunks)), |chunks|);
    ProducedItemsParse(chunks, Max(0, size));
    CountsDecide(StrictRanges(artifact), ResolveCoverage(artifact), abi, mode, size, chunks);
  }

  lemma ProducedRanges(artifact: Artifact, chunks: seq<ManifestChunk>, size: int)
    requires artifact.chunkRanges == Items(ProducedItems(chunks)) && artifact.sizeBytes == Num(size)
    ensures StrictRanges(artifact) == StrictItems(ProducedItems(chunks))
    ensures OptNat(artifact.sizeBytes).Some? ==> OptNat(artifact.sizeBytes).value == size == Max(0, size)
  {
  }

  /** The decision alone, on what the strict parse and the resolver gave. */
  lemma CountsDecide(parsed: Result<seq<ChunkRange>, ContractError>, r: Result<Option<Coverage>, ContractError>,
                     abi: string, mode: string, size: int, chunks: seq<ManifestChunk>)
    requires chunks != []
    requires var known := Max(0, size);
             && (parsed.Ok? && InBounds(parsed.value, known) <==> AllAcceptable(chunks, known))
             && (parsed.Ok? ==> |parsed.value| == |chunks| && TotalSize(parsed.value) == SumOfSizes(chunks))
             && (parsed.Ok? ==> (r.Ok? <==> known > 0 && InBounds(parsed.value, known)
                                            && Max(0, SumOfSizes(chunks)) == TotalSize(parsed.value)))
             && (r.Ok? ==> known > 0 && parsed.Ok?
                           && r.value == Some(Coverage(abi, mode, known, Max(0, SumOfSizes(chunks)), |chunks|, true)))
    ensures r.Ok? <==> AllAcceptable(chunks, size)
    ensures r.Ok? ==> r.value.Some? && r.value.value.artifactSize == size && r.value.value.zeroFilled
    ensures r.Ok? ==> r.value.value.coveredBytes == SumOfSizes(chunks) && r.value.value.coveredRanges == |chunks|
  {
    if size <= 0 { assert !Acceptable(chunks[0], size); }
  }

  /** The resolver on a zero-filled coverage whose labels are clean: it compares the three counts. */
  lemma ResolverOnDeclaredCounts(artifact: Artifact, abi: string, mode: string, size: nat, bytes: nat, count: nat)
    requires Clean(Text(abi)) == abi == COVERAGE_ABI && Clean(Text(mode)) == mode != ""
    requires artifact.coverage == CoverageDoc(Text(abi), Text(mode), Num(size), Num(bytes), Num(count), Bool(true))
    requires count > 0
    ensures var parsed := StrictRanges(artifact);
            var r := ResolveCoverage(artifact);
            && (parsed.Ok? && parsed.value != [] ==>
                (r.Ok? <==>
                  && size > 0 && InBounds(parsed.value, size)
                  && bytes == TotalSize(parsed.value) && count == |parsed.value|
                  && (OptNat(artifact.sizeBytes).Some? ==> OptNat(artifact.sizeBytes).value == size)))
            && (r.Ok? ==> size > 0 && parsed.Ok? && r.value == Some(Coverage(abi, mode, size, bytes, count, true)))
  {
    var d := artifact.coverage;
    NumReads(size);
    NumReads(bytes);
    NumReads(count);
    assert OptNat(d.artifactSizeBytes) == Some(size) && OptNat(d.coveredByteCount) == Some(bytes);
    assert OptNat(d.coveredRangeCount) == Some(count) && d.zeroFilled == Bool(true);
  }
}
