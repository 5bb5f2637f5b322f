/**
 The native-engine contract for assignment artifacts: the strict chunk-range parser, the coverage
 resolver, and the sweep that decides whether the chunk ranges cover the requested layers.
 */
module ArtifactContract {
  import opened PyValue

  /** One entry of `chunkRanges`, as raw values; entries that are not mappings are skipped. */
  datatype ChunkItem =
    | NotMapping
    | Item(chunkId: Value, offsetBytes: Value, sizeBytes: Value, sha256Hex: Value,
           layerStart: Value, layerEnd: Value, tensorNames: Value)

  datatype ChunkList = NotAList | Items(items: seq<ChunkItem>)

  datatype CoverageDoc =
    | NoCoverage
    | CoverageDoc(abi: Value, materializationMode: Value, artifactSizeBytes: Value,
                  coveredByteCount: Value, coveredRangeCount: Value, zeroFilled: Value)

  datatype Artifact = Artifact(
    artifactId: Value, source: Value, localPath: Value, sizeBytes: Value, expectedDigest: Value,
    layerStart: Value, layerEnd: Value, chunkRanges: ChunkList, coverage: CoverageDoc)

  datatype ChunkRange = ChunkRange(
    chunkId: string, offset: nat, size: nat, sha: Option<string>,
    layerStart: Option<nat>, layerEnd: Option<nat>, tensors: seq<string>)

  datatype Coverage = Coverage(
    abi: string, mode: string, artifactSize: nat, coveredBytes: nat, coveredRanges: nat, zeroFilled: bool)

  datatype ContractError =
    | ChunkOffsetInvalid | ChunkSizeInvalid | ChunkLayersIncomplete | ChunkLayersInvalid
    | TensorNamesInvalid
    | CoverageMissing | CoverageAbiInvalid | CoverageModeMissing | CoverageSizeInvalid
    | CoveredBytesInvalid | CoveredRangesInvalid | ZeroFilledInvalid
    | ChunkOutOfBounds | ByteCountMismatch | RangeCountMismatch | SizeMismatch | SparseNotZeroFilled
    | LayerRangeInvalid | NoLayerWeights | LayerGap(missingFrom: int, missingTo: int)

  const COVERAGE_ABI := "cai-llama-cpp-assignment-coverage-v1"

  // ---------------------------------------------------------------- strict chunk-range parser

  function StrictNames(items: seq<Value>): Result<seq<string>, ContractError> {
    if items == [] then Ok([])
    else if Clean(items[0]) == "" then Err(TensorNamesInvalid)
    else
      var rest :- StrictNames(items[1..]);
      Ok([Clean(items[0])] + rest)
  }

  function StrictTensorNames(v: Value): Result<seq<string>, ContractError> {
    if v == Null || v == Text("") then Ok([])
    else if !v.List? then Err(TensorNamesInvalid)
    else StrictNames(v.items)
  }

  function StrictItem(item: ChunkItem): (r: Result<ChunkRange, ContractError>)
    requires item.Item?
    ensures r.Ok? ==> WellFormed(r.value)
  {
    var offset, size := OptNat(item.offsetBytes), OptNat(item.sizeBytes);
    var start, end := OptNat(item.layerStart), OptNat(item.layerEnd);
    if offset.None? then Err(ChunkOffsetInvalid)
    else if size.None? || size.value == 0 then Err(ChunkSizeInvalid)
    else if start.None? != end.None? then Err(ChunkLayersIncomplete)
    else if start.Some? && end.value <= start.value then Err(ChunkLayersInvalid)
    else
      var tensors :- StrictTensorNames(item.tensorNames);
      Ok(ChunkRange(Clean(item.chunkId), offset.value, size.value,
                    NonEmpty(Lower(Clean(item.sha256Hex))), start, end, tensors))
  }

  /** What the strict parser guarantees about every range it returns. */
  predicate WellFormed(r: ChunkRange) {
    && r.size > 0
    && Trimmed(r.chunkId)
    && r.layerStart.None? == r.layerEnd.None?
    && (r.layerStart.Some? ==> r.layerStart.value < r.layerEnd.value)
  }

  ghost predicate AllWellFormed(ranges: seq<ChunkRange>) {
    forall i :: 0 <= i < |ranges| ==> WellFormed(ranges[i])
  }

  function StrictItems(items: seq<ChunkItem>): (r: Result<seq<ChunkRange>, ContractError>)
    ensures r.Ok? ==> AllWellFormed(r.value)
  {
    if items == [] then Ok([])
    else if items[0].NotMapping? then StrictItems(items[1..])
    else
      var first :- StrictItem(items[0]);
      var rest :- StrictItems(items[1..]);
      Ok([first] + rest)
  }

  function StrictRanges(artifact: Artifact): (r: Result<seq<ChunkRange>, ContractError>)
    ensures r.Ok? ==> AllWellFormed(r.value)
  {
    if artifact.chunkRanges.NotAList? then Ok([]) else StrictItems(artifact.chunkRanges.items)
  }

  /** The append loop of the strict parser. */
  method ResolveChunkRanges(artifact: Artifact) returns (r: Result<seq<ChunkRange>, ContractError>)
    ensures r == StrictRanges(artifact)
  {
    if artifact.chunkRanges.NotAList? {
      return Ok([]);
    }
    var items := artifact.chunkRanges.items;
    var output: seq<ChunkRange> := [];
    assert items[0..] == items && forall rest: seq<ChunkRange> :: [] + rest == rest;
    for i := 0 to |items|
      invariant match StrictItems(items[i..])
                case Ok(rest) => StrictItems(items) == Ok(output + rest)
                case Err(e) => StrictItems(items) == Err(e)
    {
      assert items[i..][1..] == items[i + 1..];
      if items[i].Item? {
        var parsed := StrictItem(items[i]);
        if parsed.Err? {
          return Err(parsed.error);
        }
        output := output + [parsed.value];
        assert forall rest: seq<ChunkRange> :: output + rest == output[..|output| - 1] + ([parsed.value] + rest);
      }
    }
    assert items[|items|..] == [] && output + [] == output;
    return Ok(output);
  }

  // ---------------------------------------------------------------- coverage resolver

  function TotalSize(ranges: seq<ChunkRange>): nat {
    if ranges == [] then 0 else ranges[0].size + TotalSize(ranges[1..])
  }

  predicate InBounds(ranges: seq<ChunkRange>, size: nat) {
    forall i :: 0 <= i < |ranges| ==> ranges[i].offset + ranges[i].size <= size
  }

  function ResolveCoverage(artifact: Artifact): (r: Result<Option<Coverage>, ContractError>)
    ensures r.Ok? && r.value.Some? ==> CoverageAgrees(artifact, r.value.value)
  {
    var doc := artifact.coverage;
    if doc.NoCoverage? then
      if Clean(artifact.source) == "materialized_assignment" then
        var ranges :- StrictRanges(artifact);
        if ranges != [] then Err(CoverageMissing) else Ok(None)
      else Ok(None)
    else if Clean(doc.abi) != COVERAGE_ABI then Err(CoverageAbiInvalid)
    else if Clean(doc.materializationMode) == "" then Err(CoverageModeMissing)
    else if OptNat(doc.artifactSizeBytes).None? || OptNat(doc.artifactSizeBytes).value == 0 then
      Err(CoverageSizeInvalid)
    else if OptNat(doc.coveredByteCount).None? then Err(CoveredBytesInvalid)
    else if OptNat(doc.coveredRangeCount).None? then Err(CoveredRangesInvalid)
    else if !doc.zeroFilled.Bool? then Err(ZeroFilledInvalid)
    else
      var ranges :- StrictRanges(artifact);
      var size, bytes, count := OptNat(doc.artifactSizeBytes).value, OptNat(doc.coveredByteCount).value,
                                OptNat(doc.coveredRangeCount).value;
      if ranges != [] && !InBounds(ranges, size) then Err(ChunkOutOfBounds)
      else if ranges != [] && bytes != TotalSize(ranges) then Err(ByteCountMismatch)
      else if ranges != [] && count != |ranges| then Err(RangeCountMismatch)
      else if OptNat(artifact.sizeBytes).Some? && size != OptNat(artifact.sizeBytes).value then Err(SizeMismatch)
      else if Clean(doc.materializationMode) == "sparse_full_size" && !doc.zeroFilled.flag then Err(SparseNotZeroFilled)
      else Ok(Some(Coverage(COVERAGE_ABI, Clean(doc.materializationMode), size, bytes, count, doc.zeroFilled.flag)))
  }

  /** A validated coverage states the true byte and range counts, and every range fits the artifact. */
  predicate CoverageAgrees(artifact: Artifact, c: Coverage) {
    var ranges := StrictRanges(artifact);
    && c.mode != "" && Trimmed(c.mode) && c.artifactSize > 0
    && ranges.Ok?
    && (ranges.value != [] ==>
          && InBounds(ranges.value, c.artifactSize)
          && c.coveredBytes == TotalSize(ranges.value)
          && c.coveredRanges == |ranges.value|)
    && (OptNat(artifact.sizeBytes).Some? ==> OptNat(artifact.sizeBytes).value == c.artifactSize)
    && (c.mode == "sparse_full_size" ==> c.zeroFilled)
  }

  // ---------------------------------------------------------------- layer coverage: meaning

  predicate Covers(r: ChunkRange, layer: int) {
    r.layerStart.Some? && r.layerEnd.Some? && r.layerStart.value <= layer < r.layerEnd.value
  }

  ghost predicate CoveredAt(ranges: seq<ChunkRange>, layer: int) {
    exists i :: 0 <= i < |ranges| && Covers(ranges[i], layer)
  }

  ghost predicate AllCovered(ranges: seq<ChunkRange>, a: int, b: int) {
    forall layer :: a <= layer < b ==> CoveredAt(ranges, layer)
  }

  ghost predicate NoneCovered(ranges: seq<ChunkRange>, a: int, b: int) {
    forall layer :: a <= layer < b ==> !CoveredAt(ranges, layer)
  }

  /** `[from, to)` is the first maximal run of uncovered layers within `[a, b)`. */
  ghost predicate FirstGap(ranges: seq<ChunkRange>, a: int, b: int, from: int, to: int) {
    && a <= from < to <= b
    && AllCovered(ranges, a, from)
    && NoneCovered(ranges, from, to)
    && (to < b ==> CoveredAt(ranges, to))
  }

  // ---------------------------------------------------------------- layer coverage: the sweep

  predicate InScope(r: ChunkRange, a: int, b: int) {
    r.layerStart.Some? && r.layerEnd.Some? && r.layerStart.value < b && r.layerEnd.value > a
  }

  function Scoped(ranges: seq<ChunkRange>, a: int, b: int): (r: seq<ChunkRange>)
    ensures forall x :: x in r <==> x in ranges && InScope(x, a, b)
  {
    if ranges == [] then []
    else if InScope(ranges[0], a, b) then [ranges[0]] + Scoped(ranges[1..], a, b)
    else Scoped(ranges[1..], a, b)
  }

  predicate TextLeq(s: string, t: string) {
    s == "" || (t != "" && (s[0] < t[0] || (s[0] == t[0] && TextLeq(s[1..], t[1..]))))
  }

  function Bound(v: Option<nat>): nat { if v.Some? then v.value else 0 }

  /** The sort key: layer start, layer end, offset, chunk id. */
  predicate KeyLeq(x: ChunkRange, y: ChunkRange) {
    if Bound(x.layerStart) != Bound(y.layerStart) then Bound(x.layerStart) < Bound(y.layerStart)
    else if Bound(x.layerEnd) != Bound(y.layerEnd) then Bound(x.layerEnd) < Bound(y.layerEnd)
    else if x.offset != y.offset then x.offset < y.offset
    else TextLeq(x.chunkId, y.chunkId)
  }

  ghost predicate SortedByStart(s: seq<ChunkRange>) {
    forall i, j :: 0 <= i < j < |s| ==> Bound(s[i].layerStart) <= Bound(s[j].layerStart)
  }

  function InsertSorted(x: ChunkRange, s: seq<ChunkRange>): (r: seq<ChunkRange>)
    ensures |r| == |s| + 1 && forall y :: y in r <==> y == x || y in s
    ensures SortedByStart(s) ==> SortedByStart(r)
  {
    if s == [] then [x]
    else if KeyLeq(x, s[0]) then [x] + s
    else
      var rest := InsertSorted(x, s[1..]);
      assert forall k :: 0 <= k < |rest| ==> rest[k] in rest;
      assert forall y :: y in s[1..] && SortedByStart(s) ==> Bound(s[0].layerStart) <= Bound(y.layerStart);
      [s[0]] + rest
  }

  function Sorted(s: seq<ChunkRange>): (r: seq<ChunkRange>)
    ensures |r| == |s| && forall y :: y in r <==> y in s
    ensures SortedByStart(r)
  {
    if s == [] then [] else InsertSorted(s[0], Sorted(s[1..]))
  }

  function Max(x: int, y: int): int { if x < y then y else x }
  function Min(x: int, y: int): int { if x < y then x else y }

  function Sweep(ranges: seq<ChunkRange>, cursor: int, a: int, b: int): Result<(), ContractError> {
    if ranges == [] then Err(LayerGap(cursor, b))
    else
      var start, end := Max(Bound(ranges[0].layerStart), a), Min(Bound(ranges[0].layerEnd), b);
      if end <= cursor then Sweep(ranges[1..], cursor, a, b)
      else if start > cursor then Err(LayerGap(cursor, start))
      else if Max(cursor, end) >= b then Ok(())
      else Sweep(ranges[1..], Max(cursor, end), a, b)
  }

  function LayerVerdict(ranges: seq<ChunkRange>, a: int, b: int): Result<(), ContractError> {
    if Scoped(ranges, a, b) == [] then Err(NoLayerWeights)
    else Sweep(Sorted(Scoped(ranges, a, b)), a, a, b)
  }

  /** The whole check: unstated bounds pass, a bad range and malformed ranges are refused. */
  function LayerCoverage(artifact: Artifact, layerStart: Option<int>,
                         layerEnd: Option<int>): Result<(), ContractError> {
    if layerStart.None? || layerEnd.None? then Ok(())
    else if layerStart.value < 0 || layerEnd.value <= layerStart.value then Err(LayerRangeInvalid)
    else
      var ranges :- StrictRanges(artifact);
      LayerVerdict(ranges, layerStart.value, layerEnd.value)
  }

  /** The sweep loop over a moving cursor. */
  method ValidateLayerCoverage(artifact: Artifact, layerStart: Option<int>, layerEnd: Option<int>)
      returns (r: Result<(), ContractError>)
    ensures r == LayerCoverage(artifact, layerStart, layerEnd)
  {
    if layerStart.None? || layerEnd.None? {
      return Ok(());
    }
    var a, b := layerStart.value, layerEnd.value;
    if a < 0 || b <= a {
      return Err(LayerRangeInvalid);
    }
    var parsed := ResolveChunkRanges(artifact);
    if parsed.Err? {
      return Err(parsed.error);
    }
    var scoped := Sorted(Scoped(parsed.value, a, b));
    if |scoped| == 0 {
      return Err(NoLayerWeights);
    }
    var cursor := a;
    for i := 0 to |scoped|
      invariant Sweep(scoped[i..], cursor, a, b) == Sweep(scoped, a, a, b)
    {
      assert scoped[i..][1..] == scoped[i + 1..];
      var start, end := Max(Bound(scoped[i].layerStart), a), Min(Bound(scoped[i].layerEnd), b);
      if end <= cursor {
        continue;
      }
      if start > cursor {
        return Err(LayerGap(cursor, start));
      }
      cursor := Max(cursor, end);
      if cursor >= b {
        return Ok(());
      }
    }
    return Err(LayerGap(cursor, b));
  }

  // ---------------------------------------------------------------- layer coverage: exactness

  lemma CoveredBySlice(ranges: seq<ChunkRange>, layer: int)
    requires ranges != []
    ensures CoveredAt(ranges, layer) <==> Covers(ranges[0], layer) || CoveredAt(ranges[1..], layer)
  {
    if CoveredAt(ranges[1..], layer) {
      var i :| 0 <= i < |ranges[1..]| && Covers(ranges[1..][i], layer);
      assert Covers(ranges[i + 1], layer);
    }
    if CoveredAt(ranges, layer) && !Covers(ranges[0], layer) {
      var i :| 0 <= i < |ranges| && Covers(ranges[i], layer);
      assert Covers(ranges[1..][i - 1], layer);
    }
  }

  /** From a cursor on, the sweep of sorted ranges accepts or names the first gap. */
  lemma {:induction false} SweepFindsFirstGap(ranges: seq<ChunkRange>, cursor: int, a: int, b: int)
    requires SortedByStart(ranges) && AllWellFormed(ranges)
    requires forall i :: 0 <= i < |ranges| ==> InScope(ranges[i], a, b)
    requires a <= cursor < b
    ensures match Sweep(ranges, cursor, a, b)
            case Ok(_) => AllCovered(ranges, cursor, b)
            case Err(LayerGap(from, to)) => FirstGap(ranges, cursor, b, from, to)
            case Err(_) => false
  {
    if ranges == [] {
    } else {
      var head, rest := ranges[0], ranges[1..];
      var start, end := Max(Bound(head.layerStart), a), Min(Bound(head.layerEnd), b);
      forall layer: int ensures CoveredAt(ranges, layer) <==> Covers(head, layer) || CoveredAt(rest, layer) {
        CoveredBySlice(ranges, layer);
      }
      if end <= cursor {
        SweepFindsFirstGap(rest, cursor, a, b);
      } else if start > cursor {
        assert Covers(head, start);
      } else if end < b {
        SweepFindsFirstGap(rest, end, a, b);
      }
    }
  }

  lemma SortedScopedCoverage(ranges: seq<ChunkRange>, a: int, b: int, layer: int)
    requires a <= layer < b
    ensures CoveredAt(Sorted(Scoped(ranges, a, b)), layer) <==> CoveredAt(ranges, layer)
  {
    var sorted := Sorted(Scoped(ranges, a, b));
    if CoveredAt(ranges, layer) {
      var i :| 0 <= i < |ranges| && Covers(ranges[i], layer);
      assert ranges[i] in sorted;
    }
    if CoveredAt(sorted, layer) {
      var i :| 0 <= i < |sorted| && Covers(sorted[i], layer);
      assert sorted[i] in ranges;
    }
  }

  /** Soundness of each outcome; `LayerVerdictIsExact` adds the converses. */
  lemma LayerVerdictIsSound(ranges: seq<ChunkRange>, a: int, b: int)
    requires AllWellFormed(ranges) && a < b
    ensures match LayerVerdict(ranges, a, b)
            case Ok(_) => AllCovered(ranges, a, b)
            case Err(NoLayerWeights) => NoneCovered(ranges, a, b)
            case Err(LayerGap(from, to)) => FirstGap(ranges, a, b, from, to) && !NoneCovered(ranges, a, b)
            case Err(_) => false
  {
    var scoped := Scoped(ranges, a, b);
    var sorted := Sorted(scoped);
    forall i | 0 <= i < |sorted| ensures InScope(sorted[i], a, b) && WellFormed(sorted[i]) {
      assert sorted[i] in sorted;
    }
    forall layer | a <= layer < b ensures CoveredAt(sorted, layer) <==> CoveredAt(ranges, layer) {
      SortedScopedCoverage(ranges, a, b, layer);
    }
    if scoped != [] {
      var x := sorted[0];
      assert Covers(x, Max(x.layerStart.value, a));
      assert CoveredAt(ranges, Max(x.layerStart.value, a));
      SweepFindsFirstGap(sorted, a, a, b);
    }
  }

  lemma FirstGapIsUnique(ranges: seq<ChunkRange>, a: int, b: int, f1: int, t1: int, f2: int, t2: int)
    requires FirstGap(ranges, a, b, f1, t1) && FirstGap(ranges, a, b, f2, t2)
    ensures f1 == f2 && t1 == t2
  {
    assert f1 < f2 ==> CoveredAt(ranges, f1);
    assert f2 < f1 ==> CoveredAt(ranges, f2);
    assert t1 < t2 ==> CoveredAt(ranges, t1);
    assert t2 < t1 ==> CoveredAt(ranges, t2);
  }

  /** The verdict is exact: accept, "no layer weights" and the named gap each hold exactly when they should. */
  lemma LayerVerdictIsExact(ranges: seq<ChunkRange>, a: int, b: int)
    requires AllWellFormed(ranges) && a < b
    ensures LayerVerdict(ranges, a, b).Ok? <==> AllCovered(ranges, a, b)
    ensures LayerVerdict(ranges, a, b) == Err(NoLayerWeights) <==> NoneCovered(ranges, a, b)
    ensures forall from, to :: LayerVerdict(ranges, a, b) == Err(LayerGap(from, to)) <==>
              FirstGap(ranges, a, b, from, to) && !NoneCovered(ranges, a, b)
  {
    LayerVerdictIsSound(ranges, a, b);
    var v := LayerVerdict(ranges, a, b);
    assert AllCovered(ranges, a, b) ==> CoveredAt(ranges, a);
    assert v.Err? && v.error.LayerGap? ==> !CoveredAt(ranges, v.error.missingFrom);
    forall from, to | FirstGap(ranges, a, b, from, to) && !NoneCovered(ranges, a, b)
      ensures v == Err(LayerGap(from, to))
    {
      assert !CoveredAt(ranges, from);
      FirstGapIsUnique(ranges, a, b, from, to, v.error.missingFrom, v.error.missingTo);
    }
  }

  /** The verdict, including the reported gap, does not depend on the order of the ranges. */
  lemma VerdictIgnoresOrder(r1: seq<ChunkRange>, r2: seq<ChunkRange>, a: int, b: int)
    requires AllWellFormed(r1) && AllWellFormed(r2) && a < b
    requires multiset(r1) == multiset(r2)
    ensures LayerVerdict(r1, a, b) == LayerVerdict(r2, a, b)
  {
    forall layer: int ensures CoveredAt(r1, layer) <==> CoveredAt(r2, layer) {
      CoverageIsASubBag(r1, r2, layer);
      CoverageIsASubBag(r2, r1, layer);
    }
    LayerVerdictIsSound(r1, a, b);
    LayerVerdictIsExact(r2, a, b);
    assert AllCovered(r1, a, b) ==> AllCovered(r2, a, b);
    assert NoneCovered(r1, a, b) <==> NoneCovered(r2, a, b);
    var v := LayerVerdict(r1, a, b);
    if v.Err? && v.error.LayerGap? {
      assert FirstGap(r2, a, b, v.error.missingFrom, v.error.missingTo);
    } else if v.Ok? {
      assert LayerVerdict(r2, a, b).value == () == v.value;
    }
  }

  lemma CoverageIsASubBag(r1: seq<ChunkRange>, r2: seq<ChunkRange>, layer: int)
    requires multiset(r1) <= multiset(r2)
    ensures CoveredAt(r1, layer) ==> CoveredAt(r2, layer)
  {
    if CoveredAt(r1, layer) {
      var i :| 0 <= i < |r1| && Covers(r1[i], layer);
      assert r1[i] in multiset(r1);
      assert r1[i] in r2;
    }
  }

  /** The whole check: with both bounds stated it passes exactly for a proper range whose every layer is covered. */
  lemma LayerCoverageIsExact(artifact: Artifact, layerStart: Option<int>, layerEnd: Option<int>)
    ensures LayerCoverage(artifact, layerStart, layerEnd).Ok? <==>
              (layerStart.Some? && layerEnd.Some? ==>
                 && 0 <= layerStart.value < layerEnd.value && StrictRanges(artifact).Ok?
                 && AllCovered(StrictRanges(artifact).value, layerStart.value, layerEnd.value))
  {
    if layerStart.Some? && layerEnd.Some? && 0 <= layerStart.value < layerEnd.value && StrictRanges(artifact).Ok? {
      LayerVerdictIsExact(StrictRanges(artifact).value, layerStart.value, layerEnd.value);
    }
  }

  // ---------------------------------------------------------------- parser and resolver: exactness

  /** The tensor names of an item: none, or a list without blank ones. */
  ghost predicate NamesSound(v: Value) {
    v == Null || v == Text("") || (v.List? && forall i :: 0 <= i < |v.items| ==> Clean(v.items[i]) != "")
  }

  ghost predicate NamesFrom(v: Value, names: seq<string>) {
    if v.List? then |names| == |v.items| && forall i :: 0 <= i < |names| ==> names[i] == Clean(v.items[i])
    else names == []
  }

  lemma {:induction false} StrictNamesAreExact(items: seq<Value>)
    ensures StrictNames(items).Ok? <==> forall i :: 0 <= i < |items| ==> Clean(items[i]) != ""
    ensures StrictNames(items).Ok? ==>
              var names := StrictNames(items).value;
              |names| == |items| && forall i :: 0 <= i < |names| ==> names[i] == Clean(items[i])
  {
    if items == [] {
    } else {
      StrictNamesAreExact(items[1..]);
      assert forall i :: 0 < i < |items| ==> items[i] == items[1..][i - 1];
    }
  }

  /** What the strict parser asks of an item. */
  ghost predicate ItemSound(item: ChunkItem)
    requires item.Item?
  {
    var start, end := OptNat(item.layerStart), OptNat(item.layerEnd);
    && OptNat(item.offsetBytes).Some? && OptNat(item.sizeBytes).Some? && OptNat(item.sizeBytes) != Some(0)
    && (start.Some? <==> end.Some?) && (start.Some? && end.Some? ==> start.value < end.value)
    && NamesSound(item.tensorNames)
  }

  /** And what it reads. */
  ghost predicate ReadFrom(item: ChunkItem, r: ChunkRange) {
    && item.Item? && r.chunkId == Clean(item.chunkId)
    && Some(r.offset) == OptNat(item.offsetBytes) && Some(r.size) == OptNat(item.sizeBytes)
    && r.sha == NonEmpty(Lower(Clean(item.sha256Hex)))
    && r.layerStart == OptNat(item.layerStart) && r.layerEnd == OptNat(item.layerEnd)
    && NamesFrom(item.tensorNames, r.tensors)
  }

  lemma StrictItemIsExact(item: ChunkItem)
    requires item.Item?
    ensures StrictItem(item).Ok? <==> ItemSound(item)
    ensures StrictItem(item).Ok? ==> ReadFrom(item, StrictItem(item).value)
  {
    if item.tensorNames.List? { StrictNamesAreExact(item.tensorNames.items); }
  }

  /** The items that are mappings, in order. */
  function MappingsOf(items: seq<ChunkItem>): seq<ChunkItem> {
    if items == [] then []
    else (if items[0].Item? then [items[0]] else []) + MappingsOf(items[1..])
  }

  /** The ranges are read from the mappings one by one. */
  ghost predicate AllReadFrom(items: seq<ChunkItem>, ranges: seq<ChunkRange>) {
    |ranges| == |items| && forall i :: 0 <= i < |ranges| ==> ReadFrom(items[i], ranges[i])
  }

  lemma ReadFromGrows(item: ChunkItem, r: ChunkRange, items: seq<ChunkItem>, ranges: seq<ChunkRange>)
    requires ReadFrom(item, r) && AllReadFrom(items, ranges)
    ensures AllReadFrom([item] + items, [r] + ranges)
  {
  }

  /** The strict parse succeeds exactly when every mapping is sound, and then reads all of them in order. */
  lemma {:induction false} StrictParseIsExact(items: seq<ChunkItem>)
    ensures StrictItems(items).Ok? <==> forall x :: x in items && x.Item? ==> ItemSound(x)
    ensures StrictItems(items).Ok? ==> AllReadFrom(MappingsOf(items), StrictItems(items).value)
  {
    if items == [] {
    } else {
      StrictParseIsExact(items[1..]);
      assert forall x :: x in items <==> x == items[0] || x in items[1..];
      if items[0].Item? {
        StrictItemIsExact(items[0]);
        if StrictItems(items).Ok? {
          ReadFromGrows(items[0], StrictItem(items[0]).value, MappingsOf(items[1..]), StrictItems(items[1..]).value);
        }
      } else {
        assert MappingsOf(items) == MappingsOf(items[1..]);
      }
    }
  }

  /** The coverage is what the document declares. */
  predicate Declares(doc: CoverageDoc, c: Coverage) {
    && doc.CoverageDoc? && Clean(doc.abi) == COVERAGE_ABI == c.abi && Clean(doc.materializationMode) == c.mode
    && OptNat(doc.artifactSizeBytes) == Some(c.artifactSize) && OptNat(doc.coveredByteCount) == Some(c.coveredBytes)
    && OptNat(doc.coveredRangeCount) == Some(c.coveredRanges) && doc.zeroFilled == Bool(c.zeroFilled)
  }

  /**
   The resolver yields a coverage exactly when it is declared and agrees with the artifact's ranges and size, and
   none exactly when none is declared and none is due.
   */
  lemma CoverageIsExact(artifact: Artifact, c: Coverage)
    ensures ResolveCoverage(artifact) == Ok(Some(c)) <==>
              Declares(artifact.coverage, c) && CoverageAgrees(artifact, c)
    ensures ResolveCoverage(artifact) == Ok(None) <==>
              && artifact.coverage.NoCoverage?
              && (Clean(artifact.source) == "materialized_assignment" ==> StrictRanges(artifact) == Ok([]))
  {
  }
}
