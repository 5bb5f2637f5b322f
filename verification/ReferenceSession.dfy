/**
 The reference binary's resident shard context, the session document it is stored as, and exactly when
 storing and reading back gives the same context.
 */
module ReferenceSession {
  import opened PyValue
  import opened ArtifactContract
  import opened ChunkWindows

  datatype ArtifactFacts = ArtifactFacts(
    source: string, sizeBytes: int, digest: string, digestSource: string, bytesRead: int, chunkCount: int,
    coverageMode: Option<string>, coveredBytes: Option<int>, coveredRanges: Option<int>, tensors: seq<string>)

  /** The prepared shard file. */
  datatype ShardWindow = ShardWindow(path: string, sha: string, size: int, mode: string)

  /** A loaded shard: `ReferenceLoadedShardContext`. */
  datatype Shard = Shard(
    sessionId: string, modelId: string, layerStart: Option<int>, layerEnd: Option<int>, localPath: string,
    facts: ArtifactFacts, window: ShardWindow, receiptPath: string, sessionPath: string)

  datatype ShardRecord = ShardRecord(
    localPath: Value, source: Value, sizeBytes: Value, digest: Value, digestSource: Value, bytesRead: Value,
    chunkCount: Value,
    coverageMode: Value, coveredBytes: Value, coveredRanges: Value, tensorNames: Value,
    preparedPath: Value, preparedSha: Value, preparedSize: Value, preparedMode: Value, receiptPath: Value)

  datatype SessionDoc = SessionDoc(abi: Value, sessionId: Value, modelId: Value, layerStart: Value, layerEnd: Value,
                                   artifact: Option<ShardRecord>)

  datatype Field =
    | SessionIdField | ModelIdField | LocalPathField | SourceField | SizeField | DigestField | DigestSourceField
    | BytesReadField
    | ChunkCountField | PreparedPathField | PreparedShaField | PreparedSizeField | PreparedModeField | ReceiptPathField
    | StateFilesDirField | InputPathField | OutputPayloadField | OutputStateField

  datatype Error =
    | RequestUnsupported | AssignmentMissing | Missing(field: Field) | Unresolved(field: Field) | ArtifactUnavailable
    | CoverageRefused(reason: ContractError) | RangesRefused(reason: ContractError)
    | WindowRefused(cause: WindowError) | CopyIncomplete
    | WorkspaceMissing | ContextMissing | SessionInvalid | SessionAbiUnsupported | SessionArtifactMissing
    | TensorNamesUnreadable
    | SessionIdDrift | ModelIdDrift | LayerStartDrift | LayerEndDrift | ArtifactPathDrift
    | WindowUnavailable | WindowSizeMismatch | WindowHashMismatch
    | ReceiptUnavailable | ReceiptInvalid | ReceiptAbiUnsupported | ReceiptShardDrift
    | InputStateMissing | MetadataMissing | PrefillDigestMismatch | StateShardMismatch
    | InputUnreadable | InputSizeMismatch | InputHashMismatch
    | OutputKindMissing | OutputTargetsMissing | OutputKindUnsupported

  const SESSION_ABI := "cai-llama-cpp-reference-patched-session-v1"

  // ---------------------------------------------------------------- required fields

  function Need(v: Value, f: Field): (r: Result<string, Error>)
    ensures r.Ok? ==> r.value != "" && Trimmed(r.value)
  {
    if Clean(v) == "" then Err(Missing(f)) else Ok(Clean(v))
  }

  function NeedInt(v: Value, f: Field): Result<int, Error> {
    if OptInt(v).None? then Err(Missing(f)) else Ok(OptInt(v).value)
  }

  /** `Path(_require_string(...)).expanduser().resolve()` */
  function NeedPath(w: World, v: Value, f: Field): Result<string, Error> {
    var text :- Need(v, f);
    if w.resolve(text).None? then Err(Unresolved(f)) else Ok(w.resolve(text).value)
  }

  // ---------------------------------------------------------------- the session document

  function Texts(names: seq<string>): (r: seq<Value>)
    ensures |r| == |names|
  {
    seq(|names|, i requires 0 <= i < |names| => Text(names[i]))
  }

  /** `shown` of the list is never read, so it is left empty. */
  function RecordOf(c: Shard): ShardRecord {
    var f, p := c.facts, c.window;
    ShardRecord(Text(c.localPath), Text(f.source), Num(f.sizeBytes), Text(f.digest), Text(f.digestSource),
                Num(f.bytesRead), Num(f.chunkCount),
                FromText(f.coverageMode), FromInt(f.coveredBytes), FromInt(f.coveredRanges), List(Texts(f.tensors), ""),
                Text(p.path), Text(p.sha), Num(p.size), Text(p.mode), Text(c.receiptPath))
  }

  function WriteSession(c: Shard): SessionDoc {
    SessionDoc(Text(SESSION_ABI), Text(c.sessionId), Text(c.modelId), FromInt(c.layerStart), FromInt(c.layerEnd),
               Some(RecordOf(c)))
  }

  function NamesOf(v: Value): Result<seq<string>, Error> {
    if !Truthy(v) then Ok([])
    else if v.List? then Ok(LenientNames(v.items))
    else if v.Text? then Ok(LenientNames(seq(|v.text|, i requires 0 <= i < |v.text| => Text([v.text[i]]))))
    else Err(TensorNamesUnreadable)
  }

  function ReadFacts(a: ShardRecord): Result<ArtifactFacts, Error> {
    var source :- Need(a.source, SourceField);
    var size :- NeedInt(a.sizeBytes, SizeField);
    var digest :- Need(a.digest, DigestField);
    var digestSource :- Need(a.digestSource, DigestSourceField);
    var bytesRead :- NeedInt(a.bytesRead, BytesReadField);
    var chunkCount :- NeedInt(a.chunkCount, ChunkCountField);
    var names :- NamesOf(a.tensorNames);
    Ok(ArtifactFacts(source, size, digest, digestSource, bytesRead, chunkCount,
                     CleanOrNone(a.coverageMode), OptInt(a.coveredBytes), OptInt(a.coveredRanges), names))
  }

  function ReadWindow(w: World, a: ShardRecord): Result<ShardWindow, Error> {
    var path :- NeedPath(w, a.preparedPath, PreparedPathField);
    var sha :- Need(a.preparedSha, PreparedShaField);
    var size :- NeedInt(a.preparedSize, PreparedSizeField);
    var mode :- Need(a.preparedMode, PreparedModeField);
    Ok(ShardWindow(path, sha, size, mode))
  }

  function ReadShard(w: World, path: string, d: SessionDoc, a: ShardRecord): Result<Shard, Error> {
    Combine(NeedPath(w, a.localPath, LocalPathField), Need(d.sessionId, SessionIdField), Need(d.modelId, ModelIdField),
            ReadFacts(a), ReadWindow(w, a), NeedPath(w, a.receiptPath, ReceiptPathField),
            OptInt(d.layerStart), OptInt(d.layerEnd), path)
  }

  /** The parts are read in this order; the first that fails is the error. */
  function Combine(local: Result<string, Error>, sid: Result<string, Error>, mid: Result<string, Error>,
                   facts: Result<ArtifactFacts, Error>, window: Result<ShardWindow, Error>, receipt: Result<string,
                   Error>,
                   start: Option<int>, end: Option<int>, path: string): Result<Shard, Error>
  {
    var l :- local;
    var s :- sid;
    var m :- mid;
    var f :- facts;
    var p :- window;
    var q :- receipt;
    Ok(Shard(s, m, start, end, l, f, p, q, path))
  }

  /** `None` is a file that is not a JSON object. */
  function ReadSession(w: World, path: string, doc: Option<SessionDoc>): Result<Shard, Error> {
    if doc.None? then Err(SessionInvalid)
    else
      var d := doc.value;
      if Clean(d.abi) != SESSION_ABI then Err(SessionAbiUnsupported)
      else if d.artifact.None? then Err(SessionArtifactMissing)
      else ReadShard(w, path, d, d.artifact.value)
  }

  // ---------------------------------------------------------------- write, then read

  predicate Kept(s: string) { s != "" && Trimmed(s) }

  ghost predicate AllKept(names: seq<string>) { forall i :: 0 <= i < |names| ==> Kept(names[i]) }

  /** The contexts that survive being stored. */
  ghost predicate Storable(w: World, c: Shard) {
    && Kept(c.sessionId) && Kept(c.modelId) && FactsStorable(c.facts) && WindowStorable(w, c.window)
    && PathKept(w, c.localPath) && PathKept(w, c.receiptPath)
  }

  ghost predicate FactsStorable(f: ArtifactFacts) {
    && Kept(f.source) && Kept(f.digest) && Kept(f.digestSource)
    && (f.coverageMode.Some? ==> Kept(f.coverageMode.value))
    && AllKept(f.tensors)
  }

  predicate WindowStorable(w: World, p: ShardWindow) { PathKept(w, p.path) && Kept(p.sha) && Kept(p.mode) }

  lemma NeedsKeepText(s: string, f: Field)
    ensures Need(Text(s), f) == Ok(s) <==> Kept(s)
  {
  }

  lemma NeedsKeepPath(w: World, p: string, f: Field)
    ensures NeedPath(w, Text(p), f) == Ok(p) <==> PathKept(w, p)
  {
    if p == "" { assert Trimmed(p); }
  }

  lemma {:induction false} NamesReadBack(names: seq<string>)
    ensures LenientNames(Texts(names)) == names <==> AllKept(names)
    ensures AllKept(LenientNames(Texts(names)))
  {
    if names == [] {
    } else {
      var values := Texts(names);
      assert values[1..] == Texts(names[1..]);
      NamesReadBack(names[1..]);
      var first := Strip(names[0]);
      assert Strip(StrOf(values[0])) == first;
      if first == "" {
        assert LenientNames(values) == LenientNames(values[1..]);
        assert !Kept(names[0]);
      } else {
        assert LenientNames(values) == [first] + LenientNames(values[1..]);
        if LenientNames(values) == names {
          assert LenientNames(values)[0] == names[0] && LenientNames(values)[1..] == names[1..];
          assert forall i :: 0 < i < |names| ==> names[i] == names[1..][i - 1];
        }
        if AllKept(names) {
          assert AllKept(names[1..]);
          assert names == [names[0]] + names[1..];
        }
      }
    }
  }

  lemma NamesOfReadsBack(names: seq<string>)
    ensures NamesOf(List(Texts(names), "")) == Ok(names) <==> AllKept(names)
  {
    NamesReadBack(names);
    if names == [] { assert Texts(names) == []; }
  }

  lemma ModeReadsBack(mode: Option<string>)
    ensures CleanOrNone(FromText(mode)) == mode <==> (mode.Some? ==> Kept(mode.value))
  {
  }

  lemma FactsReadBack(c: Shard)
    ensures ReadFacts(RecordOf(c)) == Ok(c.facts) <==> FactsStorable(c.facts)
  {
    NeedsKeepText(c.facts.source, SourceField);
    NeedsKeepText(c.facts.digest, DigestField);
    NeedsKeepText(c.facts.digestSource, DigestSourceField);
    NamesOfReadsBack(c.facts.tensors);
    ModeReadsBack(c.facts.coverageMode);
  }

  lemma WindowReadsBack(w: World, c: Shard)
    ensures ReadWindow(w, RecordOf(c)) == Ok(c.window) <==> WindowStorable(w, c.window)
  {
    NeedsKeepPath(w, c.window.path, PreparedPathField);
    NeedsKeepText(c.window.sha, PreparedShaField);
    NeedsKeepText(c.window.mode, PreparedModeField);
  }

  lemma CombineIsExact(local: Result<string, Error>, sid: Result<string, Error>, mid: Result<string, Error>,
                       facts: Result<ArtifactFacts, Error>, window: Result<ShardWindow, Error>,
                       receipt: Result<string, Error>, c: Shard)
    ensures Combine(local, sid, mid, facts, window, receipt, c.layerStart, c.layerEnd, c.sessionPath) == Ok(c) <==>
              && local == Ok(c.localPath) && sid == Ok(c.sessionId) && mid == Ok(c.modelId)
              && facts == Ok(c.facts) && window == Ok(c.window) && receipt == Ok(c.receiptPath)
  {
  }

  lemma PartsAreStorable(w: World, c: Shard, local: Result<string, Error>, sid: Result<string, Error>,
                         mid: Result<string, Error>,
                         facts: Result<ArtifactFacts, Error>, window: Result<ShardWindow, Error>,
                         receipt: Result<string, Error>)
    requires (local == Ok(c.localPath) <==> PathKept(w, c.localPath))
    requires (receipt == Ok(c.receiptPath) <==> PathKept(w, c.receiptPath))
    requires (sid == Ok(c.sessionId) <==> Kept(c.sessionId)) && (mid == Ok(c.modelId) <==> Kept(c.modelId))
    requires (facts == Ok(c.facts) <==> FactsStorable(c.facts))
    requires (window == Ok(c.window) <==> WindowStorable(w, c.window))
    ensures Combine(local, sid, mid, facts, window, receipt, c.layerStart, c.layerEnd, c.sessionPath) == Ok(c) <==>
              Storable(w, c)
  {
    CombineIsExact(local, sid, mid, facts, window, receipt, c);
  }

  lemma LayersReadBack(v: Option<int>)
    ensures OptInt(FromInt(v)) == v
  {
  }

  lemma ShardReadsBack(w: World, c: Shard, d: SessionDoc)
    requires d == SessionDoc(d.abi, Text(c.sessionId), Text(c.modelId), FromInt(c.layerStart), FromInt(c.layerEnd),
                             d.artifact)
    ensures ReadShard(w, c.sessionPath, d, RecordOf(c)) == Ok(c) <==> Storable(w, c)
  {
    var a := RecordOf(c);
    LayersReadBack(c.layerStart);
    LayersReadBack(c.layerEnd);
    NeedsKeepPath(w, c.localPath, LocalPathField);
    NeedsKeepText(c.sessionId, SessionIdField);
    NeedsKeepText(c.modelId, ModelIdField);
    FactsReadBack(c);
    WindowReadsBack(w, c);
    NeedsKeepPath(w, c.receiptPath, ReceiptPathField);
    PartsAreStorable(w, c, NeedPath(w, a.localPath, LocalPathField), Need(d.sessionId, SessionIdField),
                     Need(d.modelId, ModelIdField),
                     ReadFacts(a), ReadWindow(w, a), NeedPath(w, a.receiptPath, ReceiptPathField));
  }

  lemma SessionAbiIsClean()
    ensures Clean(Text(SESSION_ABI)) == SESSION_ABI
  {
    assert SESSION_ABI[0] == 'c' && SESSION_ABI[|SESSION_ABI| - 1] == '1';
  }

  /** A context read back from disk is the context that was written, exactly for storable contexts. */
  lemma SessionRoundTrip(w: World, c: Shard)
    ensures ReadSession(w, c.sessionPath, Some(WriteSession(c))) == Ok(c) <==> Storable(w, c)
  {
    SessionAbiIsClean();
    ShardReadsBack(w, c, WriteSession(c));
  }

  // ---------------------------------------------------------------- which documents are read

  /** The record of the artifact states these facts. */
  predicate StatesFacts(a: ShardRecord, f: ArtifactFacts) {
    && Clean(a.source) == f.source != "" && Clean(a.digest) == f.digest != ""
    && Clean(a.digestSource) == f.digestSource != ""
    && OptInt(a.sizeBytes) == Some(f.sizeBytes) && OptInt(a.bytesRead) == Some(f.bytesRead)
    && OptInt(a.chunkCount) == Some(f.chunkCount)
    && CleanOrNone(a.coverageMode) == f.coverageMode && OptInt(a.coveredBytes) == f.coveredBytes
    && OptInt(a.coveredRanges) == f.coveredRanges && NamesOf(a.tensorNames) == Ok(f.tensors)
  }

  /** The value is a path, and resolves to this one. */
  predicate MeansPath(w: World, v: Value, path: string) { Clean(v) != "" && w.resolve(Clean(v)) == Some(path) }

  predicate StatesWindow(w: World, a: ShardRecord, p: ShardWindow) {
    && MeansPath(w, a.preparedPath, p.path) && Clean(a.preparedSha) == p.sha != ""
    && OptInt(a.preparedSize) == Some(p.size) && Clean(a.preparedMode) == p.mode != ""
  }

  lemma FactsAreExact(a: ShardRecord, f: ArtifactFacts)
    ensures ReadFacts(a) == Ok(f) <==> StatesFacts(a, f)
  {
  }

  lemma WindowIsExact(w: World, a: ShardRecord, p: ShardWindow)
    ensures ReadWindow(w, a) == Ok(p) <==> StatesWindow(w, a, p)
  {
  }

  /** What a list, a text or nothing gives for the tensor names; other values are refused. */
  lemma NamesAreExact(v: Value)
    ensures NamesOf(v).Ok? <==> !Truthy(v) || v.List? || v.Text?
    ensures !Truthy(v) ==> NamesOf(v) == Ok([])
    ensures v.List? && Truthy(v) ==> NamesOf(v) == Ok(LenientNames(v.items))
    ensures v.Text? && Truthy(v) ==>
              NamesOf(v) == Ok(LenientNames(seq(|v.text|, i requires 0 <= i < |v.text| => Text([v.text[i]]))))
  {
  }

  /** A session document gives a context exactly when it is one, has an artifact and states every field of it. */
  lemma ReadSessionIsExact(w: World, path: string, doc: Option<SessionDoc>, c: Shard)
    ensures ReadSession(w, path, doc) == Ok(c) <==>
              && doc.Some? && Clean(doc.value.abi) == SESSION_ABI && doc.value.artifact.Some?
              && c.sessionPath == path
              && Clean(doc.value.sessionId) == c.sessionId != "" && Clean(doc.value.modelId) == c.modelId != ""
              && OptInt(doc.value.layerStart) == c.layerStart && OptInt(doc.value.layerEnd) == c.layerEnd
              && MeansPath(w, doc.value.artifact.value.localPath, c.localPath)
              && MeansPath(w, doc.value.artifact.value.receiptPath, c.receiptPath)
              && StatesFacts(doc.value.artifact.value, c.facts)
              && StatesWindow(w, doc.value.artifact.value, c.window)
  {
    if doc.Some? && doc.value.artifact.Some? {
      var d, a := doc.value, doc.value.artifact.value;
      FactsAreExact(a, c.facts);
      WindowIsExact(w, a, c.window);
      CombineIsExact(NeedPath(w, a.localPath, LocalPathField), Need(d.sessionId, SessionIdField),
                     Need(d.modelId, ModelIdField), ReadFacts(a), ReadWindow(w, a),
                     NeedPath(w, a.receiptPath, ReceiptPathField), c);
      if ReadSession(w, path, doc) == Ok(c) { ReadFields(w, path, d, a, c); }
    }
  }

  lemma ReadFields(w: World, path: string, d: SessionDoc, a: ShardRecord, c: Shard)
    requires ReadShard(w, path, d, a) == Ok(c)
    ensures c.sessionPath == path && c.layerStart == OptInt(d.layerStart) && c.layerEnd == OptInt(d.layerEnd)
    ensures NeedPath(w, a.localPath, LocalPathField) == Ok(c.localPath) && ReadFacts(a) == Ok(c.facts)
    ensures Need(d.sessionId, SessionIdField) == Ok(c.sessionId) && Need(d.modelId, ModelIdField) == Ok(c.modelId)
    ensures ReadWindow(w, a) == Ok(c.window) && NeedPath(w, a.receiptPath, ReceiptPathField) == Ok(c.receiptPath)
  {
    PartsOf(NeedPath(w, a.localPath, LocalPathField), Need(d.sessionId, SessionIdField),
            Need(d.modelId, ModelIdField), ReadFacts(a), ReadWindow(w, a),
            NeedPath(w, a.receiptPath, ReceiptPathField), OptInt(d.layerStart), OptInt(d.layerEnd), path, c);
  }

  lemma PartsOf(local: Result<string, Error>, sid: Result<string, Error>, mid: Result<string, Error>,
                facts: Result<ArtifactFacts, Error>, window: Result<ShardWindow, Error>,
                receipt: Result<string, Error>, start: Option<int>, end: Option<int>, path: string, c: Shard)
    requires Combine(local, sid, mid, facts, window, receipt, start, end, path) == Ok(c)
    ensures local == Ok(c.localPath) && sid == Ok(c.sessionId) && mid == Ok(c.modelId) && facts == Ok(c.facts)
    ensures window == Ok(c.window) && receipt == Ok(c.receiptPath)
    ensures c.layerStart == start && c.layerEnd == end && c.sessionPath == path
  {
  }
}
