/**
 The assignment-artifact engine: two caches, per session and per resident shard, over the expensive
 "read and hash the chunk windows" resolution, with drift detection.
 */
module AssignmentEngine {
  import opened PyValue
  import opened ArtifactContract
  import opened ChunkWindows
  import opened RequestSections

  datatype Request = Request(shardSpec: Section, frame: Section, assignment: Option<Artifact>)

  datatype Context = Context(
    artifactId: Option<string>, source: string, path: string, size: nat,
    layerStart: Option<int>, layerEnd: Option<int>, expectedDigest: Option<string>,
    chunks: seq<LenientChunk>, digest: string, digestSource: string, bytesRead: nat, coverage: Option<Coverage>)

  datatype SessionKey = SessionKey(sessionId: string, modelId: Option<string>, layerStart: Option<int>,
                                   layerEnd: Option<int>)

  datatype ResidentKey = ResidentKey(
    modelId: Option<string>, path: string, layerStart: Option<int>, layerEnd: Option<int>,
    expectedDigest: Option<string>, signature: seq<LenientChunk>)

  datatype Mismatch = PathMismatch | LayerStartMismatch | LayerEndMismatch | DigestMismatch | ChunksMismatch

  datatype EngineError =
    | AssignmentMissing | SourceMissing | PathUnavailable
    | Contract(contract: ContractError) | Windows(windows: WindowError)
    | SessionDrifted(reason: Mismatch) | ResidentDrifted

  datatype How = SessionHit | ResidentHit | Loaded

  datatype Resolution = Refused(error: EngineError) | Resolved(context: Context, how: How)

  datatype State = State(sessions: map<SessionKey, Context>, residents: map<ResidentKey, Context>)

  type Files = map<string, Bytes>

  // ---------------------------------------------------------------- request fields

  function ModelId(r: Request): Option<string> { ModelIdOf(r.shardSpec, r.frame) }
  function LayerStart(r: Request): Option<int> { LayerStartOf(r.shardSpec, r.frame) }
  function LayerEnd(r: Request): Option<int> { LayerEndOf(r.shardSpec, r.frame) }

  function SessionKeyOf(r: Request): (k: Option<SessionKey>)
    ensures k.Some? ==> k.value.layerStart == LayerStart(r) && k.value.layerEnd == LayerEnd(r)
  {
    if r.frame.Absent? || Clean(r.frame.sessionId) == "" then None
    else Some(SessionKey(Clean(r.frame.sessionId), ModelId(r), LayerStart(r), LayerEnd(r)))
  }

  /** `str(v or "")`, which, unlike `Clean`, keeps outer white space. */
  function RawText(v: Value): string {
    if Truthy(v) then StrOf(v) else ""
  }

  // ---------------------------------------------------------------- keys and drift

  function CleanNames(names: seq<string>): seq<string> {
    if names == [] then []
    else if Strip(names[0]) == "" then CleanNames(names[1..])
    else [Strip(names[0])] + CleanNames(names[1..])
  }

  function Signature(chunks: seq<LenientChunk>): seq<LenientChunk> {
    seq(|chunks|, i requires 0 <= i < |chunks| =>
      chunks[i].(chunkId := Strip(chunks[i].chunkId), sha := NonEmpty(ExpectedHash(chunks[i].sha)),
                 tensors := CleanNames(chunks[i].tensors)))
  }

  function ResidentKeyOf(w: World, r: Request): (k: Option<ResidentKey>)
    ensures k.Some? ==> k.value.layerStart == LayerStart(r) && k.value.layerEnd == LayerEnd(r)
  {
    if r.assignment.None? then None
    else
      var a := r.assignment.value;
      var path := Clean(a.localPath);
      if path == "" || w.resolve(path).None? then None
      else Some(ResidentKey(ModelId(r), w.resolve(path).value, LayerStart(r), LayerEnd(r),
                            CleanOrNone(a.expectedDigest), Signature(LenientRanges(a))))
  }

  function ResidentKeyOfContext(w: World, modelId: Option<string>, c: Context): ResidentKey {
    ResidentKey(modelId, if w.resolve(c.path).Some? then w.resolve(c.path).value else c.path,
                c.layerStart, c.layerEnd, c.expectedDigest, Signature(c.chunks))
  }

  /** Drift is checked only on what the request states. */
  function MismatchOf(w: World, a: Artifact, c: Context): Option<Mismatch> {
    var path, start, end := Clean(a.localPath), OptInt(a.layerStart), OptInt(a.layerEnd);
    var expected, ranges := Clean(a.expectedDigest), LenientRanges(a);
    if path != "" && (w.resolve(path).None? || w.resolve(path) != w.resolve(c.path)) then Some(PathMismatch)
    else if start.Some? && start != c.layerStart then Some(LayerStartMismatch)
    else if end.Some? && end != c.layerEnd then Some(LayerEndMismatch)
    else if expected != "" && c.expectedDigest.Some? && c.expectedDigest.value != ""
        && expected != c.expectedDigest.value then Some(DigestMismatch)
    else if ranges != [] && ranges != c.chunks then Some(ChunksMismatch)
    else None
  }

  // ---------------------------------------------------------------- fresh resolution

  /** The simple recomputation the caches stand in for. */
  function Fresh(w: World, files: Files, r: Request): Result<Context, EngineError> {
    if r.assignment.None? then Err(AssignmentMissing)
    else
      var a := r.assignment.value;
      var path := w.resolve(RawText(a.localPath));
      if Clean(a.source) == "" then Err(SourceMissing)
      else if path.None? || path.value !in files then Err(PathUnavailable)
      else
        match ResolveCoverage(a)
        case Err(e) => Err(Contract(e))
        case Ok(coverage) =>
          match LayerCoverage(a, LayerStart(r), LayerEnd(r))
          case Err(e) => Err(Contract(e))
          case Ok(_) =>
            match DigestOf(w, files[path.value], LenientWindows(LenientRanges(a)), CleanOrNone(a.expectedDigest))
            case Err(e) => Err(Windows(e))
            case Ok(d) =>
              var declared := OptNat(a.sizeBytes);
              Ok(Context(CleanOrNone(a.artifactId), Clean(a.source), path.value,
                         if declared.Some? && declared.value != 0 then declared.value else |files[path.value]|,
                         LayerStart(r), LayerEnd(r), CleanOrNone(a.expectedDigest), LenientRanges(a),
                         d.digest, d.source, d.bytesRead, coverage))
  }

  function AsResident(c: Context): Context { c.(bytesRead := 0) }

  // ---------------------------------------------------------------- cached resolution

  function Resolve(w: World, files: Files, st: State, r: Request): (State, Resolution) {
    ResolveVia(w, st, r, Fresh(w, files, r))
  }

  /** The cache logic; `anew` is used only when both caches miss. */
  function ResolveVia(w: World, st: State, r: Request, anew: Result<Context, EngineError>): (State, Resolution) {
    var sk, rk := SessionKeyOf(r), ResidentKeyOf(w, r);
    if sk.Some? && sk.value in st.sessions then
      var cached := st.sessions[sk.value];
      var mismatch := if r.assignment.Some? then MismatchOf(w, r.assignment.value, cached) else None;
      if mismatch.Some? then (st, Refused(SessionDrifted(mismatch.value)))
      else (st, Resolved(AsResident(cached), SessionHit))
    else if rk.Some? && rk.value in st.residents then
      var resident := st.residents[rk.value];
      if MismatchOf(w, r.assignment.value, resident).Some? then (st, Refused(ResidentDrifted))
      else (if sk.Some? then st.(sessions := st.sessions[sk.value := resident]) else st,
            Resolved(AsResident(resident), ResidentHit))
    else
      match anew
      case Err(e) => (st, Refused(e))
      case Ok(c) =>
        var key := if rk.Some? then rk.value else ResidentKeyOfContext(w, ModelId(r), AsResident(c));
        (State(if sk.Some? then st.sessions[sk.value := AsResident(c)] else st.sessions,
               st.residents[key := AsResident(c)]),
         Resolved(c, Loaded))
  }

  datatype Op = Load(request: Request) | Process(request: Request) | Finalize(request: Request) | Reset

  /** One engine call.  A load without an assignment touches nothing; finalize drops the session only. */
  function Step(w: World, files: Files, st: State, op: Op): State {
    match op
    case Load(r) => if r.assignment.Some? then Resolve(w, files, st, r).0 else st
    case Process(r) => Resolve(w, files, st, r).0
    case Finalize(r) => if SessionKeyOf(r).Some? then st.(sessions := st.sessions - {SessionKeyOf(r).value}) else st
    case Reset => State(map[], map[])
  }

  function Run(w: World, files: Files, ops: seq<Op>): State {
    if ops == [] then State(map[], map[]) else Step(w, files, Run(w, files, ops[..|ops| - 1]), ops[|ops| - 1])
  }

  // ---------------------------------------------------------------- invariant

  predicate LenientCovers(c: LenientChunk, layer: int) {
    c.layerStart.Some? && c.layerEnd.Some? && 0 <= c.layerStart.value <= layer < c.layerEnd.value
  }

  ghost predicate LenientCoveredAt(chunks: seq<LenientChunk>, layer: int) {
    exists i :: 0 <= i < |chunks| && LenientCovers(chunks[i], layer)
  }

  ghost predicate CoveredFor(chunks: seq<LenientChunk>, start: Option<int>, end: Option<int>) {
    start.Some? && end.Some? ==>
      0 <= start.value < end.value && forall layer :: start.value <= layer < end.value ==>
          LenientCoveredAt(chunks, layer)
  }

  /** The context's digest is the one computed from its file. */
  predicate Digested(w: World, file: Bytes, c: Context) {
    var d := DigestOf(w, file, LenientWindows(c.chunks), c.expectedDigest);
    d.Ok? && c.digest == d.value.digest && c.digestSource == d.value.source
  }

  /** What every context in either cache satisfies, given an unchanged file store. */
  ghost predicate Sound(w: World, files: Files, c: Context) {
    && c.path in files && w.resolve(c.path) == Some(c.path)
    && Digested(w, files[c.path], c)
    && CoveredFor(c.chunks, c.layerStart, c.layerEnd)
  }

  ghost predicate Inv(w: World, files: Files, st: State) {
    && (forall k :: k in st.sessions ==>
          Sound(w, files, st.sessions[k]) && st.sessions[k].layerStart == k.layerStart
              && st.sessions[k].layerEnd == k.layerEnd)
    && (forall k :: k in st.residents ==> Sound(w, files, st.residents[k]) && Keyed(st.residents[k], k))
  }

  /** A resident context answers to its key, except for the path, which the key spells without outer white space. */
  predicate Keyed(c: Context, k: ResidentKey) {
    && c.layerStart == k.layerStart && c.layerEnd == k.layerEnd
    && c.expectedDigest == k.expectedDigest && Signature(c.chunks) == k.signature
  }

  /** Passing the sweep means every requested layer lies in a chunk the engine keeps. */
  lemma CheckedLayersAreCovered(a: Artifact, start: Option<int>, end: Option<int>)
    requires LayerCoverage(a, start, end).Ok?
    ensures CoveredFor(LenientRanges(a), start, end)
  {
    if start.Some? && end.Some? {
      var ranges, chunks := StrictRanges(a).value, LenientRanges(a);
      ParsersAgree(a);
      LayerVerdictIsExact(ranges, start.value, end.value);
      forall layer | start.value <= layer < end.value
        ensures LenientCoveredAt(chunks, layer)
      {
        assert CoveredAt(ranges, layer);
        var i :| 0 <= i < |ranges| && Covers(ranges[i], layer);
        assert SameChunk(ranges[i], chunks[i]);
        assert LenientCovers(chunks[i], layer);
      }
    }
  }

  ghost predicate FreshFacts(w: World, files: Files, r: Request, c: Context) {
    && Sound(w, files, c) && c.layerStart == LayerStart(r) && c.layerEnd == LayerEnd(r)
    && r.assignment.Some? && c.chunks == LenientRanges(r.assignment.value)
    && c.expectedDigest == CleanOrNone(r.assignment.value.expectedDigest)
    && w.resolve(RawText(r.assignment.value.localPath)) == Some(c.path)
  }

  lemma FreshIsSound(w: World, files: Files, r: Request)
    requires PathsResolve(w) && Fresh(w, files, r).Ok?
    ensures FreshFacts(w, files, r, Fresh(w, files, r).value)
  {
    CheckedLayersAreCovered(r.assignment.value, LayerStart(r), LayerEnd(r));
  }

  lemma AddSession(w: World, files: Files, st: State, k: SessionKey, c: Context)
    requires Inv(w, files, st) && Sound(w, files, c) && c.layerStart == k.layerStart && c.layerEnd == k.layerEnd
    ensures Inv(w, files, st.(sessions := st.sessions[k := c]))
  {
  }

  lemma AddResident(w: World, files: Files, st: State, k: ResidentKey, c: Context)
    requires Inv(w, files, st) && Sound(w, files, c) && Keyed(c, k)
    ensures Inv(w, files, st.(residents := st.residents[k := c]))
  {
  }

  lemma ResidentIsSound(w: World, files: Files, c: Context)
    requires Sound(w, files, c)
    ensures Sound(w, files, AsResident(c))
  {
  }

  lemma KeyFits(w: World, files: Files, r: Request, c: Context)
    requires FreshFacts(w, files, r, c)
    ensures ResidentKeyOf(w, r).Some? ==> Keyed(AsResident(c), ResidentKeyOf(w, r).value)
    ensures Keyed(AsResident(c), ResidentKeyOfContext(w, ModelId(r), AsResident(c)))
  {
  }

  lemma ResolveKeepsInv(w: World, files: Files, st: State, r: Request, anew: Result<Context, EngineError>)
    requires Inv(w, files, st) && (anew.Ok? ==> FreshFacts(w, files, r, anew.value))
    ensures Inv(w, files, ResolveVia(w, st, r, anew).0)
  {
    var sk, rk := SessionKeyOf(r), ResidentKeyOf(w, r);
    if sk.Some? && sk.value in st.sessions {
    } else if rk.Some? && rk.value in st.residents {
      if sk.Some? { AddSession(w, files, st, sk.value, st.residents[rk.value]); }
    } else if anew.Ok? {
      var c := AsResident(anew.value);
      var key := if rk.Some? then rk.value else ResidentKeyOfContext(w, ModelId(r), c);
      ResidentIsSound(w, files, anew.value);
      KeyFits(w, files, r, anew.value);
      AddResident(w, files, st, key, c);
      if sk.Some? { AddSession(w, files, st.(residents := st.residents[key := c]), sk.value, c); }
    }
  }

  lemma {:induction false} RunKeepsInv(w: World, files: Files, ops: seq<Op>)
    requires PathsResolve(w)
    ensures Inv(w, files, Run(w, files, ops))
  {
    if ops == [] {
    } else {
      var st, op := Run(w, files, ops[..|ops| - 1]), ops[|ops| - 1];
      RunKeepsInv(w, files, ops[..|ops| - 1]);
      if op.Load? || op.Process? {
        var anew := Fresh(w, files, op.request);
        if anew.Ok? { FreshIsSound(w, files, op.request); }
        ResolveKeepsInv(w, files, st, op.request, anew);
      }
    }
  }

  // ---------------------------------------------------------------- cache transparency

  /** The request writes its path in a way that `strip()` does not change what it resolves to. */
  predicate PathUnpadded(w: World, a: Artifact) {
    w.resolve(RawText(a.localPath)) == w.resolve(Clean(a.localPath))
  }

  /** The path the request means is the cached one; a blank path is compared with nothing before a session hit. */
  predicate PathAsCached(w: World, a: Artifact, cached: string) {
    if Clean(a.localPath) != "" then PathUnpadded(w, a) else w.resolve(RawText(a.localPath)) == Some(cached)
  }

  /** A request without chunk ranges does not ask for the cached ones. */
  predicate RangesAsCached(a: Artifact, cached: seq<LenientChunk>) { LenientRanges(a) == [] ==> cached == [] }

  ghost predicate Agrees(hit: Context, anew: Context) {
    && hit.path == anew.path && hit.chunks == anew.chunks
    && hit.layerStart == anew.layerStart && hit.layerEnd == anew.layerEnd
    && hit.digest == anew.digest && hit.digestSource == anew.digestSource
  }

  /** A hit is a cached context, sound and for the requested layers, that does not contradict the request. */
  lemma HitComesFromCache(w: World, files: Files, st: State, r: Request, anew: Result<Context, EngineError>)
      returns (c: Context)
    requires Inv(w, files, st)
    requires var out := ResolveVia(w, st, r, anew).1; out.Resolved? && out.how != Loaded
    ensures ResolveVia(w, st, r, anew).1.context == AsResident(c)
    ensures Sound(w, files, c) && c.layerStart == LayerStart(r) && c.layerEnd == LayerEnd(r)
    ensures r.assignment.Some? ==> MismatchOf(w, r.assignment.value, c) == None
  {
    var sk := SessionKeyOf(r);
    if sk.Some? && sk.value in st.sessions {
      c := st.sessions[sk.value];
    } else {
      c := st.residents[ResidentKeyOf(w, r).value];
    }
  }

  /** One path, one list of chunks and no contradicting digest give one window digest. */
  lemma SameDigest(w: World, files: Files, hit: Context, anew: Context)
    requires Sound(w, files, hit) && Sound(w, files, anew) && hit.path == anew.path && hit.chunks == anew.chunks
    requires hit.chunks == [] && hit.expectedDigest.Some? && anew.expectedDigest.Some? ==>
               hit.expectedDigest == anew.expectedDigest
    ensures hit.digest == anew.digest && hit.digestSource == anew.digestSource
  {
    assert LenientWindows(hit.chunks) == [] <==> hit.chunks == [];
  }

  lemma UncontradictedDigest(w: World, a: Artifact, c: Context)
    requires MismatchOf(w, a, c) == None && CleanOrNone(a.expectedDigest).Some? && c.expectedDigest.Some?
    requires c.expectedDigest.value != ""
    ensures c.expectedDigest == CleanOrNone(a.expectedDigest)
  {
  }

  lemma UncontradictedRanges(w: World, a: Artifact, c: Context)
    requires MismatchOf(w, a, c) == None
    ensures LenientRanges(a) != [] ==> c.chunks == LenientRanges(a)
    ensures Clean(a.localPath) != "" ==> w.resolve(Clean(a.localPath)) == w.resolve(c.path)
  {
  }

  /** The facts about one hit, in any state that satisfies the invariant. */
  lemma HitAgrees(w: World, files: Files, a: Artifact, r: Request, hit: Context, anew: Context)
    requires r.assignment == Some(a)
    requires Sound(w, files, hit) && hit.layerStart == LayerStart(r) && hit.layerEnd == LayerEnd(r)
    requires MismatchOf(w, a, hit) == None && FreshFacts(w, files, r, anew)
    ensures Agrees(hit, anew) <==> PathAsCached(w, a, hit.path) && RangesAsCached(a, hit.chunks)
  {
    UncontradictedRanges(w, a, hit);
    assert hit.chunks == anew.chunks <==> RangesAsCached(a, hit.chunks);
    assert hit.path == anew.path <==> PathAsCached(w, a, hit.path);
    if hit.path == anew.path && hit.chunks == anew.chunks {
      if hit.chunks == [] && hit.expectedDigest.Some? && anew.expectedDigest.Some? {
        EmptyWindowsDigest(w, files[hit.path], hit);
        UncontradictedDigest(w, a, hit);
      }
      SameDigest(w, files, hit, anew);
    }
  }

  lemma EmptyWindowsDigest(w: World, file: Bytes, c: Context)
    requires Digested(w, file, c) && c.chunks == []
    ensures c.expectedDigest.Some? && c.expectedDigest.value != ""
  {
    assert LenientWindows(c.chunks) == [];
  }

  /**
   Cache transparency after any run: a session or resident hit that is not refused reads no bytes, is for exactly
   the requested layers with every one of them in a kept chunk, and agrees with a fresh resolution that succeeds
   exactly when the request's path means the cached one and a request without chunk ranges meets none.
   */
  lemma CacheIsTransparent(w: World, files: Files, ops: seq<Op>, r: Request)
    requires PathsResolve(w) && r.assignment.Some?
    requires var out := Resolve(w, files, Run(w, files, ops), r).1; out.Resolved? && out.how != Loaded
    ensures var hit, anew := Resolve(w, files, Run(w, files, ops), r).1.context, Fresh(w, files, r);
            && hit.bytesRead == 0
            && hit.layerStart == LayerStart(r) && hit.layerEnd == LayerEnd(r)
            && CoveredFor(hit.chunks, LayerStart(r), LayerEnd(r))
            && (anew.Ok? ==>
                  (Agrees(hit, anew.value) <==>
                     PathAsCached(w, r.assignment.value, hit.path) && RangesAsCached(r.assignment.value, hit.chunks)))
  {
    RunKeepsInv(w, files, ops);
    var anew := Fresh(w, files, r);
    var c := HitComesFromCache(w, files, Run(w, files, ops), r, anew);
    if anew.Ok? {
      FreshIsSound(w, files, r);
      HitAgrees(w, files, r.assignment.value, r, c, anew.value);
    }
  }

  /** Every accepted resolution, hit or not, keeps the request's own chunks and covers its layers. */
  lemma AcceptedResolutionsAreCovered(w: World, files: Files, ops: seq<Op>, r: Request)
    requires PathsResolve(w)
    requires Resolve(w, files, Run(w, files, ops), r).1.Resolved?
    ensures var out := Resolve(w, files, Run(w, files, ops), r).1;
            && CoveredFor(out.context.chunks, LayerStart(r), LayerEnd(r))
            && (out.how == Loaded <==> !Cached(w, Run(w, files, ops), r))
            && (out.how == Loaded ==> Fresh(w, files, r) == Ok(out.context))
            && (r.assignment.Some? && LenientRanges(r.assignment.value) != [] ==>
                out.context.chunks == LenientRanges(r.assignment.value))
  {
    RunKeepsInv(w, files, ops);
    var st, anew := Run(w, files, ops), Fresh(w, files, r);
    LoadedWhenNotCached(w, st, r, anew);
    if anew.Ok? { FreshIsSound(w, files, r); }
    AcceptedContext(w, files, st, r, anew);
  }

  lemma AcceptedContext(w: World, files: Files, st: State, r: Request, anew: Result<Context, EngineError>)
    requires Inv(w, files, st) && (anew.Ok? ==> FreshFacts(w, files, r, anew.value))
    requires ResolveVia(w, st, r, anew).1.Resolved?
    ensures var c := ResolveVia(w, st, r, anew).1.context;
            && CoveredFor(c.chunks, LayerStart(r), LayerEnd(r))
            && (r.assignment.Some? && LenientRanges(r.assignment.value) != [] ==>
                c.chunks == LenientRanges(r.assignment.value))
  {
    LoadedWhenNotCached(w, st, r, anew);
    if ResolveVia(w, st, r, anew).1.how != Loaded {
      var c := HitComesFromCache(w, files, st, r, anew);
      if r.assignment.Some? { UncontradictedRanges(w, r.assignment.value, c); }
    }
  }

  lemma LoadedWhenNotCached(w: World, st: State, r: Request, anew: Result<Context, EngineError>)
    requires ResolveVia(w, st, r, anew).1.Resolved?
    ensures var out := ResolveVia(w, st, r, anew).1;
            (out.how == Loaded <==> !Cached(w, st, r)) && (out.how == Loaded ==> anew == Ok(out.context))
  {
  }

  predicate Cached(w: World, st: State, r: Request) {
    || (SessionKeyOf(r).Some? && SessionKeyOf(r).value in st.sessions)
    || (ResidentKeyOf(w, r).Some? && ResidentKeyOf(w, r).value in st.residents)
  }

  /** A request for one one-byte chunk of the file at `path`, without layer bounds. */
  function PlainRequest(session: string, source: string, path: string): Request {
    Request(Absent, Section(Text(session), Null, Null, Null),
            Some(Artifact(Null, Text(source), Text(path), Null, Null, Null, Null, PlainChunks(), NoCoverage)))
  }

  function PlainChunks(): ChunkList { Items([Item(Null, Num(0), Num(1), Null, Null, Null, Null)]) }

  lemma PlainDigest(w: World, file: Bytes, a: Artifact)
    requires file != [] && a.chunkRanges == PlainChunks()
    ensures LenientRanges(a) != [] && DigestOf(w, file, LenientWindows(LenientRanges(a)), None).Ok?
  {
    var items := a.chunkRanges.items;
    assert items[1..] == [] && LenientItems(items[1..]) == [];
    var chunk := LenientItem(items[0]).value;
    assert LenientRanges(a) == [chunk] && chunk.offset == 0 && chunk.size == 1;
    var windows := LenientWindows([chunk]);
    assert windows[1..] == [] && HashedWindows(w, file, windows[1..]) == Ok([]);
    assert ExpectedHash(windows[0].sha) == "";
  }

  lemma PlainRequestResolves(w: World, files: Files, session: string, source: string, path: string)
    requires Strip(source) != "" && source != "" && Strip(source) != "materialized_assignment"
    requires path != "" && w.resolve(path).Some? && w.resolve(path).value in files && files[w.resolve(path).value] != []
    ensures var out := Fresh(w, files, PlainRequest(session, source, path));
            && out.Ok? && out.value.path == w.resolve(path).value && out.value.expectedDigest == None
            && out.value.chunks == LenientRanges(PlainRequest(session, source, path).assignment.value)
  {
    PlainDigest(w, files[w.resolve(path).value], PlainRequest(session, source, path).assignment.value);
  }

  /** Two spellings of a path that `strip()` identifies but that name different files. */
  lemma PaddedPathHit(w: World, files: Files, session: string, source: string, path: string, padded: string)
    requires PathsResolve(w) && path != "" && Strip(padded) == path == Strip(path)
    requires session != "" && Strip(session) != "" && source != "" && Strip(source) != ""
    requires Strip(source) != "materialized_assignment"
    requires w.resolve(path).Some? && w.resolve(path).value in files && files[w.resolve(path).value] != []
    requires w.resolve(padded).Some? && w.resolve(padded).value in files && files[w.resolve(padded).value] != []
    requires w.resolve(path) != w.resolve(padded)
    ensures var r := PlainRequest(session, source, padded);
            var out := Resolve(w, files, Run(w, files, [Load(PlainRequest(session, source, path))]), r).1;
            && out.Resolved? && out.how == SessionHit && Fresh(w, files, r).Ok?
            && !Agrees(out.context, Fresh(w, files, r).value)
  {
    var first, r := PlainRequest(session, source, path), PlainRequest(session, source, padded);
    PlainRequestResolves(w, files, session, source, path);
    PlainRequestResolves(w, files, session, source, padded);
    var loaded := AsResident(Fresh(w, files, first).value);
    PlainKeys(session, source, path, padded);
    var st := Run(w, files, [Load(first)]);
    FirstLoad(w, files, first);
    PaddedMatches(w, session, source, path, padded, loaded);
    SessionHitOf(w, st, r, Fresh(w, files, r));
  }

  lemma PlainKeys(session: string, source: string, path: string, padded: string)
    requires session != "" && Strip(session) != ""
    ensures SessionKeyOf(PlainRequest(session, source, path)).Some?
    ensures SessionKeyOf(PlainRequest(session, source, padded)) == SessionKeyOf(PlainRequest(session, source, path))
  {
  }

  lemma PaddedMatches(w: World, session: string, source: string, path: string, padded: string, c: Context)
    requires PathsResolve(w) && path != "" && Strip(padded) == path && w.resolve(path) == Some(c.path)
    requires c.expectedDigest == None && c.chunks == LenientRanges(PlainRequest(session, source, path).assignment.value)
    ensures MismatchOf(w, PlainRequest(session, source, padded).assignment.value, c) == None
  {
    assert LenientRanges(PlainRequest(session, source, padded).assignment.value) == c.chunks;
  }

  lemma FirstLoad(w: World, files: Files, r: Request)
    requires r.assignment.Some? && SessionKeyOf(r).Some? && Fresh(w, files, r).Ok?
    ensures Run(w, files, [Load(r)]).sessions == map[SessionKeyOf(r).value := AsResident(Fresh(w, files, r).value)]
  {
    assert [Load(r)][..0] == [];
    assert Run(w, files, []) == State(map[], map[]);
  }

  lemma SessionHitOf(w: World, st: State, r: Request, anew: Result<Context, EngineError>)
    requires r.assignment.Some? && SessionKeyOf(r).Some? && SessionKeyOf(r).value in st.sessions
    requires MismatchOf(w, r.assignment.value, st.sessions[SessionKeyOf(r).value]) == None
    ensures ResolveVia(w, st, r, anew).1 == Resolved(AsResident(st.sessions[SessionKeyOf(r).value]), SessionHit)
  {
  }

  /** A file system without links: a path with outer white space names another file. */
  function PaddedWorld(): World {
    var zeros: Digest := seq(64, i => '0');
    World(b => zeros, t => [], p => Some(p))
  }

  lemma PaddedWorldResolves(p: string)
    ensures PathsResolve(PaddedWorld()) && PaddedWorld().resolve(p) == Some(p)
  {
  }

  lemma PaddingStrips()
    ensures Strip(" a") == "a"
  {
    assert StripLeft(" a", 2) == StripLeft(" a", 1) == "a" by { assert " a"[1..] == "a"; }
  }

  lemma NamesAreTrimmed(s: string)
    requires |s| == 1 && !IsSpace(s[0])
    ensures Strip(s) == s && s != "" && s != "materialized_assignment"
  {
  }

  lemma PaddedWorldDisagrees(files: Files, session: string, source: string, path: string, padded: string)
    requires files == map[path := [1], padded := [2]] && Strip(padded) == path == Strip(path) && path != padded
    requires path != "" && session != "" && Strip(session) != "" && source != "" && Strip(source) != ""
    requires Strip(source) != "materialized_assignment"
    ensures var w, r := PaddedWorld(), PlainRequest(session, source, padded);
            var out := Resolve(w, files, Run(w, files, [Load(PlainRequest(session, source, path))]), r).1;
            && out.Resolved? && out.how == SessionHit && Fresh(w, files, r).Ok?
            && !Agrees(out.context, Fresh(w, files, r).value)
  {
    PaddedWorldResolves(path);
    PaddedWorldResolves(padded);
    PaddedPathHit(PaddedWorld(), files, session, source, path, padded);
  }

  /** Why the path condition is needed: " a" hits the session loaded for "a", but names another file. */
  lemma PaddedPathDisagrees() returns (w: World, files: Files, ops: seq<Op>, r: Request)
    ensures PathsResolve(w)
    ensures var out := Resolve(w, files, Run(w, files, ops), r).1;
            && out.Resolved? && out.how == SessionHit && Fresh(w, files, r).Ok?
            && !Agrees(out.context, Fresh(w, files, r).value)
  {
    var session, source, path, padded := "t", "s", "a", " a";
    w, files := PaddedWorld(), map[path := [1], padded := [2]];
    ops, r := [Load(PlainRequest(session, source, path))], PlainRequest(session, source, padded);
    PaddedWorldResolves(path);
    PaddingStrips();
    NamesAreTrimmed(session);
    NamesAreTrimmed(source);
    NamesAreTrimmed(path);
    PaddedWorldDisagrees(files, session, source, path, padded);
  }

  // ---------------------------------------------------------------- the engine process

  /** The engine process: two module-level dictionaries. */
  class Engine {
    var sessions: map<SessionKey, Context>
    var residents: map<ResidentKey, Context>

    ghost function Abstract(): State
      reads this
    {
      State(sessions, residents)
    }

    constructor ()
      ensures Abstract() == State(map[], map[])
    {
      sessions, residents := map[], map[];
    }

    method FreshContext(w: World, files: Files, r: Request) returns (out: Result<Context, EngineError>)
      ensures out == Fresh(w, files, r)
    {
      if r.assignment.None? {
        return Err(AssignmentMissing);
      }
      var a := r.assignment.value;
      if Clean(a.source) == "" {
        return Err(SourceMissing);
      }
      var path := w.resolve(RawText(a.localPath));
      if path.None? || path.value !in files {
        return Err(PathUnavailable);
      }
      var chunks := ParseLenientRanges(a);
      var coverage := ResolveCoverage(a);
      if coverage.Err? {
        return Err(Contract(coverage.error));
      }
      var layers := ValidateLayerCoverage(a, LayerStart(r), LayerEnd(r));
      if layers.Err? {
        return Err(Contract(layers.error));
      }
      var expected := CleanOrNone(a.expectedDigest);
      var digest := EngineWindowDigest(w, files[path.value], chunks, expected);
      if digest.Err? {
        return Err(Windows(digest.error));
      }
      var size := OptNat(a.sizeBytes);
      var bytes: nat := |files[path.value]|;
      if size.Some? && size.value != 0 {
        bytes := size.value;
      }
      return Ok(Context(CleanOrNone(a.artifactId), Clean(a.source), path.value, bytes, LayerStart(r), LayerEnd(r),
                        expected, chunks, digest.value.digest, digest.value.source, digest.value.bytesRead,
                        coverage.value));
    }

    method ResolveContext(w: World, files: Files, r: Request) returns (out: Resolution)
      modifies this
      ensures (Abstract(), out) == Resolve(w, files, old(Abstract()), r)
    {
      var sk, rk := SessionKeyOf(r), ResidentKeyOf(w, r);
      if sk.Some? && sk.value in sessions {
        var cached := sessions[sk.value];
        if r.assignment.Some? {
          var mismatch := MismatchOf(w, r.assignment.value, cached);
          if mismatch.Some? {
            return Refused(SessionDrifted(mismatch.value));
          }
        }
        return Resolved(AsResident(cached), SessionHit);
      }
      if rk.Some? && rk.value in residents {
        var resident := residents[rk.value];
        if MismatchOf(w, r.assignment.value, resident).Some? {
          return Refused(ResidentDrifted);
        }
        if sk.Some? {
          sessions := sessions[sk.value := resident];
        }
        return Resolved(AsResident(resident), ResidentHit);
      }
      var anew := FreshContext(w, files, r);
      if anew.Err? {
        return Refused(anew.error);
      }
      var resident := AsResident(anew.value);
      var key := if rk.Some? then rk.value else ResidentKeyOfContext(w, ModelId(r), resident);
      residents := residents[key := resident];
      if sk.Some? {
        sessions := sessions[sk.value := resident];
      }
      return Resolved(anew.value, Loaded);
    }

    method LoadShard(w: World, files: Files, r: Request) returns (out: Option<Resolution>)
      modifies this
      ensures Abstract() == Step(w, files, old(Abstract()), Load(r))
      ensures out == if r.assignment.Some? then Some(Resolve(w, files, old(Abstract()), r).1) else None
    {
      if r.assignment.None? {
        return None;
      }
      var resolution := ResolveContext(w, files, r);
      return Some(resolution);
    }

    method FinalizeSession(w: World, files: Files, r: Request) returns (released: Option<Context>)
      modifies this`sessions
      ensures Abstract() == Step(w, files, old(Abstract()), Finalize(r))
      ensures released.Some? <==> SessionKeyOf(r).Some? && SessionKeyOf(r).value in old(sessions)
      ensures released.Some? ==> released.value == old(sessions)[SessionKeyOf(r).value]
    {
      var key := SessionKeyOf(r);
      released := None;
      if key.Some? {
        if key.value in sessions {
          released := Some(sessions[key.value]);
        }
        sessions := sessions - {key.value};
      }
    }
  }
}
