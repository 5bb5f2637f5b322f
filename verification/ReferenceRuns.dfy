/**
 Runs of the reference binary with restarts at any points: the in-memory table is only a copy of what is
 on disk, so losing it changes nothing that a caller can see except where the context came from.
 */
module ReferenceRuns {
  import opened PyValue
  import opened ArtifactContract
  import opened ChunkWindows
  import opened ReferenceSession
  import opened Handoff
  import opened ReferenceBinary

  // ---------------------------------------------------------------- what is assumed of host and callers

  /** One shard per session id and a fixed workspace: the slot every request of a session names. */
  type Plan = string -> Slot

  function Home(h: Host, plan: Plan, s: string): string { h.sessionFile(plan(s)) }

  function ReceiptHome(h: Host, plan: Plan, s: string): string { h.receiptFile(plan(s)) }

  /** A document that the binary writes is read back. */
  ghost predicate Faithful(h: Host) {
    && (forall c :: h.loadSession(h.dumpSession(WriteSession(c))) == Some(WriteSession(c)))
    && (forall c, r, sha, digest ::
          h.loadReceipt(h.dumpReceipt(ReceiptOf(c, r, sha, digest))) == Some(ReceiptOf(c, r, sha, digest)))
    && (forall c, source, r, kind, path, state, digest ::
          var doc := ManifestDocOf(h, c, source, r, kind, path, state, digest);
          h.loadManifest(h.dumpManifest(doc)) == Some(doc.manifest))
  }

  /** Paths resolve to themselves once resolved, and so do the names of a session's files. */
  ghost predicate StablePaths(h: Host) {
    && PathsResolve(h.world)
    && (forall slot :: PathKept(h.world, h.receiptFile(slot)))
    && (forall d, k :: PathKept(h.world, h.preparedFile(d, k)))
  }

  /** Files of different sessions, and the three sorts of files, have different names. */
  ghost predicate Separate(h: Host, plan: Plan) {
    && (forall s, t :: Home(h, plan, s) == Home(h, plan, t) ==> s == t)
    && (forall s, t :: ReceiptHome(h, plan, s) == ReceiptHome(h, plan, t) ==> s == t)
    && (forall s, t :: Home(h, plan, s) != ReceiptHome(h, plan, t))
    && (forall s, d, k :: Home(h, plan, s) != h.preparedFile(d, k))
    && (forall s, d, k :: ReceiptHome(h, plan, s) != h.preparedFile(d, k))
  }

  ghost predicate Sound(h: Host, plan: Plan) { Faithful(h) && StablePaths(h) && Separate(h, plan) }

  ghost predicate NotControl(h: Host, plan: Plan, path: string) {
    forall s :: path != Home(h, plan, s) && path != ReceiptHome(h, plan, s)
  }

  /** The artifact a load names resolves to a path that is still the same after its outer white space is stripped. */
  predicate LoadsKeptPath(h: Host, r: Request) {
    r.action == LoadShard && r.assignment.Some? ==>
      var local := NeedPath(h.world, r.assignment.value.localPath, LocalPathField);
      local.Ok? ==> PathKept(h.world, local.value)
  }

  /** The request names its session's slot, loads only what can be stored and puts its outputs elsewhere. */
  ghost predicate Disciplined(h: Host, plan: Plan, r: Request) {
    && (SlotOf(h, r).Ok? ==> SlotOf(h, r).value == plan(Clean(r.sessionId)))
    && LoadsKeptPath(h, r)
    && (r.targets.Some? ==>
          && NotControl(h, plan, h.absolute(Clean(r.targets.value.outputPayloadPath)))
          && NotControl(h, plan, h.absolute(Clean(r.targets.value.outputStateFilePath))))
  }

  // ---------------------------------------------------------------- the invariant

  predicate IsDigest(s: string) { |s| == 64 && forall i :: 0 <= i < |s| ==> IsHex(s[i]) }

  /** The shard is one that session `s` can have. */
  ghost predicate Fits(h: Host, plan: Plan, s: string, c: Shard) {
    && Storable(h.world, c)
    && c.sessionId == s
    && c.modelId == plan(s).modelId
    && c.layerStart == plan(s).layerStart
    && c.layerEnd == plan(s).layerEnd
    && c.sessionPath == Home(h, plan, s) && c.receiptPath == ReceiptHome(h, plan, s)
    && c.window.path == h.preparedFile(plan(s).dir, c.facts.digest) && IsDigest(c.window.sha)
  }

  /** The session file of `s` holds exactly this shard. */
  ghost predicate Recorded(h: Host, plan: Plan, files: Files, s: string, c: Shard) {
    && Home(h, plan, s) in files && files[Home(h, plan, s)] == h.dumpSession(WriteSession(c))
    && Fits(h, plan, s, c)
  }

  /** A session file, if there is one, is readable and is the binary's own. */
  ghost predicate DiskOk(h: Host, plan: Plan, files: Files, s: string) {
    Home(h, plan, s) in files ==>
      var c := FromDiskFile(h, files, Home(h, plan, s));
      c.Ok? && Recorded(h, plan, files, s, c.value)
  }

  /** Memory implies an equal disk record. */
  ghost predicate Inv(h: Host, plan: Plan, st: State) {
    && (forall s :: s in st.loaded ==> Recorded(h, plan, st.files, s, st.loaded[s]))
    && (forall s :: DiskOk(h, plan, st.files, s))
  }

  lemma RecordedReads(h: Host, plan: Plan, files: Files, s: string, c: Shard)
    requires Sound(h, plan) && Recorded(h, plan, files, s, c)
    ensures FromDiskFile(h, files, Home(h, plan, s)) == Ok(c)
  {
    SessionRoundTrip(h.world, c);
  }

  predicate SameAt(f: Files, g: Files, path: string) {
    (path in f <==> path in g) && (path in f ==> f[path] == g[path])
  }

  lemma RecordedStays(h: Host, plan: Plan, f: Files, g: Files, s: string, c: Shard)
    requires Recorded(h, plan, f, s, c) && SameAt(f, g, Home(h, plan, s))
    ensures Recorded(h, plan, g, s, c)
  {
  }

  lemma DiskStaysOk(h: Host, plan: Plan, f: Files, g: Files, s: string)
    requires DiskOk(h, plan, f, s) && (SameAt(f, g, Home(h, plan, s)) || Home(h, plan, s) !in g)
    ensures DiskOk(h, plan, g, s)
  {
    if Home(h, plan, s) in g { RecordedStays(h, plan, f, g, s, FromDiskFile(h, f, Home(h, plan, s)).value); }
  }

  /** Files that are no session file may come and go. */
  lemma InvOtherFiles(h: Host, plan: Plan, st: State, files: Files)
    requires Inv(h, plan, st)
    requires forall s :: SameAt(st.files, files, Home(h, plan, s))
    ensures Inv(h, plan, State(st.loaded, files))
  {
    forall s ensures DiskOk(h, plan, files, s) { DiskStaysOk(h, plan, st.files, files, s); }
    forall s | s in st.loaded ensures Recorded(h, plan, files, s, st.loaded[s]) {
      RecordedStays(h, plan, st.files, files, s, st.loaded[s]);
    }
  }

  lemma InvRemember(h: Host, plan: Plan, st: State, s: string, c: Shard)
    requires Inv(h, plan, st) && Recorded(h, plan, st.files, s, c)
    ensures Inv(h, plan, State(st.loaded[s := c], st.files))
  {
  }

  lemma OthersStay(h: Host, plan: Plan, files: Files, s: string, t: string, bytes: Bytes)
    requires Separate(h, plan) && s != t
    ensures SameAt(files, files[Home(h, plan, s) := bytes], Home(h, plan, t))
  {
    assert Home(h, plan, s) != Home(h, plan, t);
  }

  lemma RecordIsOk(h: Host, plan: Plan, files: Files, s: string, c: Shard)
    requires Sound(h, plan) && Fits(h, plan, s, c)
    ensures var after := files[Home(h, plan, s) := h.dumpSession(WriteSession(c))];
            Recorded(h, plan, after, s, c) && DiskOk(h, plan, after, s)
  {
    RecordedReads(h, plan, files[Home(h, plan, s) := h.dumpSession(WriteSession(c))], s, c);
  }

  lemma DiskAfterRecord(h: Host, plan: Plan, files: Files, s: string, c: Shard, t: string)
    requires Sound(h, plan) && Fits(h, plan, s, c) && DiskOk(h, plan, files, t)
    ensures DiskOk(h, plan, files[Home(h, plan, s) := h.dumpSession(WriteSession(c))], t)
  {
    if t == s {
      RecordIsOk(h, plan, files, s, c);
    } else {
      OthersStay(h, plan, files, s, t, h.dumpSession(WriteSession(c)));
      DiskStaysOk(h, plan, files, files[Home(h, plan, s) := h.dumpSession(WriteSession(c))], t);
    }
  }

  lemma MemoryAfterRecord(h: Host, plan: Plan, files: Files, s: string, c: Shard, t: string, d: Shard)
    requires Sound(h, plan) && Fits(h, plan, s, c) && (if t == s then d == c else Recorded(h, plan, files, t, d))
    ensures Recorded(h, plan, files[Home(h, plan, s) := h.dumpSession(WriteSession(c))], t, d)
  {
    if t == s {
      RecordIsOk(h, plan, files, s, c);
    } else {
      OthersStay(h, plan, files, s, t, h.dumpSession(WriteSession(c)));
      RecordedStays(h, plan, files, files[Home(h, plan, s) := h.dumpSession(WriteSession(c))], t, d);
    }
  }

  lemma InvFrom(h: Host, plan: Plan, loaded: map<string, Shard>, files: Files)
    requires forall t :: t in loaded ==> Recorded(h, plan, files, t, loaded[t])
    requires forall t :: DiskOk(h, plan, files, t)
    ensures Inv(h, plan, State(loaded, files))
  {
  }

  lemma InvRecord(h: Host, plan: Plan, st: State, s: string, c: Shard)
    requires Sound(h, plan) && Inv(h, plan, st) && Fits(h, plan, s, c)
    ensures Inv(h, plan, State(st.loaded[s := c], st.files[Home(h, plan, s) := h.dumpSession(WriteSession(c))]))
  {
    var loaded, files := st.loaded[s := c], st.files[Home(h, plan, s) := h.dumpSession(WriteSession(c))];
    forall t ensures DiskOk(h, plan, files, t) { DiskAfterRecord(h, plan, st.files, s, c, t); }
    forall t | t in loaded ensures Recorded(h, plan, files, t, loaded[t]) {
      MemoryAfterRecord(h, plan, st.files, s, c, t, loaded[t]);
    }
    InvFrom(h, plan, loaded, files);
  }

  lemma InvForget(h: Host, plan: Plan, st: State, s: string, gone: set<string>)
    requires Inv(h, plan, st)
    requires forall t :: t != s ==> Home(h, plan, t) !in gone
    ensures Inv(h, plan, State(st.loaded - {s}, st.files - gone))
  {
    forall t ensures DiskOk(h, plan, st.files - gone, t) { DiskStaysOk(h, plan, st.files, st.files - gone, t); }
    forall t | t in st.loaded && t != s ensures Recorded(h, plan, st.files - gone, t, st.loaded[t]) {
      RecordedStays(h, plan, st.files, st.files - gone, t, st.loaded[t]);
    }
  }

  // ---------------------------------------------------------------- what a load stores can be read back

  lemma {:induction false} StrictNamesAreKept(items: seq<Value>)
    requires StrictNames(items).Ok?
    ensures AllKept(StrictNames(items).value)
  {
    if items == [] {
    } else {
      StrictNamesAreKept(items[1..]);
    }
  }

  ghost predicate TensorsKept(ranges: seq<ChunkRange>) { forall i :: 0 <= i < |ranges| ==> AllKept(ranges[i].tensors) }

  lemma ItemTensorsAreKept(item: ChunkItem)
    requires item.Item? && StrictItem(item).Ok?
    ensures AllKept(StrictItem(item).value.tensors)
  {
    if item.tensorNames.List? && StrictNames(item.tensorNames.items).Ok? { StrictNamesAreKept(item.tensorNames.items); }
  }

  lemma {:induction false} StrictTensorsAreKept(items: seq<ChunkItem>)
    requires StrictItems(items).Ok?
    ensures TensorsKept(StrictItems(items).value)
  {
    if items == [] {
    } else {
      StrictTensorsAreKept(items[1..]);
      if items[0].Item? { ItemTensorsAreKept(items[0]); }
    }
  }

  lemma {:induction false} AllNamesAreKept(ranges: seq<ChunkRange>)
    requires TensorsKept(ranges)
    ensures AllKept(AllNames(ranges))
  {
    if ranges == [] {
    } else {
      AllNamesAreKept(ranges[..|ranges| - 1]);
      assert AllKept(ranges[|ranges| - 1].tensors);
    }
  }

  lemma {:induction false} DistinctKeeps(names: seq<string>)
    requires AllKept(names)
    ensures AllKept(Distinct(names))
  {
    if names == [] {
    } else {
      DistinctKeeps(names[..|names| - 1]);
      assert Kept(names[|names| - 1]);
    }
  }

  lemma LoadedTensorsAreKept(a: Artifact)
    requires StrictRanges(a).Ok?
    ensures AllKept(Distinct(AllNames(StrictRanges(a).value)))
  {
    if a.chunkRanges.Items? { StrictTensorsAreKept(a.chunkRanges.items); }
    AllNamesAreKept(StrictRanges(a).value);
    DistinctKeeps(AllNames(StrictRanges(a).value));
  }

  lemma DigestsAreKept(w: World, file: Bytes, windows: seq<Window>, expected: Option<string>)
    requires DigestOf(w, file, windows, expected).Ok? && (expected.Some? ==> Kept(expected.value))
    ensures var d := DigestOf(w, file, windows, expected).value; Kept(d.digest) && Kept(d.source)
  {
    var d := DigestOf(w, file, windows, expected).value;
    if windows != [] {
      var hex := w.sha256(HashedWindows(w, file, windows).value);
      DigestIsClean(hex);
      assert d.digest[0] == 'c' && d.digest[|d.digest| - 1] == hex[|hex| - 1];
      assert d.source[0] == 'c' && d.source[|d.source| - 1] == 's';
    } else {
      assert d.source[0] == 'e' && d.source[|d.source| - 1] == 't';
    }
  }

  lemma InspectedFactsAreStorable(h: Host, file: Bytes, a: Artifact, source: string, size: int)
    requires Inspect(h, file, a).Ok? && Kept(source)
    ensures FactsStorable(FactsOf(Inspect(h, file, a).value, source, size))
  {
    LoadedTensorsAreKept(a);
    DigestsAreKept(h.world, file, StrictWindows(StrictRanges(a).value), CleanOrNone(a.expectedDigest));
  }

  lemma WindowsAreStorable(h: Host, path: string, content: Bytes, ranges: seq<ChunkRange>)
    requires PathKept(h.world, path)
    ensures WindowStorable(h.world, WindowOf(h, path, content, ranges))
  {
    DigestIsClean(h.world.sha256(content));
    var mode := WindowOf(h, path, content, ranges).mode;
    assert mode[0] == (if ranges == [] then 'f' else 'c') && mode[|mode| - 1] == (if ranges == [] then 't' else 's');
  }

  lemma AssembledParts(h: Host, r: Request, a: Artifact, local: string, size: int, i: Inspection, dir: string,
                       window: ShardWindow)
    requires Assemble(h, r, a, local, size, i, dir, window).Ok?
    ensures var c := Assemble(h, r, a, local, size, i, dir, window).value; c.localPath == local && c.window == window
  {
  }

  /** Where a prepared shard comes from and what was written for it. */
  lemma PreparedParts(h: Host, files: Files, r: Request, c: Shard)
    requires Prepare(h, files, r).1 == Ok(c)
    ensures Located(h, files, r) == Ok(c.localPath)
    ensures var plan := PlanCopy(h, files[c.localPath], r, r.assignment.value);
            && plan.Ok? && Prepare(h, files, r).0 == files[plan.value.path := plan.value.copy.content]
            && c.window == WindowOf(h, plan.value.path, plan.value.copy.content, plan.value.seen.ranges)
  {
    var local, a := Located(h, files, r).value, r.assignment.value;
    var p := PlanCopy(h, files[local], r, a).value;
    AssembledParts(h, r, a, local, |files[p.path := p.copy.content][local]|, p.seen, p.dir,
                   WindowOf(h, p.path, p.copy.content, p.seen.ranges));
  }

  lemma AssembledIsStorable(h: Host, r: Request, a: Artifact, file: Bytes, local: string, size: int, dir: string,
                            window: ShardWindow)
    requires StablePaths(h) && Inspect(h, file, a).Ok? && WindowStorable(h.world, window)
    requires Assemble(h, r, a, local, size, Inspect(h, file, a).value, dir, window).Ok?
    ensures var c := Assemble(h, r, a, local, size, Inspect(h, file, a).value, dir, window).value;
            c.localPath == local && (Storable(h.world, c) <==> PathKept(h.world, local))
  {
    InspectedFactsAreStorable(h, file, a, Clean(a.source), size);
  }

  /** A prepared shard survives being stored exactly when its artifact's path does. */
  lemma PreparedIsStorable(h: Host, files: Files, r: Request)
    requires StablePaths(h) && Prepare(h, files, r).1.Ok?
    ensures var c := Prepare(h, files, r).1.value; Storable(h.world, c) <==> PathKept(h.world, c.localPath)
  {
    var local, a := Located(h, files, r).value, r.assignment.value;
    var p := PlanCopy(h, files[local], r, a).value;
    WindowsAreStorable(h, p.path, p.copy.content, p.seen.ranges);
    AssembledIsStorable(h, r, a, files[local], local, |files[p.path := p.copy.content][local]|, p.dir,
                        WindowOf(h, p.path, p.copy.content, p.seen.ranges));
  }

  lemma AssembledIsPlanned(h: Host, plan: Plan, r: Request, a: Artifact, i: Inspection, local: string, size: int,
                           dir: string, window: ShardWindow)
    requires Disciplined(h, plan, r) && WorkspaceOf(h, r) == Ok(dir) && IsDigest(window.sha)
    requires window.path == h.preparedFile(dir, i.digest.digest)
    requires Assemble(h, r, a, local, size, i, dir, window).Ok?
    ensures var c := Assemble(h, r, a, local, size, i, dir, window).value;
            Storable(h.world, c) ==> Fits(h, plan, c.sessionId, c)
  {
  }

  lemma PreparedIsPlanned(h: Host, plan: Plan, files: Files, r: Request)
    requires Disciplined(h, plan, r) && Prepare(h, files, r).1.Ok?
    ensures var c := Prepare(h, files, r).1.value; Storable(h.world, c) ==> Fits(h, plan, c.sessionId, c)
  {
    var local, a := Located(h, files, r).value, r.assignment.value;
    var p := PlanCopy(h, files[local], r, a).value;
    AssembledIsPlanned(h, plan, r, a, p.seen, local, |files[p.path := p.copy.content][local]|, p.dir,
                       WindowOf(h, p.path, p.copy.content, p.seen.ranges));
  }

  lemma PreparedPathIsNamed(h: Host, files: Files, r: Request)
    requires r.action == LoadShard && LoadsKeptPath(h, r) && Prepare(h, files, r).1.Ok?
    ensures PathKept(h.world, Prepare(h, files, r).1.value.localPath)
  {
    PreparedParts(h, files, r, Prepare(h, files, r).1.value);
  }

  /** A shard that a load prepared survives being stored and belongs to its session. */
  lemma PreparedShardFits(h: Host, plan: Plan, files: Files, r: Request)
    requires Sound(h, plan) && Disciplined(h, plan, r) && r.action == LoadShard && Prepare(h, files, r).1.Ok?
    ensures var c := Prepare(h, files, r).1.value; Fits(h, plan, c.sessionId, c)
  {
    PreparedPathIsNamed(h, files, r);
    PreparedIsStorable(h, files, r);
    PreparedIsPlanned(h, plan, files, r);
  }

  // ---------------------------------------------------------------- every request keeps the invariant

  lemma LoadKeepsInv(h: Host, plan: Plan, st: State, r: Request)
    requires Sound(h, plan) && Inv(h, plan, st) && Disciplined(h, plan, r) && r.action == LoadShard
    ensures Inv(h, plan, LoadStep(h, st, r).0)
  {
    var (files, result) := Prepare(h, st.files, r);
    InvOtherFiles(h, plan, st, files);
    if result.Ok? {
      PreparedShardFits(h, plan, st.files, r);
      InvRecord(h, plan, State(st.loaded, files), result.value.sessionId, result.value);
    }
  }

  lemma CheckedMatches(h: Host, r: Request, found: Found)
    requires Checked(h, r, found).Ok?
    ensures Checked(h, r, found) == Ok(found) && Need(r.sessionId, SessionIdField) == Ok(found.shard.sessionId)
  {
  }

  /** The shard a process request works on is the recorded one, wherever it was found. */
  lemma RecalledIsRecorded(h: Host, plan: Plan, st: State, r: Request)
    requires Sound(h, plan) && Inv(h, plan, st) && Disciplined(h, plan, r) && Recall(h, st, r).Ok?
    ensures var c := Recall(h, st, r).value.shard;
            c.sessionId == Clean(r.sessionId) && Recorded(h, plan, st.files, Clean(r.sessionId), c)
  {
    var sid := Clean(r.sessionId);
    if sid in st.loaded {
      CheckedMatches(h, r, Found(st.loaded[sid], FromMemory));
    } else {
      assert DiskOk(h, plan, st.files, sid);
      CheckedMatches(h, r, Found(FromDiskFile(h, st.files, Home(h, plan, sid)).value, FromDisk));
    }
  }

  /** The files a process request may write. */
  ghost predicate WritesOnly(f: Files, g: Files, paths: set<string>) {
    forall p :: p !in paths ==> SameAt(f, g, p)
  }

  function TargetPaths(h: Host, r: Request): set<string> {
    if r.targets.None? then {}
    else {h.absolute(Clean(r.targets.value.outputPayloadPath)), h.absolute(Clean(r.targets.value.outputStateFilePath))}
  }

  predicate OnTarget(o: Output, paths: set<string>) {
    match o
    case NoOutput(_) => true
    case Stranded(path, _) => path in paths
    case FinalOutput(path, _) => path in paths
    case StateOutput(path, _, manifestPath, _) => path in paths && manifestPath in paths
  }

  lemma FinalOnTarget(h: Host, c: Shard, r: Request, digest: Option<string>)
    ensures OnTarget(FinalOutputOf(h, c, r, digest), TargetPaths(h, r))
  {
  }

  lemma StateOnTarget(h: Host, c: Shard, source: Source, r: Request, kindText: string, payload: Bytes,
                      digest: Option<string>)
    ensures OnTarget(StateOutputOf(h, c, source, r, kindText, payload, digest), TargetPaths(h, r))
  {
  }

  lemma OutputOnTarget(h: Host, c: Shard, source: Source, r: Request, payload: Bytes, digest: Option<string>)
    ensures OnTarget(OutputOf(h, c, source, r, payload, digest), TargetPaths(h, r))
  {
    FinalOnTarget(h, c, r, digest);
    StateOnTarget(h, c, source, r, Lower(Clean(r.expectedOutputKind)), payload, digest);
  }

  lemma StoreWrites(h: Host, files: Files, o: Output, paths: set<string>)
    requires OnTarget(o, paths)
    ensures WritesOnly(files, Store(h, files, o), paths)
  {
  }

  lemma PrefillWrites(h: Host, files: Files, found: Found, r: Request)
    ensures WritesOnly(files, PrefillOn(h, files, found, r).0, TargetPaths(h, r) + {found.shard.receiptPath})
  {
    var c, payload := found.shard, PrefillInput(h, files, found.shard, r);
    if payload.Ok? {
      var inputSha := h.world.sha256(payload.value);
      var digest := ExecutionDigest(h, c, r, inputSha);
      OutputOnTarget(h, c, found.source, r, payload.value, CleanOrNone(Text(digest)));
      StoreWrites(h, files[c.receiptPath := h.dumpReceipt(ReceiptOf(c, r, inputSha, digest))],
                  OutputOf(h, c, found.source, r, payload.value, CleanOrNone(Text(digest))), TargetPaths(h, r));
    }
  }

  lemma DecodeWrites(h: Host, files: Files, found: Found, r: Request)
    ensures WritesOnly(files, DecodeOn(h, files, found, r).0, TargetPaths(h, r))
  {
    var base := DecodeInput(h, files, found.shard, r);
    if base.Ok? {
      var digest := CleanOrNone(base.value.receipt.prefillDigest);
      OutputOnTarget(h, found.shard, found.source, r, base.value.payload, digest);
      StoreWrites(h, files, OutputOf(h, found.shard, found.source, r, base.value.payload, digest), TargetPaths(h, r));
    }
  }

  lemma ProcessWrites(h: Host, files: Files, found: Found, r: Request)
    ensures WritesOnly(files, ProcessOn(h, files, found, r).0, TargetPaths(h, r) + {found.shard.receiptPath})
  {
    PrefillWrites(h, files, found, r);
    DecodeWrites(h, files, found, r);
  }

  lemma TargetsAreNoHomes(h: Host, plan: Plan, r: Request, s: string)
    requires Disciplined(h, plan, r)
    ensures Home(h, plan, s) !in TargetPaths(h, r) && ReceiptHome(h, plan, s) !in TargetPaths(h, r)
  {
  }

  lemma InvAfterWrites(h: Host, plan: Plan, st: State, files: Files, paths: set<string>)
    requires Inv(h, plan, st) && WritesOnly(st.files, files, paths)
    requires forall s :: Home(h, plan, s) !in paths
    ensures Inv(h, plan, State(st.loaded, files))
  {
    InvOtherFiles(h, plan, st, files);
  }

  lemma ProcessKeepsInv(h: Host, plan: Plan, st: State, r: Request)
    requires Sound(h, plan) && Inv(h, plan, st) && Disciplined(h, plan, r)
    ensures Inv(h, plan, ProcessStep(h, st, r).0)
  {
    if Recall(h, st, r).Ok? {
      var found := Recall(h, st, r).value;
      var c := found.shard;
      RecalledIsRecorded(h, plan, st, r);
      InvRemember(h, plan, st, c.sessionId, c);
      ProcessWrites(h, st.files, found, r);
      forall s ensures Home(h, plan, s) !in TargetPaths(h, r) + {c.receiptPath} { TargetsAreNoHomes(h, plan, r, s); }
      InvAfterWrites(h, plan, State(st.loaded[c.sessionId := c], st.files), ProcessOn(h, st.files, found, r).0,
                     TargetPaths(h, r) + {c.receiptPath});
    }
  }

  lemma DroppedIsRecorded(h: Host, plan: Plan, st: State, s: string, f: Found)
    requires Sound(h, plan) && Inv(h, plan, st) && Dropped(h, st, s, Home(h, plan, s)) == Some(Ok(f))
    ensures Recorded(h, plan, st.files, s, f.shard)
  {
    assert DiskOk(h, plan, st.files, s);
  }

  lemma DropKeepsInv(h: Host, plan: Plan, st: State, s: string, c: Shard)
    requires Sound(h, plan) && Inv(h, plan, st) && Fits(h, plan, s, c)
    ensures Inv(h, plan, State(st.loaded - {s}, st.files - {Home(h, plan, s), c.window.path, c.receiptPath}))
  {
    forall t | t != s ensures Home(h, plan, t) !in {Home(h, plan, s), c.window.path, c.receiptPath} {
      assert Home(h, plan, t) != Home(h, plan, s) && Home(h, plan, t) != ReceiptHome(h, plan, s);
    }
    InvForget(h, plan, st, s, {Home(h, plan, s), c.window.path, c.receiptPath});
  }

  lemma DiscardKeepsInv(h: Host, plan: Plan, st: State, s: string, dropped: Option<Result<Found, Error>>)
    requires Sound(h, plan) && Inv(h, plan, st) && dropped == Dropped(h, st, s, Home(h, plan, s))
    ensures Inv(h, plan, State(st.loaded - {s}, Discard(st.files, Home(h, plan, s), dropped).0))
  {
    InvUnload(h, plan, st, s);
    match dropped
    case Some(Ok(f)) =>
      DroppedIsRecorded(h, plan, st, s, f);
      DropKeepsInv(h, plan, st, s, f.shard);
    case _ =>
  }

  lemma InvUnload(h: Host, plan: Plan, st: State, s: string)
    requires Inv(h, plan, st)
    ensures Inv(h, plan, State(st.loaded - {s}, st.files))
  {
  }

  lemma FinalizeKeepsInv(h: Host, plan: Plan, st: State, r: Request)
    requires Sound(h, plan) && Inv(h, plan, st) && Disciplined(h, plan, r)
    ensures Inv(h, plan, FinalizeStep(h, st, r).0)
  {
    var s := Clean(r.sessionId);
    DiscardKeepsInv(h, plan, st, s, Dropped(h, st, s, Home(h, plan, s)));
    InvUnload(h, plan, st, s);
  }

  /** Whatever a request asks and however it ends, memory still implies an equal disk record. */
  lemma StepKeepsInv(h: Host, plan: Plan, st: State, r: Request)
    requires Sound(h, plan) && Inv(h, plan, st) && Disciplined(h, plan, r)
    ensures Inv(h, plan, Step(h, st, r).0)
  {
    match r.action {
      case LoadShard => LoadKeepsInv(h, plan, st, r);
      case Prefill => ProcessKeepsInv(h, plan, st, r);
      case DecodeStep => ProcessKeepsInv(h, plan, st, r);
      case Finalize => FinalizeKeepsInv(h, plan, st, r);
      case Unsupported =>
    }
  }

  lemma InvAfterRestart(h: Host, plan: Plan, st: State)
    requires Inv(h, plan, st)
    ensures Inv(h, plan, State(map[], st.files))
  {
  }
}
