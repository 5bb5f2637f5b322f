/**
 Restart transparency of the reference binary: any run, with the process restarted at any points, is
 seen by its callers as the run of a binary that keeps nothing in memory at all.
 */
module RestartTransparency {
  import opened PyValue
  import opened ArtifactContract
  import opened ChunkWindows
  import opened ReferenceSession
  import opened Handoff
  import opened ReferenceBinary
  import opened ReferenceRuns

  // ---------------------------------------------------------------- what a caller sees

  /** A reply without the one entry that tells where the context was found. */
  function VisibleOutput(o: Output): Output {
    match o
    case StateOutput(path, state, manifestPath, doc) =>
      if doc.manifest.metadata.Metadata? then
        StateOutput(path, state, manifestPath,
                    doc.(manifest := doc.manifest.(metadata := doc.manifest.metadata.(contextSource := Null))))
      else o
    case _ => o
  }

  function VisibleReply(r: Reply): Reply {
    match r
    case Produced(o) => Produced(VisibleOutput(o))
    case Finalized(_) => Finalized(FromNowhere)
    case _ => r
  }

  function Visible(out: Outcome): Outcome { Outcome(VisibleReply(out.reply), out.receipt) }

  // ---------------------------------------------------------------- the fence around manifests

  /** Two file stores differ at most in the given files. */
  ghost predicate Alike(manifests: set<string>, f: Files, g: Files) { WritesOnly(f, g, manifests) }

  /** The manifests are none of the binary's own files. */
  ghost predicate Fence(h: Host, plan: Plan, manifests: set<string>) {
    && (forall s :: Home(h, plan, s) !in manifests)
    && (forall s :: ReceiptHome(h, plan, s) !in manifests)
    && (forall d, k :: h.preparedFile(d, k) !in manifests)
  }

  predicate ReadsNone(h: Host, manifests: set<string>, v: Value, f: Field) {
    NeedPath(h.world, v, f).Ok? ==> NeedPath(h.world, v, f).value !in manifests
  }

  predicate IsProcess(r: Request) { r.action == Prefill || r.action == DecodeStep }

  /** The request names a workspace, reads no manifest and writes its manifest among them. */
  predicate Fenced(h: Host, manifests: set<string>, r: Request) {
    && (IsProcess(r) ==> WorkspaceOf(h, r).Ok?)
    && (r.input.Some? ==> ReadsNone(h, manifests, r.input.value.path, InputPathField))
    && (r.assignment.Some? ==> ReadsNone(h, manifests, r.assignment.value.localPath, LocalPathField))
    && (r.targets.Some? ==> h.absolute(Clean(r.targets.value.outputPayloadPath)) in manifests)
  }

  // ---------------------------------------------------------------- process requests

  lemma InputAlike(h: Host, manifests: set<string>, f: Files, g: Files, r: Request)
    requires Alike(manifests, f, g) && Fenced(h, manifests, r)
    ensures ReadInput(h, f, r.input) == ReadInput(h, g, r.input)
  {
    if r.input.Some? {
      var path := NeedPath(h.world, r.input.value.path, InputPathField);
      if path.Ok? { assert SameAt(f, g, path.value); }
    }
  }

  lemma WindowAlike(h: Host, manifests: set<string>, f: Files, g: Files, p: ShardWindow)
    requires Alike(manifests, f, g) && p.path !in manifests
    ensures WindowFault(h, f, p) == WindowFault(h, g, p)
  {
    assert SameAt(f, g, p.path);
  }

  lemma ReceiptAlike(h: Host, manifests: set<string>, f: Files, g: Files, path: string)
    requires Alike(manifests, f, g) && path !in manifests
    ensures ReadReceipt(h, f, path) == ReadReceipt(h, g, path)
  {
    assert SameAt(f, g, path);
  }

  lemma PrefillInputAlike(h: Host, manifests: set<string>, f: Files, g: Files, c: Shard, r: Request)
    requires Alike(manifests, f, g) && Fenced(h, manifests, r) && c.window.path !in manifests
    ensures PrefillInput(h, f, c, r) == PrefillInput(h, g, c, r)
  {
    InputAlike(h, manifests, f, g, r);
    WindowAlike(h, manifests, f, g, c.window);
  }

  lemma DecodeInputAlike(h: Host, manifests: set<string>, f: Files, g: Files, c: Shard, r: Request)
    requires Alike(manifests, f, g) && Fenced(h, manifests, r) && c.window.path !in manifests
    requires c.receiptPath !in manifests
    ensures DecodeInput(h, f, c, r) == DecodeInput(h, g, c, r)
  {
    InputAlike(h, manifests, f, g, r);
    WindowAlike(h, manifests, f, g, c.window);
    ReceiptAlike(h, manifests, f, g, c.receiptPath);
  }

  lemma StateOutputAlike(h: Host, c: Shard, a: Source, b: Source, r: Request, kindText: string, payload: Bytes,
                         digest: Option<string>)
    ensures VisibleOutput(StateOutputOf(h, c, a, r, kindText, payload, digest)) ==
        VisibleOutput(StateOutputOf(h, c, b, r, kindText, payload, digest))
  {
  }

  lemma OutputAlike(h: Host, c: Shard, a: Source, b: Source, r: Request, payload: Bytes, digest: Option<string>)
    ensures VisibleOutput(OutputOf(h, c, a, r, payload, digest)) == VisibleOutput(OutputOf(h, c, b, r, payload, digest))
  {
    StateOutputAlike(h, c, a, b, r, Lower(Clean(r.expectedOutputKind)), payload, digest);
  }

  /** Where a state's manifest goes. */
  predicate ManifestIn(o: Output, paths: set<string>) { o.StateOutput? ==> o.manifestPath in paths }

  lemma StateManifestPath(h: Host, c: Shard, source: Source, r: Request, kindText: string, payload: Bytes,
                          digest: Option<string>, manifests: set<string>)
    requires Fenced(h, manifests, r)
    ensures ManifestIn(StateOutputOf(h, c, source, r, kindText, payload, digest), manifests)
  {
  }

  lemma ManifestPath(h: Host, c: Shard, source: Source, r: Request, payload: Bytes, digest: Option<string>,
                     manifests: set<string>)
    requires Fenced(h, manifests, r)
    ensures ManifestIn(OutputOf(h, c, source, r, payload, digest), manifests)
  {
    StateManifestPath(h, c, source, r, Lower(Clean(r.expectedOutputKind)), payload, digest, manifests);
  }

  lemma StoreAlike(h: Host, manifests: set<string>, f: Files, g: Files, o: Output, p: Output)
    requires Alike(manifests, f, g) && VisibleOutput(o) == VisibleOutput(p) && ManifestIn(o, manifests)
    ensures Alike(manifests, Store(h, f, o), Store(h, g, p))
    ensures VisibleReply(ReplyOf(o)) == VisibleReply(ReplyOf(p))
  {
  }

  lemma PrefillAlike(h: Host, manifests: set<string>, f: Files, g: Files, c: Shard, a: Source, b: Source, r: Request)
    requires Alike(manifests, f, g) && Fenced(h, manifests, r) && c.window.path !in manifests
    ensures var (f', x), (g', y) := PrefillOn(h, f, Found(c, a), r), PrefillOn(h, g, Found(c, b), r);
            Visible(x) == Visible(y) && Alike(manifests, f', g')
  {
    PrefillInputAlike(h, manifests, f, g, c, r);
    var payload := PrefillInput(h, f, c, r);
    if payload.Ok? {
      var inputSha := h.world.sha256(payload.value);
      var digest := ExecutionDigest(h, c, r, inputSha);
      var receipt, shown := h.dumpReceipt(ReceiptOf(c, r, inputSha, digest)), CleanOrNone(Text(digest));
      OutputAlike(h, c, a, b, r, payload.value, shown);
      ManifestPath(h, c, a, r, payload.value, shown, manifests);
      StoreAlike(h, manifests, f[c.receiptPath := receipt], g[c.receiptPath := receipt],
                 OutputOf(h, c, a, r, payload.value, shown), OutputOf(h, c, b, r, payload.value, shown));
    }
  }

  lemma DecodeAlike(h: Host, manifests: set<string>, f: Files, g: Files, c: Shard, a: Source, b: Source, r: Request)
    requires Alike(manifests, f, g) && Fenced(h, manifests, r) && c.window.path !in manifests
    requires c.receiptPath !in manifests
    ensures var (f', x), (g', y) := DecodeOn(h, f, Found(c, a), r), DecodeOn(h, g, Found(c, b), r);
            Visible(x) == Visible(y) && Alike(manifests, f', g')
  {
    DecodeInputAlike(h, manifests, f, g, c, r);
    var base := DecodeInput(h, f, c, r);
    if base.Ok? {
      var payload, shown := base.value.payload, CleanOrNone(base.value.receipt.prefillDigest);
      OutputAlike(h, c, a, b, r, payload, shown);
      ManifestPath(h, c, a, r, payload, shown, manifests);
      StoreAlike(h, manifests, f, g, OutputOf(h, c, a, r, payload, shown), OutputOf(h, c, b, r, payload, shown));
    }
  }

  // ---------------------------------------------------------------- finding the shard

  predicate SameFind(x: Result<Found, Error>, y: Result<Found, Error>) {
    if x.Err? then y == Err(x.error) else y.Ok? && y.value.shard == x.value.shard
  }

  lemma CheckedAlike(h: Host, r: Request, c: Shard, a: Source, b: Source)
    ensures SameFind(Checked(h, r, Found(c, a)), Checked(h, r, Found(c, b)))
  {
  }

  lemma DiskAlike(h: Host, plan: Plan, manifests: set<string>, f: Files, g: Files, s: string)
    requires Alike(manifests, f, g) && Fence(h, plan, manifests)
    ensures FromDiskFile(h, f, Home(h, plan, s)) == FromDiskFile(h, g, Home(h, plan, s))
  {
    assert SameAt(f, g, Home(h, plan, s));
  }

  /** A request without a slot is refused alike by the table and by the disk lookup. */
  lemma NoSlotIsRefused(h: Host, r: Request, c: Shard, source: Source)
    requires WorkspaceOf(h, r).Ok? && SlotOf(h, r).Err? && Need(r.sessionId, SessionIdField) == Ok(c.sessionId)
    ensures Checked(h, r, Found(c, source)) == Err(SlotOf(h, r).error)
  {
  }

  lemma RecallAlike(h: Host, plan: Plan, manifests: set<string>, st: State, g: Files, r: Request)
    requires Sound(h, plan) && Inv(h, plan, st) && Disciplined(h, plan, r)
    requires Alike(manifests, st.files, g) && Fence(h, plan, manifests) && WorkspaceOf(h, r).Ok?
    ensures SameFind(Recall(h, st, r), Recall(h, State(map[], g), r))
  {
    var s := Clean(r.sessionId);
    DiskAlike(h, plan, manifests, st.files, g, s);
    if s in st.loaded {
      var c := st.loaded[s];
      RecordedReads(h, plan, st.files, s, c);
      CheckedAlike(h, r, c, FromMemory, FromDisk);
      if Need(r.sessionId, SessionIdField).Ok? && SlotOf(h, r).Err? { NoSlotIsRefused(h, r, c, FromMemory); }
    }
  }

  lemma ProcessOnAlike(h: Host, manifests: set<string>, f: Files, g: Files, c: Shard, a: Source, b: Source, r: Request)
    requires Alike(manifests, f, g) && Fenced(h, manifests, r) && c.window.path !in manifests
    requires c.receiptPath !in manifests
    ensures var (f', x), (g', y) := ProcessOn(h, f, Found(c, a), r), ProcessOn(h, g, Found(c, b), r);
            Visible(x) == Visible(y) && Alike(manifests, f', g')
  {
    PrefillAlike(h, manifests, f, g, c, a, b, r);
    DecodeAlike(h, manifests, f, g, c, a, b, r);
  }

  lemma ProcessAlike(h: Host, plan: Plan, manifests: set<string>, st: State, g: Files, r: Request)
    requires Sound(h, plan) && Inv(h, plan, st) && Disciplined(h, plan, r)
    requires Alike(manifests, st.files, g) && Fence(h, plan, manifests) && Fenced(h, manifests, r) && IsProcess(r)
    ensures var (a, x), (b, y) := ProcessStep(h, st, r), ProcessStep(h, State(map[], g), r);
            Visible(x) == Visible(y) && Alike(manifests, a.files, b.files)
  {
    RecallAlike(h, plan, manifests, st, g, r);
    var x, y := Recall(h, st, r), Recall(h, State(map[], g), r);
    if x.Ok? {
      RecalledIsRecorded(h, plan, st, r);
      ProcessOnAlike(h, manifests, st.files, g, x.value.shard, x.value.source, y.value.source, r);
    }
  }

  // ---------------------------------------------------------------- load and finalize

  lemma LocatedAlike(h: Host, manifests: set<string>, f: Files, g: Files, r: Request)
    requires Alike(manifests, f, g) && Fenced(h, manifests, r)
    ensures Located(h, f, r) == Located(h, g, r)
    ensures var local := Located(h, f, r);
            local.Ok? ==> local.value !in manifests && local.value in g && f[local.value] == g[local.value]
  {
    if r.assignment.Some? {
      var path := NeedPath(h.world, r.assignment.value.localPath, LocalPathField);
      if path.Ok? { assert SameAt(f, g, path.value); }
    }
  }

  lemma WriteAlike(manifests: set<string>, f: Files, g: Files, path: string, content: Bytes)
    requires Alike(manifests, f, g)
    ensures Alike(manifests, f[path := content], g[path := content])
  {
  }

  lemma PrepareAlike(h: Host, manifests: set<string>, f: Files, g: Files, r: Request)
    requires Alike(manifests, f, g) && Fenced(h, manifests, r)
    ensures Prepare(h, f, r).1 == Prepare(h, g, r).1 && Alike(manifests, Prepare(h, f, r).0, Prepare(h, g, r).0)
  {
    LocatedAlike(h, manifests, f, g, r);
    if Located(h, f, r).Ok? {
      var plan := PlanCopy(h, f[Located(h, f, r).value], r, r.assignment.value);
      if plan.Ok? { WriteAlike(manifests, f, g, plan.value.path, plan.value.copy.content); }
    }
  }

  lemma InstallAlike(h: Host, manifests: set<string>, loaded: map<string, Shard>, f: Files, g: Files,
                     result: Result<Shard, Error>)
    requires Alike(manifests, f, g)
    ensures var (a, x), (b, y) := Install(h, loaded, f, result), Install(h, map[], g, result);
            Visible(x) == Visible(y) && Alike(manifests, a.files, b.files)
  {
    if result.Ok? { WriteAlike(manifests, f, g, result.value.sessionPath, h.dumpSession(WriteSession(result.value))); }
  }

  lemma LoadAlike(h: Host, manifests: set<string>, st: State, g: Files, r: Request)
    requires Alike(manifests, st.files, g) && Fenced(h, manifests, r)
    ensures var (a, x), (b, y) := LoadStep(h, st, r), LoadStep(h, State(map[], g), r);
            Visible(x) == Visible(y) && Alike(manifests, a.files, b.files)
  {
    PrepareAlike(h, manifests, st.files, g, r);
    var (files, result) := Prepare(h, st.files, r);
    InstallAlike(h, manifests, st.loaded, files, Prepare(h, g, r).0, result);
  }

  predicate SameDrop(x: Option<Result<Found, Error>>, y: Option<Result<Found, Error>>) {
    if x.None? then y.None? else y.Some? && SameFind(x.value, y.value)
  }

  lemma DroppedAlike(h: Host, plan: Plan, manifests: set<string>, st: State, g: Files, s: string)
    requires Sound(h, plan) && Inv(h, plan, st) && Alike(manifests, st.files, g) && Fence(h, plan, manifests)
    ensures SameDrop(Dropped(h, st, s, Home(h, plan, s)), Dropped(h, State(map[], g), s, Home(h, plan, s)))
  {
    DiskAlike(h, plan, manifests, st.files, g, s);
    assert SameAt(st.files, g, Home(h, plan, s));
    if s in st.loaded { RecordedReads(h, plan, st.files, s, st.loaded[s]); }
  }

  lemma DiscardAlike(manifests: set<string>, f: Files, g: Files, path: string, x: Option<Result<Found, Error>>,
                     y: Option<Result<Found, Error>>)
    requires Alike(manifests, f, g) && SameDrop(x, y)
    ensures VisibleReply(Discard(f, path, x).1) == VisibleReply(Discard(g, path, y).1)
    ensures Alike(manifests, Discard(f, path, x).0, Discard(g, path, y).0)
  {
  }

  lemma FinalizeAlike(h: Host, plan: Plan, manifests: set<string>, st: State, g: Files, r: Request)
    requires Sound(h, plan) && Inv(h, plan, st) && Disciplined(h, plan, r)
    requires Alike(manifests, st.files, g) && Fence(h, plan, manifests)
    ensures var (a, x), (b, y) := FinalizeStep(h, st, r), FinalizeStep(h, State(map[], g), r);
            Visible(x) == Visible(y) && Alike(manifests, a.files, b.files)
  {
    var s := Clean(r.sessionId);
    var path := Home(h, plan, s);
    DroppedAlike(h, plan, manifests, st, g, s);
    DiscardAlike(manifests, st.files, g, path, Dropped(h, st, s, path), Dropped(h, State(map[], g), s, path));
  }

  // ---------------------------------------------------------------- runs

  lemma StepAlike(h: Host, plan: Plan, manifests: set<string>, st: State, g: Files, r: Request)
    requires Sound(h, plan) && Inv(h, plan, st) && Disciplined(h, plan, r)
    requires Alike(manifests, st.files, g) && Fence(h, plan, manifests) && Fenced(h, manifests, r)
    ensures var (a, x), (b, y) := Step(h, st, r), Step(h, State(map[], g), r);
            Visible(x) == Visible(y) && Alike(manifests, a.files, b.files)
  {
    match r.action {
      case LoadShard => LoadAlike(h, manifests, st, g, r);
      case Prefill => ProcessAlike(h, plan, manifests, st, g, r);
      case DecodeStep => ProcessAlike(h, plan, manifests, st, g, r);
      case Finalize => FinalizeAlike(h, plan, manifests, st, g, r);
      case Unsupported =>
    }
  }

  /** A request, a restart of the process, or a file written (`Some`) or removed by something else. */
  datatype Event = Call(request: Request) | Restart | Outside(path: string, content: Option<Bytes>)

  function PutFile(files: Files, path: string, content: Option<Bytes>): Files {
    if content.Some? then files[path := content.value] else files - {path}
  }

  function Apply(h: Host, st: State, e: Event): State {
    match e
    case Call(r) => Step(h, st, r).0
    case Restart => State(map[], st.files)
    case Outside(path, content) => State(st.loaded, PutFile(st.files, path, content))
  }

  function Run(h: Host, st: State, events: seq<Event>): State {
    if events == [] then st else Apply(h, Run(h, st, events[..|events| - 1]), events[|events| - 1])
  }

  /** The outcomes of a run's calls, as its callers see them. */
  function Seen(h: Host, st: State, events: seq<Event>): seq<Outcome> {
    if events == [] then []
    else
      var before, e := events[..|events| - 1], events[|events| - 1];
      if e.Call? then Seen(h, st, before) + [Visible(Step(h, Run(h, st, before), e.request).1)] else Seen(h, st, before)
  }

  /** The run without its restarts. */
  function Unbroken(events: seq<Event>): seq<Event> {
    if events == [] then []
    else
      var before, e := events[..|events| - 1], events[|events| - 1];
      if e.Restart? then Unbroken(before) else Unbroken(before) + [e]
  }

  /** The binary without memory: every request starts from the files alone. */
  function DiskApply(h: Host, files: Files, e: Event): Files { Apply(h, State(map[], files), e).files }

  function DiskRun(h: Host, files: Files, events: seq<Event>): Files {
    if events == [] then files else DiskApply(h, DiskRun(h, files, events[..|events| - 1]), events[|events| - 1])
  }

  function DiskOutcome(h: Host, files: Files, r: Request): Outcome { Visible(Step(h, State(map[], files), r).1) }

  function DiskSeen(h: Host, files: Files, events: seq<Event>): seq<Outcome> {
    if events == [] then []
    else
      var before, e := events[..|events| - 1], events[|events| - 1];
      if e.Call? then DiskSeen(h, files, before) + [DiskOutcome(h, DiskRun(h, files, before), e.request)]
      else DiskSeen(h, files, before)
  }

  /** Requests keep to their slots and the binary's own session files and receipts are left to it. */
  ghost predicate Orderly(h: Host, plan: Plan, e: Event) {
    match e
    case Call(r) => Disciplined(h, plan, r)
    case Restart => true
    case Outside(path, _) => NotControl(h, plan, path)
  }

  ghost predicate Careful(h: Host, plan: Plan, manifests: set<string>, e: Event) {
    Orderly(h, plan, e) && (e.Call? ==> Fenced(h, manifests, e.request))
  }

  ghost predicate AllCareful(h: Host, plan: Plan, manifests: set<string>, events: seq<Event>) {
    forall i :: 0 <= i < |events| ==> Careful(h, plan, manifests, events[i])
  }

  lemma OutsideKeepsInv(h: Host, plan: Plan, st: State, path: string, content: Option<Bytes>)
    requires Inv(h, plan, st) && NotControl(h, plan, path)
    ensures Inv(h, plan, State(st.loaded, PutFile(st.files, path, content)))
  {
    InvOtherFiles(h, plan, st, PutFile(st.files, path, content));
  }

  lemma ApplyKeepsInv(h: Host, plan: Plan, st: State, e: Event)
    requires Sound(h, plan) && Inv(h, plan, st) && Orderly(h, plan, e)
    ensures Inv(h, plan, Apply(h, st, e))
  {
    match e {
      case Call(r) => StepKeepsInv(h, plan, st, r);
      case Restart => InvAfterRestart(h, plan, st);
      case Outside(path, content) => OutsideKeepsInv(h, plan, st, path, content);
    }
  }

  lemma PutAlike(manifests: set<string>, f: Files, g: Files, path: string, content: Option<Bytes>)
    requires Alike(manifests, f, g)
    ensures Alike(manifests, PutFile(f, path, content), PutFile(g, path, content))
  {
  }

  lemma ApplyAlike(h: Host, plan: Plan, manifests: set<string>, st: State, g: Files, e: Event)
    requires Sound(h, plan) && Inv(h, plan, st) && Careful(h, plan, manifests, e)
    requires Alike(manifests, st.files, g) && Fence(h, plan, manifests)
    ensures Alike(manifests, Apply(h, st, e).files, if e.Restart? then g else DiskApply(h, g, e))
    ensures e.Call? ==> Visible(Step(h, st, e.request).1) == Visible(Step(h, State(map[], g), e.request).1)
  {
    match e {
      case Call(r) => StepAlike(h, plan, manifests, st, g, r);
      case Restart =>
      case Outside(path, content) => PutAlike(manifests, st.files, g, path, content);
    }
  }

  /**
   Restart transparency: whatever the points at which the process is restarted, and whatever other files change
   meanwhile, every outcome and every file but the manifests is that of the binary that keeps nothing in memory.
   */
  lemma {:induction false} RestartsAreInvisible(h: Host, plan: Plan, manifests: set<string>, st: State,
                                                events: seq<Event>)
    requires Sound(h, plan) && Inv(h, plan, st) && Fence(h, plan, manifests) && AllCareful(h, plan, manifests, events)
    ensures Inv(h, plan, Run(h, st, events))
    ensures Seen(h, st, events) == DiskSeen(h, st.files, Unbroken(events))
    ensures Alike(manifests, Run(h, st, events).files, DiskRun(h, st.files, Unbroken(events)))
  {
    if events == [] {
    } else {
      var before, e := events[..|events| - 1], events[|events| - 1];
      assert Careful(h, plan, manifests, e);
      RestartsAreInvisible(h, plan, manifests, st, before);
      ApplyKeepsInv(h, plan, Run(h, st, before), e);
      ApplyAlike(h, plan, manifests, Run(h, st, before), DiskRun(h, st.files, Unbroken(before)), e);
      if !e.Restart? { UnbrokenGrows(h, st.files, Unbroken(before), e); }
    }
  }

  lemma UnbrokenGrows(h: Host, files: Files, before: seq<Event>, e: Event)
    ensures DiskRun(h, files, before + [e]) == DiskApply(h, DiskRun(h, files, before), e)
    ensures DiskSeen(h, files, before + [e]) ==
              if e.Call? then DiskSeen(h, files, before) + [DiskOutcome(h, DiskRun(h, files, before), e.request)]
              else DiskSeen(h, files, before)
  {
    assert (before + [e])[..|before|] == before;
  }

  // ---------------------------------------------------------------- requests that carry a run's own states

  /** A request whose input state does not say where the context of the step that made it was found. */
  function Unsourced(r: Request): Request {
    if r.inputState.Some? && r.inputState.value.metadata.Metadata? then
      r.(inputState := Some(r.inputState.value.(metadata := r.inputState.value.metadata.(contextSource := Null))))
    else r
  }

  function UnsourcedEvent(e: Event): Event { if e.Call? then Call(Unsourced(e.request)) else e }

  function UnsourcedEvents(events: seq<Event>): (r: seq<Event>)
    ensures |r| == |events|
  {
    seq(|events|, i requires 0 <= i < |events| => UnsourcedEvent(events[i]))
  }

  /** What the outputs look at: everything but the input state, and of that its state file. */
  predicate SameOutwards(q: Request, r: Request) {
    && q.action == r.action && q.tokenStart == r.tokenStart && q.tokenEnd == r.tokenEnd && q.targets == r.targets
    && q.expectedOutputKind == r.expectedOutputKind && q.requiresFinalOutput == r.requiresFinalOutput
    && InputStateDigest(q) == InputStateDigest(r)
  }

  /** What finding the shard looks at. */
  predicate SameInwards(q: Request, r: Request) {
    && q.action == r.action && q.sessionId == r.sessionId && q.modelId == r.modelId && q.layerStart == r.layerStart
    && q.layerEnd == r.layerEnd && q.assignment == r.assignment && q.stateFilesDir == r.stateFilesDir
    && q.input == r.input
  }

  lemma UnsourcedIsSame(r: Request)
    ensures SameOutwards(Unsourced(r), r) && SameInwards(Unsourced(r), r)
  {
  }

  lemma StateOutputLooks(h: Host, c: Shard, source: Source, q: Request, r: Request, kindText: string, payload: Bytes,
                         digest: Option<string>)
    requires SameOutwards(q, r)
    ensures StateOutputOf(h, c, source, q, kindText, payload, digest) ==
            StateOutputOf(h, c, source, r, kindText, payload, digest)
  {
  }

  lemma FinalOutputLooks(h: Host, c: Shard, q: Request, r: Request, digest: Option<string>)
    requires SameOutwards(q, r)
    ensures FinalOutputOf(h, c, q, digest) == FinalOutputOf(h, c, r, digest)
  {
  }

  lemma OutputLooks(h: Host, c: Shard, source: Source, q: Request, r: Request, payload: Bytes, digest: Option<string>)
    requires SameOutwards(q, r)
    ensures OutputOf(h, c, source, q, payload, digest) == OutputOf(h, c, source, r, payload, digest)
  {
    StateOutputLooks(h, c, source, q, r, Lower(Clean(r.expectedOutputKind)), payload, digest);
    FinalOutputLooks(h, c, q, r, digest);
  }

  lemma CheckedLooks(h: Host, q: Request, r: Request, found: Found)
    requires SameInwards(q, r)
    ensures Checked(h, q, found) == Checked(h, r, found)
  {
    MismatchLooks(h, q, r, found.shard);
  }

  lemma MismatchLooks(h: Host, q: Request, r: Request, c: Shard)
    requires SameInwards(q, r)
    ensures Mismatch(h, q, c) == Mismatch(h, r, c)
  {
    assert Need(q.sessionId, SessionIdField) == Need(r.sessionId, SessionIdField);
    assert Need(q.modelId, ModelIdField) == Need(r.modelId, ModelIdField);
    assert OptInt(q.layerStart) == OptInt(r.layerStart) && OptInt(q.layerEnd) == OptInt(r.layerEnd);
    if r.assignment.Some? {
      assert NeedPath(h.world, q.assignment.value.localPath, LocalPathField) ==
             NeedPath(h.world, r.assignment.value.localPath, LocalPathField);
    }
  }

  lemma RecallLooks(h: Host, st: State, q: Request, r: Request)
    requires SameInwards(q, r)
    ensures Recall(h, st, q) == Recall(h, st, r)
  {
    var s := Clean(r.sessionId);
    SlotLooks(h, q, r);
    if s in st.loaded {
      CheckedLooks(h, q, r, Found(st.loaded[s], FromMemory));
    } else if SlotOf(h, r).Ok? {
      var c := FromDiskFile(h, st.files, h.sessionFile(SlotOf(h, r).value));
      if c.Ok? { CheckedLooks(h, q, r, Found(c.value, FromDisk)); }
    }
  }

  lemma PrepareLooks(h: Host, files: Files, q: Request, r: Request)
    requires SameInwards(q, r)
    ensures Prepare(h, files, q) == Prepare(h, files, r)
  {
    assert Located(h, files, q) == Located(h, files, r);
    if Located(h, files, r).Ok? { CopyLooks(h, files[Located(h, files, r).value], q, r, r.assignment.value); }
  }

  lemma CopyLooks(h: Host, file: Bytes, q: Request, r: Request, a: Artifact)
    requires SameInwards(q, r)
    ensures PlanCopy(h, file, q, a) == PlanCopy(h, file, r, a)
  {
    assert WorkspaceOf(h, q) == WorkspaceOf(h, r);
  }

  lemma SlotLooks(h: Host, q: Request, r: Request)
    requires SameInwards(q, r)
    ensures SlotOf(h, q) == SlotOf(h, r)
  {
  }

  lemma DecodeInputIgnoresSource(h: Host, files: Files, c: Shard, r: Request)
    ensures DecodeInput(h, files, c, Unsourced(r)) == DecodeInput(h, files, c, r)
  {
  }

  lemma PrefillIgnoresSource(h: Host, files: Files, found: Found, r: Request)
    ensures PrefillOn(h, files, found, Unsourced(r)) == PrefillOn(h, files, found, r)
  {
    var c := found.shard;
    UnsourcedIsSame(r);
    assert PrefillInput(h, files, c, Unsourced(r)) == PrefillInput(h, files, c, r);
    if PrefillInput(h, files, c, r).Ok? {
      var payload := PrefillInput(h, files, c, r).value;
      var digest := ExecutionDigest(h, c, r, h.world.sha256(payload));
      OutputLooks(h, c, found.source, Unsourced(r), r, payload, CleanOrNone(Text(digest)));
    }
  }

  lemma DecodeIgnoresSource(h: Host, files: Files, found: Found, r: Request)
    ensures DecodeOn(h, files, found, Unsourced(r)) == DecodeOn(h, files, found, r)
  {
    var base := DecodeInput(h, files, found.shard, r);
    UnsourcedIsSame(r);
    DecodeInputIgnoresSource(h, files, found.shard, r);
    if base.Ok? {
      OutputLooks(h, found.shard, found.source, Unsourced(r), r, base.value.payload,
                  CleanOrNone(base.value.receipt.prefillDigest));
    }
  }

  lemma ProcessIgnoresSource(h: Host, st: State, r: Request)
    ensures ProcessStep(h, st, Unsourced(r)) == ProcessStep(h, st, r)
  {
    UnsourcedIsSame(r);
    RecallLooks(h, st, Unsourced(r), r);
    if Recall(h, st, r).Ok? {
      PrefillIgnoresSource(h, st.files, Recall(h, st, r).value, r);
      DecodeIgnoresSource(h, st.files, Recall(h, st, r).value, r);
    }
  }

  lemma LoadIgnoresSource(h: Host, st: State, r: Request)
    ensures LoadStep(h, st, Unsourced(r)) == LoadStep(h, st, r)
  {
    UnsourcedIsSame(r);
    PrepareLooks(h, st.files, Unsourced(r), r);
  }

  lemma FinalizeIgnoresSource(h: Host, st: State, r: Request)
    ensures FinalizeStep(h, st, Unsourced(r)) == FinalizeStep(h, st, r)
  {
    UnsourcedIsSame(r);
    SlotLooks(h, Unsourced(r), r);
  }

  /** No request looks at where its input state's context was found. */
  lemma StepIgnoresSource(h: Host, st: State, r: Request)
    ensures Step(h, st, Unsourced(r)) == Step(h, st, r)
  {
    match r.action {
      case LoadShard => LoadIgnoresSource(h, st, r);
      case Prefill => ProcessIgnoresSource(h, st, r);
      case DecodeStep => ProcessIgnoresSource(h, st, r);
      case Finalize => FinalizeIgnoresSource(h, st, r);
      case Unsupported =>
    }
  }

  lemma {:induction false} DiskIgnoresSource(h: Host, files: Files, events: seq<Event>)
    ensures DiskRun(h, files, UnsourcedEvents(events)) == DiskRun(h, files, events)
    ensures DiskSeen(h, files, UnsourcedEvents(events)) == DiskSeen(h, files, events)
  {
    if events == [] {
    } else {
      var n := |events| - 1;
      var e := events[n];
      assert UnsourcedEvents(events)[..n] == UnsourcedEvents(events[..n]);
      DiskIgnoresSource(h, files, events[..n]);
      if e.Call? { StepIgnoresSource(h, State(map[], DiskRun(h, files, events[..n])), e.request); }
    }
  }

  /**
   Two runs that differ only in their restarts look the same; their requests may differ in where the context of an
   input state was found, as they do when each run feeds its own states back.
   */
  lemma RestartPointsDoNotMatter(h: Host, plan: Plan, manifests: set<string>, st: State, a: seq<Event>, b: seq<Event>)
    requires Sound(h, plan) && Inv(h, plan, st) && Fence(h, plan, manifests)
    requires AllCareful(h, plan, manifests, a) && AllCareful(h, plan, manifests, b)
    requires UnsourcedEvents(Unbroken(a)) == UnsourcedEvents(Unbroken(b))
    ensures Seen(h, st, a) == Seen(h, st, b)
    ensures Alike(manifests, Run(h, st, a).files, Run(h, st, b).files)
  {
    RestartsAreInvisible(h, plan, manifests, st, a);
    RestartsAreInvisible(h, plan, manifests, st, b);
    DiskIgnoresSource(h, st.files, Unbroken(a));
    DiskIgnoresSource(h, st.files, Unbroken(b));
    AlikeMeet(manifests, Run(h, st, a).files, DiskRun(h, st.files, Unbroken(a)), Run(h, st, b).files);
  }

  lemma AlikeMeet(manifests: set<string>, f: Files, g: Files, k: Files)
    requires Alike(manifests, f, g) && Alike(manifests, k, g)
    ensures Alike(manifests, f, k)
  {
    forall p | p !in manifests ensures SameAt(f, k, p) {
      assert SameAt(f, g, p) && SameAt(k, g, p);
    }
  }

  /** Workspaces without session files are a start. */
  lemma EmptyWorkspacesStart(h: Host, plan: Plan, files: Files)
    requires forall s :: Home(h, plan, s) !in files
    ensures Inv(h, plan, State(map[], files))
  {
  }
}
