/**
 When a restart of the reference binary shows: for each condition under which restarts are invisible, exactly which
 requests tell a restarted run from an unbroken one once the condition is dropped.
 */
module VisibleRestarts {
  import opened PyValue
  import opened ArtifactContract
  import opened ChunkWindows
  import opened ReferenceSession
  import opened Handoff
  import opened ReferenceBinary
  import opened ReferenceRuns
  import opened RestartTransparency
  import opened ReferenceSafety

  lemma RunOne(h: Host, st: State, e: Event)
    ensures Run(h, st, [e]) == Apply(h, st, e)
  {
    assert [e][..0] == [];
  }

  lemma RunTwo(h: Host, st: State, d: Event, e: Event)
    ensures Run(h, st, [d, e]) == Apply(h, Apply(h, st, d), e)
  {
    assert [d, e][..1] == [d];
    RunOne(h, st, d);
  }

  // ---------------------------------------------------------------- a path with outer white space

  lemma StoredPathReads(h: Host, c: Shard)
    ensures var back := ReadSession(h.world, c.sessionPath, Some(WriteSession(c)));
            back.Ok? && back.value.localPath == c.localPath ==> PathKept(h.world, c.localPath)
  {
    NeedsKeepPath(h.world, c.localPath, LocalPathField);
    ReadPathIsFirst(h.world, c.sessionPath, WriteSession(c), RecordOf(c));
  }

  lemma ReadPathIsFirst(w: World, path: string, d: SessionDoc, a: ShardRecord)
    requires d.artifact == Some(a)
    ensures var back := ReadSession(w, path, Some(d));
            back.Ok? ==> NeedPath(w, a.localPath, LocalPathField) == Ok(back.value.localPath)
  {
    var back := ReadSession(w, path, Some(d));
    if back.Ok? { ReadFields(w, path, d, a, back.value); }
  }

  lemma OtherPathDrifts(h: Host, r: Request, c: Shard, d: Shard)
    requires Mismatch(h, r, c).None? && r.assignment.Some? && d.localPath != c.localPath
    ensures Mismatch(h, r, d).Some?
  {
  }

  /** The shard as a restarted process finds it, for a request that names the artifact. */
  lemma StoredShardIsFound(h: Host, files: Files, r: Request, c: Shard)
    requires Faithful(h) && c.sessionPath in files && files[c.sessionPath] == h.dumpSession(WriteSession(c))
    requires SlotOf(h, r).Ok? && h.sessionFile(SlotOf(h, r).value) == c.sessionPath
    requires Mismatch(h, r, c).None? && r.assignment.Some? && (PathKept(h.world, c.localPath) ==> Storable(h.world, c))
    ensures var found := Recall(h, State(map[], files), r);
            if PathKept(h.world, c.localPath) then found == Ok(Found(c, FromDisk)) else found.Err?
  {
    SessionRoundTrip(h.world, c);
    var back := FromDiskFile(h, files, c.sessionPath);
    assert back == ReadSession(h.world, c.sessionPath, Some(WriteSession(c)));
    if !PathKept(h.world, c.localPath) && back.Ok? {
      StoredPathReads(h, c);
      OtherPathDrifts(h, r, c, back.value);
    }
  }

  lemma LoadedIsStored(h: Host, st: State, load: Request, c: Shard)
    requires load.action == LoadShard && Step(h, st, load).1.reply == Ready(c)
    ensures Prepare(h, st.files, load).1 == Ok(c)
    ensures var after := Step(h, st, load).0;
            && c.sessionId in after.loaded && after.loaded[c.sessionId] == c
            && c.sessionPath in after.files && after.files[c.sessionPath] == h.dumpSession(WriteSession(c))
  {
  }

  /**
   Load, then a request that names the artifact: the unbroken run finds the shard in memory, and a run restarted in
   between finds it on disk exactly when the artifact's path reads back, and refuses the request otherwise.
   */
  lemma UnkeptPathShowsRestart(h: Host, st: State, load: Request, r: Request, c: Shard)
    requires Faithful(h) && StablePaths(h) && load.action == LoadShard && Step(h, st, load).1.reply == Ready(c)
    requires IsProcess(r) && SlotOf(h, r).Ok? && h.sessionFile(SlotOf(h, r).value) == c.sessionPath
    requires Mismatch(h, r, c).None? && r.assignment.Some?
    ensures Recall(h, Run(h, st, [Call(load)]), r) == Ok(Found(c, FromMemory))
    ensures PathKept(h.world, c.localPath) ==>
              Recall(h, Run(h, st, [Call(load), Restart]), r) == Ok(Found(c, FromDisk))
    ensures !PathKept(h.world, c.localPath) ==> Step(h, Run(h, st, [Call(load), Restart]), r).1.reply.Refused?
  {
    RunOne(h, st, Call(load));
    RunTwo(h, st, Call(load), Restart);
    LoadedIsStored(h, st, load, c);
    PreparedIsStorable(h, st.files, load);
    StoredShardIsFound(h, Step(h, st, load).0.files, r, c);
    FoundInMemory(h, Step(h, st, load).0, r, c);
  }

  lemma FoundInMemory(h: Host, st: State, r: Request, c: Shard)
    requires c.sessionId in st.loaded && st.loaded[c.sessionId] == c && Mismatch(h, r, c).None?
    ensures Recall(h, st, r) == Ok(Found(c, FromMemory))
  {
  }

  // ---------------------------------------------------------------- no workspace

  predicate IsWorkspaceError(e: Error) {
    e == WorkspaceMissing || e == Missing(StateFilesDirField) || e == Unresolved(StateFilesDirField)
  }

  lemma MismatchIsNoWorkspaceError(h: Host, r: Request, c: Shard)
    ensures Mismatch(h, r, c).Some? ==> !IsWorkspaceError(Mismatch(h, r, c).value)
  {
  }

  lemma InputIsNoWorkspaceError(h: Host, files: Files, c: Shard, r: Request)
    ensures PrefillInput(h, files, c, r).Err? ==> !IsWorkspaceError(PrefillInput(h, files, c, r).error)
    ensures DecodeInput(h, files, c, r).Err? ==> !IsWorkspaceError(DecodeInput(h, files, c, r).error)
  {
    ReadIsNoWorkspaceError(h, files, r.input);
    WindowIsNoWorkspaceError(h, files, c.window);
    ReceiptIsNoWorkspaceError(h, files, c, r);
  }

  lemma WindowIsNoWorkspaceError(h: Host, files: Files, p: ShardWindow)
    ensures WindowFault(h, files, p).Some? ==> !IsWorkspaceError(WindowFault(h, files, p).value)
  {
  }

  lemma ReceiptIsNoWorkspaceError(h: Host, files: Files, c: Shard, r: Request)
    ensures var doc := ReadReceipt(h, files, c.receiptPath);
            && (doc.Err? ==> !IsWorkspaceError(doc.error))
            && (doc.Ok? && ReceiptError(doc.value, c, r.inputState).Some? ==>
                  !IsWorkspaceError(ReceiptError(doc.value, c, r.inputState).value))
  {
  }

  lemma ReadIsNoWorkspaceError(h: Host, files: Files, input: Option<PayloadFile>)
    ensures ReadInput(h, files, input).Err? ==> !IsWorkspaceError(ReadInput(h, files, input).error)
  {
  }

  lemma OutputIsNoWorkspaceError(h: Host, c: Shard, source: Source, r: Request, payload: Bytes, digest: Option<string>)
    ensures var reply := ReplyOf(OutputOf(h, c, source, r, payload, digest));
            reply.Refused? ==> !IsWorkspaceError(reply.error)
  {
    StateIsNoWorkspaceError(h, c, source, r, Lower(Clean(r.expectedOutputKind)), payload, digest);
    FinalIsNoWorkspaceError(h, c, r, digest);
  }

  lemma StateIsNoWorkspaceError(h: Host, c: Shard, source: Source, r: Request, kindText: string, payload: Bytes,
                                digest: Option<string>)
    ensures var o := StateOutputOf(h, c, source, r, kindText, payload, digest);
            o.NoOutput? ==> !IsWorkspaceError(o.error)
  {
  }

  lemma FinalIsNoWorkspaceError(h: Host, c: Shard, r: Request, digest: Option<string>)
    ensures var o := FinalOutputOf(h, c, r, digest); o.NoOutput? ==> !IsWorkspaceError(o.error)
  {
  }

  lemma ProcessIsNoWorkspaceError(h: Host, files: Files, found: Found, r: Request)
    ensures var reply := ProcessOn(h, files, found, r).1.reply; reply.Refused? ==> !IsWorkspaceError(reply.error)
  {
    var c := found.shard;
    InputIsNoWorkspaceError(h, files, c, r);
    if r.action == Prefill {
      if PrefillInput(h, files, c, r).Ok? {
        var payload := PrefillInput(h, files, c, r).value;
        var digest := ExecutionDigest(h, c, r, h.world.sha256(payload));
        OutputIsNoWorkspaceError(h, c, found.source, r, payload, CleanOrNone(Text(digest)));
      }
    } else {
      var base := DecodeInput(h, files, c, r);
      if base.Ok? {
        OutputIsNoWorkspaceError(h, c, found.source, r, base.value.payload,
                                 CleanOrNone(base.value.receipt.prefillDigest));
      }
    }
  }

  /** A process request without a workspace always tells: only the table answers it. */
  lemma NoWorkspaceShowsRestart(h: Host, st: State, r: Request)
    requires IsProcess(r) && WorkspaceOf(h, r).Err? && Clean(r.sessionId) in st.loaded && Clean(r.sessionId) != ""
    ensures Visible(Step(h, st, r).1) != Visible(Step(h, Run(h, st, [Restart]), r).1)
    ensures Step(h, Run(h, st, [Restart]), r).1.reply == Refused(WorkspaceOf(h, r).error)
  {
    RunOne(h, st, Restart);
    RestartRefuses(h, st.files, r);
    MemoryAnswers(h, st, r);
  }

  lemma RestartRefuses(h: Host, files: Files, r: Request)
    requires IsProcess(r) && WorkspaceOf(h, r).Err? && Clean(r.sessionId) != ""
    ensures Step(h, State(map[], files), r).1 == Outcome(Refused(WorkspaceOf(h, r).error), None)
    ensures IsWorkspaceError(WorkspaceOf(h, r).error)
  {
    assert SlotOf(h, r) == Err(WorkspaceOf(h, r).error);
  }

  lemma MemoryAnswers(h: Host, st: State, r: Request)
    requires IsProcess(r) && Clean(r.sessionId) in st.loaded && Clean(r.sessionId) != ""
    ensures var reply := Step(h, st, r).1.reply; reply.Refused? ==> !IsWorkspaceError(reply.error)
  {
    var c := st.loaded[Clean(r.sessionId)];
    var found := Recall(h, st, r);
    assert found == Checked(h, r, Found(c, FromMemory));
    MismatchIsNoWorkspaceError(h, r, c);
    if found.Ok? {
      ProcessAnswers(h, st, r, found.value);
      ProcessIsNoWorkspaceError(h, st.files, found.value, r);
    }
  }

  // ---------------------------------------------------------------- an input file that differs

  /** What the stated size and hash say about a content. */
  function Verdict(h: Host, input: PayloadFile, content: Bytes): Option<Error> {
    var size, sha := OptInt(input.sizeBytes), Lower(Clean(input.sha256Hex));
    if size.Some? && size.value != |content| then Some(InputSizeMismatch)
    else if sha != "" && sha != h.world.sha256(content) then Some(InputHashMismatch)
    else None
  }

  /** The request gets as far as reading its input. */
  predicate Reaches(h: Host, files: Files, c: Shard, r: Request) {
    WindowFault(h, files, c.window).None? && (r.action == Prefill || ReadReceipt(h, files, c.receiptPath).Ok?)
  }

  /** A decode whose receipt and input state fit, and which puts out a state. */
  predicate DecodesToState(h: Host, files: Files, c: Shard, r: Request) {
    && r.action == DecodeStep && ReadReceipt(h, files, c.receiptPath).Ok?
    && ReceiptError(ReadReceipt(h, files, c.receiptPath).value, c, r.inputState).None?
    && Answerable(r) && !WantsFinal(r, Lower(Clean(r.expectedOutputKind)))
  }

  /**
   The request answers differently for two contents of its input file: the stated size or hash judges them
   differently, or both pass and the request is a prefill or a decode that puts out a state.
   */
  predicate Tells(h: Host, files: Files, c: Shard, r: Request, x: Bytes, y: Bytes)
    requires r.input.Some?
  {
    && Reaches(h, files, c, r)
    && (Verdict(h, r.input.value, x) != Verdict(h, r.input.value, y)
        || (x != y && Verdict(h, r.input.value, x).None? && (r.action == Prefill || DecodesToState(h, files, c, r))))
  }

  /** The two contents collide neither by themselves nor in the prefill digest. */
  predicate Apart(h: Host, c: Shard, r: Request, x: Bytes, y: Bytes) {
    x != y ==>
      && h.world.sha256(x) != h.world.sha256(y)
      && ExecutionDigest(h, c, r, h.world.sha256(x)) != ExecutionDigest(h, c, r, h.world.sha256(y))
  }

  /** The text of a state shows the input hash. */
  ghost predicate StatesShowInput(h: Host) {
    forall d: StateDoc, sha :: h.dumpState(d.(inputSha := sha)) == h.dumpState(d) ==> sha == d.inputSha
  }

  lemma InputIsJudged(h: Host, files: Files, input: PayloadFile, path: string)
    requires NeedPath(h.world, input.path, InputPathField) == Ok(path) && path in files
    ensures var judged := Verdict(h, input, files[path]);
            ReadInput(h, files, Some(input)) == if judged.None? then Ok(files[path]) else Err(judged.value)
  {
  }

  lemma ReceiptErrorIsNoVerdict(doc: ReceiptDoc, c: Shard, state: Option<Manifest>)
    ensures ReceiptError(doc, c, state) != Some(InputSizeMismatch)
    ensures ReceiptError(doc, c, state) != Some(InputHashMismatch)
  {
  }

  /** Two file stores that differ in the request's input file at most, and the shard's own files. */
  ghost predicate InputDiffers(h: Host, f: Files, g: Files, c: Shard, r: Request, path: string) {
    && r.input.Some? && NeedPath(h.world, r.input.value.path, InputPathField) == Ok(path) && path in f && path in g
    && Alike({path}, f, g) && c.window.path != path && c.receiptPath != path
  }

  lemma PrefillTells(h: Host, f: Files, g: Files, c: Shard, a: Source, b: Source, r: Request, path: string)
    requires InputDiffers(h, f, g, c, r, path) && r.action == Prefill && Apart(h, c, r, f[path], g[path])
    ensures Visible(PrefillOn(h, f, Found(c, a), r).1) == Visible(PrefillOn(h, g, Found(c, b), r).1) <==>
              !Tells(h, f, c, r, f[path], g[path])
  {
    InputIsJudged(h, f, r.input.value, path);
    InputIsJudged(h, g, r.input.value, path);
    WindowAlike(h, {path}, f, g, c.window);
    var x, y := PrefillInput(h, f, c, r), PrefillInput(h, g, c, r);
    if x.Ok? && y.Ok? && f[path] == g[path] {
      var digest := ExecutionDigest(h, c, r, h.world.sha256(f[path]));
      OutputAlike(h, c, a, b, r, f[path], CleanOrNone(Text(digest)));
      VisibleReplies(OutputOf(h, c, a, r, f[path], CleanOrNone(Text(digest))),
                     OutputOf(h, c, b, r, f[path], CleanOrNone(Text(digest))));
    }
  }

  lemma VisibleReplies(o: Output, p: Output)
    requires VisibleOutput(o) == VisibleOutput(p)
    ensures VisibleReply(ReplyOf(o)) == VisibleReply(ReplyOf(p))
  {
  }

  /** What a decode puts out for two payloads: the same unless it puts out a state. */
  lemma OutputTells(h: Host, c: Shard, a: Source, b: Source, r: Request, x: Bytes, y: Bytes, digest: Option<string>)
    requires StatesShowInput(h) && (x != y ==> h.world.sha256(x) != h.world.sha256(y))
    ensures VisibleReply(ReplyOf(OutputOf(h, c, a, r, x, digest))) ==
              VisibleReply(ReplyOf(OutputOf(h, c, b, r, y, digest))) <==>
            x == y || !Answerable(r) || WantsFinal(r, Lower(Clean(r.expectedOutputKind)))
  {
    var kindText := Lower(Clean(r.expectedOutputKind));
    if x == y {
      OutputAlike(h, c, a, b, r, x, digest);
      VisibleReplies(OutputOf(h, c, a, r, x, digest), OutputOf(h, c, b, r, y, digest));
    } else if kindText != "" && !WantsFinal(r, kindText) {
      StateOutputTells(h, c, a, b, r, kindText, x, y, digest);
    }
  }

  lemma StateOutputTells(h: Host, c: Shard, a: Source, b: Source, r: Request, kindText: string, x: Bytes, y: Bytes,
                         digest: Option<string>)
    requires StatesShowInput(h) && h.world.sha256(x) != h.world.sha256(y)
    requires kindText == Lower(Clean(r.expectedOutputKind)) != "" && !WantsFinal(r, kindText)
    ensures var o, p := StateOutputOf(h, c, a, r, kindText, x, digest), StateOutputOf(h, c, b, r, kindText, y, digest);
            VisibleReply(ReplyOf(o)) == VisibleReply(ReplyOf(p)) <==> !Answerable(r)
  {
    StateAnswered(h, c, a, r, kindText, x, digest);
    StateAnswered(h, c, b, r, kindText, y, digest);
    StateRefused(h, c, a, b, r, kindText, x, y, digest);
    if Answerable(r) {
      StateShown(h, c, a, r, kindText, x, digest);
      StateShown(h, c, b, r, kindText, y, digest);
      var doc := StateTextOf(c, r, h.world.sha256(x), digest);
      assert StateTextOf(c, r, h.world.sha256(y), digest) == doc.(inputSha := h.world.sha256(y));
    }
  }

  function StateTextOf(c: Shard, r: Request, inputSha: Digest, digest: Option<string>): StateDoc {
    StateDoc(r.action, c.facts.digest, c.window.sha, c.window.size, inputSha, InputStateDigest(r), c.facts.tensors,
             digest, c.receiptPath)
  }

  lemma StateShown(h: Host, c: Shard, source: Source, r: Request, kindText: string, payload: Bytes,
                   digest: Option<string>)
    requires ReplyOf(StateOutputOf(h, c, source, r, kindText, payload, digest)).Produced?
    ensures var reply := VisibleReply(ReplyOf(StateOutputOf(h, c, source, r, kindText, payload, digest)));
            && reply.Produced? && reply.output.StateOutput?
            && reply.output.state == h.dumpState(StateTextOf(c, r, h.world.sha256(payload), digest))
  {
  }

  lemma StateRefused(h: Host, c: Shard, a: Source, b: Source, r: Request, kindText: string, x: Bytes, y: Bytes,
                     digest: Option<string>)
    ensures var o, p := StateOutputOf(h, c, a, r, kindText, x, digest), StateOutputOf(h, c, b, r, kindText, y, digest);
            !ReplyOf(o).Produced? ==> ReplyOf(p) == ReplyOf(o)
  {
  }

  /** What a decode answers before it has read its input. */
  function Stopped(h: Host, files: Files, c: Shard): Option<Error> {
    if WindowFault(h, files, c.window).Some? then WindowFault(h, files, c.window)
    else if ReadReceipt(h, files, c.receiptPath).Err? then Some(ReadReceipt(h, files, c.receiptPath).error)
    else None
  }

  /** What it answers once it has read its input. */
  function Answered(h: Host, found: Found, r: Request, doc: ReceiptDoc, judged: Option<Error>, content: Bytes): Reply {
    if judged.Some? then Refused(judged.value)
    else if ReceiptError(doc, found.shard, r.inputState).Some? then
      Refused(ReceiptError(doc, found.shard, r.inputState).value)
    else ReplyOf(OutputOf(h, found.shard, found.source, r, content, CleanOrNone(doc.prefillDigest)))
  }

  lemma DecodeAnswers(h: Host, files: Files, found: Found, r: Request, path: string)
    requires r.input.Some? && NeedPath(h.world, r.input.value.path, InputPathField) == Ok(path) && path in files
    ensures var stopped, judged := Stopped(h, files, found.shard), Verdict(h, r.input.value, files[path]);
            DecodeOn(h, files, found, r).1 == Outcome(
              if stopped.Some? then Refused(stopped.value)
              else Answered(h, found, r, ReadReceipt(h, files, found.shard.receiptPath).value, judged, files[path]),
              None)
  {
    InputIsJudged(h, files, r.input.value, path);
  }

  lemma AnsweredTells(h: Host, c: Shard, a: Source, b: Source, r: Request, doc: ReceiptDoc, x: Bytes, y: Bytes)
    requires r.input.Some? && StatesShowInput(h) && (x != y ==> h.world.sha256(x) != h.world.sha256(y))
    ensures var judgedX, judgedY := Verdict(h, r.input.value, x), Verdict(h, r.input.value, y);
            VisibleReply(Answered(h, Found(c, a), r, doc, judgedX, x)) ==
              VisibleReply(Answered(h, Found(c, b), r, doc, judgedY, y)) <==>
            && judgedX == judgedY
            && (x == y || judgedX.Some? || ReceiptError(doc, c, r.inputState).Some?
                || !Answerable(r) || WantsFinal(r, Lower(Clean(r.expectedOutputKind))))
  {
    ReceiptErrorIsNoVerdict(doc, c, r.inputState);
    OutputTells(h, c, a, b, r, x, y, CleanOrNone(doc.prefillDigest));
    OutputIsNoVerdict(h, c, a, r, x, CleanOrNone(doc.prefillDigest));
    OutputIsNoVerdict(h, c, b, r, y, CleanOrNone(doc.prefillDigest));
  }

  lemma OutputIsNoVerdict(h: Host, c: Shard, source: Source, r: Request, payload: Bytes, digest: Option<string>)
    ensures var reply := VisibleReply(ReplyOf(OutputOf(h, c, source, r, payload, digest)));
            reply != Refused(InputSizeMismatch) && reply != Refused(InputHashMismatch)
  {
    StateIsNoVerdict(h, c, source, r, Lower(Clean(r.expectedOutputKind)), payload, digest);
    FinalIsNoVerdict(h, c, r, digest);
  }

  lemma StateIsNoVerdict(h: Host, c: Shard, source: Source, r: Request, kindText: string, payload: Bytes,
                         digest: Option<string>)
    ensures var o := StateOutputOf(h, c, source, r, kindText, payload, digest);
            o != NoOutput(InputSizeMismatch) && o != NoOutput(InputHashMismatch)
  {
  }

  lemma FinalIsNoVerdict(h: Host, c: Shard, r: Request, digest: Option<string>)
    ensures var o := FinalOutputOf(h, c, r, digest);
            o != NoOutput(InputSizeMismatch) && o != NoOutput(InputHashMismatch)
  {
  }

  lemma DecodeTells(h: Host, f: Files, g: Files, c: Shard, a: Source, b: Source, r: Request, path: string)
    requires InputDiffers(h, f, g, c, r, path) && r.action == DecodeStep && Apart(h, c, r, f[path], g[path])
    requires StatesShowInput(h)
    ensures Visible(DecodeOn(h, f, Found(c, a), r).1) == Visible(DecodeOn(h, g, Found(c, b), r).1) <==>
              !Tells(h, f, c, r, f[path], g[path])
  {
    DecodeAnswers(h, f, Found(c, a), r, path);
    DecodeAnswers(h, g, Found(c, b), r, path);
    WindowAlike(h, {path}, f, g, c.window);
    ReceiptAlike(h, {path}, f, g, c.receiptPath);
    assert Reaches(h, f, c, r) <==> Stopped(h, f, c).None?;
    if Stopped(h, f, c).None? {
      AnsweredTells(h, c, a, b, r, ReadReceipt(h, f, c.receiptPath).value, f[path], g[path]);
    }
  }

  /** Exactly when a process request on a shard answers differently because its input file differs. */
  lemma InputTells(h: Host, f: Files, g: Files, c: Shard, a: Source, b: Source, r: Request, path: string)
    requires InputDiffers(h, f, g, c, r, path) && IsProcess(r) && Apart(h, c, r, f[path], g[path])
    requires StatesShowInput(h)
    ensures Visible(ProcessOn(h, f, Found(c, a), r).1) == Visible(ProcessOn(h, g, Found(c, b), r).1) <==>
              !Tells(h, f, c, r, f[path], g[path])
  {
    if r.action == Prefill {
      PrefillTells(h, f, g, c, a, b, r, path);
    } else {
      DecodeTells(h, f, g, c, a, b, r, path);
    }
  }

  // ---------------------------------------------------------------- the manifest of an unbroken and of a restarted run

  lemma StateManifestsDiffer(h: Host, c: Shard, r: Request, kindText: string, payload: Bytes, digest: Option<string>)
    requires Faithful(h)
    ensures var a := StateOutputOf(h, c, FromMemory, r, kindText, payload, digest);
            var b := StateOutputOf(h, c, FromDisk, r, kindText, payload, digest);
            a.StateOutput? ==>
              && b.StateOutput? && b.manifestPath == a.manifestPath
              && h.dumpManifest(a.manifest) != h.dumpManifest(b.manifest)
  {
    var a := StateOutputOf(h, c, FromMemory, r, kindText, payload, digest);
    var b := StateOutputOf(h, c, FromDisk, r, kindText, payload, digest);
    if a.StateOutput? {
      assert |SourceText(FromMemory)| != |SourceText(FromDisk)|;
      assert a.manifest.manifest.metadata.contextSource != b.manifest.manifest.metadata.contextSource;
      assert h.loadManifest(h.dumpManifest(a.manifest)) != h.loadManifest(h.dumpManifest(b.manifest));
    }
  }

  lemma ManifestsDiffer(h: Host, c: Shard, r: Request, payload: Bytes, digest: Option<string>)
    requires Faithful(h)
    ensures var a := OutputOf(h, c, FromMemory, r, payload, digest);
            var b := OutputOf(h, c, FromDisk, r, payload, digest);
            a.StateOutput? ==>
              && b.StateOutput? && b.manifestPath == a.manifestPath
              && h.dumpManifest(a.manifest) != h.dumpManifest(b.manifest)
  {
    StateManifestsDiffer(h, c, r, Lower(Clean(r.expectedOutputKind)), payload, digest);
  }

  /** The two stores have different contents at the path. */
  predicate DifferAt(f: Files, g: Files, path: string) { path in f && path in g && f[path] != g[path] }

  /** The reply is a state whose manifest went to the path. */
  predicate ManifestAt(reply: Reply, path: string) {
    reply.Produced? && reply.output.StateOutput? && reply.output.manifestPath == path
  }

  lemma StoredManifests(h: Host, files: Files, o: Output, p: Output, path: string)
    requires o.StateOutput? && p.StateOutput? && o.manifestPath == path == p.manifestPath
    requires h.dumpManifest(o.manifest) != h.dumpManifest(p.manifest)
    ensures DifferAt(Store(h, files, o), Store(h, files, p), path)
  {
  }

  lemma ProcessManifests(h: Host, files: Files, c: Shard, r: Request, path: string)
    requires Faithful(h) && ManifestAt(ProcessOn(h, files, Found(c, FromMemory), r).1.reply, path)
    ensures DifferAt(ProcessOn(h, files, Found(c, FromMemory), r).0, ProcessOn(h, files, Found(c, FromDisk), r).0, path)
  {
    if r.action == Prefill {
      var payload := PrefillInput(h, files, c, r).value;
      var sha := h.world.sha256(payload);
      var digest := ExecutionDigest(h, c, r, sha);
      ManifestsDiffer(h, c, r, payload, CleanOrNone(Text(digest)));
      StoredManifests(h, files[c.receiptPath := h.dumpReceipt(ReceiptOf(c, r, sha, digest))],
                      OutputOf(h, c, FromMemory, r, payload, CleanOrNone(Text(digest))),
                      OutputOf(h, c, FromDisk, r, payload, CleanOrNone(Text(digest))), path);
    } else {
      var base := DecodeInput(h, files, c, r).value;
      var shown := CleanOrNone(base.receipt.prefillDigest);
      ManifestsDiffer(h, c, r, base.payload, shown);
      StoredManifests(h, files, OutputOf(h, c, FromMemory, r, base.payload, shown),
                      OutputOf(h, c, FromDisk, r, base.payload, shown), path);
    }
  }

  lemma RecallSources(h: Host, st: State, r: Request)
    requires Recall(h, st, r).Ok?
    ensures Recall(h, st, r).value.source == if Clean(r.sessionId) in st.loaded then FromMemory else FromDisk
  {
  }

  /** Without and after a restart a process request works on the same shard. */
  lemma RestartFindsShard(h: Host, plan: Plan, st: State, p: Request)
    requires Sound(h, plan) && Inv(h, plan, st) && Disciplined(h, plan, p) && WorkspaceOf(h, p).Ok?
    requires Clean(p.sessionId) in st.loaded && Recall(h, st, p).Ok?
    ensures var c := Recall(h, st, p).value.shard;
            && Recall(h, st, p) == Ok(Found(c, FromMemory))
            && Recall(h, State(map[], st.files), p) == Ok(Found(c, FromDisk))
  {
    assert Fence(h, plan, {});
    RecallAlike(h, plan, {}, st, st.files, p);
    RecallSources(h, st, p);
    RecallSources(h, State(map[], st.files), p);
  }

  lemma ProducedIsRecalled(h: Host, st: State, p: Request)
    requires IsProcess(p) && Step(h, st, p).1.reply.Produced?
    ensures Recall(h, st, p).Ok?
  {
  }

  /** One process request, without and after a restart: the outcome is the same and the manifests differ. */
  lemma RestartMarksManifest(h: Host, plan: Plan, st: State, p: Request, path: string)
    requires Sound(h, plan) && Inv(h, plan, st) && Fence(h, plan, {path})
    requires IsProcess(p) && Disciplined(h, plan, p) && Fenced(h, {path}, p) && Clean(p.sessionId) in st.loaded
    requires ManifestAt(Step(h, st, p).1.reply, path)
    ensures var f, g := Step(h, st, p).0.files, Step(h, State(map[], st.files), p).0.files;
            Alike({path}, f, g) && DifferAt(f, g, path)
    ensures Visible(Step(h, st, p).1) == Visible(Step(h, State(map[], st.files), p).1)
  {
    StepAlike(h, plan, {path}, st, st.files, p);
    MarkedFiles(h, plan, st, p, path);
  }

  lemma MarkedFiles(h: Host, plan: Plan, st: State, p: Request, path: string)
    requires Sound(h, plan) && Inv(h, plan, st) && IsProcess(p) && Disciplined(h, plan, p) && WorkspaceOf(h, p).Ok?
    requires Clean(p.sessionId) in st.loaded && ManifestAt(Step(h, st, p).1.reply, path)
    ensures DifferAt(Step(h, st, p).0.files, Step(h, State(map[], st.files), p).0.files, path)
  {
    ProducedIsRecalled(h, st, p);
    RestartFindsShard(h, plan, st, p);
    var c := Recall(h, st, p).value.shard;
    ProcessAnswers(h, st, p, Found(c, FromMemory));
    ProcessAnswers(h, State(map[], st.files), p, Found(c, FromDisk));
    ProcessManifests(h, st.files, c, p, path);
  }

  /** Two states whose files differ in the request's input at most. */
  lemma ReaderTells(h: Host, plan: Plan, a: State, b: State, r: Request, path: string)
    requires Sound(h, plan) && Inv(h, plan, a) && Inv(h, plan, b) && Fence(h, plan, {path}) && StatesShowInput(h)
    requires Alike({path}, a.files, b.files) && path in a.files && path in b.files
    requires IsProcess(r) && Disciplined(h, plan, r) && WorkspaceOf(h, r).Ok? && r.input.Some?
    requires NeedPath(h.world, r.input.value.path, InputPathField) == Ok(path)
    requires Recall(h, a, r).Ok? ==> Apart(h, Recall(h, a, r).value.shard, r, a.files[path], b.files[path])
    ensures Visible(Step(h, a, r).1) == Visible(Step(h, b, r).1) <==>
              !(Recall(h, a, r).Ok? && Tells(h, a.files, Recall(h, a, r).value.shard, r, a.files[path], b.files[path]))
  {
    SameRecall(h, plan, a, b, r, path);
    if Recall(h, a, r).Ok? {
      var x, y := Recall(h, a, r).value, Recall(h, b, r).value;
      ShardSpared(h, plan, a, r, path);
      ProcessAnswers(h, a, r, x);
      ProcessAnswers(h, b, r, y);
      assert InputDiffers(h, a.files, b.files, x.shard, r, path);
      InputTells(h, a.files, b.files, x.shard, x.source, y.source, r, path);
    }
  }

  lemma ShardSpared(h: Host, plan: Plan, st: State, r: Request, path: string)
    requires Sound(h, plan) && Inv(h, plan, st) && Disciplined(h, plan, r) && Fence(h, plan, {path})
    requires Recall(h, st, r).Ok?
    ensures var c := Recall(h, st, r).value.shard; c.window.path != path && c.receiptPath != path
  {
    RecalledIsRecorded(h, plan, st, r);
  }

  lemma ProcessAnswers(h: Host, st: State, r: Request, found: Found)
    requires IsProcess(r) && Recall(h, st, r) == Ok(found)
    ensures Step(h, st, r).0.files == ProcessOn(h, st.files, Found(found.shard, found.source), r).0
    ensures Step(h, st, r).1 == ProcessOn(h, st.files, Found(found.shard, found.source), r).1
  {
  }

  lemma SameRecall(h: Host, plan: Plan, a: State, b: State, r: Request, path: string)
    requires Sound(h, plan) && Inv(h, plan, a) && Inv(h, plan, b) && Fence(h, plan, {path})
    requires Alike({path}, a.files, b.files) && Disciplined(h, plan, r) && WorkspaceOf(h, r).Ok?
    ensures SameFind(Recall(h, a, r), Recall(h, b, r))
  {
    RecallAlike(h, plan, {path}, a, b.files, r);
    RecallAlike(h, plan, {path}, b, b.files, r);
  }

  /**
   The fence is needed: a process request in an unbroken and in a restarted run has one outcome but leaves different
   manifests, and a later request that reads the manifest as its input answers differently exactly when it tells the
   two contents apart: through its stated size or hash, or as a prefill, or as a decode that puts out a state.
   */
  lemma ManifestReadersSeeRestarts(h: Host, plan: Plan, st: State, p: Request, r: Request, path: string)
    requires Sound(h, plan) && Inv(h, plan, st) && Fence(h, plan, {path}) && StatesShowInput(h)
    requires IsProcess(p) && Disciplined(h, plan, p) && Fenced(h, {path}, p) && Clean(p.sessionId) in st.loaded
    requires ManifestAt(Step(h, st, p).1.reply, path)
    requires IsProcess(r) && Disciplined(h, plan, r) && WorkspaceOf(h, r).Ok? && r.input.Some?
    requires NeedPath(h.world, r.input.value.path, InputPathField) == Ok(path)
    ensures Seen(h, st, [Call(p)]) == Seen(h, st, [Restart, Call(p)])
    ensures var a, b := Run(h, st, [Call(p)]), Run(h, st, [Restart, Call(p)]);
            && DifferAt(a.files, b.files, path)
            && (Recall(h, a, r).Ok? && Apart(h, Recall(h, a, r).value.shard, r, a.files[path], b.files[path]) ==>
                (Visible(Step(h, a, r).1) == Visible(Step(h, b, r).1) <==>
                 !Tells(h, a.files, Recall(h, a, r).value.shard, r, a.files[path], b.files[path])))
            && (Recall(h, a, r).Err? ==> Visible(Step(h, a, r).1) == Visible(Step(h, b, r).1))
  {
    var a, b := Run(h, st, [Call(p)]), Run(h, st, [Restart, Call(p)]);
    RunOne(h, st, Call(p));
    RunTwo(h, st, Restart, Call(p));
    RestartMarksManifest(h, plan, st, p, path);
    SeenOnce(h, st, p);
    StepKeepsInv(h, plan, st, p);
    InvAfterRestart(h, plan, st);
    StepKeepsInv(h, plan, State(map[], st.files), p);
    if Recall(h, a, r).Ok? ==> Apart(h, Recall(h, a, r).value.shard, r, a.files[path], b.files[path]) {
      ReaderTells(h, plan, a, b, r, path);
    }
  }

  lemma SeenOnce(h: Host, st: State, p: Request)
    ensures Seen(h, st, [Call(p)]) == [Visible(Step(h, st, p).1)]
    ensures Seen(h, st, [Restart, Call(p)]) == [Visible(Step(h, State(map[], st.files), p).1)]
  {
    assert [Call(p)][..0] == [];
    assert [Restart, Call(p)][..1] == [Restart] && [Restart][..0] == [];
    RunOne(h, st, Restart);
    assert Seen(h, st, [Restart]) == [];
  }
}
