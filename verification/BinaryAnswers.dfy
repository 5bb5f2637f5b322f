/**
 What the reference binary answers: exactly which requests it accepts, what it writes for them, and what the prefill
 digest that ties decodes to their prefill stands for.
 */
module BinaryAnswers {
  import opened PyValue
  import opened ArtifactContract
  import opened ChunkWindows
  import opened ReferenceSession
  import opened Handoff
  import opened ReferenceBinary
  import opened ReferenceRuns
  import opened RestartTransparency
  import opened ReferenceSafety

  // ---------------------------------------------------------------- finding the shard

  /** The request is for this shard: session, model and bounds, and the artifact's path if it names one. */
  predicate Matches(h: Host, r: Request, c: Shard) {
    && Clean(r.sessionId) == c.sessionId != "" && Clean(r.modelId) == c.modelId != ""
    && OptInt(r.layerStart) == c.layerStart && OptInt(r.layerEnd) == c.layerEnd
    && (r.assignment.Some? ==>
          && Clean(r.assignment.value.localPath) != ""
          && h.world.resolve(Clean(r.assignment.value.localPath)) == Some(c.localPath))
  }

  lemma MismatchIsExact(h: Host, r: Request, c: Shard)
    ensures Mismatch(h, r, c).None? <==> Matches(h, r, c)
  {
  }

  /** The files a session's documents are kept under. */
  predicate SlotIs(h: Host, r: Request, slot: Slot) {
    && r.stateFilesDir.Some? && Clean(r.stateFilesDir.value) != ""
    && h.world.resolve(Clean(r.stateFilesDir.value)) == Some(slot.dir)
    && Clean(r.sessionId) == slot.sessionId != "" && Clean(r.modelId) == slot.modelId != ""
    && OptInt(r.layerStart) == slot.layerStart && OptInt(r.layerEnd) == slot.layerEnd
  }

  lemma SlotIsExact(h: Host, r: Request, slot: Slot)
    ensures SlotOf(h, r) == Ok(slot) <==> SlotIs(h, r, slot)
  {
  }

  /** Where a shard is found: in the table, or else in the session file of the request's slot. */
  ghost predicate FoundAt(h: Host, st: State, r: Request, found: Found) {
    if Clean(r.sessionId) in st.loaded then
      found == Found(st.loaded[Clean(r.sessionId)], FromMemory)
    else
      && found.source == FromDisk
      && exists slot :: SlotIs(h, r, slot) && FromDiskFile(h, st.files, h.sessionFile(slot)) == Ok(found.shard)
  }

  lemma RecallIsExact(h: Host, st: State, r: Request, found: Found)
    ensures Recall(h, st, r) == Ok(found) <==> FoundAt(h, st, r, found) && Matches(h, r, found.shard)
  {
    MismatchIsExact(h, r, found.shard);
    if Clean(r.sessionId) !in st.loaded {
      if SlotOf(h, r).Ok? {
        SlotIsExact(h, r, SlotOf(h, r).value);
        var c := FromDiskFile(h, st.files, h.sessionFile(SlotOf(h, r).value));
        if c.Ok? { MismatchIsExact(h, r, c.value); }
      }
      if slot :| SlotIs(h, r, slot) { SlotIsExact(h, r, slot); }
    } else {
      MismatchIsExact(h, r, st.loaded[Clean(r.sessionId)]);
    }
  }

  // ---------------------------------------------------------------- window and input

  predicate WindowIntact(h: Host, files: Files, p: ShardWindow) {
    p.path in files && |files[p.path]| == p.size && h.world.sha256(files[p.path]) == p.sha
  }

  lemma WindowCheckIsExact(h: Host, files: Files, p: ShardWindow)
    ensures WindowFault(h, files, p).None? <==> WindowIntact(h, files, p)
  {
  }

  /** The input is there and has the size and hash that are stated; no input is empty. */
  predicate InputIs(h: Host, files: Files, input: Option<PayloadFile>, payload: Bytes) {
    if input.None? then payload == []
    else
      && Clean(input.value.path) != "" && h.world.resolve(Clean(input.value.path)).Some?
      && var path := h.world.resolve(Clean(input.value.path)).value;
         && path in files && files[path] == payload
         && (OptInt(input.value.sizeBytes).Some? ==> OptInt(input.value.sizeBytes).value == |payload|)
         && (Clean(input.value.sha256Hex) != "" ==> Lower(Clean(input.value.sha256Hex)) == h.world.sha256(payload))
  }

  lemma InputIsExact(h: Host, files: Files, input: Option<PayloadFile>, payload: Bytes)
    ensures ReadInput(h, files, input) == Ok(payload) <==> InputIs(h, files, input, payload)
  {
    if input.Some? { assert |Lower(Clean(input.value.sha256Hex))| == |Clean(input.value.sha256Hex)|; }
  }

  ghost predicate HasInput(h: Host, files: Files, r: Request) { exists b :: InputIs(h, files, r.input, b) }

  lemma HasInputIsExact(h: Host, files: Files, r: Request)
    ensures HasInput(h, files, r) <==> ReadInput(h, files, r.input).Ok?
  {
    if ReadInput(h, files, r.input).Ok? { InputIsExact(h, files, r.input, ReadInput(h, files, r.input).value); }
    if b :| InputIs(h, files, r.input, b) { InputIsExact(h, files, r.input, b); }
  }

  // ---------------------------------------------------------------- acceptance

  /** The receipt of a prefill on this window is there, and the input state carries its digest and the window's hash. */
  ghost predicate Backed(h: Host, files: Files, c: Shard, r: Request) {
    && c.receiptPath in files && h.loadReceipt(files[c.receiptPath]).Some?
    && var doc := h.loadReceipt(files[c.receiptPath]).value;
       && Clean(doc.abi) == RECEIPT_ABI && Lower(Clean(doc.preparedSha)) == c.window.sha
       && r.inputState.Some? && r.inputState.value.metadata.Metadata?
       && (Clean(doc.prefillDigest) == ""
           || Clean(r.inputState.value.metadata.prefillDigest) == Clean(doc.prefillDigest))
       && Lower(Clean(r.inputState.value.metadata.shardSha)) == c.window.sha
  }

  lemma BackedIsExact(h: Host, files: Files, c: Shard, r: Request)
    ensures Backed(h, files, c, r) <==>
              && ReadReceipt(h, files, c.receiptPath).Ok?
              && ReceiptError(ReadReceipt(h, files, c.receiptPath).value, c, r.inputState).None?
  {
  }

  lemma PrefillIsExact(h: Host, files: Files, found: Found, r: Request)
    ensures var out := PrefillOn(h, files, found, r).1;
            && (out.receipt.Some? <==> WindowIntact(h, files, found.shard.window) && HasInput(h, files, r))
            && (out.reply.Produced? <==> out.receipt.Some? && Answerable(r))
  {
    WindowCheckIsExact(h, files, found.shard.window);
    HasInputIsExact(h, files, r);
    PrefillAcceptedIffAnswerable(h, files, found, r);
  }

  lemma DecodeIsExact(h: Host, files: Files, found: Found, r: Request)
    ensures var out := DecodeOn(h, files, found, r).1;
            && out.receipt.None?
            && (out.reply.Produced? <==>
                  && WindowIntact(h, files, found.shard.window) && Backed(h, files, found.shard, r)
                  && HasInput(h, files, r) && Answerable(r))
  {
    WindowCheckIsExact(h, files, found.shard.window);
    BackedIsExact(h, files, found.shard, r);
    HasInputIsExact(h, files, r);
    var base := DecodeInput(h, files, found.shard, r);
    if base.Ok? {
      AnsweredIff(h, found.shard, found.source, r, base.value.payload, CleanOrNone(base.value.receipt.prefillDigest));
    }
  }

  /**
   A process request is answered with an output exactly when its shard is found, the prepared window is intact, the
   input is there, the answer can be put somewhere and, for a decode, a prefill on this window backs it.
   */
  lemma ProcessIsExact(h: Host, st: State, r: Request)
    requires r.action == Prefill || r.action == DecodeStep
    ensures Step(h, st, r).1.reply.Produced? <==>
              && Recall(h, st, r).Ok?
              && var c := Recall(h, st, r).value.shard;
                 && WindowIntact(h, st.files, c.window) && HasInput(h, st.files, r) && Answerable(r)
                 && (r.action == DecodeStep ==> Backed(h, st.files, c, r))
  {
    if Recall(h, st, r).Ok? {
      PrefillIsExact(h, st.files, Recall(h, st, r).value, r);
      DecodeIsExact(h, st.files, Recall(h, st, r).value, r);
    }
  }

  // ---------------------------------------------------------------- what is written

  /** The receipt of a prefill, field by field. */
  predicate ReceiptFor(doc: ReceiptDoc, c: Shard, r: Request, inputSha: Digest, digest: Digest) {
    && doc.abi == Text(RECEIPT_ABI) && doc.sessionId == Text(c.sessionId) && doc.modelId == Text(c.modelId)
    && OptInt(doc.layerStart) == c.layerStart && OptInt(doc.layerEnd) == c.layerEnd
    && OptInt(doc.tokenStart) == OptInt(r.tokenStart) && OptInt(doc.tokenEnd) == OptInt(r.tokenEnd)
    && doc.preparedPath == Text(c.window.path) && doc.preparedSha == Text(c.window.sha)
    && doc.preparedSize == Num(c.window.size) && doc.inputSha == Text(inputSha) && doc.prefillDigest == Text(digest)
  }

  /** A prefill that reads its input leaves its receipt, unless the request puts an output in its place. */
  lemma PrefillReceiptIsExact(h: Host, files: Files, found: Found, r: Request, payload: Bytes)
    requires Faithful(h) && WindowIntact(h, files, found.shard.window) && InputIs(h, files, r.input, payload)
    requires found.shard.receiptPath !in TargetPaths(h, r)
    ensures var (after, out) := PrefillOn(h, files, found, r);
            && out.receipt.Some? && found.shard.receiptPath in after
            && h.loadReceipt(after[found.shard.receiptPath]).Some?
            && ReceiptFor(h.loadReceipt(after[found.shard.receiptPath]).value, found.shard, r, h.world.sha256(payload),
                          out.receipt.value)
            && out.receipt.value == ExecutionDigest(h, found.shard, r, h.world.sha256(payload))
  {
    var c, inputSha := found.shard, h.world.sha256(payload);
    WindowCheckIsExact(h, files, c.window);
    InputIsExact(h, files, r.input, payload);
    var digest := ExecutionDigest(h, c, r, inputSha);
    var o := OutputOf(h, c, found.source, r, payload, CleanOrNone(Text(digest)));
    var written := files[c.receiptPath := h.dumpReceipt(ReceiptOf(c, r, inputSha, digest))];
    OutputOnTarget(h, c, found.source, r, payload, CleanOrNone(Text(digest)));
    StoreWrites(h, written, o, TargetPaths(h, r));
    assert SameAt(written, Store(h, written, o), c.receiptPath);
    LayersReadBack(c.layerStart);
    LayersReadBack(c.layerEnd);
    LayersReadBack(OptInt(r.tokenStart));
    LayersReadBack(OptInt(r.tokenEnd));
  }

  /** The first sixteen characters, or a label where there is no digest. */
  predicate Abbreviates(t: string, digest: Option<string>, absent: string) {
    if digest.None? then t == absent
    else t <= digest.value && |t| == if |digest.value| < 16 then |digest.value| else 16
  }

  ghost predicate FinalText(h: Host, c: Shard, r: Request, digest: Option<string>, text: Bytes) {
    exists a, b, d ::
      && Abbreviates(a, Some(c.window.sha), "") && Abbreviates(b, digest, "no-prefill")
      && Abbreviates(d, InputStateDigest(r), "no-state")
      && text == h.world.utf8("reference:" + a + ":" + b + ":" + d)
  }

  /** The manifest of a state, as later stages read it. */
  predicate ManifestFor(h: Host, m: Manifest, c: Shard, r: Request, source: Source, path: string, state: Bytes,
                        digest: Option<string>) {
    && OptInt(m.schemaVersion) == Some(1) && m.abi == Text(STATE_ABI)
    && ParseKind(m.stateKind) == ParseKind(r.expectedOutputKind)
    && m.producedByAction == Text(if r.action == Prefill then PREFILL else DECODE)
    && m.modelId == Text(c.modelId) && m.sessionId == Text(c.sessionId)
    && OptInt(m.layerStart) == c.layerStart && OptInt(m.layerEnd) == c.layerEnd
    && OptInt(m.tokenStart) == OptInt(r.tokenStart) && OptInt(m.tokenEnd) == OptInt(r.tokenEnd)
    && m.stateFile == StateFile(Text(path), Text(h.world.sha256(state)), Num(|state|))
    && m.metadata == Metadata(FromText(digest), Text(c.window.sha), Text(SourceText(source)))
    && ParseKind(m.stateKind).Some? && m.stateFormat == Text(h.formats(ParseKind(m.stateKind).value))
  }

  predicate StateFor(h: Host, doc: StateDoc, c: Shard, r: Request, payload: Bytes, digest: Option<string>) {
    && doc.producedBy == r.action && doc.artifactDigest == c.facts.digest && doc.preparedSha == c.window.sha
    && doc.preparedSize == c.window.size && doc.inputSha == h.world.sha256(payload)
    && doc.inputStateDigest == InputStateDigest(r) && doc.tensors == c.facts.tensors && doc.prefillDigest == digest
    && doc.receiptPath == c.receiptPath
  }

  ghost predicate SavesState(h: Host, state: Bytes, c: Shard, r: Request, payload: Bytes, digest: Option<string>) {
    exists doc :: StateFor(h, doc, c, r, payload, digest) && state == h.dumpState(doc)
  }

  /** What an answerable request puts out and where: a final text, or a state with its manifest. */
  ghost predicate OutputFor(h: Host, o: Output, c: Shard, source: Source, r: Request, payload: Bytes,
                            digest: Option<string>)
    requires r.targets.Some?
  {
    var payloadPath := h.absolute(Clean(r.targets.value.outputPayloadPath));
    if WantsFinal(r, Lower(Clean(r.expectedOutputKind))) then
      o.FinalOutput? && o.path == payloadPath && FinalText(h, c, r, digest, o.text)
    else
      && o.StateOutput? && o.manifestPath == payloadPath
      && o.statePath == h.absolute(Clean(r.targets.value.outputStateFilePath))
      && SavesState(h, o.state, c, r, payload, digest)
      && ManifestFor(h, o.manifest.manifest, c, r, source, o.statePath, o.state, digest)
      && o.manifest.artifactDigest == c.facts.digest && o.manifest.preparedSize == c.window.size
      && o.manifest.receiptPath == c.receiptPath
  }

  lemma ShortAbbreviates(digest: Option<string>, absent: string)
    ensures Abbreviates(if digest.Some? then Short(digest.value) else absent, digest, absent)
  {
  }

  lemma TextIsFinal(h: Host, c: Shard, r: Request, digest: Option<string>, a: string, b: string, d: string)
    requires Abbreviates(a, Some(c.window.sha), "") && Abbreviates(b, digest, "no-prefill")
    requires Abbreviates(d, InputStateDigest(r), "no-state")
    ensures FinalText(h, c, r, digest, h.world.utf8("reference:" + a + ":" + b + ":" + d))
  {
  }

  lemma FinalIsExact(h: Host, c: Shard, r: Request, digest: Option<string>)
    requires r.targets.Some? && Clean(r.targets.value.outputPayloadPath) != ""
    ensures var o := FinalOutputOf(h, c, r, digest);
            && o.FinalOutput? && o.path == h.absolute(Clean(r.targets.value.outputPayloadPath))
            && FinalText(h, c, r, digest, o.text)
  {
    var a := Short(c.window.sha);
    var b := if digest.Some? then Short(digest.value) else "no-prefill";
    var d := if InputStateDigest(r).Some? then Short(InputStateDigest(r).value) else "no-state";
    ShortAbbreviates(Some(c.window.sha), "");
    ShortAbbreviates(digest, "no-prefill");
    ShortAbbreviates(InputStateDigest(r), "no-state");
    TextIsFinal(h, c, r, digest, a, b, d);
  }

  lemma KindReadsBack(kind: StateKind)
    ensures ParseKind(Text(KindText(kind))) == Some(kind)
  {
    assert Lower("activation_state") == "activation_state" && Lower("decode_state") == "decode_state";
  }

  lemma KindTextReadsBack(v: Value)
    ensures ParseKind(Text(Lower(Clean(v)))) == ParseKind(v)
  {
    var text := Lower(Clean(v));
    assert Trimmed(text);
    LowerTwice(Clean(v));
  }

  lemma ManifestIsExact(h: Host, c: Shard, source: Source, r: Request, kind: StateKind, path: string, state: Bytes,
                        digest: Option<string>)
    requires ParseKind(r.expectedOutputKind) == Some(kind) && (r.action == Prefill || r.action == DecodeStep)
    ensures ManifestFor(h, ManifestOf(h, c, source, r, kind, path, state, digest), c, r, source, path, state, digest)
  {
    KindReadsBack(kind);
    LayersReadBack(c.layerStart);
    LayersReadBack(c.layerEnd);
    LayersReadBack(OptInt(r.tokenStart));
    LayersReadBack(OptInt(r.tokenEnd));
  }

  lemma StateIsExact(h: Host, c: Shard, source: Source, r: Request, kindText: string, payload: Bytes,
                     digest: Option<string>)
    requires r.targets.Some? && Clean(r.targets.value.outputPayloadPath) != ""
    requires Clean(r.targets.value.outputStateFilePath) != "" && kindText == Lower(Clean(r.expectedOutputKind))
    requires ParseKind(Text(kindText)).Some? && (r.action == Prefill || r.action == DecodeStep)
    requires !WantsFinal(r, kindText)
    ensures OutputFor(h, StateOutputOf(h, c, source, r, kindText, payload, digest), c, source, r, payload, digest)
  {
    var o := StateOutputOf(h, c, source, r, kindText, payload, digest);
    StateParts(h, c, source, r, kindText, payload, digest);
    KindTextReadsBack(r.expectedOutputKind);
    ManifestIsExact(h, c, source, r, ParseKind(Text(kindText)).value, o.statePath, o.state, digest);
  }

  lemma StateParts(h: Host, c: Shard, source: Source, r: Request, kindText: string, payload: Bytes,
                   digest: Option<string>)
    requires r.targets.Some? && Clean(r.targets.value.outputPayloadPath) != ""
    requires Clean(r.targets.value.outputStateFilePath) != "" && ParseKind(Text(kindText)).Some?
    ensures var o := StateOutputOf(h, c, source, r, kindText, payload, digest);
            && o.StateOutput? && o.statePath == h.absolute(Clean(r.targets.value.outputStateFilePath))
            && o.manifestPath == h.absolute(Clean(r.targets.value.outputPayloadPath))
            && SavesState(h, o.state, c, r, payload, digest)
            && o.manifest ==
                 ManifestDocOf(h, c, source, r, ParseKind(Text(kindText)).value, o.statePath, o.state, digest)
  {
    var doc := StateDoc(r.action, c.facts.digest, c.window.sha, c.window.size, h.world.sha256(payload),
                        InputStateDigest(r), c.facts.tensors, digest, c.receiptPath);
    assert StateFor(h, doc, c, r, payload, digest);
  }

  /** Every answerable process request puts out what `OutputFor` says. */
  lemma OutputIsExact(h: Host, c: Shard, source: Source, r: Request, payload: Bytes, digest: Option<string>)
    requires Answerable(r) && (r.action == Prefill || r.action == DecodeStep)
    ensures OutputFor(h, OutputOf(h, c, source, r, payload, digest), c, source, r, payload, digest)
  {
    var kindText := Lower(Clean(r.expectedOutputKind));
    if WantsFinal(r, kindText) {
      FinalIsExact(h, c, r, digest);
    } else {
      StateIsExact(h, c, source, r, kindText, payload, digest);
    }
  }

  /** The digest of the input state is the hash that its state file states, in lower case, if it states one. */
  lemma StateDigestIsExact(r: Request, d: string)
    ensures InputStateDigest(r) == Some(d) <==>
              && r.inputState.Some? && r.inputState.value.stateFile.StateFile? && d != ""
              && d == Lower(Clean(r.inputState.value.stateFile.sha256Hex))
  {
  }

  /** The request asks for a final output by its kind, or as a decode that requires one. */
  lemma FinalWanted(r: Request)
    ensures WantsFinal(r, Lower(Clean(r.expectedOutputKind))) <==>
              || Lower(Clean(r.expectedOutputKind)) == "final_output"
              || (r.action == DecodeStep && Truthy(r.requiresFinalOutput))
  {
  }

  /** The output is on disk where the reply says, and nothing else was written but a prefill's receipt. */
  ghost predicate OnDisk(h: Host, before: Files, after: Files, o: Output, receipts: set<string>) {
    match o
    case FinalOutput(path, text) =>
      path in after && after[path] == text && WritesOnly(before, after, {path} + receipts)
    case StateOutput(path, state, manifestPath, doc) =>
      && manifestPath in after && after[manifestPath] == h.dumpManifest(doc)
      && (path != manifestPath ==> path in after && after[path] == state)
      && WritesOnly(before, after, {path, manifestPath} + receipts)
    case _ => false
  }

  /** What a successful process request did: the output it should, with the digest it should, stored where it should. */
  lemma ProducedIsExact(h: Host, st: State, r: Request, found: Found)
    requires r.action == Prefill || r.action == DecodeStep
    requires Recall(h, st, r) == Ok(found) && Step(h, st, r).1.reply.Produced?
    ensures ReadInput(h, st.files, r.input).Ok? && r.targets.Some?
    ensures r.action == DecodeStep ==> ReadReceipt(h, st.files, found.shard.receiptPath).Ok?
    ensures var payload := ReadInput(h, st.files, r.input).value;
            var digest := if r.action == Prefill then
                            CleanOrNone(Text(ExecutionDigest(h, found.shard, r, h.world.sha256(payload))))
                          else CleanOrNone(ReadReceipt(h, st.files, found.shard.receiptPath).value.prefillDigest);
            var o := Step(h, st, r).1.reply.output;
            && OutputFor(h, o, found.shard, found.source, r, payload, digest)
            && OnDisk(h, st.files, Step(h, st, r).0.files, o,
                      if r.action == Prefill then {found.shard.receiptPath} else {})
            && Step(h, st, r).0.loaded == st.loaded[found.shard.sessionId := found.shard]
  {
    ProcessIsExact(h, st, r);
    var c := found.shard;
    if r.action == Prefill {
      PrefillProduces(h, st.files, found, r);
    } else {
      DecodeProduces(h, st.files, found, r);
    }
  }

  lemma PrefillProduces(h: Host, files: Files, found: Found, r: Request)
    requires r.action == Prefill && Answerable(r) && PrefillOn(h, files, found, r).1.reply.Produced?
    ensures ReadInput(h, files, r.input).Ok?
    ensures var payload := ReadInput(h, files, r.input).value;
            var digest := CleanOrNone(Text(ExecutionDigest(h, found.shard, r, h.world.sha256(payload))));
            var (after, out) := PrefillOn(h, files, found, r);
            && out.reply.Produced? && OutputFor(h, out.reply.output, found.shard, found.source, r, payload, digest)
            && OnDisk(h, files, after, out.reply.output, {found.shard.receiptPath})
  {
    var c, payload := found.shard, ReadInput(h, files, r.input).value;
    var inputSha := h.world.sha256(payload);
    var digest := ExecutionDigest(h, c, r, inputSha);
    var o := OutputOf(h, c, found.source, r, payload, CleanOrNone(Text(digest)));
    OutputIsExact(h, c, found.source, r, payload, CleanOrNone(Text(digest)));
    StoredIsOnDisk(h, files[c.receiptPath := h.dumpReceipt(ReceiptOf(c, r, inputSha, digest))], o);
    StoredBehindReceipt(h, files, c.receiptPath, h.dumpReceipt(ReceiptOf(c, r, inputSha, digest)), o);
  }

  lemma DecodeProduces(h: Host, files: Files, found: Found, r: Request)
    requires r.action == DecodeStep && Answerable(r) && DecodeOn(h, files, found, r).1.reply.Produced?
    ensures ReadInput(h, files, r.input).Ok? && ReadReceipt(h, files, found.shard.receiptPath).Ok?
    ensures var payload := ReadInput(h, files, r.input).value;
            var digest := CleanOrNone(ReadReceipt(h, files, found.shard.receiptPath).value.prefillDigest);
            var (after, out) := DecodeOn(h, files, found, r);
            && out.reply.Produced? && OutputFor(h, out.reply.output, found.shard, found.source, r, payload, digest)
            && OnDisk(h, files, after, out.reply.output, {})
  {
    var base := DecodeInput(h, files, found.shard, r).value;
    var shown := CleanOrNone(base.receipt.prefillDigest);
    OutputIsExact(h, found.shard, found.source, r, base.payload, shown);
    StoredIsOnDisk(h, files, OutputOf(h, found.shard, found.source, r, base.payload, shown));
  }

  lemma StoredIsOnDisk(h: Host, files: Files, o: Output)
    requires o.FinalOutput? || o.StateOutput?
    ensures OnDisk(h, files, Store(h, files, o), o, {})
  {
  }

  lemma StoredBehindReceipt(h: Host, files: Files, path: string, bytes: Bytes, o: Output)
    requires OnDisk(h, files[path := bytes], Store(h, files[path := bytes], o), o, {})
    ensures OnDisk(h, files, Store(h, files[path := bytes], o), o, {path})
  {
  }

  // ---------------------------------------------------------------- finalize

  /**
   A finalize drops the session from the table first; with a slot it then removes the session file and the window
   and receipt of the shard it found, and nothing else.
   */
  lemma FinalizeIsExact(h: Host, st: State, r: Request)
    requires r.action == Finalize
    ensures var (after, out) := Step(h, st, r);
            && out.receipt.None?
            && after.loaded == (if Clean(r.sessionId) == "" then st.loaded else st.loaded - {Clean(r.sessionId)})
            && (out.reply.Finalized? ==> SlotOf(h, r).Ok?)
            && (!out.reply.Finalized? ==> after.files == st.files)
    ensures SlotOf(h, r).Ok? ==>
              var path := h.sessionFile(SlotOf(h, r).value);
              var s := Clean(r.sessionId);
              var (after, out) := Step(h, st, r);
              if s in st.loaded then
                && out.reply == Finalized(FromMemory)
                && after.files == st.files - {path, st.loaded[s].window.path, st.loaded[s].receiptPath}
              else if path !in st.files then out.reply == Finalized(FromNowhere) && after.files == st.files
              else
                var c := FromDiskFile(h, st.files, path);
                if c.Err? then out.reply == Refused(c.error)
                else out.reply == Finalized(FromDisk)
                     && after.files == st.files - {path, c.value.window.path, c.value.receiptPath}
  {
  }

  // ---------------------------------------------------------------- what the prefill digest stands for

  predicate NoColon(s: string) { ':' !in s }

  lemma {:induction false} FirstColon(a: string, b: string, s: string, t: string)
    requires NoColon(a) && NoColon(b) && a + ":" + s == b + ":" + t
    ensures a == b && s == t
  {
    var x, y := a + ":" + s, b + ":" + t;
    ColonAt(a, s);
    ColonAt(b, t);
    assert |a| == |b|;
    assert a == x[..|a|] && b == y[..|b|] && s == x[|a| + 1..] && t == y[|b| + 1..];
  }

  lemma ColonAt(a: string, s: string)
    requires NoColon(a)
    ensures (a + ":" + s)[|a|] == ':' && forall i :: 0 <= i < |a| ==> (a + ":" + s)[i] != ':'
  {
    forall i | 0 <= i < |a| ensures (a + ":" + s)[i] != ':' { assert (a + ":" + s)[i] == a[i] && a[i] in a; }
  }

  lemma {:induction false} DecimalHasNoColon(n: int)
    ensures NoColon(Decimal(n))
    decreases if n < 0 then 1 - n else n
  {
    if n < 0 { DecimalHasNoColon(-n); } else if n >= 10 { DecimalHasNoColon(n / 10); }
  }

  lemma ShownInts(x: Option<int>, y: Option<int>)
    ensures NoColon(ShowInt(x)) && (ShowInt(x) == ShowInt(y) ==> x == y)
  {
    if x.Some? {
      DecimalHasNoColon(x.value);
      DecimalReadsBack(x.value);
    }
    if y.Some? { DecimalReadsBack(y.value); }
    NoneIsNoNumber();
  }

  lemma NoneIsNoNumber()
    ensures ParseInt("None") == None && NoColon("None")
  {
    assert "None"[0] == 'N';
  }

  lemma DigestHasNoColon(s: string)
    requires IsDigest(s)
    ensures NoColon(s)
  {
    assert forall i :: 0 <= i < |s| ==> IsHex(s[i]);
  }

  /** The text that is hashed. */
  function DigestText(c: Shard, r: Request, inputSha: Digest): string {
    c.window.sha + ":" + inputSha + ":" + ShowInt(c.layerStart) + ":" + ShowInt(c.layerEnd) + ":"
    + ShowInt(OptInt(r.tokenStart)) + ":" + ShowInt(OptInt(r.tokenEnd))
  }

  /** The same text, bracketed from the right. */
  lemma TextNests(a: string, b: string, c: string, d: string, e: string, f: string)
    ensures a + ":" + b + ":" + c + ":" + d + ":" + e + ":" + f ==
            a + ":" + (b + ":" + (c + ":" + (d + ":" + (e + ":" + f))))
  {
  }

  lemma NestedTextDecides(a: string, b: string, c: string, d: string, e: string, f: string,
                          a': string, b': string, c': string, d': string, e': string, f': string)
    requires NoColon(a) && NoColon(b) && NoColon(c) && NoColon(d) && NoColon(e)
    requires NoColon(a') && NoColon(b') && NoColon(c') && NoColon(d') && NoColon(e')
    requires a + ":" + (b + ":" + (c + ":" + (d + ":" + (e + ":" + f)))) ==
             a' + ":" + (b' + ":" + (c' + ":" + (d' + ":" + (e' + ":" + f'))))
    ensures a == a' && b == b' && c == c' && d == d' && e == e' && f == f'
  {
    FirstColon(a, a', b + ":" + (c + ":" + (d + ":" + (e + ":" + f))),
               b' + ":" + (c' + ":" + (d' + ":" + (e' + ":" + f'))));
    FirstColon(b, b', c + ":" + (d + ":" + (e + ":" + f)), c' + ":" + (d' + ":" + (e' + ":" + f')));
    FirstColon(c, c', d + ":" + (e + ":" + f), d' + ":" + (e' + ":" + f'));
    FirstColon(d, d', e + ":" + f, e' + ":" + f');
    FirstColon(e, e', f, f');
  }

  /** Two texts that the host writes and hashes alike are one text. */
  predicate TellsTexts(h: Host, s: string, t: string) {
    h.world.sha256(h.world.utf8(s)) == h.world.sha256(h.world.utf8(t)) ==> s == t
  }

  /**
   Equal prefill digests mean one prepared window, one input, one layer range and one token range, unless the two
   hashed texts collide.
   */
  lemma PrefillDigestPins(h: Host, c: Shard, r: Request, x: Digest, c': Shard, r': Request, x': Digest)
    requires IsDigest(c.window.sha) && IsDigest(c'.window.sha)
    requires ExecutionDigest(h, c, r, x) == ExecutionDigest(h, c', r', x')
    requires TellsTexts(h, DigestText(c, r, x), DigestText(c', r', x'))
    ensures c.window.sha == c'.window.sha && x == x' && c.layerStart == c'.layerStart && c.layerEnd == c'.layerEnd
    ensures OptInt(r.tokenStart) == OptInt(r'.tokenStart) && OptInt(r.tokenEnd) == OptInt(r'.tokenEnd)
  {
    HashedTexts(h, c, r, x);
    HashedTexts(h, c', r', x');
    TextsDecide(c, r, x, c', r', x');
  }

  lemma HashedTexts(h: Host, c: Shard, r: Request, x: Digest)
    ensures ExecutionDigest(h, c, r, x) == h.world.sha256(h.world.utf8(DigestText(c, r, x)))
  {
  }

  lemma TextsDecide(c: Shard, r: Request, x: Digest, c': Shard, r': Request, x': Digest)
    requires IsDigest(c.window.sha) && IsDigest(c'.window.sha) && DigestText(c, r, x) == DigestText(c', r', x')
    ensures c.window.sha == c'.window.sha && x == x' && c.layerStart == c'.layerStart && c.layerEnd == c'.layerEnd
    ensures OptInt(r.tokenStart) == OptInt(r'.tokenStart) && OptInt(r.tokenEnd) == OptInt(r'.tokenEnd)
  {
    DigestHasNoColon(c.window.sha);
    DigestHasNoColon(c'.window.sha);
    DigestHasNoColon(x);
    DigestHasNoColon(x');
    ShownInts(c.layerStart, c'.layerStart);
    ShownInts(c'.layerStart, c.layerStart);
    ShownInts(c.layerEnd, c'.layerEnd);
    ShownInts(c'.layerEnd, c.layerEnd);
    ShownInts(OptInt(r.tokenStart), OptInt(r'.tokenStart));
    ShownInts(OptInt(r'.tokenStart), OptInt(r.tokenStart));
    ShownInts(OptInt(r.tokenEnd), OptInt(r'.tokenEnd));
    TextNests(c.window.sha, x, ShowInt(c.layerStart), ShowInt(c.layerEnd), ShowInt(OptInt(r.tokenStart)),
              ShowInt(OptInt(r.tokenEnd)));
    TextNests(c'.window.sha, x', ShowInt(c'.layerStart), ShowInt(c'.layerEnd), ShowInt(OptInt(r'.tokenStart)),
              ShowInt(OptInt(r'.tokenEnd)));
    NestedTextDecides(c.window.sha, x, ShowInt(c.layerStart), ShowInt(c.layerEnd), ShowInt(OptInt(r.tokenStart)),
                      ShowInt(OptInt(r.tokenEnd)),
                      c'.window.sha, x', ShowInt(c'.layerStart), ShowInt(c'.layerEnd), ShowInt(OptInt(r'.tokenStart)),
                      ShowInt(OptInt(r'.tokenEnd)));
  }
}
