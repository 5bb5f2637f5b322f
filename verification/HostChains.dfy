/**
 Chain closure across host and binary: a prefill that puts out decode state, then any number of decodes,
 each fed the previous output as the host hands it on, with restarts wherever one likes.
 */
module HostChains {
  import opened PyValue
  import opened ReferenceSession
  import opened Handoff
  import opened ReferenceBinary
  import opened ReferenceRuns
  import opened RestartTransparency
  import opened ReferenceSafety
  import opened ReferenceChains

  const DECODE_STATE := "decode_state"

  // ---------------------------------------------------------------- the host takes the state in

  predicate Unless<T(==)>(stated: Option<T>, actual: Option<T>) { stated.Some? ==> stated == actual }

  /** The host's request for the next decode names this shard, or leaves it open. */
  predicate HostFits(c: Shard, hr: HostRequest) {
    && hr.action == DECODE && hr.frameKind != "activation"
    && Unless(hr.modelId, Some(c.modelId)) && Unless(hr.sessionId, Some(c.sessionId))
    && Unless(hr.layerStart, c.layerStart) && Unless(hr.layerEnd, c.layerEnd)
  }

  predicate ProperRange(c: Shard) { c.layerStart.Some? && c.layerEnd.Some? && c.layerStart.value < c.layerEnd.value }

  predicate Placed(ws: Workspace, path: string, dir: string) {
    Kept(path) && ws.place(path, dir) == path && ws.within(path, dir)
  }

  lemma DecodeKindReads(v: Value)
    requires v == Text(DECODE_STATE)
    ensures ParseKind(v) == Some(Decode)
  {
    DecodeStateIsClean();
    assert |DECODE_STATE| != |"activation_state"|;
  }

  lemma DecodeStateIsClean()
    ensures Clean(Text(DECODE_STATE)) == DECODE_STATE && Lower(DECODE_STATE) == DECODE_STATE
  {
    assert DECODE_STATE[0] == 'd' && DECODE_STATE[|DECODE_STATE| - 1] == 'e';
  }

  lemma StateAbiIsClean()
    ensures Clean(Text(STATE_ABI)) == STATE_ABI
  {
    assert STATE_ABI[0] == 'c' && STATE_ABI[|STATE_ABI| - 1] == '1';
  }

  lemma ActionIsKept(a: Action)
    ensures Clean(Text(ActionText(a))) != ""
  {
    var t := ActionText(a);
    assert t[0] == 'p' && t[|t| - 1] == (if a.Prefill? then 'l' else 'e');
  }

  /** The parts of a manifest that the host's checks read. */
  ghost predicate DecodeManifest(h: Host, m: Manifest, c: Shard, path: string, state: Bytes) {
    && m.schemaVersion == Num(1) && m.abi == Text(STATE_ABI) && m.stateKind == Text(DECODE_STATE)
    && Clean(m.producedByAction) != "" && m.modelId == Text(c.modelId) && m.sessionId == Text(c.sessionId)
    && m.layerStart == FromInt(c.layerStart)
    && m.layerEnd == FromInt(c.layerEnd)
    && m.stateFormat == Text(h.formats(Decode))
    && m.stateFile == StateFile(Text(path), Text(h.world.sha256(state)), Num(|state|)) && m.metadata.Metadata?
  }

  lemma HostReadsManifest(h: Host, m: Manifest, c: Shard, path: string, state: Bytes, hr: HostRequest)
    requires DecodeManifest(h, m, c, path, state) && HostFits(c, hr) && Kept(c.modelId) && Kept(c.sessionId)
    requires Trimmed(h.formats(Decode))
    ensures ManifestError(h.formats, m, hr, Decode, false, false).None?
  {
    StateAbiIsClean();
    DecodeKindReads(m.stateKind);
  }

  lemma HostFindsState(h: Host, ws: Workspace, files: Files, path: string, state: Bytes, hr: HostRequest)
    requires Placed(ws, path, hr.stateFilesDir) && path in files && files[path] == state && state != []
    ensures ValidateStateFile(h.world, ws, files, StateFile(Text(path), Text(h.world.sha256(state)), Num(|state|)), hr,
                              true).Ok?
  {
    DigestIsClean(h.world.sha256(state));
  }

  lemma HostTakesRange(m: Manifest, c: Shard, hr: HostRequest)
    requires m.stateKind == Text(DECODE_STATE) && m.layerStart == FromInt(c.layerStart)
    requires m.layerEnd == FromInt(c.layerEnd)
    requires ProperRange(c) && HostFits(c, hr)
    ensures HandoffError(m, hr).None?
  {
    DecodeKindReads(m.stateKind);
  }

  lemma HostExpectsDecode(hr: HostRequest)
    requires hr.action == DECODE && hr.frameKind != "activation"
    ensures ExpectedInputKind(hr) == Decode
  {
  }

  /** The host accepts a decode state of the shard as the input of a next decode on the same shard. */
  lemma HostAcceptsState(h: Host, ws: Workspace, files: Files, m: Manifest, c: Shard, path: string, state: Bytes,
                         hr: HostRequest)
    requires DecodeManifest(h, m, c, path, state) && HostFits(c, hr) && ProperRange(c)
    requires Kept(c.modelId) && Kept(c.sessionId) && Trimmed(h.formats(Decode))
    requires Placed(ws, path, hr.stateFilesDir) && path in files && files[path] == state && state != []
    ensures InputAccepted(h.world, ws, h.formats, files, m, hr)
  {
    HostExpectsDecode(hr);
    HostReadsManifest(h, m, c, path, state, hr);
    HostFindsState(h, ws, files, path, state, hr);
    HostTakesRange(m, c, hr);
  }

  // ---------------------------------------------------------------- one link

  /** The request asks for decode state at two places of its own. */
  ghost predicate AsksForState(h: Host, ws: Workspace, r: Request, dir: string) {
    && Lower(Clean(r.expectedOutputKind)) == DECODE_STATE && !WantsFinal(r, DECODE_STATE)
    && r.targets.Some?
    && Clean(r.targets.value.outputPayloadPath) != ""
    && Clean(r.targets.value.outputStateFilePath) != ""
    && ManifestTarget(h, r) != StateTarget(h, r)
    && Kept(ManifestTarget(h, r)) && h.world.resolve(ManifestTarget(h, r)) == Some(ManifestTarget(h, r))
    && Placed(ws, StateTarget(h, r), dir)
  }

  function ManifestTarget(h: Host, r: Request): string
    requires r.targets.Some?
  {
    h.absolute(Clean(r.targets.value.outputPayloadPath))
  }

  function StateTarget(h: Host, r: Request): string
    requires r.targets.Some?
  {
    h.absolute(Clean(r.targets.value.outputStateFilePath))
  }

  /** The output is stored, and the host and the binary will both take it in. */
  ghost predicate Live(h: Host, ws: Workspace, files: Files, o: Output, c: Shard, digest: Digest, dir: string) {
    && o.StateOutput? && Carries(Some(o.manifest.manifest), digest, c.window.sha)
    && DecodeManifest(h, o.manifest.manifest, c, o.statePath, o.state)
    && Placed(ws, o.statePath, dir) && o.statePath in files && files[o.statePath] == o.state && o.state != []
    && o.manifestPath in files && files[o.manifestPath] == h.dumpManifest(o.manifest)
    && Kept(o.manifestPath) && h.world.resolve(o.manifestPath) == Some(o.manifestPath)
  }

  ghost predicate StatesHaveText(h: Host) { forall d :: h.dumpState(d) != [] }

  lemma StateIsDecodeState(h: Host, ws: Workspace, c: Shard, source: Source, r: Request, payload: Bytes,
                           digest: Option<string>, dir: string)
    requires AsksForState(h, ws, r, dir) && StatesHaveText(h)
    ensures var o := StateOutputOf(h, c, source, r, DECODE_STATE, payload, digest);
            && o.StateOutput?
            && o.statePath == StateTarget(h, r)
            && o.manifestPath == ManifestTarget(h, r)
            && o.state != []
            && DecodeManifest(h, o.manifest.manifest, c, o.statePath, o.state)
  {
    DecodeKindReads(Text(DECODE_STATE));
    ActionIsKept(r.action);
  }

  lemma OutputIsDecodeState(h: Host, ws: Workspace, c: Shard, source: Source, r: Request, payload: Bytes,
                            digest: Option<string>, dir: string)
    requires AsksForState(h, ws, r, dir)
    ensures OutputOf(h, c, source, r, payload, digest) == StateOutputOf(h, c, source, r, DECODE_STATE, payload, digest)
  {
    assert |DECODE_STATE| > 0;
  }

  lemma StoreHolds(h: Host, files: Files, o: Output)
    requires o.StateOutput? && o.statePath != o.manifestPath
    ensures var after := Store(h, files, o);
            && o.statePath in after && after[o.statePath] == o.state
            && o.manifestPath in after && after[o.manifestPath] == h.dumpManifest(o.manifest)
  {
  }

  lemma LiveWhenStored(h: Host, ws: Workspace, files: Files, o: Output, c: Shard, digest: Digest, r: Request,
                       dir: string)
    requires AsksForState(h, ws, r, dir) && o.StateOutput? && o.statePath == StateTarget(h, r)
    requires o.manifestPath == ManifestTarget(h, r) && o.state != []
    requires DecodeManifest(h, o.manifest.manifest, c, o.statePath, o.state)
    requires Carries(Some(o.manifest.manifest), digest, c.window.sha)
    ensures Live(h, ws, Store(h, files, o), o, c, digest, dir)
  {
    StoreHolds(h, files, o);
  }

  /** A process request that asks for decode state leaves a live output behind. */
  lemma OutputIsLive(h: Host, ws: Workspace, files: Files, c: Shard, source: Source, r: Request, payload: Bytes,
                     digest: Digest, dir: string)
    requires AsksForState(h, ws, r, dir) && StatesHaveText(h) && IsDigest(c.window.sha)
    ensures var o := OutputOf(h, c, source, r, payload, CleanOrNone(Text(digest)));
            Live(h, ws, Store(h, files, o), o, c, digest, dir)
  {
    OutputIsDecodeState(h, ws, c, source, r, payload, CleanOrNone(Text(digest)), dir);
    StateIsDecodeState(h, ws, c, source, r, payload, CleanOrNone(Text(digest)), dir);
    OutputCarries(h, c, source, r, payload, digest);
    LiveWhenStored(h, ws, files, StateOutputOf(h, c, source, r, DECODE_STATE, payload, CleanOrNone(Text(digest))), c,
                   digest, r, dir);
  }

  // ---------------------------------------------------------------- the chain

  /**
   One more decode, after whatever happens in between (`between` may hold requests, restarts and outside writes),
   fed the manifest file too or only the validated state.
   */
  datatype Link = Link(between: seq<Event>, request: Request, host: HostRequest, withFile: bool)

  /** The payload file entry the binary answered with, as the next request's input. */
  function HandedFile(h: Host, o: Output): PayloadFile
    requires o.StateOutput?
  {
    var bytes := h.dumpManifest(o.manifest);
    PayloadFile(Text(o.manifestPath), Num(|bytes|), Text(h.world.sha256(bytes)))
  }

  function LinkRequest(h: Host, o: Output, link: Link): Request
    requires o.StateOutput?
  {
    link.request.(inputState := Some(o.manifest.manifest),
                  input := if link.withFile then Some(HandedFile(h, o)) else None)
  }

  function Before(h: Host, st: State, link: Link): State { Run(h, st, link.between) }

  /** What happens in between is quiet and leaves the state file and the manifest in place. */
  ghost predicate GapOk(h: Host, plan: Plan, st: State, o: Output, link: Link, s: string, c: Shard) {
    && o.StateOutput? && AllQuiet(h, plan, st, link.between, s, c)
    && SameAt(st.files, Before(h, st, link).files, o.statePath)
    && SameAt(st.files, Before(h, st, link).files, o.manifestPath)
  }

  ghost predicate LinkOk(h: Host, plan: Plan, ws: Workspace, link: Link, s: string, c: Shard, dir: string) {
    var r := link.request;
    && Disciplined(h, plan, r)
    && r.action == DecodeStep
    && Clean(r.sessionId) == s
    && SlotOf(h, r).Ok?
    && Mismatch(h, r, c).None?
    && AsksForState(h, ws, r, dir) && c.window.path !in TargetPaths(h, r)
    && HostFits(c, link.host) && link.host.stateFilesDir == dir
  }

  lemma HandedFileReads(h: Host, files: Files, o: Output)
    requires o.StateOutput? && o.manifestPath in files && files[o.manifestPath] == h.dumpManifest(o.manifest)
    requires Kept(o.manifestPath) && h.world.resolve(o.manifestPath) == Some(o.manifestPath)
    ensures ReadInput(h, files, Some(HandedFile(h, o))).Ok?
  {
    DigestIsClean(h.world.sha256(h.dumpManifest(o.manifest)));
  }

  lemma LinkIsAdmissible(h: Host, plan: Plan, ws: Workspace, files: Files, o: Output, link: Link, s: string, c: Shard,
                         digest: Digest, dir: string)
    requires LinkOk(h, plan, ws, link, s, c, dir) && Live(h, ws, files, o, c, digest, dir)
    ensures Admissible(h, plan, files, LinkRequest(h, o, link), s, c, digest)
  {
    HandedFileReads(h, files, o);
    SameSlot(h, link.request, LinkRequest(h, o, link), c);
  }

  lemma SameSlot(h: Host, r: Request, q: Request, c: Shard)
    requires q == r.(inputState := q.inputState, input := q.input)
    ensures SlotOf(h, q) == SlotOf(h, r) && Mismatch(h, q, c) == Mismatch(h, r, c)
    ensures TargetPaths(h, q) == TargetPaths(h, r)
  {
  }

  lemma LiveAfterGap(h: Host, plan: Plan, ws: Workspace, st: State, o: Output, link: Link, s: string, c: Shard,
                     digest: Digest, dir: string)
    requires Live(h, ws, st.files, o, c, digest, dir) && GapOk(h, plan, st, o, link, s, c)
    ensures Live(h, ws, Before(h, st, link).files, o, c, digest, dir)
  {
  }

  lemma DecodeStaysPrimed(h: Host, plan: Plan, st: State, r: Request, s: string, c: Shard, digest: Digest)
    requires Sound(h, plan) && Primed(h, plan, st, s, c, digest) && Disciplined(h, plan, r) && r.action == DecodeStep
    requires c.window.path !in TargetPaths(h, r)
    ensures Primed(h, plan, Step(h, st, r).0, s, c, digest)
  {
    DecodesAreQuiet(h, plan, st, r, s, c);
    QuietStep(h, plan, st, Call(r), s, c, digest);
  }

  /** A live output is what the caller is told about. */
  lemma LiveReply(h: Host, ws: Workspace, files: Files, after: Files, o: Output, reply: Reply, c: Shard,
                  digest: Digest, dir: string)
    requires Live(h, ws, Store(h, files, o), o, c, digest, dir) && reply == ReplyOf(o) && after == Store(h, files, o)
    ensures reply.Produced? && Live(h, ws, after, reply.output, c, digest, dir)
  {
  }

  lemma DecodeIsLive(h: Host, plan: Plan, ws: Workspace, st: State, r: Request, s: string, c: Shard, digest: Digest,
                     dir: string)
    requires Sound(h, plan) && StatesHaveText(h) && Primed(h, plan, st, s, c, digest)
    requires Admissible(h, plan, st.files, r, s, c, digest)
    requires AsksForState(h, ws, r, dir)
    ensures var reply := Step(h, st, r).1.reply;
            reply.Produced? && Live(h, ws, Step(h, st, r).0.files, reply.output, c, digest, dir)
  {
    var source, o := PrimedDecode(h, plan, st, r, s, c, digest);
    OutputIsLive(h, ws, st.files, c, source, r, ReadInput(h, st.files, r.input).value, digest, dir);
    LiveReply(h, ws, st.files, Step(h, st, r).0.files, o, Step(h, st, r).1.reply, c, digest, dir);
  }

  /** One link of a chain: host and binary accept, and the chain can go on from the new output. */
  lemma LinkHolds(h: Host, plan: Plan, ws: Workspace, here: State, o: Output, link: Link, s: string, c: Shard,
                  digest: Digest, dir: string)
    requires Sound(h, plan) && StatesHaveText(h) && Trimmed(h.formats(Decode)) && ProperRange(c)
    requires Primed(h, plan, here, s, c, digest) && Live(h, ws, here.files, o, c, digest, dir)
    requires LinkOk(h, plan, ws, link, s, c, dir)
    ensures InputAccepted(h.world, ws, h.formats, here.files, o.manifest.manifest, link.host)
    ensures var (next, out) := Step(h, here, LinkRequest(h, o, link));
            && out.reply.Produced? && Live(h, ws, next.files, out.reply.output, c, digest, dir)
            && Primed(h, plan, next, s, c, digest)
  {
    var r := LinkRequest(h, o, link);
    HostAcceptsState(h, ws, here.files, o.manifest.manifest, c, o.statePath, o.state, link.host);
    LinkIsAdmissible(h, plan, ws, here.files, o, link, s, c, digest, dir);
    SameSlot(h, link.request, r, c);
    DecodeIsLive(h, plan, ws, here, r, s, c, digest, dir);
    DecodeStaysPrimed(h, plan, here, r, s, c, digest);
  }

  /** Every link is a decode of the session, and every gap before one is quiet, at its point of the chain. */
  ghost predicate ChainOk(h: Host, plan: Plan, ws: Workspace, st: State, o: Output, links: seq<Link>, s: string,
                          c: Shard, dir: string)
    decreases |links|
  {
    links != [] ==>
      && GapOk(h, plan, st, o, links[0], s, c) && LinkOk(h, plan, ws, links[0], s, c, dir)
      && var (next, out) := Step(h, Before(h, st, links[0]), LinkRequest(h, o, links[0]));
         out.reply.Produced? ==> ChainOk(h, plan, ws, next, out.reply.output, links[1..], s, c, dir)
  }

  /** Every hand-off of the chain passes the host's check and every decode is accepted. */
  ghost predicate ChainHolds(h: Host, ws: Workspace, st: State, o: Output, links: seq<Link>)
    decreases |links|
  {
    links != [] ==>
      && o.StateOutput?
      && var here := Before(h, st, links[0]);
         && InputAccepted(h.world, ws, h.formats, here.files, o.manifest.manifest, links[0].host)
         && var (next, out) := Step(h, here, LinkRequest(h, o, links[0]));
            out.reply.Produced? && out.reply.output.StateOutput?
                && ChainHolds(h, ws, next, out.reply.output, links[1..])
  }

  lemma ChainGrows(h: Host, ws: Workspace, st: State, o: Output, links: seq<Link>, here: State, next: State,
                   out: Outcome)
    requires links != [] && o.StateOutput? && here == Before(h, st, links[0])
    requires InputAccepted(h.world, ws, h.formats, here.files, o.manifest.manifest, links[0].host)
    requires (next, out) == Step(h, here, LinkRequest(h, o, links[0]))
    requires out.reply.Produced? && out.reply.output.StateOutput?
    requires ChainHolds(h, ws, next, out.reply.output, links[1..])
    ensures ChainHolds(h, ws, st, o, links)
  {
  }

  lemma ChainShrinks(h: Host, plan: Plan, ws: Workspace, st: State, o: Output, links: seq<Link>, s: string, c: Shard,
                     dir: string,
                     here: State, next: State, out: Outcome)
    requires links != [] && ChainOk(h, plan, ws, st, o, links, s, c, dir) && here == Before(h, st, links[0])
    requires o.StateOutput? && (next, out) == Step(h, here, LinkRequest(h, o, links[0])) && out.reply.Produced?
    ensures ChainOk(h, plan, ws, next, out.reply.output, links[1..], s, c, dir)
  {
  }

  lemma {:induction false} ChainFromLive(h: Host, plan: Plan, ws: Workspace, st: State, o: Output, links: seq<Link>,
                                         s: string, c: Shard, digest: Digest, dir: string)
    requires Sound(h, plan) && StatesHaveText(h) && Trimmed(h.formats(Decode)) && ProperRange(c)
    requires Primed(h, plan, st, s, c, digest) && Live(h, ws, st.files, o, c, digest, dir)
    requires ChainOk(h, plan, ws, st, o, links, s, c, dir)
    ensures ChainHolds(h, ws, st, o, links)
    decreases |links|
  {
    if links == [] {
    } else {
      var here := Before(h, st, links[0]);
      QuietRunStaysPrimed(h, plan, st, links[0].between, s, c, digest);
      LiveAfterGap(h, plan, ws, st, o, links[0], s, c, digest, dir);
      LinkHolds(h, plan, ws, here, o, links[0], s, c, digest, dir);
      var (next, out) := Step(h, here, LinkRequest(h, o, links[0]));
      ChainShrinks(h, plan, ws, st, o, links, s, c, dir, here, next, out);
      ChainFromLive(h, plan, ws, next, out.reply.output, links[1..], s, c, digest, dir);
      ChainGrows(h, ws, st, o, links, here, next, out);
    }
  }

  lemma PrefillIsLive(h: Host, plan: Plan, ws: Workspace, st: State, r: Request, dir: string)
    requires Sound(h, plan) && StatesHaveText(h) && Inv(h, plan, st) && Disciplined(h, plan, r) && r.action == Prefill
    requires Step(h, st, r).1.receipt.Some? && AsksForState(h, ws, r, dir)
    ensures Recall(h, st, r).Ok?
    ensures var (next, out) := Step(h, st, r);
            && out.reply.Produced?
            && Live(h, ws, next.files, out.reply.output, Recall(h, st, r).value.shard, out.receipt.value, dir)
  {
    AcceptedPrefillPassed(h, st, r);
    RecalledIsRecorded(h, plan, st, r);
    var found := Recall(h, st, r).value;
    StepPrefills(h, st, r, found);
    PrefillOnIsLive(h, ws, st.files, found, r, dir);
  }

  lemma PrefillOnIsLive(h: Host, ws: Workspace, files: Files, found: Found, r: Request, dir: string)
    requires StatesHaveText(h) && AsksForState(h, ws, r, dir) && IsDigest(found.shard.window.sha)
    requires PrefillInput(h, files, found.shard, r).Ok?
    ensures var (after, out) := PrefillOn(h, files, found, r);
            && out.reply.Produced? && out.receipt.Some?
            && Live(h, ws, after, out.reply.output, found.shard, out.receipt.value, dir)
  {
    var c, payload := found.shard, PrefillInput(h, files, found.shard, r).value;
    var inputSha := h.world.sha256(payload);
    var digest := ExecutionDigest(h, c, r, inputSha);
    var noted := files[c.receiptPath := h.dumpReceipt(ReceiptOf(c, r, inputSha, digest))];
    var o := OutputOf(h, c, found.source, r, payload, CleanOrNone(Text(digest)));
    OutputIsLive(h, ws, noted, c, found.source, r, payload, digest, dir);
    LiveReply(h, ws, noted, Store(h, noted, o), o, ReplyOf(o), c, digest, dir);
  }

  /**
   Chain closure: from one prefill that asks for decode state, a chain of any number of decodes on the same shard
   passes the host's hand-off check and the binary's receipt check at every link, whatever quiet events, such as
   requests of other sessions, decodes, unchanged reloads and restarts, come between the links.
   */
  lemma DecodeChainsNeverBreak(h: Host, plan: Plan, ws: Workspace, st: State, r: Request, links: seq<Link>, dir: string)
    requires Sound(h, plan) && StatesHaveText(h) && Trimmed(h.formats(Decode))
    requires Inv(h, plan, st) && Disciplined(h, plan, r) && r.action == Prefill && AsksForState(h, ws, r, dir)
    requires Step(h, st, r).1.receipt.Some? && Recall(h, st, r).Ok?
    requires ProperRange(Recall(h, st, r).value.shard) && Recall(h, st, r).value.shard.window.path !in TargetPaths(h, r)
    requires Step(h, st, r).1.reply.Produced? ==>
               ChainOk(h, plan, ws, Step(h, st, r).0, Step(h, st, r).1.reply.output, links, Clean(r.sessionId),
                       Recall(h, st, r).value.shard, dir)
    ensures var (next, out) := Step(h, st, r);
            out.reply.Produced? && ChainHolds(h, ws, next, out.reply.output, links)
  {
    PrefillIsLive(h, plan, ws, st, r, dir);
    PrefillPrimes(h, plan, st, r);
    var (next, out) := Step(h, st, r);
    ChainFromLive(h, plan, ws, next, out.reply.output, links, Clean(r.sessionId), Recall(h, st, r).value.shard,
                  out.receipt.value, dir);
  }
}
