/**
 Decode chains on the reference binary: from one prefill on, every state a decode puts out is accepted as
 the input of a next decode, by the host's hand-off check and by the binary's receipt check, for any
 number of steps and with restarts anywhere.
 */
module ReferenceChains {
  import opened PyValue
  import opened ArtifactContract
  import opened ChunkWindows
  import opened ReferenceSession
  import opened Handoff
  import opened ReferenceBinary
  import opened ReferenceRuns
  import opened RestartTransparency
  import opened ReferenceSafety

  // ---------------------------------------------------------------- ready to decode

  /** Session `s` has shard `c` loaded, its window in place, and a receipt with this prefill digest. */
  ghost predicate Primed(h: Host, plan: Plan, st: State, s: string, c: Shard, digest: Digest) {
    Inv(h, plan, st) && Recorded(h, plan, st.files, s, c) && Stocked(h, plan, st.files, s, c, digest)
  }

  ghost predicate Stocked(h: Host, plan: Plan, files: Files, s: string, c: Shard, digest: Digest) {
    && WindowFault(h, files, c.window).None?
    && ReceiptHome(h, plan, s) in files && HoldsReceipt(h, files[ReceiptHome(h, plan, s)], c.window.sha, digest)
  }

  /**
   The event is no prefill, changed reload or finalize of session `s` and leaves its prepared window alone: what it
   did to the session is nothing or a reload of the same shard.
   */
  ghost predicate Quiet(h: Host, plan: Plan, st: State, e: Event, s: string, c: Shard) {
    && Orderly(h, plan, e)
    && (EventMark(h, st, e, s) == Loads(c)
        || (EventMark(h, st, e, s) == Nothing && SameAt(st.files, Apply(h, st, e).files, c.window.path)))
  }

  lemma StockedUntouched(h: Host, plan: Plan, f: Files, g: Files, s: string, c: Shard, digest: Digest)
    requires Recorded(h, plan, f, s, c) && Stocked(h, plan, f, s, c, digest)
    requires Untouched(h, plan, f, g, s) && SameAt(f, g, c.window.path)
    ensures Recorded(h, plan, g, s, c) && Stocked(h, plan, g, s, c, digest)
  {
  }

  lemma PreparedWindowStands(h: Host, files: Files, r: Request, c: Shard)
    requires Prepare(h, files, r).1 == Ok(c)
    ensures WindowFault(h, Prepare(h, files, r).0, c.window).None?
  {
    PreparedParts(h, files, r, c);
  }

  lemma ReloadedWindowStands(h: Host, plan: Plan, st: State, r: Request, s: string, c: Shard)
    requires Sound(h, plan) && Fits(h, plan, s, c) && Step(h, st, r).1.reply == Ready(c)
    ensures WindowFault(h, Step(h, st, r).0.files, c.window).None?
  {
    ReadyIsPrepared(h, st, r, c);
    PreparedWindowStands(h, st.files, r, c);
    assert Home(h, plan, s) != c.window.path;
  }

  lemma ReadyIsPrepared(h: Host, st: State, r: Request, c: Shard)
    requires Step(h, st, r).1.reply == Ready(c)
    ensures Prepare(h, st.files, r).1 == Ok(c)
    ensures Step(h, st, r).0.files == Prepare(h, st.files, r).0[c.sessionPath := h.dumpSession(WriteSession(c))]
  {
    if r.action.Prefill? || r.action.DecodeStep? {
      if Recall(h, st, r).Ok? { ProcessReplies(h, st.files, Recall(h, st, r).value, r); }
    }
  }

  /** A primed session in terms of its history: `c` loaded, then a prefill with this digest. */
  lemma PrimedTracks(h: Host, plan: Plan, files: Files, s: string, c: Shard, digest: Digest)
    ensures Recorded(h, plan, files, s, c) && Stocked(h, plan, files, s, c, digest) <==>
              && Tracks(h, plan, files, s, Some(LoadMark(0, c)), Some(PrefillMark(0, c.window.sha, digest)))
              && WindowFault(h, files, c.window).None?
  {
  }

  lemma QuietMark(h: Host, plan: Plan, files: Files, s: string, c: Shard, digest: Digest, mark: Mark)
    requires mark == Nothing || mark == Loads(c)
    requires Advances(h, plan, files, s, Some(LoadMark(0, c)), Some(PrefillMark(0, c.window.sha, digest)), mark, 0)
    ensures Tracks(h, plan, files, s, Some(LoadMark(0, c)), Some(PrefillMark(0, c.window.sha, digest)))
  {
  }

  lemma QuietWindow(h: Host, plan: Plan, st: State, e: Event, s: string, c: Shard)
    requires Sound(h, plan) && Fits(h, plan, s, c) && Quiet(h, plan, st, e, s, c)
    requires WindowFault(h, st.files, c.window).None?
    ensures WindowFault(h, Apply(h, st, e).files, c.window).None?
  {
    if EventMark(h, st, e, s) == Loads(c) { ReloadedWindowStands(h, plan, st, e.request, s, c); }
  }

  lemma QuietStep(h: Host, plan: Plan, st: State, e: Event, s: string, c: Shard, digest: Digest)
    requires Sound(h, plan) && Primed(h, plan, st, s, c, digest) && Quiet(h, plan, st, e, s, c)
    ensures Primed(h, plan, Apply(h, st, e), s, c, digest)
  {
    var load, prefill, mark := Some(LoadMark(0, c)), Some(PrefillMark(0, c.window.sha, digest)), EventMark(h, st, e, s);
    PrimedTracks(h, plan, st.files, s, c, digest);
    EventTracks(h, plan, st, e, s, load, prefill, 0);
    QuietMark(h, plan, Apply(h, st, e).files, s, c, digest, mark);
    QuietWindow(h, plan, st, e, s, c);
    PrimedTracks(h, plan, Apply(h, st, e).files, s, c, digest);
  }

  lemma WindowSpared(h: Host, files: Files, found: Found, r: Request, path: string)
    requires path !in TargetPaths(h, r) && path != found.shard.receiptPath
    ensures SameAt(files, ProcessOn(h, files, found, r).0, path)
  {
    ProcessWrites(h, files, found, r);
  }

  /** The workspace prepares its windows elsewhere. */
  ghost predicate OtherWindows(h: Host, dir: string, path: string) { forall k :: h.preparedFile(dir, k) != path }

  /** The request is another session's, keeps to its own workspace and spares the window. */
  ghost predicate Stranger(h: Host, plan: Plan, r: Request, s: string, c: Shard) {
    && Disciplined(h, plan, r) && Clean(r.sessionId) != s && c.window.path !in TargetPaths(h, r)
    && OtherWindows(h, plan(Clean(r.sessionId)).dir, c.window.path)
    && (WorkspaceOf(h, r).Ok? ==> OtherWindows(h, WorkspaceOf(h, r).value, c.window.path))
  }

  lemma StrangerLoads(h: Host, plan: Plan, st: State, r: Request, s: string, c: Shard)
    requires Sound(h, plan) && Fits(h, plan, s, c) && Stranger(h, plan, r, s, c) && r.action == LoadShard
    ensures SameAt(st.files, LoadStep(h, st, r).0.files, c.window.path) && MarkOf(r, LoadStep(h, st, r).1, s) == Nothing
  {
    var (files, result) := Prepare(h, st.files, r);
    PrepareSpares(h, st.files, r, c.window.path);
    if result.Ok? {
      PreparedShardFits(h, plan, st.files, r);
      PreparedSession(h, st.files, r);
      ReadyMark(r, result.value, s);
      assert Home(h, plan, result.value.sessionId) != c.window.path;
    } else {
      RefusedMark(r, result.error, s);
    }
  }

  lemma PrepareSpares(h: Host, files: Files, r: Request, path: string)
    requires WorkspaceOf(h, r).Ok? ==> OtherWindows(h, WorkspaceOf(h, r).value, path)
    ensures SameAt(files, Prepare(h, files, r).0, path)
  {
    if Located(h, files, r).Ok? {
      var p := PlanCopy(h, files[Located(h, files, r).value], r, r.assignment.value);
      if p.Ok? { assert p.value.path == h.preparedFile(p.value.dir, p.value.seen.digest.digest) != path; }
    }
  }

  lemma AssembledSession(h: Host, r: Request, a: Artifact, local: string, size: int, i: Inspection, dir: string,
                         window: ShardWindow)
    requires Assemble(h, r, a, local, size, i, dir, window).Ok?
    ensures Assemble(h, r, a, local, size, i, dir, window).value.sessionId == Clean(r.sessionId)
  {
  }

  lemma PreparedSession(h: Host, files: Files, r: Request)
    requires Prepare(h, files, r).1.Ok?
    ensures Prepare(h, files, r).1.value.sessionId == Clean(r.sessionId)
  {
    var local, a := Located(h, files, r).value, r.assignment.value;
    var p := PlanCopy(h, files[local], r, a).value;
    AssembledSession(h, r, a, local, |files[p.path := p.copy.content][local]|, p.seen, p.dir,
                     WindowOf(h, p.path, p.copy.content, p.seen.ranges));
  }

  lemma ProcessOnIsQuiet(h: Host, files: Files, found: Found, r: Request, s: string, path: string)
    requires path !in TargetPaths(h, r) && path != found.shard.receiptPath
    requires (r.action != Prefill || Clean(r.sessionId) != s)
    ensures SameAt(files, ProcessOn(h, files, found, r).0, path)
    ensures MarkOf(r, ProcessOn(h, files, found, r).1, s) == Nothing
  {
    WindowSpared(h, files, found, r, path);
    ProcessReplies(h, files, found, r);
    ProcessMark(r, ProcessOn(h, files, found, r).1, s);
  }

  /** A process request that is no prefill of the session marks nothing and spares the window. */
  lemma ProcessIsQuiet(h: Host, plan: Plan, st: State, r: Request, s: string, c: Shard)
    requires Sound(h, plan) && Inv(h, plan, st) && Fits(h, plan, s, c) && Disciplined(h, plan, r)
    requires c.window.path !in TargetPaths(h, r) && (r.action != Prefill || Clean(r.sessionId) != s)
    ensures SameAt(st.files, ProcessStep(h, st, r).0.files, c.window.path)
    ensures MarkOf(r, ProcessStep(h, st, r).1, s) == Nothing
  {
    if Recall(h, st, r).Ok? {
      RecalledIsRecorded(h, plan, st, r);
      assert ReceiptHome(h, plan, Clean(r.sessionId)) != c.window.path;
      ProcessOnIsQuiet(h, st.files, Recall(h, st, r).value, r, s, c.window.path);
    } else {
      RefusedMark(r, Recall(h, st, r).error, s);
    }
  }

  lemma MarkedQuiet(h: Host, plan: Plan, st: State, r: Request, s: string, c: Shard, after: State, out: Outcome)
    requires Disciplined(h, plan, r) && Step(h, st, r) == (after, out)
    requires MarkOf(r, out, s) == Nothing && SameAt(st.files, after.files, c.window.path)
    ensures Quiet(h, plan, st, Call(r), s, c)
  {
  }

  lemma DiscardSpares(files: Files, home: string, dropped: Option<Result<Found, Error>>, path: string)
    requires path != home
    requires dropped.Some? && dropped.value.Ok? ==>
               path != dropped.value.value.shard.window.path && path != dropped.value.value.shard.receiptPath
    ensures SameAt(files, Discard(files, home, dropped).0, path)
  {
  }

  lemma StrangerIsElsewhere(h: Host, plan: Plan, t: string, d: Shard, s: string, c: Shard)
    requires Separate(h, plan) && Fits(h, plan, s, c) && Fits(h, plan, t, d)
    requires OtherWindows(h, plan(t).dir, c.window.path)
    ensures c.window.path != Home(h, plan, t) && c.window.path != d.window.path && c.window.path != d.receiptPath
  {
  }

  lemma StrangerDiscards(h: Host, plan: Plan, st: State, t: string, dropped: Option<Result<Found, Error>>, s: string,
                         c: Shard)
    requires Sound(h, plan) && Inv(h, plan, st) && Fits(h, plan, s, c) && OtherWindows(h, plan(t).dir, c.window.path)
    requires dropped == Dropped(h, st, t, Home(h, plan, t))
    ensures SameAt(st.files, Discard(st.files, Home(h, plan, t), dropped).0, c.window.path)
  {
    if dropped.Some? && dropped.value.Ok? {
      DroppedIsRecorded(h, plan, st, t, dropped.value.value);
      StrangerIsElsewhere(h, plan, t, dropped.value.value.shard, s, c);
    } else {
      assert Home(h, plan, t) != c.window.path;
    }
    DiscardSpares(st.files, Home(h, plan, t), dropped, c.window.path);
  }

  lemma StrangerFinalizes(h: Host, plan: Plan, st: State, r: Request, s: string, c: Shard)
    requires Sound(h, plan) && Inv(h, plan, st) && Fits(h, plan, s, c) && Stranger(h, plan, r, s, c)
    ensures SameAt(st.files, FinalizeStep(h, st, r).0.files, c.window.path)
    ensures MarkOf(r, FinalizeStep(h, st, r).1, s) == Nothing
  {
    var t := Clean(r.sessionId);
    StrangerDiscards(h, plan, st, t, Dropped(h, st, t, Home(h, plan, t)), s, c);
    FinalizeIsNoLoad(h, st, r);
  }

  lemma FinalizeIsNoLoad(h: Host, st: State, r: Request)
    ensures !FinalizeStep(h, st, r).1.reply.Ready? && FinalizeStep(h, st, r).1.receipt.None?
  {
  }

  /** Whatever another session asks for in a workspace of its own, load and finalize included, is quiet. */
  lemma StrangersAreQuiet(h: Host, plan: Plan, st: State, r: Request, s: string, c: Shard)
    requires Sound(h, plan) && Inv(h, plan, st) && Fits(h, plan, s, c) && Stranger(h, plan, r, s, c)
    ensures Quiet(h, plan, st, Call(r), s, c)
  {
    StrangerIsSpared(h, plan, st, r, s, c);
    MarkedQuiet(h, plan, st, r, s, c, Step(h, st, r).0, Step(h, st, r).1);
  }

  lemma StrangerIsSpared(h: Host, plan: Plan, st: State, r: Request, s: string, c: Shard)
    requires Sound(h, plan) && Inv(h, plan, st) && Fits(h, plan, s, c) && Stranger(h, plan, r, s, c)
    ensures MarkOf(r, Step(h, st, r).1, s) == Nothing && SameAt(st.files, Step(h, st, r).0.files, c.window.path)
  {
    match r.action {
      case LoadShard => StrangerLoads(h, plan, st, r, s, c);
      case Prefill => ProcessIsQuiet(h, plan, st, r, s, c);
      case DecodeStep => ProcessIsQuiet(h, plan, st, r, s, c);
      case Finalize => StrangerFinalizes(h, plan, st, r, s, c);
      case Unsupported => RefusedMark(r, RequestUnsupported, s);
    }
  }

  /** A decode, of this session or another, is quiet wherever it puts its outputs, as long as it spares the window. */
  lemma DecodesAreQuiet(h: Host, plan: Plan, st: State, r: Request, s: string, c: Shard)
    requires Sound(h, plan) && Inv(h, plan, st) && Fits(h, plan, s, c)
    requires Disciplined(h, plan, r) && r.action == DecodeStep && c.window.path !in TargetPaths(h, r)
    ensures Quiet(h, plan, st, Call(r), s, c)
  {
    ProcessIsQuiet(h, plan, st, r, s, c);
    MarkedQuiet(h, plan, st, r, s, c, ProcessStep(h, st, r).0, ProcessStep(h, st, r).1);
  }

  ghost predicate AllQuiet(h: Host, plan: Plan, st: State, events: seq<Event>, s: string, c: Shard) {
    events != [] ==>
      var n := |events| - 1;
      AllQuiet(h, plan, st, events[..n], s, c) && Quiet(h, plan, Run(h, st, events[..n]), events[n], s, c)
  }

  /** Quiet events of any number leave the session ready to decode. */
  lemma {:induction false} QuietRunStaysPrimed(h: Host, plan: Plan, st: State, events: seq<Event>, s: string, c: Shard,
                                               digest: Digest)
    requires Sound(h, plan) && Primed(h, plan, st, s, c, digest) && AllQuiet(h, plan, st, events, s, c)
    ensures Primed(h, plan, Run(h, st, events), s, c, digest)
  {
    if events == [] {
    } else {
      var n := |events| - 1;
      QuietRunStaysPrimed(h, plan, st, events[..n], s, c, digest);
      QuietStep(h, plan, Run(h, st, events[..n]), events[n], s, c, digest);
    }
  }

  // ---------------------------------------------------------------- a decode on a primed session

  lemma PrimedRecall(h: Host, plan: Plan, st: State, r: Request, s: string, c: Shard, digest: Digest)
    requires Sound(h, plan) && Primed(h, plan, st, s, c, digest) && Disciplined(h, plan, r)
    requires Clean(r.sessionId) == s && SlotOf(h, r).Ok? && Mismatch(h, r, c).None?
    ensures Recall(h, st, r).Ok? && Recall(h, st, r).value.shard == c
  {
    RecordedReads(h, plan, st.files, s, c);
    if s in st.loaded { RecordedReads(h, plan, st.files, s, st.loaded[s]); }
  }

  lemma ReceiptAbiIsClean()
    ensures Clean(Text(RECEIPT_ABI)) == RECEIPT_ABI
  {
    assert RECEIPT_ABI[0] == 'c' && RECEIPT_ABI[|RECEIPT_ABI| - 1] == '1';
  }

  lemma StockedReceipt(h: Host, files: Files, path: string, sha: string, digest: Digest)
    requires path in files && HoldsReceipt(h, files[path], sha, digest)
    ensures ReadReceipt(h, files, path).Ok?
    ensures ReadReceipt(h, files, path).value.preparedSha == Text(sha)
    ensures ReadReceipt(h, files, path).value.prefillDigest == Text(digest)
  {
    ReceiptAbiIsClean();
  }

  lemma CarriedStatePasses(doc: ReceiptDoc, c: Shard, state: Option<Manifest>, digest: Digest)
    requires IsDigest(c.window.sha) && doc.preparedSha == Text(c.window.sha) && doc.prefillDigest == Text(digest)
    requires Carries(state, digest, c.window.sha)
    ensures ReceiptError(doc, c, state).None?
  {
    ReceiptFieldsRead(c.window.sha, digest);
  }

  lemma StockedDecodePasses(h: Host, plan: Plan, files: Files, s: string, c: Shard, digest: Digest, r: Request)
    requires Fits(h, plan, s, c) && Stocked(h, plan, files, s, c, digest)
    requires ReadInput(h, files, r.input).Ok? && Carries(r.inputState, digest, c.window.sha)
    ensures DecodeInput(h, files, c, r).Ok? && DecodeInput(h, files, c, r).value.receipt.prefillDigest == Text(digest)
  {
    StockedReceipt(h, files, c.receiptPath, c.window.sha, digest);
    CarriedStatePasses(ReadReceipt(h, files, c.receiptPath).value, c, r.inputState, digest);
  }

  lemma OutputCarries(h: Host, c: Shard, source: Source, r: Request, payload: Bytes, digest: Digest)
    requires IsDigest(c.window.sha)
    ensures var o := OutputOf(h, c, source, r, payload, CleanOrNone(Text(digest)));
            o.StateOutput? ==> Carries(Some(o.manifest.manifest), digest, c.window.sha)
  {
    ReceiptFieldsRead(c.window.sha, digest);
    StateCarries(h, c, source, r, Lower(Clean(r.expectedOutputKind)), payload, digest);
  }

  lemma StateCarries(h: Host, c: Shard, source: Source, r: Request, kindText: string, payload: Bytes, digest: Digest)
    requires IsDigest(c.window.sha)
    ensures var o := StateOutputOf(h, c, source, r, kindText, payload, Some(digest));
            o.StateOutput? ==> Carries(Some(o.manifest.manifest), digest, c.window.sha)
  {
    ReceiptFieldsRead(c.window.sha, digest);
  }

  /** What a decode on a primed session puts out. */
  function DecodeOutput(h: Host, files: Files, c: Shard, source: Source, r: Request, digest: Digest): Output
    requires ReadInput(h, files, r.input).Ok?
  {
    OutputOf(h, c, source, r, ReadInput(h, files, r.input).value, CleanOrNone(Text(digest)))
  }

  lemma StockedDecode(h: Host, plan: Plan, files: Files, s: string, c: Shard, source: Source, digest: Digest,
                      r: Request)
    requires Fits(h, plan, s, c) && Stocked(h, plan, files, s, c, digest)
    requires ReadInput(h, files, r.input).Ok? && Carries(r.inputState, digest, c.window.sha)
    ensures var o := DecodeOutput(h, files, c, source, r, digest);
            DecodeOn(h, files, Found(c, source), r) == (Store(h, files, o), Outcome(ReplyOf(o), None))
  {
    StockedDecodePasses(h, plan, files, s, c, digest, r);
    assert DecodeInput(h, files, c, r).value.payload == ReadInput(h, files, r.input).value;
  }

  /** The request is a decode of this session that the shard and the receipt admit. */
  ghost predicate Admissible(h: Host, plan: Plan, files: Files, r: Request, s: string, c: Shard, digest: Digest) {
    && Disciplined(h, plan, r)
    && r.action == DecodeStep
    && Clean(r.sessionId) == s
    && SlotOf(h, r).Ok?
    && Mismatch(h, r, c).None?
    && ReadInput(h, files, r.input).Ok? && Carries(r.inputState, digest, c.window.sha)
  }

  lemma StepDecodes(h: Host, st: State, r: Request, found: Found)
    requires r.action == DecodeStep && Recall(h, st, r) == Ok(found)
    ensures Step(h, st, r).1 == DecodeOn(h, st.files, found, r).1
    ensures Step(h, st, r).0.files == DecodeOn(h, st.files, found, r).0
  {
  }

  lemma PrimedDecode(h: Host, plan: Plan, st: State, r: Request, s: string, c: Shard, digest: Digest)
      returns (source: Source, o: Output)
    requires Sound(h, plan) && Primed(h, plan, st, s, c, digest) && Admissible(h, plan, st.files, r, s, c, digest)
    ensures o == DecodeOutput(h, st.files, c, source, r, digest)
    ensures Step(h, st, r).1.reply == ReplyOf(o) && Step(h, st, r).0.files == Store(h, st.files, o)
  {
    PrimedRecall(h, plan, st, r, s, c, digest);
    source := Recall(h, st, r).value.source;
    StepDecodes(h, st, r, Found(c, source));
    StockedDecode(h, plan, st.files, s, c, source, digest, r);
    o := DecodeOutput(h, st.files, c, source, r, digest);
  }

  lemma ReplyCarries(o: Output, reply: Reply, r: Request, digest: Digest, sha: string)
    requires reply == ReplyOf(o) && (ReplyOf(o).Produced? <==> Answerable(r))
    requires o.StateOutput? ==> Carries(Some(o.manifest.manifest), digest, sha)
    ensures reply.Produced? <==> Answerable(r)
    ensures reply.Produced? && reply.output.StateOutput? ==> Carries(Some(reply.output.manifest.manifest), digest, sha)
  {
  }

  /**
   Closure of the receipt check: on a primed session a decode whose input state carries the prefill digest
   and the shard hash is accepted exactly when it is answerable, and a state it puts out carries both again.
   */
  lemma PrimedDecodeIsAccepted(h: Host, plan: Plan, st: State, r: Request, s: string, c: Shard, digest: Digest)
    requires Sound(h, plan) && Primed(h, plan, st, s, c, digest) && Admissible(h, plan, st.files, r, s, c, digest)
    ensures var reply := Step(h, st, r).1.reply;
            && (reply.Produced? <==> Answerable(r))
            && (reply.Produced? && reply.output.StateOutput? ==>
                  Carries(Some(reply.output.manifest.manifest), digest, c.window.sha))
  {
    var source, o := PrimedDecode(h, plan, st, r, s, c, digest);
    AnsweredIff(h, c, source, r, ReadInput(h, st.files, r.input).value, CleanOrNone(Text(digest)));
    OutputCarries(h, c, source, r, ReadInput(h, st.files, r.input).value, digest);
    ReplyCarries(o, Step(h, st, r).1.reply, r, digest, c.window.sha);
  }

  lemma PrimedOutputCarries(h: Host, plan: Plan, st: State, r: Request, s: string, c: Shard, digest: Digest)
    requires Sound(h, plan) && Primed(h, plan, st, s, c, digest) && Disciplined(h, plan, r)
    requires r.action == DecodeStep && Clean(r.sessionId) == s
    ensures var reply := Step(h, st, r).1.reply;
            reply.Produced? && reply.output.StateOutput? ==>
              Carries(Some(reply.output.manifest.manifest), digest, c.window.sha)
  {
    if Step(h, st, r).1.reply.Produced? {
      AcceptedDecodePassed(h, st, r);
      RecalledIsRecorded(h, plan, st, r);
      var found := Recall(h, st, r).value;
      RecordedReads(h, plan, st.files, s, c);
      RecordedReads(h, plan, st.files, s, found.shard);
      StepDecodes(h, st, r, found);
      PassedOutputCarries(h, plan, st.files, s, c, found.source, digest, r);
    }
  }

  lemma PassedOutputCarries(h: Host, plan: Plan, files: Files, s: string, c: Shard, source: Source, digest: Digest,
                            r: Request)
    requires Fits(h, plan, s, c) && Stocked(h, plan, files, s, c, digest) && DecodeInput(h, files, c, r).Ok?
    ensures var reply := DecodeOn(h, files, Found(c, source), r).1.reply;
            reply.Produced? && reply.output.StateOutput? ==>
              Carries(Some(reply.output.manifest.manifest), digest, c.window.sha)
  {
    PassedDecode(h, files, c, r, c.window.sha, digest);
    DecodeReadsInput(h, files, c, r);
    StockedDecode(h, plan, files, s, c, source, digest, r);
    OutputCarries(h, c, source, r, ReadInput(h, files, r.input).value, digest);
  }

  lemma DecodeReadsInput(h: Host, files: Files, c: Shard, r: Request)
    requires DecodeInput(h, files, c, r).Ok?
    ensures ReadInput(h, files, r.input).Ok?
  {
  }

  lemma {:induction false} QuietPrefix(h: Host, plan: Plan, st: State, events: seq<Event>, s: string, c: Shard, i: nat)
    requires i <= |events| && AllQuiet(h, plan, st, events, s, c)
    ensures AllQuiet(h, plan, st, events[..i], s, c)
  {
    if i == |events| {
      assert events[..i] == events;
    } else {
      QuietPrefix(h, plan, st, events[..|events| - 1], s, c, i);
      assert events[..|events| - 1][..i] == events[..i];
    }
  }

  lemma QuietAt(h: Host, plan: Plan, st: State, events: seq<Event>, s: string, c: Shard, i: nat)
    requires i < |events| && AllQuiet(h, plan, st, events, s, c)
    ensures AllQuiet(h, plan, st, events[..i], s, c) && Orderly(h, plan, events[i])
  {
    QuietPrefix(h, plan, st, events, s, c, i + 1);
    assert events[..i + 1][..i] == events[..i] && events[..i + 1][i] == events[i];
  }

  /**
   Chain closure for the binary: in a run of quiet events from a primed session, a state that decode `i`
   of the session put out is accepted by every later decode of the session that is answerable.
   */
  lemma StatesFeedLaterDecodes(h: Host, plan: Plan, st: State, events: seq<Event>, i: nat, r: Request, s: string,
                               c: Shard, digest: Digest)
    requires Sound(h, plan) && Primed(h, plan, st, s, c, digest) && AllQuiet(h, plan, st, events, s, c)
    requires i < |events| && events[i].Call? && events[i].request.action == DecodeStep
    requires Clean(events[i].request.sessionId) == s
    requires var reply := Step(h, Run(h, st, events[..i]), events[i].request).1.reply;
             reply.Produced? && reply.output.StateOutput? && r.inputState == Some(reply.output.manifest.manifest)
    requires Disciplined(h, plan, r) && r.action == DecodeStep && Clean(r.sessionId) == s && SlotOf(h, r).Ok?
    requires Mismatch(h, r, c).None?
    requires ReadInput(h, Run(h, st, events).files, r.input).Ok?
    ensures Step(h, Run(h, st, events), r).1.reply.Produced? <==> Answerable(r)
  {
    QuietAt(h, plan, st, events, s, c, i);
    QuietRunStaysPrimed(h, plan, st, events[..i], s, c, digest);
    QuietRunStaysPrimed(h, plan, st, events, s, c, digest);
    StateFeedsDecode(h, plan, Run(h, st, events[..i]), Run(h, st, events), events[i].request, r, s, c, digest);
  }

  lemma StateFeedsDecode(h: Host, plan: Plan, past: State, now: State, q: Request, r: Request, s: string, c: Shard,
                         digest: Digest)
    requires Sound(h, plan) && Primed(h, plan, past, s, c, digest) && Primed(h, plan, now, s, c, digest)
    requires Disciplined(h, plan, q) && q.action == DecodeStep && Clean(q.sessionId) == s
    requires var reply := Step(h, past, q).1.reply;
             reply.Produced? && reply.output.StateOutput? && r.inputState == Some(reply.output.manifest.manifest)
    requires Disciplined(h, plan, r) && r.action == DecodeStep && Clean(r.sessionId) == s && SlotOf(h, r).Ok?
    requires Mismatch(h, r, c).None? && ReadInput(h, now.files, r.input).Ok?
    ensures Step(h, now, r).1.reply.Produced? <==> Answerable(r)
  {
    PrimedOutputCarries(h, plan, past, q, s, c, digest);
    PrimedDecodeIsAccepted(h, plan, now, r, s, c, digest);
  }

  // ---------------------------------------------------------------- from prefill to the first decode

  lemma PrefillStocks(h: Host, plan: Plan, files: Files, found: Found, r: Request, s: string)
    requires Sound(h, plan) && Disciplined(h, plan, r) && Recorded(h, plan, files, s, found.shard)
    requires PrefillInput(h, files, found.shard, r).Ok? && found.shard.window.path !in TargetPaths(h, r)
    ensures var (after, out) := PrefillOn(h, files, found, r);
            && out.receipt.Some? && Recorded(h, plan, after, s, found.shard)
            && Stocked(h, plan, after, s, found.shard, out.receipt.value)
  {
    var c, payload := found.shard, PrefillInput(h, files, found.shard, r).value;
    var inputSha := h.world.sha256(payload);
    var digest := ExecutionDigest(h, c, r, inputSha);
    var bytes := h.dumpReceipt(ReceiptOf(c, r, inputSha, digest));
    WrittenReceiptHolds(h, c, r, inputSha, digest);
    ReceiptStocks(h, plan, files, s, c, bytes, digest);
    StoreKeepsStock(h, plan, files[c.receiptPath := bytes], s, c, found.source, r, payload, digest);
  }

  lemma ReceiptStocks(h: Host, plan: Plan, files: Files, s: string, c: Shard, bytes: Bytes, digest: Digest)
    requires Sound(h, plan) && Recorded(h, plan, files, s, c) && WindowFault(h, files, c.window).None?
    requires HoldsReceipt(h, bytes, c.window.sha, digest)
    ensures Recorded(h, plan, files[c.receiptPath := bytes], s, c)
    ensures Stocked(h, plan, files[c.receiptPath := bytes], s, c, digest)
  {
    assert Home(h, plan, s) != ReceiptHome(h, plan, s) && ReceiptHome(h, plan, s) != c.window.path;
  }

  lemma StoreKeepsStock(h: Host, plan: Plan, files: Files, s: string, c: Shard, source: Source, r: Request,
                        payload: Bytes, digest: Digest)
    requires Disciplined(h, plan, r) && Recorded(h, plan, files, s, c) && Stocked(h, plan, files, s, c, digest)
    requires c.window.path !in TargetPaths(h, r)
    ensures var after := Store(h, files, OutputOf(h, c, source, r, payload, CleanOrNone(Text(digest))));
            Recorded(h, plan, after, s, c) && Stocked(h, plan, after, s, c, digest)
  {
    var o := OutputOf(h, c, source, r, payload, CleanOrNone(Text(digest)));
    OutputLeavesSessions(h, plan, files, c, source, r, payload, CleanOrNone(Text(digest)), s);
    OutputOnTarget(h, c, source, r, payload, CleanOrNone(Text(digest)));
    StoreWrites(h, files, o, TargetPaths(h, r));
    StockedUntouched(h, plan, files, Store(h, files, o), s, c, digest);
  }

  lemma StepPrefills(h: Host, st: State, r: Request, found: Found)
    requires r.action == Prefill && Recall(h, st, r) == Ok(found)
    ensures Step(h, st, r).1 == PrefillOn(h, st.files, found, r).1
    ensures Step(h, st, r).0.files == PrefillOn(h, st.files, found, r).0
  {
  }

  lemma AcceptedPrefillPassed(h: Host, st: State, r: Request)
    requires r.action == Prefill && Step(h, st, r).1.receipt.Some?
    ensures Recall(h, st, r).Ok? && PrefillInput(h, st.files, Recall(h, st, r).value.shard, r).Ok?
  {
  }

  /** A prefill that wrote its receipt primes its session. */
  lemma PrefillPrimes(h: Host, plan: Plan, st: State, r: Request)
    requires Sound(h, plan) && Inv(h, plan, st) && Disciplined(h, plan, r) && r.action == Prefill
    requires Step(h, st, r).1.receipt.Some?
    requires Recall(h, st, r).Ok? ==> Recall(h, st, r).value.shard.window.path !in TargetPaths(h, r)
    ensures Recall(h, st, r).Ok?
    ensures Primed(h, plan, Step(h, st, r).0, Clean(r.sessionId), Recall(h, st, r).value.shard,
                   Step(h, st, r).1.receipt.value)
  {
    AcceptedPrefillPassed(h, st, r);
    RecalledIsRecorded(h, plan, st, r);
    StepKeepsInv(h, plan, st, r);
    var found := Recall(h, st, r).value;
    StepPrefills(h, st, r, found);
    PrefillStocks(h, plan, st.files, found, r, Clean(r.sessionId));
  }
}
