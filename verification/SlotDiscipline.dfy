/**
 Why run safety asks a session to keep to one slot: a run in which one session id is loaded for two shards, and
 in which the binary accepts a decode although the session was finalized after its only prefill.
 */
module SlotDiscipline {
  import opened PyValue
  import opened ArtifactContract
  import opened ChunkWindows
  import opened ReferenceSession
  import opened Handoff
  import opened ReferenceBinary
  import opened ReferenceRuns
  import opened RestartTransparency
  import opened ReferenceSafety
  import opened ReferenceChains

  /** Load shard B, prefill it, load shard A under the same session id, finalize naming B, load B again. */
  datatype Script = Script(loadB: Request, prefillB: Request, loadA: Request, finishB: Request)

  function Events(x: Script): seq<Event> {
    [Call(x.loadB), Call(x.prefillB), Call(x.loadA), Call(x.finishB), Call(x.loadB)]
  }

  function After(h: Host, st: State, x: Script, n: nat): State
    requires n <= 5
  {
    Run(h, st, Events(x)[..n])
  }

  /** The shards a script loads, and the files they use: none of one is any of the other. */
  ghost predicate TwoShards(a: Shard, b: Shard) {
    && a.sessionId == b.sessionId
    && a.sessionPath !in {b.window.path, b.receiptPath} && a.window.path !in {b.window.path, b.receiptPath}
    && a.receiptPath !in {b.window.path, b.receiptPath}
    && b.sessionPath !in {b.window.path, b.receiptPath} && b.window.path != b.receiptPath && IsDigest(b.window.sha)
  }

  /** The requests are what they are called, read no input and put nothing where the shards keep their files. */
  ghost predicate Scripted(h: Host, x: Script, b: Shard) {
    && x.loadB.action == LoadShard
    && x.loadA.action == LoadShard
    && x.prefillB.action == Prefill
    && x.finishB.action == Finalize
    && Clean(x.prefillB.sessionId) == b.sessionId == Clean(x.finishB.sessionId)
    && Mismatch(h, x.prefillB, b).None? && x.prefillB.input.None?
    && b.window.path !in TargetPaths(h, x.prefillB) && b.receiptPath !in TargetPaths(h, x.prefillB)
    && SlotOf(h, x.finishB).Ok? && h.sessionFile(SlotOf(h, x.finishB).value) == b.sessionPath
  }

  /** The artifacts are there: each load prepares its shard at its point of the script. */
  ghost predicate Loadable(h: Host, st: State, x: Script, a: Shard, b: Shard) {
    && st.loaded == map[]
    && Prepare(h, st.files, x.loadB).1 == Ok(b)
    && Prepare(h, After(h, st, x, 2).files, x.loadA).1 == Ok(a)
    && Prepare(h, After(h, st, x, 4).files, x.loadB).1 == Ok(b)
  }

  lemma Stages(h: Host, st: State, x: Script)
    ensures After(h, st, x, 0) == st
    ensures After(h, st, x, 1) == Step(h, st, x.loadB).0
    ensures After(h, st, x, 2) == Step(h, After(h, st, x, 1), x.prefillB).0
    ensures After(h, st, x, 3) == Step(h, After(h, st, x, 2), x.loadA).0
    ensures After(h, st, x, 4) == Step(h, After(h, st, x, 3), x.finishB).0
    ensures After(h, st, x, 5) == Step(h, After(h, st, x, 4), x.loadB).0 == Run(h, st, Events(x))
  {
    assert Events(x)[..0] == [] && Events(x)[..5] == Events(x);
    Stage(h, st, x, 1, Call(x.loadB));
    Stage(h, st, x, 2, Call(x.prefillB));
    Stage(h, st, x, 3, Call(x.loadA));
    Stage(h, st, x, 4, Call(x.finishB));
    Stage(h, st, x, 5, Call(x.loadB));
  }

  lemma Stage(h: Host, st: State, x: Script, n: nat, e: Event)
    requires 0 < n <= 5 && Events(x)[n - 1] == e && e.Call?
    ensures After(h, st, x, n) == Step(h, After(h, st, x, n - 1), e.request).0
  {
    Unfold(h, st, Events(x), n);
  }

  lemma Unfold(h: Host, st: State, events: seq<Event>, n: nat)
    requires 0 < n <= |events|
    ensures Run(h, st, events[..n]) == Apply(h, Run(h, st, events[..n - 1]), events[n - 1])
  {
    assert events[..n][..n - 1] == events[..n - 1];
  }

  lemma LoadsShard(h: Host, st: State, r: Request, c: Shard)
    requires r.action == LoadShard && Prepare(h, st.files, r).1 == Ok(c)
    ensures Step(h, st, r) == (State(st.loaded[c.sessionId := c],
                                     Prepare(h, st.files, r).0[c.sessionPath := h.dumpSession(WriteSession(c))]),
                               Outcome(Ready(c), None))
  {
  }

  /** A load writes its window and its session file only. */
  lemma LoadWrites(h: Host, st: State, r: Request, c: Shard, path: string)
    requires r.action == LoadShard && Prepare(h, st.files, r).1 == Ok(c) && path != c.window.path
    requires path != c.sessionPath
    ensures SameAt(st.files, Step(h, st, r).0.files, path)
  {
    LoadsShard(h, st, r, c);
    PrepareWrites(h, st.files, r, c, path);
  }

  lemma PrepareWrites(h: Host, files: Files, r: Request, c: Shard, path: string)
    requires Prepare(h, files, r).1 == Ok(c) && path != c.window.path
    ensures SameAt(files, Prepare(h, files, r).0, path)
  {
    PreparedParts(h, files, r, c);
  }

  lemma LoadedWindow(h: Host, st: State, r: Request, c: Shard)
    requires r.action == LoadShard && Prepare(h, st.files, r).1 == Ok(c) && c.sessionPath != c.window.path
    ensures WindowFault(h, Step(h, st, r).0.files, c.window).None?
  {
    LoadsShard(h, st, r, c);
    PreparedWindowStands(h, st.files, r, c);
  }

  /** On a loaded shard with its window in place a prefill without input writes its receipt. */
  lemma PrefillLeavesReceipt(h: Host, st: State, r: Request, b: Shard)
    requires Faithful(h) && IsDigest(b.window.sha) && b.sessionId in st.loaded && st.loaded[b.sessionId] == b
    requires r.action == Prefill && Clean(r.sessionId) == b.sessionId && Mismatch(h, r, b).None? && r.input.None?
    requires WindowFault(h, st.files, b.window).None? && b.receiptPath !in TargetPaths(h, r)
    ensures var (after, out) := Step(h, st, r);
            && out.receipt.Some? && b.receiptPath in after.files
            && HoldsReceipt(h, after.files[b.receiptPath], b.window.sha, out.receipt.value)
            && !out.reply.Ready? && !out.reply.Finalized?
  {
    var found := Found(b, FromMemory);
    LoadedRecall(h, st, r, b);
    StepPrefills(h, st, r, found);
    ProcessReplies(h, st.files, found, r);
    PrefillWritesReceipt(h, st.files, found, r);
  }

  lemma LoadedRecall(h: Host, st: State, r: Request, b: Shard)
    requires b.sessionId in st.loaded && st.loaded[b.sessionId] == b && Clean(r.sessionId) == b.sessionId
    requires Mismatch(h, r, b).None?
    ensures Recall(h, st, r) == Ok(Found(b, FromMemory))
  {
    MatchedSession(h, r, b);
  }

  lemma MatchedSession(h: Host, r: Request, b: Shard)
    requires Mismatch(h, r, b).None?
    ensures Need(r.sessionId, SessionIdField) == Ok(b.sessionId)
    ensures Checked(h, r, Found(b, FromMemory)) == Ok(Found(b, FromMemory))
  {
  }

  lemma PrefillWritesReceipt(h: Host, files: Files, found: Found, r: Request)
    requires Faithful(h) && IsDigest(found.shard.window.sha) && r.input.None?
    requires WindowFault(h, files, found.shard.window).None?
    requires found.shard.receiptPath !in TargetPaths(h, r)
    ensures var (after, out) := PrefillOn(h, files, found, r);
            && out.receipt.Some? && found.shard.receiptPath in after
            && HoldsReceipt(h, after[found.shard.receiptPath], found.shard.window.sha, out.receipt.value)
  {
    var c, inputSha := found.shard, h.world.sha256([]);
    var digest := ExecutionDigest(h, c, r, inputSha);
    var o := OutputOf(h, c, found.source, r, [], CleanOrNone(Text(digest)));
    WrittenReceiptHolds(h, c, r, inputSha, digest);
    OutputOnTarget(h, c, found.source, r, [], CleanOrNone(Text(digest)));
    StoreWrites(h, files[c.receiptPath := h.dumpReceipt(ReceiptOf(c, r, inputSha, digest))], o, TargetPaths(h, r));
  }

  /**
   The finalize drops shard A from memory, unlinks B's session file and A's files, and leaves B's window and
   receipt.
   */
  lemma FinalizeDropsTheOther(h: Host, st: State, r: Request, a: Shard, b: Shard)
    requires r.action == Finalize && SlotOf(h, r).Ok? && h.sessionFile(SlotOf(h, r).value) == b.sessionPath
    requires Clean(r.sessionId) == a.sessionId && a.sessionId in st.loaded && st.loaded[a.sessionId] == a
    requires TwoShards(a, b)
    ensures Step(h, st, r).1 == Outcome(Finalized(FromMemory), None)
    ensures SameAt(st.files, Step(h, st, r).0.files, b.window.path)
    ensures SameAt(st.files, Step(h, st, r).0.files, b.receiptPath)
  {
  }

  /**
   What the five requests leave behind: shard B loaded, its window and the receipt of the finalized prefill in
   place.
   */
  lemma ScriptLeavesReceipt(h: Host, st: State, x: Script, a: Shard, b: Shard)
    requires Faithful(h) && TwoShards(a, b) && Scripted(h, x, b) && Loadable(h, st, x, a, b)
    ensures Step(h, After(h, st, x, 1), x.prefillB).1.receipt.Some?
    ensures var digest, end := Step(h, After(h, st, x, 1), x.prefillB).1.receipt.value, After(h, st, x, 5);
            && b.sessionId in end.loaded && end.loaded[b.sessionId] == b && WindowFault(h, end.files, b.window).None?
            && b.receiptPath in end.files && HoldsReceipt(h, end.files[b.receiptPath], b.window.sha, digest)
  {
    Stages(h, st, x);
    LoadsShard(h, st, x.loadB, b);
    LoadedWindow(h, st, x.loadB, b);
    PrefillLeavesReceipt(h, After(h, st, x, 1), x.prefillB, b);
    LoadsShard(h, After(h, st, x, 2), x.loadA, a);
    LoadWrites(h, After(h, st, x, 2), x.loadA, a, b.receiptPath);
    FinalizeDropsTheOther(h, After(h, st, x, 3), x.finishB, a, b);
    LoadsShard(h, After(h, st, x, 4), x.loadB, b);
    LoadedWindow(h, After(h, st, x, 4), x.loadB, b);
    LoadWrites(h, After(h, st, x, 4), x.loadB, b, b.receiptPath);
  }

  lemma HistoryEntry(h: Host, st: State, x: Script, s: string, i: nat)
    requires i < 5
    ensures History(h, st, Events(x), s)[i] == EventMark(h, After(h, st, x, i), Events(x)[i], s)
  {
  }

  lemma ScriptOutcomes(h: Host, st: State, x: Script, a: Shard, b: Shard)
    requires Faithful(h) && TwoShards(a, b) && Scripted(h, x, b) && Loadable(h, st, x, a, b)
    ensures Step(h, After(h, st, x, 1), x.prefillB).1.receipt.Some?
    ensures !Step(h, After(h, st, x, 1), x.prefillB).1.reply.Ready?
    ensures Step(h, After(h, st, x, 3), x.finishB).1 == Outcome(Finalized(FromMemory), None)
    ensures Step(h, After(h, st, x, 4), x.loadB).1 == Outcome(Ready(b), None)
  {
    Stages(h, st, x);
    LoadsShard(h, st, x.loadB, b);
    LoadedWindow(h, st, x.loadB, b);
    PrefillLeavesReceipt(h, After(h, st, x, 1), x.prefillB, b);
    LoadsShard(h, After(h, st, x, 2), x.loadA, a);
    FinalizeDropsTheOther(h, After(h, st, x, 3), x.finishB, a, b);
    LoadsShard(h, After(h, st, x, 4), x.loadB, b);
  }

  lemma CallMark(h: Host, st: State, r: Request, s: string, out: Outcome)
    requires Step(h, st, r).1 == out
    ensures EventMark(h, st, Call(r), s) == MarkOf(r, out, s)
  {
  }

  /** In the script's history the only prefill comes before the end of the session. */
  lemma ScriptHistory(h: Host, st: State, x: Script, a: Shard, b: Shard)
    requires Faithful(h) && TwoShards(a, b) && Scripted(h, x, b) && Loadable(h, st, x, a, b)
    ensures var marks := History(h, st, Events(x), b.sessionId);
            |marks| == 5 && marks[1].Prefills? && marks[3] == Ends && marks[4] == Loads(b)
  {
    var s := b.sessionId;
    ScriptOutcomes(h, st, x, a, b);
    CallMark(h, After(h, st, x, 1), x.prefillB, s, Step(h, After(h, st, x, 1), x.prefillB).1);
    CallMark(h, After(h, st, x, 3), x.finishB, s, Outcome(Finalized(FromMemory), None));
    CallMark(h, After(h, st, x, 4), x.loadB, s, Outcome(Ready(b), None));
    HistoryEntry(h, st, x, s, 1);
    HistoryEntry(h, st, x, s, 3);
    HistoryEntry(h, st, x, s, 4);
  }

  lemma NoPrefillSince(marks: seq<Mark>)
    requires |marks| == 5 && marks[3] == Ends && marks[4].Loads?
    ensures LatestPrefill(marks).None?
  {
    assert marks == marks[..3] + [marks[3]] + [marks[4]];
    LatestGrows(marks[..3], marks[3]);
    LatestGrows(marks[..3] + [marks[3]], marks[4]);
  }

  /** The decode's input state carries the digest of the prefill that the finalize should have undone. */
  ghost predicate Stale(h: Host, st: State, x: Script, r: Request, b: Shard) {
    && r.action == DecodeStep
    && Clean(r.sessionId) == b.sessionId
    && Mismatch(h, r, b).None?
    && r.input.None?
    && Answerable(r)
    && var receipt := Step(h, After(h, st, x, 1), x.prefillB).1.receipt;
       receipt.Some? && Carries(r.inputState, receipt.value, b.window.sha)
  }

  /**
   Run safety fails for a session with two slots: after the script no prefill of the session has been run since it
   was finalized, and yet a decode is accepted.
   */
  lemma UnbackedDecodeIsAccepted(h: Host, st: State, x: Script, a: Shard, b: Shard, r: Request)
    requires Faithful(h) && TwoShards(a, b) && Scripted(h, x, b) && Loadable(h, st, x, a, b) && Stale(h, st, x, r, b)
    ensures LatestPrefill(History(h, st, Events(x), b.sessionId)).None?
    ensures Step(h, Run(h, st, Events(x)), r).1.reply.Produced?
  {
    ScriptHistory(h, st, x, a, b);
    NoPrefillSince(History(h, st, Events(x), b.sessionId));
    ScriptLeavesReceipt(h, st, x, a, b);
    Stages(h, st, x);
    AcceptsStale(h, After(h, st, x, 5), r, b, Step(h, After(h, st, x, 1), x.prefillB).1.receipt.value);
  }

  lemma AcceptsStale(h: Host, st: State, r: Request, b: Shard, digest: Digest)
    requires b.sessionId in st.loaded && st.loaded[b.sessionId] == b && WindowFault(h, st.files, b.window).None?
    requires IsDigest(b.window.sha)
    requires b.receiptPath in st.files && HoldsReceipt(h, st.files[b.receiptPath], b.window.sha, digest)
    requires r.action == DecodeStep && Clean(r.sessionId) == b.sessionId && Mismatch(h, r, b).None? && r.input.None?
    requires Answerable(r)
    requires Carries(r.inputState, digest, b.window.sha)
    ensures Step(h, st, r).1.reply.Produced?
  {
    LoadedRecall(h, st, r, b);
    StepDecodes(h, st, r, Found(b, FromMemory));
    StockedReceipt(h, st.files, b.receiptPath, b.window.sha, digest);
    var doc := ReadReceipt(h, st.files, b.receiptPath).value;
    CarriedStatePasses(doc, b, r.inputState, digest);
    assert DecodeInput(h, st.files, b, r) == Ok(DecodeBase(doc, []));
    AnsweredIff(h, b, FromMemory, r, [], CleanOrNone(doc.prefillDigest));
  }
}
