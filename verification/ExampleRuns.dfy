/**
 Runs on the example host: a restart that shows because a path ends with a blank, and the script in which a session
 with two slots has a decode accepted that nothing backs.
 */
module ExampleRuns {
  import opened PyValue
  import opened ArtifactContract
  import opened ChunkWindows
  import opened ReferenceSession
  import opened Handoff
  import opened ReferenceBinary
  import opened ReferenceRuns
  import opened RestartTransparency
  import opened ReferenceSafety
  import opened ReferenceChains
  import opened SlotDiscipline
  import opened VisibleRestarts
  import opened ExampleHost

  // ---------------------------------------------------------------- requests and the shards they load

  /** A name of one character, which is no white space. */
  predicate Letter(s: string) { |s| == 1 && !IsSpace(s[0]) }

  lemma LetterIsClean(s: string, f: Field)
    requires Letter(s)
    ensures Clean(Text(s)) == s && Need(Text(s), f) == Ok(s)
  {
  }

  /** An artifact without chunk ranges and coverage, with a stated digest. */
  function Plain(path: string, source: string, digest: string): Artifact {
    Artifact(Null, Text(source), Text(path), Null, Text(digest), Null, Null, NotAList, NoCoverage)
  }

  datatype Names = Names(session: string, model: string, source: string, digest: string, dir: string, path: string,
                         out: string)

  predicate AllLetters(n: Names) {
    && Letter(n.session) && Letter(n.model) && Letter(n.source) && Letter(n.digest) && Letter(n.dir) && Letter(n.path)
    && Letter(n.out)
  }

  function Ask(action: Action, n: Names, state: Option<Manifest>): Request {
    Request(action, Text(n.session), Text(n.model), Null, Null, Null, Null,
            Some(Plain(n.path, n.source, n.digest)), Some(Text(n.dir)), None, state,
            Text("final_output"), Null, Some(IoTargets(Text(n.out), Null)))
  }

  function SlotFor(n: Names): Slot { Slot(n.dir, n.session, n.model, None, None) }

  function ShardFor(n: Names, local: string, size: nat): Shard {
    Shard(n.session, n.model, None, None, local,
          ArtifactFacts(n.source, size, n.digest, "expected_digest", 0, 0, None, None, None, []),
          ShardWindow(WindowName(n.dir, n.digest), Zeros(), size, "full_artifact"),
          SlotName("r", SlotFor(n)), SlotName("s", SlotFor(n)))
  }

  lemma SlotOfAsk(h: Host, action: Action, n: Names, state: Option<Manifest>)
    requires Example(h) && AllLetters(n) && n.dir != "l"
    ensures WorkspaceOf(h, Ask(action, n, state)) == Ok(n.dir)
    ensures SlotOf(h, Ask(action, n, state)) == Ok(SlotFor(n))
  {
    LetterIsClean(n.dir, StateFilesDirField);
    LetterIsClean(n.session, SessionIdField);
    LetterIsClean(n.model, ModelIdField);
  }

  lemma PlainInspects(h: Host, n: Names, file: Bytes)
    requires Example(h) && AllLetters(n) && n.source != "materialized_assignment"
    ensures Inspect(h, file, Plain(n.path, n.source, n.digest)) ==
              Ok(Inspection(None, [], WindowDigest(n.digest, "expected_digest", 0)))
  {
    LetterIsClean(n.source, SourceField);
    LetterIsClean(n.digest, DigestField);
  }

  lemma LocatedAsk(h: Host, files: Files, action: Action, n: Names, state: Option<Manifest>, local: string)
    requires Example(h) && AllLetters(n) && Resolve(n.path) == Some(local) && local in files
    ensures Located(h, files, Ask(action, n, state)) == Ok(local)
  {
    LetterIsClean(n.path, LocalPathField);
  }

  lemma AskAssembles(h: Host, action: Action, n: Names, state: Option<Manifest>, local: string, size: nat,
                     window: ShardWindow)
    requires Example(h) && AllLetters(n) && window == ShardFor(n, local, size).window
    ensures var seen := Inspection(None, [], WindowDigest(n.digest, "expected_digest", 0));
            Assemble(h, Ask(action, n, state), Plain(n.path, n.source, n.digest), local, size, seen, n.dir,
                     window) == Ok(ShardFor(n, local, size))
  {
    LetterIsClean(n.session, SessionIdField);
    LetterIsClean(n.model, ModelIdField);
    LetterIsClean(n.source, SourceField);
    assert Distinct(AllNames([])) == [];
  }

  /** What a request's load prepares from an artifact that is there. */
  lemma AskPrepares(h: Host, files: Files, action: Action, n: Names, state: Option<Manifest>, local: string)
    requires Example(h) && AllLetters(n) && n.dir != "l" && Resolve(n.path) == Some(local) && local in files
    requires local != WindowName(n.dir, n.digest)
    ensures Prepare(h, files, Ask(action, n, state)) ==
              (files[WindowName(n.dir, n.digest) := files[local]], Ok(ShardFor(n, local, |files[local]|)))
  {
    var r, a := Ask(action, n, state), Plain(n.path, n.source, n.digest);
    LocatedAsk(h, files, action, n, state, local);
    PlainInspects(h, n, files[local]);
    SlotOfAsk(h, action, n, state);
    var seen := Inspection(None, [], WindowDigest(n.digest, "expected_digest", 0));
    assert PlanCopy(h, files[local], r, a) ==
           Ok(Copying(seen, n.dir, WindowName(n.dir, n.digest), Written(files[local], true)));
    AskAssembles(h, action, n, state, local, |files[local]|, ShardFor(n, local, |files[local]|).window);
  }

  lemma AskMatches(h: Host, action: Action, n: Names, state: Option<Manifest>, local: string, size: nat)
    requires Example(h) && AllLetters(n) && Resolve(n.path) == Some(local)
    ensures Mismatch(h, Ask(action, n, state), ShardFor(n, local, size)).None?
  {
    LetterIsClean(n.session, SessionIdField);
    LetterIsClean(n.model, ModelIdField);
    LetterIsClean(n.path, LocalPathField);
  }

  lemma AskIsAnswerable(action: Action, n: Names, state: Option<Manifest>)
    requires AllLetters(n) && (action == Prefill || action == DecodeStep)
    ensures Answerable(Ask(action, n, state))
  {
    LetterIsClean(n.out, OutputPayloadField);
    assert Lower(Clean(Text("final_output"))) == "final_output";
  }

  lemma AskTargets(h: Host, action: Action, n: Names, state: Option<Manifest>)
    requires Example(h) && AllLetters(n)
    ensures TargetPaths(h, Ask(action, n, state)) == {n.out, ""}
  {
    LetterIsClean(n.out, OutputPayloadField);
  }

  /** The state after a load: the window and the session file are there, and nothing else has changed. */
  lemma AskLoads(h: Host, st: State, n: Names, local: string)
    requires Example(h) && AllLetters(n) && n.dir != "l" && Resolve(n.path) == Some(local) && local in st.files
    requires local != WindowName(n.dir, n.digest)
    ensures var c := ShardFor(n, local, |st.files[local]|);
            && Step(h, st, Ask(LoadShard, n, None)).1 == Outcome(Ready(c), None)
            && Step(h, st, Ask(LoadShard, n, None)).0.loaded == st.loaded[n.session := c]
            && WindowFault(h, Step(h, st, Ask(LoadShard, n, None)).0.files, c.window).None?
  {
    AskPrepares(h, st.files, LoadShard, n, None, local);
    SortsDiffer(SlotFor(n), SlotFor(n), n.dir, n.digest);
  }

  // ---------------------------------------------------------------- the restart that shows

  lemma AskPrefills(h: Host, st: State, n: Names, c: Shard)
    requires Example(h) && AllLetters(n) && WindowFault(h, st.files, c.window).None?
    requires Recall(h, st, Ask(Prefill, n, None)) == Ok(Found(c, FromMemory))
    ensures Step(h, st, Ask(Prefill, n, None)).1.reply.Produced?
  {
    PrefillAcceptedIffAnswerable(h, st.files, Found(c, FromMemory), Ask(Prefill, n, None));
    AskIsAnswerable(Prefill, n, None);
    ProcessAnswers(h, st, Ask(Prefill, n, None), Found(c, FromMemory));
  }

  lemma BlankIsNotKept(h: Host)
    requires Example(h)
    ensures !PathKept(h.world, "b ")
  {
    assert StripLeft("b ", 2) == "b ";
    assert StripRight("b ", 2) == StripRight("b ", 1) == "b" by { assert "b "[..1] == "b"; }
    assert Strip("b ") == "b";
    assert h.world.resolve("b") == Resolve("b") == Some("b") && |"b"| != |"b "|;
  }

  /**
   A link to a file whose name ends with a blank: the request that names it is answered in the unbroken run and
   refused after a restart.
   */
  lemma BlankPathShowsRestart() returns (h: Host, st: State, load: Request, r: Request)
    ensures Sound(h, ThePlan()) && SlotOf(h, load) == SlotOf(h, r) == Ok(ThePlan()(Clean(r.sessionId)))
    ensures Step(h, st, load).1.reply.Ready?
    ensures Step(h, Run(h, st, [Call(load)]), r).1.reply.Produced?
    ensures Step(h, Run(h, st, [Call(load), Restart]), r).1.reply.Refused?
  {
    h := SoundHostExists();
    var n := Names("t", "m", "u", "e", "d", "l", "o");
    st := State(map[], map["b " := [1]]);
    load, r := Ask(LoadShard, n, None), Ask(Prefill, n, None);
    BlankRun(h, st, n, "b ");
    BlankIsNotKept(h);
    LetterIsClean(n.session, SessionIdField);
  }

  lemma BlankRun(h: Host, st: State, n: Names, local: string)
    requires Example(h) && AllLetters(n) && n.dir != "l" && Resolve(n.path) == Some(local)
    requires st == State(map[], map[local := [1]]) && |local| == 2
    ensures var load, r := Ask(LoadShard, n, None), Ask(Prefill, n, None);
            && SlotOf(h, load) == SlotOf(h, r) == Ok(SlotFor(n)) && Step(h, st, load).1.reply.Ready?
            && Step(h, Run(h, st, [Call(load)]), r).1.reply.Produced?
            && (!PathKept(h.world, local) ==> Step(h, Run(h, st, [Call(load), Restart]), r).1.reply.Refused?)
  {
    var load, r, c := Ask(LoadShard, n, None), Ask(Prefill, n, None), ShardFor(n, local, 1);
    AskLoads(h, st, n, local);
    SlotOfAsk(h, LoadShard, n, None);
    SlotOfAsk(h, Prefill, n, None);
    AskMatches(h, Prefill, n, None, local, 1);
    PathsAreStable(h);
    UnkeptPathShowsRestart(h, st, load, r, c);
    RunOne(h, st, Call(load));
    AskPrefills(h, Step(h, st, load).0, n, c);
  }

  // ---------------------------------------------------------------- the session with two slots

  /** The same session, source and artifact in another workspace and for another model. */
  predicate Twins(a: Names, b: Names) {
    && AllLetters(a) && AllLetters(b) && a.dir != "l" && b.dir != "l" && a.path != "l"
    && b == a.(dir := b.dir, model := b.model) && a.dir != b.dir && a.path != a.out
  }

  lemma TwinNamesDiffer(a: Names, b: Names)
    requires Twins(a, b)
    ensures WindowName(a.dir, a.digest) != WindowName(b.dir, b.digest)
    ensures SlotName("r", SlotFor(a)) != SlotName("r", SlotFor(b))
  {
    assert WindowName(a.dir, a.digest)[1] == a.dir[0] && WindowName(b.dir, b.digest)[1] == b.dir[0];
    assert SlotName("r", SlotFor(a))[1] == a.dir[0] && SlotName("r", SlotFor(b))[1] == b.dir[0];
  }

  lemma TwinsAreTwoShards(a: Names, b: Names, local: string, size: nat)
    requires Twins(a, b)
    ensures TwoShards(ShardFor(a, local, size), ShardFor(b, local, size))
  {
    TwinNamesDiffer(a, b);
    SortsDiffer(SlotFor(a), SlotFor(b), a.dir, a.digest);
    SortsDiffer(SlotFor(a), SlotFor(b), b.dir, b.digest);
    SortsDiffer(SlotFor(b), SlotFor(b), a.dir, a.digest);
    SortsDiffer(SlotFor(b), SlotFor(b), b.dir, b.digest);
  }

  function TwinScript(a: Names, b: Names): Script {
    Script(Ask(LoadShard, b, None), Ask(Prefill, b, None), Ask(LoadShard, a, None), Ask(Finalize, b, None))
  }

  lemma TwinsAreScripted(h: Host, a: Names, b: Names, size: nat)
    requires Example(h) && Twins(a, b)
    ensures Scripted(h, TwinScript(a, b), ShardFor(b, b.path, size))
  {
    LetterIsClean(b.session, SessionIdField);
    AskMatches(h, Prefill, b, None, b.path, size);
    AskTargets(h, Prefill, b, None);
    SlotOfAsk(h, Finalize, b, None);
  }

  /** A finalize spares what is neither the session file it names nor the dropped shard's own. */
  lemma FinalizeSpares(h: Host, st: State, r: Request, a: Shard, path: string)
    requires r.action == Finalize && SlotOf(h, r).Ok? && path != h.sessionFile(SlotOf(h, r).value)
    requires Clean(r.sessionId) == a.sessionId && a.sessionId in st.loaded && st.loaded[a.sessionId] == a
    requires path != a.window.path && path != a.receiptPath
    ensures SameAt(st.files, Step(h, st, r).0.files, path)
  {
  }

  lemma PrefillSpares(h: Host, st: State, r: Request, c: Shard, path: string)
    requires r.action == Prefill && Recall(h, st, r) == Ok(Found(c, FromMemory))
    requires path !in TargetPaths(h, r) && path != c.receiptPath
    ensures SameAt(st.files, Step(h, st, r).0.files, path)
  {
    WindowSpared(h, st.files, Found(c, FromMemory), r, path);
    ProcessAnswers(h, st, r, Found(c, FromMemory));
  }

  /** A load of an artifact that is there, and what the artifact is after it. */
  lemma AskSpares(h: Host, st: State, n: Names)
    requires Example(h) && AllLetters(n) && n.dir != "l" && n.path != "l" && n.path in st.files
    ensures Prepare(h, st.files, Ask(LoadShard, n, None)).1 == Ok(ShardFor(n, n.path, |st.files[n.path]|))
    ensures SameAt(st.files, Step(h, st, Ask(LoadShard, n, None)).0.files, n.path)
    ensures Step(h, st, Ask(LoadShard, n, None)).0.loaded ==
              st.loaded[n.session := ShardFor(n, n.path, |st.files[n.path]|)]
  {
    AskPrepares(h, st.files, LoadShard, n, None, n.path);
    LoadWrites(h, st, Ask(LoadShard, n, None), ShardFor(n, n.path, |st.files[n.path]|), n.path);
    AskLoads(h, st, n, n.path);
  }

  lemma AskPrefillSpares(h: Host, st: State, n: Names, c: Shard)
    requires Example(h) && AllLetters(n) && n.path != "l" && n.path != n.out
    requires c == ShardFor(n, n.path, 1) && n.session in st.loaded && st.loaded[n.session] == c
    ensures SameAt(st.files, Step(h, st, Ask(Prefill, n, None)).0.files, n.path)
  {
    AskMatches(h, Prefill, n, None, n.path, 1);
    FoundInMemory(h, st, Ask(Prefill, n, None), c);
    AskTargets(h, Prefill, n, None);
    PrefillSpares(h, st, Ask(Prefill, n, None), c, n.path);
  }

  lemma AskFinalizeSpares(h: Host, st: State, a: Names, b: Names, c: Shard)
    requires Example(h) && Twins(a, b)
    requires c == ShardFor(a, a.path, 1) && a.session in st.loaded && st.loaded[a.session] == c
    ensures SameAt(st.files, Step(h, st, Ask(Finalize, b, None)).0.files, b.path)
  {
    SlotOfAsk(h, Finalize, b, None);
    LetterIsClean(b.session, SessionIdField);
    FinalizeSpares(h, st, Ask(Finalize, b, None), c, b.path);
  }

  lemma SameAtAll(f: Files, g: Files, k: Files, path: string)
    requires SameAt(f, g, path) && SameAt(g, k, path)
    ensures SameAt(f, k, path)
  {
  }

  /** The artifact stays where it is through the first two requests. */
  lemma ArtifactAfterPrefill(h: Host, st: State, a: Names, b: Names)
    requires Example(h) && Twins(a, b) && st == State(map[], map[b.path := [1]])
    ensures SameAt(st.files, After(h, st, TwinScript(a, b), 2).files, b.path)
    ensures Prepare(h, st.files, TwinScript(a, b).loadB).1 == Ok(ShardFor(b, b.path, 1))
  {
    var x := TwinScript(a, b);
    Stages(h, st, x);
    AskSpares(h, st, b);
    AskPrefillSpares(h, After(h, st, x, 1), b, ShardFor(b, b.path, 1));
    SameAtAll(st.files, After(h, st, x, 1).files, After(h, st, x, 2).files, b.path);
  }

  lemma ArtifactAfterFinalize(h: Host, st: State, a: Names, b: Names)
    requires Example(h) && Twins(a, b) && st == State(map[], map[b.path := [1]])
    ensures var x := TwinScript(a, b);
            && Prepare(h, After(h, st, x, 2).files, x.loadA).1 == Ok(ShardFor(a, b.path, 1))
            && SameAt(st.files, After(h, st, x, 4).files, b.path)
  {
    var x := TwinScript(a, b);
    Stages(h, st, x);
    ArtifactAfterPrefill(h, st, a, b);
    AskSpares(h, After(h, st, x, 2), a);
    AskFinalizeSpares(h, After(h, st, x, 3), a, b, ShardFor(a, b.path, 1));
    SameAtAll(st.files, After(h, st, x, 2).files, After(h, st, x, 3).files, b.path);
    SameAtAll(st.files, After(h, st, x, 3).files, After(h, st, x, 4).files, b.path);
  }

  lemma TwinsAreLoadable(h: Host, st: State, a: Names, b: Names)
    requires Example(h) && Twins(a, b) && st == State(map[], map[b.path := [1]])
    ensures Loadable(h, st, TwinScript(a, b), ShardFor(a, b.path, 1), ShardFor(b, b.path, 1))
  {
    var x := TwinScript(a, b);
    ArtifactAfterPrefill(h, st, a, b);
    ArtifactAfterFinalize(h, st, a, b);
    AskPrepares(h, After(h, st, x, 4).files, LoadShard, b, None, b.path);
  }

  /** A state that carries the only digest there is. */
  function StaleState(): Manifest {
    Manifest(Null, Null, Null, Null, Null, Null, Null, Null, Null, Null, Null, NoStateFile,
             Metadata(Text(Zeros()), Text(Zeros()), Null))
  }

  lemma TwinsAreStale(h: Host, st: State, a: Names, b: Names)
    requires Example(h) && Twins(a, b) && st == State(map[], map[b.path := [1]])
    ensures Stale(h, st, TwinScript(a, b), Ask(DecodeStep, b, Some(StaleState())), ShardFor(b, b.path, 1))
  {
    var x, r := TwinScript(a, b), Ask(DecodeStep, b, Some(StaleState()));
    TwinsAreTwoShards(a, b, b.path, 1);
    TwinsAreScripted(h, a, b, 1);
    TwinsAreLoadable(h, st, a, b);
    ScriptOutcomes(h, st, x, ShardFor(a, b.path, 1), ShardFor(b, b.path, 1));
    LetterIsClean(b.session, SessionIdField);
    AskMatches(h, DecodeStep, b, Some(StaleState()), b.path, 1);
    AskIsAnswerable(DecodeStep, b, Some(StaleState()));
    OnlyDigest(h, After(h, st, x, 1), x.prefillB);
    StaleStateCarries();
  }

  lemma OnlyDigest(h: Host, st: State, r: Request)
    requires Example(h) && r.action == Prefill && Step(h, st, r).1.receipt.Some?
    ensures Step(h, st, r).1.receipt == Some(Zeros())
  {
    var found := Recall(h, st, r);
    if found.Ok? {
      ProcessAnswers(h, st, r, found.value);
      PrefillDigest(h, st.files, found.value, r);
      HashIsZeros(h, found.value.shard, r, h.world.sha256(PrefillInput(h, st.files, found.value.shard, r).value));
    }
  }

  lemma PrefillDigest(h: Host, files: Files, found: Found, r: Request)
    requires r.action == Prefill && ProcessOn(h, files, found, r).1.receipt.Some?
    ensures PrefillInput(h, files, found.shard, r).Ok?
    ensures ProcessOn(h, files, found, r).1.receipt ==
              Some(ExecutionDigest(h, found.shard, r, h.world.sha256(PrefillInput(h, files, found.shard, r).value)))
  {
  }

  lemma HashIsZeros(h: Host, c: Shard, r: Request, inputSha: Digest)
    requires forall b :: h.world.sha256(b) == Zeros()
    ensures ExecutionDigest(h, c, r, inputSha) == Zeros()
  {
    var text := c.window.sha + ":" + inputSha + ":" + ShowInt(c.layerStart) + ":" + ShowInt(c.layerEnd) + ":"
                + ShowInt(OptInt(r.tokenStart)) + ":" + ShowInt(OptInt(r.tokenEnd));
    assert h.world.sha256(h.world.utf8(text)) == Zeros();
  }

  lemma StaleStateCarries()
    ensures Carries(Some(StaleState()), Zeros(), Zeros())
  {
    DigestIsClean(Zeros());
  }

  /** The hypotheses of the script can be met together: one host, one artifact and five requests. */
  lemma UnbackedDecodeExists() returns (h: Host, st: State, x: Script, r: Request, s: string)
    ensures Sound(h, ThePlan()) && st.loaded == map[]
    ensures LatestPrefill(History(h, st, Events(x), s)).None?
    ensures r.action == DecodeStep && Clean(r.sessionId) == s && Step(h, Run(h, st, Events(x)), r).1.reply.Produced?
  {
    h := SoundHostExists();
    var a, b := Names("t", "n", "u", "e", "c", "x", "o"), Names("t", "m", "u", "e", "d", "x", "o");
    st, x, r, s := State(map[], map["x" := [1]]), TwinScript(a, b), Ask(DecodeStep, b, Some(StaleState())), "t";
    TwinsAreUnbacked(h, st, a, b);
    LetterIsClean(s, SessionIdField);
  }

  lemma TwinsAreUnbacked(h: Host, st: State, a: Names, b: Names)
    requires Example(h) && Twins(a, b) && st == State(map[], map[b.path := [1]])
    ensures LatestPrefill(History(h, st, Events(TwinScript(a, b)), b.session)).None?
    ensures Step(h, Run(h, st, Events(TwinScript(a, b))), Ask(DecodeStep, b, Some(StaleState()))).1.reply.Produced?
  {
    TwinsAreTwoShards(a, b, b.path, 1);
    TwinsAreScripted(h, a, b, 1);
    TwinsAreLoadable(h, st, a, b);
    TwinsAreStale(h, st, a, b);
    UnbackedDecodeIsAccepted(h, st, TwinScript(a, b), ShardFor(a, b.path, 1), ShardFor(b, b.path, 1),
                             Ask(DecodeStep, b, Some(StaleState())));
  }
}
