/**
 The patched binary executor's drift guard: a session manifest per workspace that pins the execution
 context between load and finalize, over whole runs of requests.
 */
module DriftGuard {
  import opened PyValue
  import opened ArtifactContract
  import opened MetricsProof

  const SESSION_ABI := "cai-llama-cpp-patched-binary-session-v1"

  datatype Action = LoadShard | Prefill | DecodeStep | Finalize | Unsupported

  /** The validated execution context; `stateFilesDir` is already resolved. */
  datatype Context = Context(
    stateFilesDir: string, sessionId: Value, modelId: Value, layerStart: Value, layerEnd: Value, tokenStart: Value,
    tokenEnd: Value,
    expectedOutputKind: Value, assignment: Option<Artifact>, model: Option<Artifact>)

  /** `context` is `None` when the request, its context or its workspace fails the entry checks. */
  datatype Request = Request(action: Action, context: Option<Context>, requireShardOnly: bool)

  datatype Config = Config(binaryConfigured: bool, requireRealLayers: bool, requireShardOnly: bool)

  /** What the binary answered; `CallFailed` is a call that raised. */
  datatype Reply =
    | CallFailed
    | Reply(status: Value, realModel: Value, realLayers: Value, outputKind: Value, payloadFile: Option<Value>,
            payloadBase64: Value,
            metrics: Option<Metric>)

  // ---------------------------------------------------------------- context signature

  datatype Identity = Identity(
    artifactId: Option<string>, source: Option<string>, localPath: Option<string>, layerStart: Option<int>,
    layerEnd: Option<int>,
    coverage: CoverageDoc, chunks: Option<seq<ChunkItem>>)

  datatype SignedContext = SignedContext(
    sessionId: string, modelId: string, layerStart: Option<int>, layerEnd: Option<int>,
    assignment: Option<Identity>, model: Option<Identity>)

  function IdentityOf(a: Option<Artifact>, includeChunks: bool): Option<Identity> {
    if a.None? then None
    else
      var x := a.value;
      Some(Identity(CleanOrNone(x.artifactId), CleanOrNone(x.source), CleanOrNone(x.localPath), OptInt(x.layerStart),
                    OptInt(x.layerEnd),
                    x.coverage,
                    if includeChunks && x.chunkRanges.Items? then Some(MappingsOf(x.chunkRanges.items)) else None))
  }

  function Signed(c: Context): SignedContext {
    SignedContext(Clean(c.sessionId), Clean(c.modelId), OptInt(c.layerStart), OptInt(c.layerEnd),
                  IdentityOf(c.assignment, true), IdentityOf(c.model, false))
  }

  /** `hash` is SHA-256 of the canonical JSON of the signed context. */
  type Hash = SignedContext -> Digest

  function SignatureOf(hash: Hash, c: Context): Digest { hash(Signed(c)) }

  // ---------------------------------------------------------------- the session manifest

  datatype ManifestFile =
    | Unreadable
    | Manifest(abi: Value, contextSignature: Value, sessionId: string, modelId: string, layerStart: Option<int>,
               layerEnd: Option<int>,
               tokenStart: Option<int>, tokenEnd: Option<int>, expectedOutputKind: string, lastAction: Action,
               lastOutputKind: Option<string>, lastStateManifestPath: Option<string>)

  datatype Failure =
    | Rejected | ManifestInvalid | ManifestAbiUnsupported | ContextDrift | BinaryFailed
    | NotReady | NotOk | NotRealModel | NotRealLayers | ShardOnlyUnproven | OutputKindMissing | OutputKindMismatch
    | NoPayload

  function ManifestError(m: ManifestFile, signature: string, action: Action): Option<Failure> {
    if m.Unreadable? then Some(ManifestInvalid)
    else if Clean(m.abi) != SESSION_ABI then Some(ManifestAbiUnsupported)
    else if action != LoadShard && Clean(m.contextSignature) != "" && Clean(m.contextSignature) != signature then
      Some(ContextDrift)
    else None
  }

  function Written(c: Context, signature: Digest, action: Action, outputKind: Option<string>,
                   path: Option<string>): ManifestFile {
    Manifest(Text(SESSION_ABI), Text(signature), Clean(c.sessionId), Clean(c.modelId), OptInt(c.layerStart),
             OptInt(c.layerEnd),
             OptInt(c.tokenStart), OptInt(c.tokenEnd), Clean(c.expectedOutputKind), action, outputKind, path)
  }

  // ---------------------------------------------------------------- the binary's answer

  function LifecycleFailure(r: Reply, action: Action, requireShardOnly: bool): Option<Failure>
    requires r.Reply?
  {
    var status := Lower(Clean(r.status));
    if status != "ready" && status != "ok" then Some(NotReady)
    else if !Truthy(r.realModel) then Some(NotRealModel)
    else if requireShardOnly && action == LoadShard
        && !(r.metrics.Some? && BinaryProvesShardOnly(r.metrics.value)) then Some(Failure.ShardOnlyUnproven)
    else None
  }

  function OutputKind(r: Reply, c: Context): string
    requires r.Reply?
  {
    if Clean(r.outputKind) != "" then Clean(r.outputKind) else Clean(c.expectedOutputKind)
  }

  function ProcessFailure(cfg: Config, r: Reply, c: Context, requireShardOnly: bool): Option<Failure>
    requires r.Reply?
  {
    if Lower(Clean(r.status)) != "ok" then Some(NotOk)
    else if !Truthy(r.realModel) then Some(NotRealModel)
    else if cfg.requireRealLayers && !Truthy(r.realLayers) then Some(NotRealLayers)
    else if requireShardOnly && !(r.metrics.Some? && BinaryProvesShardOnly(r.metrics.value)) then
      Some(Failure.ShardOnlyUnproven)
    else if Clean(c.expectedOutputKind) == "" then Some(OutputKindMissing)
    else if OutputKind(r, c) != Clean(c.expectedOutputKind) then Some(OutputKindMismatch)
    else if r.payloadFile.None? && Clean(r.payloadBase64) == "" then Some(NoPayload)
    else None
  }

  // ---------------------------------------------------------------- one request

  type Manifests = map<string, ManifestFile>

  /** `reached`: the binary was called.  `failure` is the error the caller sees, if any. */
  datatype Outcome = Outcome(reached: bool, failure: Option<Failure>)

  predicate Admitted(cfg: Config, r: Request) { cfg.binaryConfigured && r.action != Unsupported && r.context.Some? }

  function PathOf(r: Request): string
    requires r.context.Some?
  {
    r.context.value.stateFilesDir + "/patched-binary-session.json"
  }

  function Step(hash: Hash, cfg: Config, ms: Manifests, r: Request, reply: Reply): (Manifests, Outcome) {
    if !Admitted(cfg, r) then (ms, Outcome(false, Some(Rejected)))
    else
      var c, path := r.context.value, PathOf(r);
      var signature := SignatureOf(hash, c);
      var guard := if path in ms then ManifestError(ms[path], signature, r.action) else None;
      var shardOnly := cfg.requireShardOnly || r.requireShardOnly;
      if guard.Some? then (ms, Outcome(false, guard))
      else if reply.CallFailed? then (ms, Outcome(true, Some(BinaryFailed)))
      else if r.action == LoadShard then
        (ms[path := Written(c, signature, LoadShard, None, None)],
         Outcome(true, LifecycleFailure(reply, LoadShard, shardOnly)))
      else if r.action == Finalize then
        (ms - {path}, Outcome(true, LifecycleFailure(reply, Finalize, shardOnly)))
      else
        var failure := ProcessFailure(cfg, reply, c, shardOnly);
        if failure.Some? then (ms, Outcome(true, failure))
        else (ms[path := Written(c, signature, r.action, NonEmpty(OutputKind(reply, c)),
                                 if reply.payloadFile.Some? then CleanOrNone(reply.payloadFile.value) else None)],
              Outcome(true, None))
  }

  /** The executor process: the manifests on disk and a request counter. */
  class Executor {
    var manifests: Manifests
    var requestCount: nat

    constructor ()
      ensures manifests == map[] && requestCount == 0
    {
      manifests, requestCount := map[], 0;
    }

    method Handle(hash: Hash, cfg: Config, r: Request, reply: Reply) returns (out: Outcome)
      modifies this
      ensures (manifests, out) == Step(hash, cfg, old(manifests), r, reply)
      ensures requestCount == old(requestCount) + 1
    {
      requestCount := requestCount + 1;
      if !cfg.binaryConfigured || r.action == Unsupported || r.context.None? {
        return Outcome(false, Some(Rejected));
      }
      var c := r.context.value;
      var path := PathOf(r);
      var signature := SignatureOf(hash, c);
      if path in manifests {
        var error := ManifestError(manifests[path], signature, r.action);
        if error.Some? {
          return Outcome(false, error);
        }
      }
      var shardOnly := cfg.requireShardOnly || r.requireShardOnly;
      if reply.CallFailed? {
        return Outcome(true, Some(BinaryFailed));
      }
      if r.action == LoadShard {
        manifests := manifests[path := Written(c, signature, LoadShard, None, None)];
      }
      if r.action == LoadShard || r.action == Finalize {
        if r.action == Finalize {
          manifests := manifests - {path};
        }
        return Outcome(true, LifecycleFailure(reply, r.action, shardOnly));
      }
      var failure := ProcessFailure(cfg, reply, c, shardOnly);
      if failure.Some? {
        return Outcome(true, failure);
      }
      var statePath := if reply.payloadFile.Some? then CleanOrNone(reply.payloadFile.value) else None;
      manifests := manifests[path := Written(c, signature, r.action, NonEmpty(OutputKind(reply, c)), statePath)];
      return Outcome(true, None);
    }
  }

  // ---------------------------------------------------------------- what one request does

  /** The workspace has no manifest, or a readable one that does not name another context. */
  predicate LetsThrough(hash: Hash, ms: Manifests, r: Request)
    requires r.context.Some?
  {
    PathOf(r) in ms ==>
      var m := ms[PathOf(r)];
      && m.Manifest? && Clean(m.abi) == SESSION_ABI
      && (r.action == LoadShard || Clean(m.contextSignature) == ""
          || Clean(m.contextSignature) == SignatureOf(hash, r.context.value))
  }

  /** The binary is called exactly for well-formed requests that the workspace lets through; others change nothing. */
  lemma ReachIsExact(hash: Hash, cfg: Config, ms: Manifests, r: Request, reply: Reply)
    ensures var (after, out) := Step(hash, cfg, ms, r, reply);
            && (out.reached <==>
                  cfg.binaryConfigured && r.action != Unsupported && r.context.Some? && LetsThrough(hash, ms, r))
            && (!out.reached ==> out.failure.Some? && after == ms)
            && (out.reached && reply.CallFailed? ==> out.failure == Some(BinaryFailed) && after == ms)
  {
  }

  /** The metrics show shard-only loading, by what they report first. */
  ghost predicate ShowsShardOnly(metrics: Option<Metric>) {
    && metrics.Some?
    && !Reports(metrics.value, USED_FULL_MODEL, true) && Reports(metrics.value, SHARD_ONLY_READY, true)
    && !Reports(metrics.value, ASSIGNMENT_PRESENT, false)
  }

  lemma ShownIsProven(metrics: Option<Metric>)
    ensures ShowsShardOnly(metrics) <==> metrics.Some? && BinaryProvesShardOnly(metrics.value)
  {
    if metrics.Some? { BinaryProofMeans(metrics.value); }
  }

  predicate IsProcess(a: Action) { a == Prefill || a == DecodeStep }

  /** The reply is a real execution that put out what was asked for, proven shard-only where that is required. */
  ghost predicate GoodOutput(cfg: Config, r: Request, reply: Reply)
    requires r.context.Some? && reply.Reply?
  {
    var expected := Clean(r.context.value.expectedOutputKind);
    && Lower(Clean(reply.status)) == "ok" && Truthy(reply.realModel)
    && (cfg.requireRealLayers ==> Truthy(reply.realLayers))
    && (cfg.requireShardOnly || r.requireShardOnly ==> ShowsShardOnly(reply.metrics))
    && expected != "" && (Clean(reply.outputKind) == "" || Clean(reply.outputKind) == expected)
    && (reply.payloadFile.Some? || Clean(reply.payloadBase64) != "")
  }

  /** The manifest describes this context and this action. */
  predicate Describes(m: ManifestFile, hash: Hash, c: Context, action: Action) {
    && Pins(m, SignatureOf(hash, c)) && m.sessionId == Clean(c.sessionId) && m.modelId == Clean(c.modelId)
    && m.layerStart == OptInt(c.layerStart) && m.layerEnd == OptInt(c.layerEnd)
    && m.tokenStart == OptInt(c.tokenStart) && m.tokenEnd == OptInt(c.tokenEnd)
    && m.expectedOutputKind == Clean(c.expectedOutputKind) && m.lastAction == action
  }

  /** After the step the workspace has this manifest, and the others are as they were. */
  ghost predicate Rewrote(ms: Manifests, after: Manifests, path: string) {
    path in after && after == ms[path := after[path]]
  }

  /**
   A process that the binary answered fails exactly when the reply is no good output, and then leaves the manifest as
   it was; else the manifest describes the request and names the kind and the file of the output.
   */
  lemma ProcessVerdictIsExact(hash: Hash, cfg: Config, ms: Manifests, r: Request, reply: Reply)
    requires IsProcess(r.action) && Step(hash, cfg, ms, r, reply).1.reached && reply.Reply?
    ensures r.context.Some?
    ensures var (after, out) := Step(hash, cfg, ms, r, reply);
            && (out.failure.None? <==> GoodOutput(cfg, r, reply))
            && (out.failure.Some? ==> after == ms)
            && (out.failure.None? ==>
                  && Rewrote(ms, after, PathOf(r))
                  && Describes(after[PathOf(r)], hash, r.context.value, r.action)
                  && after[PathOf(r)].lastOutputKind == Some(Clean(r.context.value.expectedOutputKind))
                  && after[PathOf(r)].lastStateManifestPath ==
                       if reply.payloadFile.Some? then CleanOrNone(reply.payloadFile.value) else None)
  {
    ShownIsProven(reply.metrics);
  }

  /**
   A load or finalize that the binary answered fails exactly when the reply is not ready or not real, or a required
   proof is missing from a load; its manifest is written or removed all the same.
   */
  lemma LifecycleVerdictIsExact(hash: Hash, cfg: Config, ms: Manifests, r: Request, reply: Reply)
    requires !IsProcess(r.action) && Step(hash, cfg, ms, r, reply).1.reached && reply.Reply?
    ensures r.context.Some?
    ensures var (after, out) := Step(hash, cfg, ms, r, reply);
            && (out.failure.None? <==>
                  && Lower(Clean(reply.status)) in {"ready", "ok"} && Truthy(reply.realModel)
                  && (r.action == LoadShard && (cfg.requireShardOnly || r.requireShardOnly) ==>
                        ShowsShardOnly(reply.metrics)))
            && (r.action == LoadShard ==>
                  && Rewrote(ms, after, PathOf(r))
                  && Describes(after[PathOf(r)], hash, r.context.value, LoadShard)
                  && after[PathOf(r)].lastOutputKind == None && after[PathOf(r)].lastStateManifestPath == None)
            && (r.action == Finalize ==> after == ms - {PathOf(r)})
  {
    ShownIsProven(reply.metrics);
  }

  // ---------------------------------------------------------------- runs

  datatype Event = Event(request: Request, reply: Reply)

  function Run(hash: Hash, cfg: Config, ms: Manifests, events: seq<Event>): Manifests {
    if events == [] then ms
    else
      var last := events[|events| - 1];
      Step(hash, cfg, Run(hash, cfg, ms, events[..|events| - 1]), last.request, last.reply).0
  }

  /** The outcome of event `i` of a run that starts without manifests. */
  function OutcomeAt(hash: Hash, cfg: Config, events: seq<Event>, i: nat): Outcome
    requires i < |events|
  {
    Step(hash, cfg, Run(hash, cfg, map[], events[..i]), events[i].request, events[i].reply).1
  }

  predicate Pins(m: ManifestFile, signature: Digest) {
    m.Manifest? && m.abi == Text(SESSION_ABI) && m.contextSignature == Text(signature)
  }

  /** Every manifest on disk was written by the executor. */
  ghost predicate OwnManifests(ms: Manifests) { forall p :: p in ms ==> Owned(ms[p]) }

  ghost predicate Owned(m: ManifestFile) { exists s: Digest :: Pins(m, s) }

  lemma PinnedReadsBack(m: ManifestFile, signature: Digest, s: Digest, action: Action)
    requires Pins(m, s)
    ensures ManifestError(m, signature, action) == if action != LoadShard
        && s != signature then Some(ContextDrift) else None
  {
    DigestIsClean(s);
    AbiIsClean();
  }

  lemma AbiIsClean()
    ensures Clean(Text(SESSION_ABI)) == SESSION_ABI
  {
    assert SESSION_ABI[0] == 'c' && SESSION_ABI[|SESSION_ABI| - 1] == '1';
  }

  /**
   One request against a pinned workspace: a process or finalize with another signature is refused as
   drift, never reaches the binary and changes nothing; and only a load can change the signature.
   */
  lemma GuardAtOneStep(hash: Hash, cfg: Config, ms: Manifests, r: Request, reply: Reply, s: Digest)
    requires Admitted(cfg, r) && PathOf(r) in ms && Pins(ms[PathOf(r)], s)
    ensures var (after, out) := Step(hash, cfg, ms, r, reply);
            var same := SignatureOf(hash, r.context.value) == s;
            && (r.action != LoadShard && !same ==> out == Outcome(false, Some(ContextDrift)) && after == ms)
            && (r.action != LoadShard && same ==> out.reached)
            && (r.action == LoadShard ==> out.reached)
            && (r.action != LoadShard && PathOf(r) in after ==> Pins(after[PathOf(r)], s))
            && (PathOf(r) !in after ==> r.action == Finalize && same)
  {
    PinnedReadsBack(ms[PathOf(r)], SignatureOf(hash, r.context.value), s, r.action);
  }

  lemma StepKeepsOthers(hash: Hash, cfg: Config, ms: Manifests, r: Request, reply: Reply, p: string)
    requires r.context.None? || p != PathOf(r)
    ensures var after := Step(hash, cfg, ms, r, reply).0;
            (p in after <==> p in ms) && (p in ms ==> after[p] == ms[p])
  {
  }

  lemma StepOwnsManifests(hash: Hash, cfg: Config, ms: Manifests, r: Request, reply: Reply)
    requires OwnManifests(ms)
    ensures OwnManifests(Step(hash, cfg, ms, r, reply).0)
  {
    var after := Step(hash, cfg, ms, r, reply).0;
    if Admitted(cfg, r) {
      var p, s := PathOf(r), SignatureOf(hash, r.context.value);
      assert p in after && (p !in ms || after[p] != ms[p]) ==> Pins(after[p], s);
    }
  }

  lemma {:induction false} RunOwnsManifests(hash: Hash, cfg: Config, events: seq<Event>)
    ensures OwnManifests(Run(hash, cfg, map[], events))
  {
    if events == [] {
    } else {
      var n := |events| - 1;
      RunOwnsManifests(hash, cfg, events[..n]);
      StepOwnsManifests(hash, cfg, Run(hash, cfg, map[], events[..n]), events[n].request, events[n].reply);
    }
  }

  /**
   After any run a manifest that is present decides alone: a well-formed process or finalize reaches the
   binary exactly when its signature is the manifest's, and a refused one changes no manifest.
   */
  lemma ManifestDecides(hash: Hash, cfg: Config, events: seq<Event>, r: Request, reply: Reply)
    requires Admitted(cfg, r) && r.action != LoadShard
    ensures var ms := Run(hash, cfg, map[], events);
            var (after, out) := Step(hash, cfg, ms, r, reply);
            PathOf(r) in ms ==>
              && (out.reached <==> Pins(ms[PathOf(r)], SignatureOf(hash, r.context.value)))
              && (!out.reached ==> after == ms && out.failure == Some(ContextDrift))
  {
    var ms := Run(hash, cfg, map[], events);
    RunOwnsManifests(hash, cfg, events);
    if PathOf(r) in ms {
      assert Owned(ms[PathOf(r)]);
      var s: Digest :| Pins(ms[PathOf(r)], s);
      GuardAtOneStep(hash, cfg, ms, r, reply, s);
    }
  }

  /** The event takes part in the session of workspace `p` and reached the binary. */
  predicate ReachedAt(hash: Hash, cfg: Config, events: seq<Event>, i: nat, p: string)
    requires i < |events|
  {
    events[i].request.context.Some? && PathOf(events[i].request) == p && OutcomeAt(hash, cfg, events, i).reached
  }

  /** The event left a manifest behind: a load the binary answered, or an accepted process. */
  predicate WroteAt(hash: Hash, cfg: Config, events: seq<Event>, i: nat, p: string)
    requires i < |events|
  {
    && ReachedAt(hash, cfg, events, i, p) && !events[i].reply.CallFailed?
    && (events[i].request.action == LoadShard
        || (events[i].request.action != Finalize && OutcomeAt(hash, cfg, events, i).failure.None?))
  }

  /** No load and no finalize of workspace `p` reached the binary strictly between `i` and `j`. */
  ghost predicate SameSession(hash: Hash, cfg: Config, events: seq<Event>, i: nat, j: nat, p: string)
    requires i < j < |events|
  {
    forall k :: i < k < j && ReachedAt(hash, cfg, events, k, p) ==>
      events[k].request.action != LoadShard && events[k].request.action != Finalize
  }

  lemma WriterPins(hash: Hash, cfg: Config, events: seq<Event>, i: nat, p: string)
    requires i < |events| && WroteAt(hash, cfg, events, i, p)
    ensures var after := Run(hash, cfg, map[], events[..i + 1]);
            p in after && Pins(after[p], SignatureOf(hash, events[i].request.context.value))
  {
    assert events[..i + 1][..i] == events[..i];
  }

  lemma {:induction false} PinLasts(hash: Hash, cfg: Config, events: seq<Event>, i: nat, j: nat, p: string, s: Digest)
    requires i < j < |events| && SameSession(hash, cfg, events, i, j, p)
    requires var ms := Run(hash, cfg, map[], events[..i + 1]); p in ms && Pins(ms[p], s)
    ensures var ms := Run(hash, cfg, map[], events[..j]); p in ms && Pins(ms[p], s)
    decreases j
  {
    if i + 1 < j {
      var k := j - 1;
      assert SameSession(hash, cfg, events, i, k, p);
      PinLasts(hash, cfg, events, i, k, p, s);
      var ms := Run(hash, cfg, map[], events[..k]);
      assert events[..j][..k] == events[..k] && events[..j][k] == events[k];
      assert Run(hash, cfg, map[], events[..j]) == Step(hash, cfg, ms, events[k].request, events[k].reply).0;
      PinLastsOneStep(hash, cfg, ms, events[k].request, events[k].reply, p, s);
      assert ReachedAt(hash, cfg, events, k, p) ==>
           events[k].request.action != LoadShard && events[k].request.action != Finalize;
    }
  }

  lemma PinLastsOneStep(hash: Hash, cfg: Config, ms: Manifests, r: Request, reply: Reply, p: string, s: Digest)
    requires p in ms && Pins(ms[p], s)
    ensures var (after, out) := Step(hash, cfg, ms, r, reply);
            (r.context.Some? && PathOf(r) == p && out.reached ==> r.action != LoadShard && r.action != Finalize) ==>
              p in after && Pins(after[p], s)
  {
    if r.context.None? || PathOf(r) != p {
      StepKeepsOthers(hash, cfg, ms, r, reply, p);
    } else if Admitted(cfg, r) {
      GuardAtOneStep(hash, cfg, ms, r, reply, s);
    }
  }

  /**
   Drift guard over runs: within one session of a workspace, every process or finalize that reaches the
   binary carries the signature of the request that wrote the manifest.
   */
  lemma SessionKeepsOneSignature(hash: Hash, cfg: Config, events: seq<Event>, i: nat, j: nat, p: string)
    requires i < j < |events| && SameSession(hash, cfg, events, i, j, p)
    requires WroteAt(hash, cfg, events, i, p)
    requires ReachedAt(hash, cfg, events, j, p) && events[j].request.action != LoadShard
    ensures SignatureOf(hash, events[j].request.context.value) == SignatureOf(hash, events[i].request.context.value)
  {
    var s := SignatureOf(hash, events[i].request.context.value);
    WriterPins(hash, cfg, events, i, p);
    PinLasts(hash, cfg, events, i, j, p, s);
    GuardAtOneStep(hash, cfg, Run(hash, cfg, map[], events[..j]), events[j].request, events[j].reply, s);
  }

  /** Both or neither, with one id, source, path, layer range and coverage. */
  predicate SameArtifact(a: Option<Artifact>, b: Option<Artifact>) {
    && (a.Some? <==> b.Some?)
    && (a.Some? ==>
          && CleanOrNone(a.value.artifactId) == CleanOrNone(b.value.artifactId)
          && CleanOrNone(a.value.source) == CleanOrNone(b.value.source)
          && CleanOrNone(a.value.localPath) == CleanOrNone(b.value.localPath)
          && OptInt(a.value.layerStart) == OptInt(b.value.layerStart)
          && OptInt(a.value.layerEnd) == OptInt(b.value.layerEnd)
          && a.value.coverage == b.value.coverage)
  }

  /** Both state chunk ranges, and the same mappings in them, or neither does. */
  predicate SameChunks(a: Option<Artifact>, b: Option<Artifact>) {
    a.Some? && b.Some? ==>
      && (a.value.chunkRanges.Items? <==> b.value.chunkRanges.Items?)
      && (a.value.chunkRanges.Items? && b.value.chunkRanges.Items? ==>
            MappingsOf(a.value.chunkRanges.items) == MappingsOf(b.value.chunkRanges.items))
  }

  /**
   What is signed: session, model, layer range and both artifacts, with the chunk ranges of the assignment only.
   Requests that agree in these, whatever else they differ in, sign alike, and no others do.
   */
  lemma SignedContextIsExact(c: Context, d: Context)
    ensures Signed(c) == Signed(d) <==>
              && Clean(c.sessionId) == Clean(d.sessionId) && Clean(c.modelId) == Clean(d.modelId)
              && OptInt(c.layerStart) == OptInt(d.layerStart) && OptInt(c.layerEnd) == OptInt(d.layerEnd)
              && SameArtifact(c.assignment, d.assignment) && SameArtifact(c.model, d.model)
              && SameChunks(c.assignment, d.assignment)
  {
  }

  /** Unless the two contexts collide, one signature means one session, model, layer range and artifact identity. */
  lemma SignatureDeterminesContext(hash: Hash, c: Context, d: Context)
    requires hash(Signed(c)) == hash(Signed(d)) ==> Signed(c) == Signed(d)
    requires SignatureOf(hash, c) == SignatureOf(hash, d)
    ensures Clean(c.sessionId) == Clean(d.sessionId) && Clean(c.modelId) == Clean(d.modelId)
    ensures OptInt(c.layerStart) == OptInt(d.layerStart) && OptInt(c.layerEnd) == OptInt(d.layerEnd)
    ensures SameArtifact(c.assignment, d.assignment) && SameArtifact(c.model, d.model)
    ensures c.assignment.Some? ==> StrictRanges(c.assignment.value) == StrictRanges(d.assignment.value)
  {
    assert Signed(c) == Signed(d);
    assert IdentityOf(c.assignment, true) == IdentityOf(d.assignment, true);
    assert IdentityOf(c.model, false) == IdentityOf(d.model, false);
    if c.assignment.Some? {
      MappingsParseAlike(c.assignment.value);
      MappingsParseAlike(d.assignment.value);
    }
  }

  lemma MappingsParseAlike(a: Artifact)
    ensures StrictRanges(a) == if a.chunkRanges.Items? then StrictItems(MappingsOf(a.chunkRanges.items)) else Ok([])
  {
    if a.chunkRanges.Items? { SkippingKeepsParse(a.chunkRanges.items); }
  }

  lemma {:induction false} SkippingKeepsParse(items: seq<ChunkItem>)
    ensures StrictItems(MappingsOf(items)) == StrictItems(items)
  {
    if items == [] {
    } else {
      SkippingKeepsParse(items[1..]);
      if items[0].Item? {
        assert MappingsOf(items)[1..] == MappingsOf(items[1..]);
      } else {
        assert MappingsOf(items) == MappingsOf(items[1..]);
      }
    }
  }
}
