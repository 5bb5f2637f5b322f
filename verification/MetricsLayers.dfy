/**
 The shard-only proof on its way up: each process puts its own entries around the metrics of the process below and
 hands them on with sorted keys, and the engine's verdict is still the one on the binary's own metrics.
 */
module MetricsLayers {
  import opened PyValue
  import opened MetricsProof
  import opened MetricsOrder

  // ---------------------------------------------------------------- wrapping

  /** A wrapper's own entry: a scalar that is neither a flag nor a marker. */
  predicate IsPlain(e: Entry) {
    e.value.Scalar? && !IsFlagKey(e.key) && !IsMarker(e)
  }

  ghost predicate AllPlain(es: seq<Entry>) { forall i :: 0 <= i < |es| ==> IsPlain(es[i]) }

  /** `Node(before + [Entry(key, inner)] + after)`: how each layer carries the metrics below it. */
  function Wrap(before: seq<Entry>, key: string, inner: Metric, after: seq<Entry>): Metric {
    Node(before + [Entry(key, inner)] + after)
  }

  /** A key under which inner metrics may be carried without disturbing the searches. */
  predicate IsCarrier(key: string) { !IsFlagKey(key) && !IsSlotKey(Strip(key)) && !IsModeKey(Strip(key)) }

  lemma {:induction false} PlainEntriesAreSilent(es: seq<Entry>, key: string)
    requires AllPlain(es) && IsFlagKey(key)
    ensures OwnBool(es, key).None? && NestedBoolEntries(es, key).None? && ReferenceInEntries(es).None?
  {
    if es == [] {
    } else {
      PlainEntriesAreSilent(es[1..], key);
    }
  }

  lemma {:induction false} WrapIsTransparent(before: seq<Entry>, carrier: string, inner: Metric, after: seq<Entry>,
                                             key: string)
    requires AllPlain(before) && AllPlain(after) && IsCarrier(carrier) && inner.Node? && IsFlagKey(key)
    ensures var es := before + [Entry(carrier, inner)] + after;
            && OwnBool(es, key).None? && NestedBoolEntries(es, key) == NestedBool(inner, key)
            && ReferenceInEntries(es) == ReferenceBackend(inner)
  {
    var es := before + [Entry(carrier, inner)] + after;
    if before == [] {
      assert es[1..] == after;
      PlainEntriesAreSilent(after, key);
    } else {
      assert es[1..] == before[1..] + [Entry(carrier, inner)] + after;
      assert es[0] == before[0] && IsPlain(before[0]);
      WrapIsTransparent(before[1..], carrier, inner, after, key);
    }
  }

  /** One layer of wrapping changes no search and no verdict. */
  lemma WrapKeepsVerdicts(before: seq<Entry>, carrier: string, inner: Metric, after: seq<Entry>)
    requires AllPlain(before) && AllPlain(after) && IsCarrier(carrier) && inner.Node?
    ensures SameAnswers(Wrap(before, carrier, inner, after), inner)
  {
    forall key | IsFlagKey(key) ensures NestedBool(Wrap(before, carrier, inner, after), key) == NestedBool(inner, key) {
      WrapIsTransparent(before, carrier, inner, after, key);
    }
    assert IsFlagKey(SHARD_ONLY_READY);
    WrapIsTransparent(before, carrier, inner, after, SHARD_ONLY_READY);
  }

  ghost predicate SameAnswers(a: Metric, b: Metric) {
    && (forall key :: IsFlagKey(key) ==> NestedBool(a, key) == NestedBool(b, key))
    && ReferenceBackend(a) == ReferenceBackend(b)
  }

  // ---------------------------------------------------------------- the whole way up

  /** One process on the way up: its own entries around the metrics of the process below. */
  datatype Layer = Layer(before: seq<Entry>, carrier: string, after: seq<Entry>)

  ghost predicate PlainLayer(l: Layer) { AllPlain(l.before) && AllPlain(l.after) && IsCarrier(l.carrier) }

  /** The metrics as the topmost process sees them; every hop between processes sorts the keys. */
  function Up(inner: Metric, layers: seq<Layer>): Metric {
    if layers == [] then inner
    else
      var top := layers[|layers| - 1];
      Wrap(top.before, top.carrier, SortKeys(Up(inner, layers[..|layers| - 1])), top.after)
  }

  /** The keys of a layer, its carrier among them, are distinct. */
  ghost predicate DistinctLayer(l: Layer) { Distinct(l.before + [Entry(l.carrier, Scalar(Null))] + l.after) }

  ghost predicate GoodLayer(l: Layer) { PlainLayer(l) && DistinctLayer(l) }

  /** One tree per mapping key, and no flag that depends on the order of the keys. */
  ghost predicate Unambiguous(m: Metric) {
    UniqueKeys(m) && forall key :: IsFlagKey(key) ==> Settled(m, key)
  }

  /** The same answers to every question the verdicts ask. */
  ghost predicate SameProof(a: Metric, b: Metric) {
    && (forall key :: IsFlagKey(key) ==> NestedBool(a, key) == NestedBool(b, key))
    && (ReferenceBackend(a).None? <==> ReferenceBackend(b).None?)
  }

  lemma SortingKeepsProof(m: Metric)
    requires Unambiguous(m)
    ensures Unambiguous(SortKeys(m)) && SameProof(SortKeys(m), m)
  {
    SortKeysReorders(m);
    forall key | IsFlagKey(key)
      ensures NestedBool(SortKeys(m), key) == NestedBool(m, key) && Settled(SortKeys(m), key)
    {
      OrderDoesNotMatter(m, SortKeys(m), key);
    }
    ReorderingKeepsUnique(m, SortKeys(m));
    ReorderingKeepsMarkers(m, SortKeys(m));
    ReferenceSearchIsExact(m);
    ReferenceSearchIsExact(SortKeys(m));
  }

  lemma {:induction false} PlainLeads(es: seq<Entry>, key: string)
    requires AllPlain(es) && IsFlagKey(key)
    ensures OwnSet(es, key) == {} && LeadingOf(es, key) == {}
  {
    if es == [] {
    } else {
      assert IsPlain(es[0]);
      PlainLeads(es[1..], key);
    }
  }

  lemma {:induction false} WrapLeads(before: seq<Entry>, carrier: string, inner: Metric, after: seq<Entry>, key: string)
    requires AllPlain(before) && AllPlain(after) && IsCarrier(carrier) && inner.Node? && IsFlagKey(key)
    ensures var es := before + [Entry(carrier, inner)] + after;
            OwnSet(es, key) == {} && LeadingOf(es, key) == Leading(inner, key)
  {
    var es := before + [Entry(carrier, inner)] + after;
    if before == [] {
      assert es[1..] == after;
      PlainLeads(after, key);
    } else {
      assert es[1..] == before[1..] + [Entry(carrier, inner)] + after;
      assert es[0] == before[0] && IsPlain(before[0]);
      WrapLeads(before[1..], carrier, inner, after, key);
    }
  }

  /** Distinctness is about keys only. */
  lemma {:induction false} SameKeysDistinct(es: seq<Entry>, fs: seq<Entry>)
    requires |es| == |fs| && (forall i :: 0 <= i < |es| ==> es[i].key == fs[i].key) && Distinct(es)
    ensures Distinct(fs)
    ensures forall k :: Lacks(es, k) ==> Lacks(fs, k)
  {
    if es == [] {
    } else {
      SameKeysDistinct(es[1..], fs[1..]);
      forall k | Lacks(es, k) ensures Lacks(fs, k) {
        assert Lacks(es[1..], k) && es[0] in es;
        assert forall e :: e in fs <==> e == fs[0] || e in fs[1..];
      }
    }
  }

  lemma WrapIsUnique(l: Layer, inner: Metric)
    requires PlainLayer(l) && DistinctLayer(l) && UniqueKeys(inner)
    ensures UniqueKeys(Wrap(l.before, l.carrier, inner, l.after))
  {
    var es := l.before + [Entry(l.carrier, inner)] + l.after;
    SameKeysDistinct(l.before + [Entry(l.carrier, Scalar(Null))] + l.after, es);
    forall e | e in es ensures UniqueKeys(e.value) {
      if e in l.before { var i :| 0 <= i < |l.before| && l.before[i] == e; assert IsPlain(l.before[i]); }
      if e in l.after { var i :| 0 <= i < |l.after| && l.after[i] == e; assert IsPlain(l.after[i]); }
    }
  }

  lemma WrapKeepsProof(l: Layer, inner: Metric)
    requires PlainLayer(l) && DistinctLayer(l) && inner.Node? && Unambiguous(inner)
    ensures var m := Wrap(l.before, l.carrier, inner, l.after); Unambiguous(m) && SameProof(m, inner)
  {
    WrapKeepsVerdicts(l.before, l.carrier, inner, l.after);
    WrapIsUnique(l, inner);
    forall key | IsFlagKey(key) ensures Settled(Wrap(l.before, l.carrier, inner, l.after), key) {
      WrapLeads(l.before, l.carrier, inner, l.after, key);
    }
  }

  /**
   Proof preservation: through any number of wrapping layers and key-sorting hops, the top-level metrics prove
   what the innermost binary's metrics prove.
   */
  lemma {:induction false} ProofSurvivesWrapping(inner: Metric, layers: seq<Layer>)
    requires inner.Node? && Unambiguous(inner)
    requires forall i :: 0 <= i < |layers| ==> GoodLayer(layers[i])
    ensures Up(inner, layers).Node? && Unambiguous(Up(inner, layers)) && SameProof(Up(inner, layers), inner)
    ensures ProvesShardOnly(Up(inner, layers)) <==> ProvesShardOnly(inner)
    ensures BinaryProvesShardOnly(Up(inner, layers)) <==> BinaryProvesShardOnly(inner)
  {
    if layers == [] {
    } else {
      var n := |layers| - 1;
      var below := Up(inner, layers[..n]);
      ProofSurvivesWrapping(inner, layers[..n]);
      SortingKeepsProof(below);
      assert GoodLayer(layers[n]);
      WrapKeepsProof(layers[n], SortKeys(below));
    }
    assert IsFlagKey(USED_FULL_MODEL) && IsFlagKey(SHARD_ONLY_READY) && IsFlagKey(ASSIGNMENT_PRESENT);
  }

  // ---------------------------------------------------------------- what the processes put around the metrics

  function ModeName(persistent: bool): string { if persistent then "persistent_jsonl" else "subprocess_per_request" }

  datatype ExecutorFacts = ExecutorFacts(
    command: string, persistent: bool, realLayers: bool, shardOnly: bool, realModel: bool, realLayer: bool,
    manifestPath: string, pid: int, count: int)

  /** The binary executor's own entries, then the binary's metrics. */
  function ExecutorLayer(x: ExecutorFacts): Layer {
    Layer([Entry("engineBackendMode", Scalar(Text("patched_binary_executor"))),
           Entry("engineBackendVersion", Scalar(Text("patched-binary-executor/0.1"))),
           Entry("patchedBinaryCommand", Scalar(Text(x.command))),
           Entry("patchedBinaryMode", Scalar(Text(ModeName(x.persistent)))),
           Entry("binaryRequestAbi", Scalar(Text("cai-llama-cpp-patched-binary-request-v1"))),
           Entry("requireRealLayerExecution", Scalar(Bool(x.realLayers))),
           Entry("requireShardOnlyLoading", Scalar(Bool(x.shardOnly))),
           Entry("realModelExecution", Scalar(Bool(x.realModel))),
           Entry("realLayerExecution", Scalar(Bool(x.realLayer))),
           Entry("sessionManifestPath", Scalar(Text(x.manifestPath))),
           Entry("engineProcessId", Scalar(Num(x.pid))),
           Entry("engineProcessRequestCount", Scalar(Num(x.count)))],
          "patchedBinaryMetrics", [])
  }

  /** What the host says about the input it read; nothing for a load or a finalize. */
  datatype HostInput =
    | NoInput
    | RawInput(sha: string, size: int, path: string)
    | StateInput(sha: string, size: int, path: string, kind: string, format: string, fileBytes: int, filePath: string)

  /** What the host says about the state it accepted as output. */
  datatype HostState = HostState(kind: string, format: string, fileBytes: int, filePath: string)

  datatype HostFacts = HostFacts(command: string, persistent: bool, input: HostInput, state: Option<HostState>)

  function PayloadEntries(sha: string, size: int, path: string, payloadKind: string): seq<Entry> {
    [Entry("inputPayloadSha256Hex", Scalar(Text(sha))),
     Entry("inputPayloadSizeBytes", Scalar(Num(size))),
     Entry("inputPayloadPath", Scalar(Text(path))),
     Entry("engineInputPayloadKind", Scalar(Text(payloadKind)))]
  }

  function InputStateEntries(kind: string, format: string, fileBytes: int, filePath: string): seq<Entry> {
    [Entry("validatedInputStateKind", Scalar(Text(kind))),
     Entry("validatedInputStateFormat", Scalar(Text(format))),
     Entry("validatedInputStateFileBytes", Scalar(Num(fileBytes))),
     Entry("validatedInputStateFilePath", Scalar(Text(filePath)))]
  }

  /** The host's preflight entries. */
  function InputEntries(input: HostInput): seq<Entry> {
    match input
    case NoInput => []
    case RawInput(sha, size, path) => PayloadEntries(sha, size, path, "raw_bytes")
    case StateInput(sha, size, path, kind, format, fileBytes, filePath) =>
      PayloadEntries(sha, size, path, "real_state_manifest") + InputStateEntries(kind, format, fileBytes, filePath)
  }

  /** The host's entries about a validated state. */
  function StateEntries(state: Option<HostState>): seq<Entry> {
    if state.None? then []
    else
      [Entry("validatedStateKind", Scalar(Text(state.value.kind))),
       Entry("validatedStateFormat", Scalar(Text(state.value.format))),
       Entry("validatedStateFileBytes", Scalar(Num(state.value.fileBytes))),
       Entry("validatedStateFilePath", Scalar(Text(state.value.filePath)))]
  }

  function HostOwn(x: HostFacts): seq<Entry> {
    [Entry("executorBackendMode", Scalar(Text("patched_executor_host"))),
     Entry("executorBackendVersion", Scalar(Text("patched-executor-host/0.1"))),
     Entry("patchedEngineCommand", Scalar(Text(x.command))),
     Entry("patchedEngineMode", Scalar(Text(ModeName(x.persistent))))]
  }

  /** The executor host's own entries, the executor's metrics, and what the host read and accepted. */
  function HostLayer(x: HostFacts): Layer {
    Layer(HostOwn(x), "patchedEngineMetrics", InputEntries(x.input) + StateEntries(x.state))
  }

  datatype EngineFacts = EngineFacts(
    command: string, persistent: bool, lifecycle: bool, outcome: string, realModel: Option<bool>,
    reference: Option<string>)

  function CallEntries(x: EngineFacts): seq<Entry> {
    [Entry("assignmentExecutorUsed", Scalar(Bool(true))),
     Entry("assignmentExecutorCommand", Scalar(Text(x.command))),
     Entry("assignmentExecutorMode", Scalar(Text(ModeName(x.persistent))))]
  }

  function OutcomeEntries(x: EngineFacts): seq<Entry> {
    [Entry(if x.lifecycle then "assignmentExecutorStatus" else "assignmentExecutorOutputKind", Scalar(Text(x.outcome)))]
  }

  function RealEntries(x: EngineFacts): seq<Entry> {
    if x.realModel.None? then []
    else [Entry("assignmentExecutorRealModelExecution", Scalar(Bool(x.realModel.value)))]
  }

  function ReferenceEntries(x: EngineFacts): seq<Entry> {
    if x.reference.None? then []
    else [Entry("assignmentExecutorReferenceBackend", Scalar(Text(x.reference.value)))]
  }

  /** The engine's own entries, a reference backend by name among them if there is one, then the host's metrics. */
  function EngineLayer(x: EngineFacts): Layer {
    Layer(CallEntries(x) + OutcomeEntries(x) + RealEntries(x) + ReferenceEntries(x), "assignmentExecutorMetrics", [])
  }

  // ---------------------------------------------------------------- the keys of the real layers

  const EXECUTOR_KEYS := [
    "engineBackendMode", "engineBackendVersion", "patchedBinaryCommand", "patchedBinaryMode", "binaryRequestAbi",
    "requireRealLayerExecution", "requireShardOnlyLoading", "realModelExecution", "realLayerExecution",
    "sessionManifestPath", "engineProcessId", "engineProcessRequestCount", "patchedBinaryMetrics"]

  const HOST_KEYS := [
    "executorBackendMode", "executorBackendVersion", "patchedEngineCommand", "patchedEngineMode",
    "patchedEngineMetrics",
    "inputPayloadSha256Hex", "inputPayloadSizeBytes", "inputPayloadPath", "engineInputPayloadKind",
    "validatedInputStateKind", "validatedInputStateFormat", "validatedInputStateFileBytes",
    "validatedInputStateFilePath",
    "validatedStateKind", "validatedStateFormat", "validatedStateFileBytes", "validatedStateFilePath"]

  const ENGINE_KEYS := [
    "assignmentExecutorUsed", "assignmentExecutorCommand", "assignmentExecutorMode", "assignmentExecutorStatus",
    "assignmentExecutorOutputKind", "assignmentExecutorRealModelExecution", "assignmentExecutorReferenceBackend",
    "assignmentExecutorMetrics"]

  predicate NoRepeat(keys: seq<string>) { forall i, j :: 0 <= i < j < |keys| ==> keys[i] != keys[j] }

  ghost predicate TrimmedRest(keys: seq<string>) { forall i :: 1 <= i < |keys| ==> Trimmed(keys[i]) }

  ghost predicate NoFlagRest(keys: seq<string>) { forall i :: 1 <= i < |keys| ==> !IsFlagKey(keys[i]) }

  ghost predicate NoSlotRest(keys: seq<string>) { forall i :: 1 <= i < |keys| ==> !IsSlotKey(keys[i]) }

  ghost predicate NoModeRest(keys: seq<string>) { forall i :: 1 <= i < |keys| ==> !IsModeKey(keys[i]) }

  /** After the first key, that of the backend mode in two of the layers, no search looks at these keys. */
  ghost predicate SilentRest(keys: seq<string>) {
    TrimmedRest(keys) && NoFlagRest(keys) && NoSlotRest(keys) && NoModeRest(keys)
  }

  predicate IsLower(c: char) { 'a' <= c <= 'z' }

  /** The keys begin and end with a lower-case letter. */
  ghost predicate LowerEnds(keys: seq<string>) {
    forall i :: 0 <= i < |keys| ==> keys[i] != "" && IsLower(keys[i][0]) && IsLower(keys[i][|keys[i]| - 1])
  }

  lemma KeysHaveLowerEnds()
    ensures LowerEnds(EXECUTOR_KEYS) && LowerEnds(HOST_KEYS) && LowerEnds(ENGINE_KEYS)
  {
  }

  lemma LowerEndsAreTrimmed(keys: seq<string>)
    requires LowerEnds(keys)
    ensures TrimmedRest(keys)
  {
  }

  lemma KeysAreNoFlags()
    ensures NoFlagRest(EXECUTOR_KEYS) && NoFlagRest(HOST_KEYS) && NoFlagRest(ENGINE_KEYS)
  {
  }

  lemma KeysAreNoSlots()
    ensures NoSlotRest(EXECUTOR_KEYS) && NoSlotRest(HOST_KEYS) && NoSlotRest(ENGINE_KEYS)
  {
  }

  lemma KeysAreNoModes()
    ensures NoModeRest(EXECUTOR_KEYS) && NoModeRest(HOST_KEYS) && NoModeRest(ENGINE_KEYS)
  {
  }

  lemma KeysDiffer()
    ensures NoRepeat(EXECUTOR_KEYS) && NoRepeat(HOST_KEYS) && NoRepeat(ENGINE_KEYS)
  {
  }

  ghost predicate GoodKeys(keys: seq<string>) { NoRepeat(keys) && SilentRest(keys) }

  lemma KeysAreGood()
    ensures GoodKeys(EXECUTOR_KEYS) && GoodKeys(HOST_KEYS) && GoodKeys(ENGINE_KEYS)
  {
    KeysHaveLowerEnds();
    LowerEndsAreTrimmed(EXECUTOR_KEYS);
    LowerEndsAreTrimmed(HOST_KEYS);
    LowerEndsAreTrimmed(ENGINE_KEYS);
    KeysAreNoFlags();
    KeysAreNoSlots();
    KeysAreNoModes();
    KeysDiffer();
  }

  /** The keys of a layer in which the optional part from `i` to `j` is missing. */
  function Without(keys: seq<string>, i: nat, j: nat): seq<string>
    requires i <= j <= |keys|
  {
    keys[..i] + keys[j..]
  }

  lemma WithoutKeeps(keys: seq<string>, i: nat, j: nat)
    requires 1 <= i <= j <= |keys| && GoodKeys(keys)
    ensures GoodKeys(Without(keys, i, j))
  {
  }

  /** A layer's entries with nothing in its carrier. */
  function Entries(l: Layer): seq<Entry> { l.before + [Entry(l.carrier, Scalar(Null))] + l.after }

  ghost predicate Keyed(es: seq<Entry>, keys: seq<string>) {
    |es| == |keys| && forall i :: 0 <= i < |es| ==> es[i].key == keys[i] && es[i].value.Scalar?
  }

  lemma KeyedConcat(es: seq<Entry>, fs: seq<Entry>, s: seq<string>, t: seq<string>)
    requires Keyed(es, s) && Keyed(fs, t)
    ensures Keyed(es + fs, s + t)
  {
  }

  lemma {:induction false} KeyedIsDistinct(es: seq<Entry>, keys: seq<string>)
    requires Keyed(es, keys) && NoRepeat(keys)
    ensures Distinct(es)
  {
    if es == [] {
    } else {
      KeyedIsDistinct(es[1..], keys[1..]);
      forall e | e in es[1..] ensures e.key != es[0].key {
        var i :| 0 <= i < |es[1..]| && es[1..][i] == e;
        assert es[i + 1] == e && keys[i + 1] != keys[0];
      }
    }
  }

  lemma SilentIsPlain(e: Entry)
    requires e.value.Scalar? && Trimmed(e.key) && !IsFlagKey(e.key) && !IsSlotKey(e.key) && !IsModeKey(e.key)
    ensures IsPlain(e)
  {
  }

  /** A layer is good if its keys are distinct and, after its first entry, say nothing to the searches. */
  lemma KeyedLayerIsGood(l: Layer, keys: seq<string>)
    requires l.before != [] && IsPlain(l.before[0])
    requires Keyed(Entries(l), keys) && GoodKeys(keys)
    ensures PlainLayer(l) && DistinctLayer(l)
  {
    var n := |l.before|;
    KeyedIsDistinct(Entries(l), keys);
    forall i | 1 <= i < n ensures IsPlain(l.before[i]) {
      assert Entries(l)[i] == l.before[i];
      SilentIsPlain(l.before[i]);
    }
    forall i | 0 <= i < |l.after| ensures IsPlain(l.after[i]) {
      assert Entries(l)[n + 1 + i] == l.after[i];
      SilentIsPlain(l.after[i]);
    }
    assert Entries(l)[n].key == l.carrier == keys[n];
  }

  lemma ModeEntryIsPlain(key: string, mode: string)
    requires Trimmed(key) && !IsFlagKey(key) && !IsSlotKey(key) && Trimmed(mode) && !IsReferenceMode(mode)
    ensures IsPlain(Entry(key, Scalar(Text(mode))))
  {
  }

  lemma ExecutorEntriesKeyed(x: ExecutorFacts)
    ensures Keyed(Entries(ExecutorLayer(x)), EXECUTOR_KEYS)
  {
  }

  /** The executor's entries carry no flag and no marker and have distinct keys, whatever its configuration. */
  lemma ExecutorLayerIsGood(x: ExecutorFacts)
    ensures GoodLayer(ExecutorLayer(x))
  {
    KeysAreGood();
    ExecutorEntriesKeyed(x);
    ModeEntryIsPlain("engineBackendMode", "patched_binary_executor");
    KeyedLayerIsGood(ExecutorLayer(x), EXECUTOR_KEYS);
  }

  lemma HostOwnKeyed(x: HostFacts)
    ensures Keyed(HostOwn(x) + [Entry("patchedEngineMetrics", Scalar(Null))], HOST_KEYS[..5])
  {
  }

  /** Where the keys of the input part end. */
  function InputEnd(input: HostInput): nat {
    match input
    case NoInput => 5
    case RawInput(_, _, _) => 9
    case StateInput(_, _, _, _, _, _, _) => 13
  }

  lemma InputKeyed(input: HostInput)
    ensures Keyed(InputEntries(input), HOST_KEYS[5..InputEnd(input)])
  {
  }

  function StateStart(state: Option<HostState>): nat { if state.Some? then 13 else 17 }

  lemma StateKeyed(state: Option<HostState>)
    ensures Keyed(StateEntries(state), HOST_KEYS[StateStart(state)..])
  {
  }

  lemma HostEntriesKeyed(x: HostFacts, i: nat, j: nat)
    requires i == InputEnd(x.input) && j == StateStart(x.state)
    ensures Keyed(Entries(HostLayer(x)), Without(HOST_KEYS, i, j))
  {
    var own := HostOwn(x) + [Entry("patchedEngineMetrics", Scalar(Null))];
    var input, state := InputEntries(x.input), StateEntries(x.state);
    HostOwnKeyed(x);
    InputKeyed(x.input);
    StateKeyed(x.state);
    KeyedConcat(own, input, HOST_KEYS[..5], HOST_KEYS[5..i]);
    KeyedConcat(own + input, state, HOST_KEYS[..5] + HOST_KEYS[5..i], HOST_KEYS[j..]);
    assert own + input + state == Entries(HostLayer(x));
    assert HOST_KEYS[..5] + HOST_KEYS[5..i] + HOST_KEYS[j..] == Without(HOST_KEYS, i, j);
  }

  /** The host's entries carry no flag and no marker and have distinct keys, whatever it read and accepted. */
  lemma HostLayerIsGood(x: HostFacts)
    ensures GoodLayer(HostLayer(x))
  {
    var i, j := InputEnd(x.input), StateStart(x.state);
    HostEntriesKeyed(x, i, j);
    KeysAreGood();
    WithoutKeeps(HOST_KEYS, i, j);
    HostModeIsPlain(x);
    KeyedLayerIsGood(HostLayer(x), Without(HOST_KEYS, i, j));
  }

  lemma HostModeIsPlain(x: HostFacts)
    ensures IsPlain(HostOwn(x)[0])
  {
    ModeEntryIsPlain("executorBackendMode", "patched_executor_host");
  }

  /** The engine's keys: one of the two outcome keys, and the optional ones that are there. */
  function EngineKeysOf(keys: seq<string>, lifecycle: bool, realModel: bool, reference: bool): seq<string>
    requires |keys| == 8
  {
    keys[..3] + [keys[if lifecycle then 3 else 4]] + (if realModel then [keys[5]] else [])
    + (if reference then [keys[6]] else []) + [keys[7]]
  }

  lemma SomeKeysAreGood(keys: seq<string>, lifecycle: bool, realModel: bool, reference: bool)
    requires |keys| == 8 && GoodKeys(keys)
    ensures GoodKeys(EngineKeysOf(keys, lifecycle, realModel, reference))
  {
    var i := if lifecycle then 4 else 3;
    var one := Without(keys, i, i + 1);
    var two := if realModel then one else Without(one, 4, 5);
    var n := |two| - 2;
    WithoutKeeps(keys, i, i + 1);
    WithoutKeeps(one, 4, 5);
    WithoutKeeps(two, n, n + 1);
    UnusedKeysDropped(keys, lifecycle, realModel, reference, one, two);
  }

  lemma UnusedKeysDropped(keys: seq<string>, lifecycle: bool, realModel: bool, reference: bool, one: seq<string>,
                          two: seq<string>)
    requires |keys| == 8 && one == if lifecycle then Without(keys, 4, 5) else Without(keys, 3, 4)
    requires two == if realModel then one else Without(one, 4, 5)
    ensures EngineKeysOf(keys, lifecycle, realModel, reference) ==
              if reference then two else Without(two, |two| - 2, |two| - 1)
  {
    assert one == keys[..3] + [keys[if lifecycle then 3 else 4]] + [keys[5], keys[6], keys[7]];
    assert two == keys[..3] + [keys[if lifecycle then 3 else 4]] + (if realModel then [keys[5]] else [])
                  + [keys[6], keys[7]];
  }

  lemma CallKeyed(x: EngineFacts)
    ensures Keyed(CallEntries(x), ENGINE_KEYS[..3])
    ensures Keyed(OutcomeEntries(x), [ENGINE_KEYS[if x.lifecycle then 3 else 4]])
  {
  }

  lemma OptionalKeyed(x: EngineFacts)
    ensures Keyed(RealEntries(x), if x.realModel.Some? then [ENGINE_KEYS[5]] else [])
    ensures Keyed(ReferenceEntries(x), if x.reference.Some? then [ENGINE_KEYS[6]] else [])
  {
  }

  lemma EngineEntriesKeyed(x: EngineFacts)
    ensures Keyed(Entries(EngineLayer(x)), EngineKeysOf(ENGINE_KEYS, x.lifecycle, x.realModel.Some?, x.reference.Some?))
  {
    var s, t := ENGINE_KEYS[..3], [ENGINE_KEYS[if x.lifecycle then 3 else 4]];
    var u := if x.realModel.Some? then [ENGINE_KEYS[5]] else [];
    var v := if x.reference.Some? then [ENGINE_KEYS[6]] else [];
    CallKeyed(x);
    OptionalKeyed(x);
    KeyedConcat(CallEntries(x), OutcomeEntries(x), s, t);
    KeyedConcat(CallEntries(x) + OutcomeEntries(x), RealEntries(x), s + t, u);
    KeyedConcat(CallEntries(x) + OutcomeEntries(x) + RealEntries(x), ReferenceEntries(x), s + t + u, v);
    KeyedConcat(EngineLayer(x).before, [Entry("assignmentExecutorMetrics", Scalar(Null))], s + t + u + v,
                [ENGINE_KEYS[7]]);
    assert Entries(EngineLayer(x)) == EngineLayer(x).before + [Entry("assignmentExecutorMetrics", Scalar(Null))];
  }

  lemma CallIsPlain(x: EngineFacts)
    ensures IsPlain(CallEntries(x)[0])
  {
    SilentIsPlain(CallEntries(x)[0]);
  }

  /** The engine's entries carry no flag and no marker and have distinct keys, also with a reference backend. */
  lemma EngineLayerIsGood(x: EngineFacts)
    ensures GoodLayer(EngineLayer(x))
  {
    KeysAreGood();
    SomeKeysAreGood(ENGINE_KEYS, x.lifecycle, x.realModel.Some?, x.reference.Some?);
    EngineEntriesKeyed(x);
    CallIsPlain(x);
    KeyedLayerIsGood(EngineLayer(x),
                     EngineKeysOf(ENGINE_KEYS, x.lifecycle, x.realModel.Some?, x.reference.Some?));
  }

  // ---------------------------------------------------------------- the real stack

  ghost predicate SameVerdicts(a: Metric, b: Metric) {
    && SameProof(a, b)
    && (ProvesShardOnly(a) <==> ProvesShardOnly(b))
    && (BinaryProvesShardOnly(a) <==> BinaryProvesShardOnly(b))
  }

  lemma ThreeLayers(binary: Metric, a: Layer, b: Layer, c: Layer)
    requires binary.Node? && Unambiguous(binary) && GoodLayer(a) && GoodLayer(b) && GoodLayer(c)
    ensures SameVerdicts(Up(binary, [a, b, c]), binary)
  {
    ProofSurvivesWrapping(binary, [a, b, c]);
  }

  /** The metrics the engine judges: the binary's, wrapped by executor, host and engine. */
  function EngineMetrics(binary: Metric, x: ExecutorFacts, y: HostFacts, z: EngineFacts): Metric {
    Up(binary, [ExecutorLayer(x), HostLayer(y), EngineLayer(z)])
  }

  /** The engine's verdict on the metrics that reach it is the verdict on the binary's own metrics. */
  lemma StackKeepsProof(binary: Metric, x: ExecutorFacts, y: HostFacts, z: EngineFacts)
    requires binary.Node? && Unambiguous(binary)
    ensures SameVerdicts(EngineMetrics(binary, x, y, z), binary)
  {
    ExecutorLayerIsGood(x);
    HostLayerIsGood(y);
    EngineLayerIsGood(z);
    ThreeLayers(binary, ExecutorLayer(x), HostLayer(y), EngineLayer(z));
  }
}
