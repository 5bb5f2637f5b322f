# Shard execution stack: model and proofs

A Dafny model of how the CAI compute chain runs one shard of a language model, and of what that stack
promises over whole runs. A request travels from the shard-native bridge through the assignment-artifact
engine, the patched executor host and the patched binary executor down to the reference patched binary; an
activation or decode state travels back up and on to the next stage. The model covers the contracts at
each hop, the state each process keeps between requests, and the codecs on the way.

| file | models |
|---|---|
| `PyValue.dfy` | raw JSON values and the Python coercions applied to them; hashing, encoding and path resolution as parameters |
| `ArtifactContract.dfy` | the strict chunk-range parser, the coverage resolver, the layer-coverage sweep |
| `ChunkWindows.dfy` | the engine's lenient parser, the two window-digest loops, the prepared shard window |
| `CoverageProducer.dfy` | the bridge's chunk ranges and coverage payload |
| `RequestSections.dfy` | request fields looked up in `shardSpec` and `frame` |
| `AssignmentEngine.dfy` | the engine's session and resident caches |
| `EngineSessions.dfy` | every answer of the engine in terms of the calls before it |
| `Receipts.dfy` | building and validating native-execution receipts |
| `MetricsProof.dfy` | the searches over metrics trees and the verdicts drawn from them |
| `MetricsOrder.dfy` | metrics in different key orders, and the key sorting of every process hop |
| `MetricsLayers.dfy` | the entries that executor, host and engine put around the metrics below them |
| `EngineReceipts.dfy` | the engine's receipt from executor metrics to the bridge's validator |
| `Handoff.dfy` | real-state manifests and the host's hand-off rules over pipelines |
| `DriftGuard.dfy` | the patched binary executor's session manifest |
| `ReferenceSession.dfy`, `ReferenceBinary.dfy` | the reference binary: its stored sessions and its four requests |
| `LoadedShards.dfy`, `BinaryAnswers.dfy` | what a load leaves on disk, which requests are answered and with what |
| `ReferenceRuns.dfy`, `RestartTransparency.dfy` | runs with restarts: memory implies an equal disk record |
| `VisibleRestarts.dfy` | which requests tell a restarted run from an unbroken one once a condition is dropped |
| `ReferenceSafety.dfy` | what an accepted decode implies about the run before it |
| `SlotDiscipline.dfy` | the run that shows why a session must keep to one slot |
| `ReferenceChains.dfy`, `HostChains.dfy` | decode chains across binary and host |
| `ExampleHost.dfy`, `ExampleRuns.dfy` | a host that meets every assumption about runs, and two runs on it |
| `PayloadCodec.dfy` | the chunked base64 payload codec of the transport |
| `BatchLease.dfy` | batch leases, runtime claims and timeout marks |
| `BoxedAnswer.dfy` | extraction of boxed answers in the evaluation harness |

Objects that the source updates in place are classes (`AssignmentEngine.Engine`, `DriftGuard.Executor`,
`ReferenceBinary.Binary`, `BatchLease.Batch`); each method is proved equal to a step function on values, and
the theorems over runs are about those functions. Loops are methods with invariants, proved against a
function or a property.

Documents are records with one raw value per key that the code reads; an absent key is `Null`. The host is a
parameter: SHA-256, UTF-8, `Path.resolve`, gzip, JSON text and file naming are functions about which only
what a lemma needs is assumed (a document the binary writes is read back, resolving twice is resolving once,
the names of the binary's own files have no outer white space, files of different sessions have different
names, two given contents do not collide). `SoundHostExists` gives a host that meets all of it and on which
paths keep their blanks. No lemma assumes that a hash has no collisions at all. A `Plan` gives every session id one slot (workspace, model id and layer bounds);
ids that a run never uses may be given workspaces of their own, so distinct names can always be had.

Where the code falls short of a tempting statement, the model keeps the code and says exactly when the
statement holds:

- A cache hit agrees with a fresh resolution if and only if the requested path, spelled with its outer white
  space, means the cached path (keys strip it, a fresh resolution does not, and a blank one is compared with
  nothing), and a request without chunk ranges meets a context without any (`CacheIsTransparent`,
  `PaddedPathDisagrees`).
- The bridge reads the shard-only flags with `bool()`, the engine with its word list, so the number 2 passes
  the bridge and does not bind the engine; a receipt that names the model is out of reach if and only if not
  both flags are of that sort or no model artifact is usable (`ModelReceiptOutOfReach`,
  `LaxFlagsPassTheBridgeOnly`).
- A flag is found the same in every order of the keys if and only if no two different values of it can come
  first; a flag whose occurrences agree is of that sort (`OrderIsIrrelevantIff`, `AgreeingFlagsAreSettled`,
  `SortingCanFlipRepeatedFlag`).
- A prefill that is refused for its output kind or targets has already replaced the receipt
  (`PrefillAcceptedIffAnswerable`, `RefusedPrefillSupersedes`).
- Restarts are invisible to requests that name a workspace, load artifacts whose path reads back and read no
  manifest of a state as input (`RestartsAreInvisible`). Without these conditions: a process request
  without a workspace is answered from memory only, so it always tells (`NoWorkspaceShowsRestart`). A shard
  whose resolved path ends in white space is found again after a restart if and only if stripping and
  resolving the path leads back to it (`UnkeptPathShowsRestart`, `BlankPathShowsRestart`). A state's manifest
  names where the context was found, and a request that reads it tells the two runs apart if and only if its
  stated size or hash judges the contents differently, or both pass and it is a prefill or a decode that puts
  out a state; a final-output decode without size and hash cannot tell (`ManifestReadersSeeRestarts`).
- A session must keep to one workspace, model and layer range: a session id loaded for two shards can be
  finalized through the wrong one, and then a decode is accepted that no prefill since the finalize backs
  (`UnbackedDecodeIsAccepted`, `UnbackedDecodeExists`).
- A receipt is accepted if and only if it confirms the patched backend, its fallback is none, empty or
  `full_model` (a blank one such as two spaces is refused), and the resolved path it states reads back after
  stripping (`BuiltReceiptIsAccepted`, `PaddedReceiptIsRefused`).
- `coveredByteCount` is a sum of sizes; it is the number of distinct covered bytes if and only if no two
  ranges overlap, and nothing is compared with it where there are no ranges (`DisjointRangesCountBytes`,
  `OverlapIsCountedTwice`, `UnrangedCountIsUnchecked`).

## Model

| member | source | states |
|---|---|---|
| ArtifactContract.ResolveChunkRanges | src/cai_compute_chain/cai_llama_cpp_native_engine_contract.py:212-262 | the append loop returns the strict parse: every mapping item in order, or the first item's error |
| ArtifactContract.StrictItem | src/cai_compute_chain/cai_llama_cpp_native_engine_contract.py:223-261 | an accepted range has positive size, a trimmed id, and both layer bounds in order or neither |
| ArtifactContract.ResolveCoverage | src/cai_compute_chain/cai_llama_cpp_native_engine_contract.py:129-209 | an accepted coverage states the true byte and range counts, every range fits the artifact, sizes agree, sparse means zero-filled |
| ArtifactContract.ValidateLayerCoverage | src/cai_compute_chain/cai_llama_cpp_native_engine_contract.py:265-318 | the cursor loop over scoped, sorted ranges returns the layer verdict |
| ArtifactContract.SweepFindsFirstGap | src/cai_compute_chain/cai_llama_cpp_native_engine_contract.py:295-318 | from any cursor the sweep accepts only full coverage and otherwise names the first maximal gap |
| ArtifactContract.LayerVerdictIsExact | src/cai_compute_chain/cai_llama_cpp_native_engine_contract.py:265-318 | accepts iff every layer is covered; "no layer weights" iff none is; a gap error iff it is the first maximal uncovered run |
| ArtifactContract.FirstGapIsUnique | src/cai_compute_chain/cai_llama_cpp_native_engine_contract.py:303-318 | there is only one first maximal gap to report |
| ArtifactContract.VerdictIgnoresOrder | src/cai_compute_chain/cai_llama_cpp_native_engine_contract.py:284-318 | verdict and reported gap are the same for every order of the ranges |
| ArtifactContract.LayerCoverageIsExact | src/cai_compute_chain/cai_llama_cpp_native_engine_contract.py:265-318 | the whole check passes iff a bound is unstated or the range is proper, the ranges parse and every layer is covered |
| ArtifactContract.StrictParseIsExact | src/cai_compute_chain/cai_llama_cpp_native_engine_contract.py:212-262 | the strict parse succeeds iff every mapping is sound, and then reads every field of all mappings in order |
| ArtifactContract.CoverageIsExact | src/cai_compute_chain/cai_llama_cpp_native_engine_contract.py:129-209 | a coverage is yielded iff it is the declared one and agrees with ranges and size; none iff none is declared and none is due |
| ChunkWindows.ParseLenientRanges | src/cai_compute_chain/cai_llama_cpp_assignment_artifact_engine.py:2425-2459 | the skipping loop returns the lenient parse |
| ChunkWindows.ParsersAgree | src/cai_compute_chain/cai_llama_cpp_assignment_artifact_engine.py:2425-2459 | whatever the strict parser accepts, the lenient parser reads as the same chunks in the same order |
| ChunkWindows.EngineWindowDigest | src/cai_compute_chain/cai_llama_cpp_assignment_artifact_engine.py:2462-2495 | the engine's digest loop computes the window digest with its short-read and hash errors |
| ChunkWindows.BinaryWindowDigest | src/cai_compute_chain/cai_llama_cpp_reference_patched_binary.py:658-689 | the binary's separately written loop computes the window digest over strict ranges |
| ChunkWindows.OneDigest | src/cai_compute_chain/cai_llama_cpp_reference_patched_binary.py:658-689 | for every strictly accepted artifact both sides get one digest, byte count or error |
| ChunkWindows.DigestPinsContent | src/cai_compute_chain/cai_llama_cpp_assignment_artifact_engine.py:2462-2495 | two files with one window digest have equal contents in every window, unless two of the hashed texts collide |
| ChunkWindows.DigestIsExact | src/cai_compute_chain/cai_llama_cpp_assignment_artifact_engine.py:2462-2495 | there is a digest iff every window lies in the file and has its stated hash, trimmed and in lower case; it hashes the ids and content hashes in order |
| ChunkWindows.MaterializeWindow | src/cai_compute_chain/cai_llama_cpp_reference_patched_binary.py:743-770 | the copy loop writes exactly the chunk windows, with their true hash, size and mode; a short read stops it |
| ChunkWindows.MaterializedByte | src/cai_compute_chain/cai_llama_cpp_reference_patched_binary.py:755-764 | byte k of window j lands right after the windows before it |
| ChunkWindows.DigestedWindowMaterializes | src/cai_compute_chain/cai_llama_cpp_reference_patched_binary.py:277-292 | once the digest loop has passed, the copy is complete and as long as its windows |
| ChunkWindows.DisjointRangesCountBytes | src/cai_compute_chain/cai_llama_cpp_native_engine_contract.py:178-193 | the summed size never falls short of the distinct covered bytes and equals their number iff no two ranges overlap |
| ChunkWindows.OverlapIsCountedTwice | src/cai_compute_chain/cai_llama_cpp_native_engine_contract.py:178-193 | a concrete accepted coverage that declares more bytes than its overlapping ranges cover |
| ChunkWindows.PreparedWindowMatchesCoverage | src/cai_compute_chain/cai_llama_cpp_reference_patched_binary.py:743-770 | the prepared window of a validated, digested artifact is complete: the whole file without ranges, else as long as coveredByteCount, which counts distinct bytes iff the ranges are disjoint |
| ChunkWindows.UnrangedCountIsUnchecked | src/cai_compute_chain/cai_llama_cpp_native_engine_contract.py:178-193 | without chunk ranges any declared byte count is accepted |
| CoverageProducer.AssignmentChunkRanges | src/cai_compute_chain/cai_llama_cpp_shard_native_bridge.py:1299-1346 | the bridge lists exactly this artifact's chunks in ByOffset order, or nothing for bad bounds |
| CoverageProducer.BuildItems | src/cai_compute_chain/cai_llama_cpp_shard_native_bridge.py:1322-1345 | the item loop yields one produced item per chunk in order |
| CoverageProducer.CoveragePayload | src/cai_compute_chain/cai_llama_cpp_shard_native_bridge.py:1349-1369 | the accumulator loop declares the counted bytes and ranges |
| CoverageProducer.ByOffsetKeepsChunks | src/cai_compute_chain/cai_llama_cpp_shard_native_bridge.py:1312-1321 | sorting by offset keeps every chunk and the total size |
| CoverageProducer.ByOffsetIsSorted | src/cai_compute_chain/cai_llama_cpp_shard_native_bridge.py:1312-1321 | the listed chunks are ordered by offset, and those at one offset keep their order |
| CoverageProducer.ListedChunksAreExact | src/cai_compute_chain/cai_llama_cpp_shard_native_bridge.py:1312-1321 | the list holds exactly the chunks with this artifact's stripped id, each as often as in the manifest, by offset and stable |
| CoverageProducer.SelectionKeepsOrder | src/cai_compute_chain/cai_llama_cpp_shard_native_bridge.py:1312-1321 | the selection keeps the order of the manifest |
| CoverageProducer.ProducedTextsReadBack | src/cai_compute_chain/cai_llama_cpp_shard_native_bridge.py:1322-1345 | hash and tensor names of a produced item are read back by the strict parser |
| CoverageProducer.MaterializedReadsBack | src/cai_compute_chain/cai_llama_cpp_shard_native_bridge.py:1195-1212 | id, path, digest, size and bounds of the materialized assignment are read back |
| CoverageProducer.ProducedCoverageIsAccepted | src/cai_compute_chain/cai_llama_cpp_shard_native_bridge.py:1299-1369 | the resolver accepts the bridge's artifact iff every chunk is in bounds and well formed, and reads back size and counts |
| AssignmentEngine.Engine.FreshContext | src/cai_compute_chain/cai_llama_cpp_assignment_artifact_engine.py:1493-1558 | a fresh resolution: parse, coverage, layer check and digest of the requested artifact, or the first error |
| AssignmentEngine.Engine.ResolveContext | src/cai_compute_chain/cai_llama_cpp_assignment_artifact_engine.py:1561-1631 | session hit, resident hit or fresh load, with both caches updated as the resolution step says |
| AssignmentEngine.Engine.LoadShard | src/cai_compute_chain/cai_llama_cpp_assignment_artifact_engine.py:402-449 | a load with an assignment resolves and remembers it; one without changes nothing |
| AssignmentEngine.Engine.FinalizeSession | src/cai_compute_chain/cai_llama_cpp_assignment_artifact_engine.py:1280-1309 | drops exactly this session's entry, returns it, and leaves the resident cache |
| AssignmentEngine.RunKeepsInv | src/cai_compute_chain/cai_llama_cpp_assignment_artifact_engine.py:1561-1631 | after any run every cached context has the digest of its file, covered layers and its key's layers, and a resident one its key's expected digest and chunk signature |
| AssignmentEngine.CacheIsTransparent | src/cai_compute_chain/cai_llama_cpp_assignment_artifact_engine.py:1561-1631 | after any run a hit reads no bytes, is for the requested layers, all covered, and agrees with a fresh resolution iff the path means the cached one and missing chunk ranges meet none |
| AssignmentEngine.AcceptedResolutionsAreCovered | src/cai_compute_chain/cai_llama_cpp_assignment_artifact_engine.py:1561-1631 | every accepted resolution keeps the request's chunks and covers its layers; it is loaded iff nothing was cached |
| AssignmentEngine.PaddedPathDisagrees | src/cai_compute_chain/cai_llama_cpp_assignment_artifact_engine.py:2328-2398 | a concrete run in which " a" hits the session of "a" although it resolves to another file |
| EngineSessions.AnswersFollowHistory | src/cai_compute_chain/cai_llama_cpp_assignment_artifact_engine.py:1561-1631 | every answer after any run, in request fields: the context of an open session unless contradicted, else that of a held shard, else a fresh resolution |
| EngineSessions.SessionHitsAreOwn | src/cai_compute_chain/cai_llama_cpp_assignment_artifact_engine.py:1581-1597 | a session hit occurs iff an earlier call of the same session id, model and bounds resolved a context, no finalize of it or reset came since, and the request does not contradict it |
| EngineSessions.TableFollowsCalls | src/cai_compute_chain/cai_llama_cpp_assignment_artifact_engine.py:1561-1631 | the session table holds exactly the contexts of sessions opened and not ended since |
| EngineSessions.ShelfFollowsCalls | src/cai_compute_chain/cai_llama_cpp_assignment_artifact_engine.py:1598-1631 | the resident table holds exactly the latest context loaded for each shard since the last reset |
| EngineSessions.DriftIsContradiction | src/cai_compute_chain/cai_llama_cpp_assignment_artifact_engine.py:2376-2398 | drift is reported iff a stated path, bound, digest or chunk list contradicts the context |
| EngineSessions.FreshIsExact | src/cai_compute_chain/cai_llama_cpp_assignment_artifact_engine.py:1493-1558 | a fresh resolution yields a context iff the artifact is named, there, accounted for and covers the layers; every field of it is stated |
| EngineSessions.FinalizeSparesOthers | src/cai_compute_chain/cai_llama_cpp_assignment_artifact_engine.py:1280-1309 | a finalize changes no answer to any other session |
| EngineSessions.FinalizeEndsSession | src/cai_compute_chain/cai_llama_cpp_assignment_artifact_engine.py:1280-1309 | after its finalize a session is never answered from the table |
| RequestSections.ShardSpecDecidesFirst | src/cai_compute_chain/cai_llama_cpp_assignment_artifact_engine.py:2624-2703 | every field comes from shardSpec if it is readable there, else from the frame |
| Receipts.BuiltReceiptIsAccepted | src/cai_compute_chain/cai_llama_cpp_shard_native_bridge.py:1564-1677 | a built receipt is accepted for its own request iff it confirms the backend, its fallback can be declared and the path it states resolves to itself after stripping |
| Receipts.ValidReceiptMeans | src/cai_compute_chain/cai_llama_cpp_shard_native_bridge.py:1564-1677 | any receipt is accepted iff it states this execution's schema, mode, action, backend, model and layers and names the resolved artifact of its kind, with the fallback declared |
| Receipts.PaddedReceiptIsRefused | src/cai_compute_chain/cai_llama_cpp_shard_native_bridge.py:1606-1673 | for an artifact that is a link to a file whose name ends with a blank, the builder states the blank and the bridge refuses the path |
| Receipts.PickFacts | src/cai_compute_chain/cai_llama_cpp_native_engine_contract.py:50-94 | the selected artifact is the resolved one of its kind; a model beside an assignment was asked for and declares full_model |
| Receipts.PickIsExact | src/cai_compute_chain/cai_llama_cpp_native_engine_contract.py:50-94 | the preferred kind if at hand, an error if not; without a preference assignment, then model, then none |
| MetricsProof.NestedBoolIsFirst | src/cai_compute_chain/cai_llama_cpp_assignment_artifact_engine.py:1384-1397 | the boolean search returns the first pre-order occurrence, and nothing iff there is none |
| MetricsProof.ReferenceSearchIsExact | src/cai_compute_chain/cai_llama_cpp_assignment_artifact_engine.py:1418-1450 | the reference-backend search is empty iff no marker occurs anywhere in the tree |
| MetricsProof.MarkerIsExact | src/cai_compute_chain/cai_llama_cpp_assignment_artifact_engine.py:1418-1450 | which entries mark a reference backend: the slot-state keys and the backend modes |
| MetricsProof.BinaryProofMeans | src/cai_compute_chain/cai_llama_cpp_patched_binary_executor.py:809-830 | the binary proves shard-only loading iff what it reports first is: not the full model, ready, and no denied assignment |
| MetricsProof.EngineProofMeans | src/cai_compute_chain/cai_llama_cpp_assignment_artifact_engine.py:1360-1371 | the engine accepts the proof iff besides that the assignment is confirmed and no reference marker occurs |
| MetricsProof.ArtifactUsedMeans | src/cai_compute_chain/cai_llama_cpp_assignment_artifact_engine.py:1312-1357 | the receipt names the model iff its use is reported, refused when shard-only is required or no model is at hand; else the assignment, with a reference backend as the fallback |
| MetricsLayers.WrapKeepsVerdicts | src/cai_compute_chain/cai_llama_cpp_patched_binary_executor.py:491-518 | one wrapping layer changes no search and no verdict |
| MetricsOrder.OrderIsIrrelevantIff | src/cai_compute_chain/cai_llama_cpp_assignment_artifact_engine.py:1384-1397 | the boolean search gives one answer over all orders of the keys at every level iff no two different values can come first |
| MetricsOrder.OrderDoesNotMatter | src/cai_compute_chain/cai_llama_cpp_assignment_artifact_engine.py:1384-1397 | any two orders of a tree with a settled flag give the search one answer |
| MetricsOrder.AgreeingFlagsAreSettled | src/cai_compute_chain/cai_llama_cpp_assignment_artifact_engine.py:1384-1397 | a flag all of whose occurrences agree, or that occurs at most once, is settled |
| MetricsOrder.FoundIsLeading | src/cai_compute_chain/cai_llama_cpp_assignment_artifact_engine.py:1384-1397 | the search finds nothing iff no value can come first, and otherwise one that can |
| MetricsOrder.ReorderingKeepsMarkers | src/cai_compute_chain/cai_llama_cpp_assignment_artifact_engine.py:1418-1450 | markers are found in every order of the keys or in none |
| MetricsOrder.SortKeysReorders | src/cai_compute_chain/cai_llama_cpp_patched_binary_executor.py:244-255 | what a process hop does to the metrics is a reordering |
| MetricsOrder.SortingCanFlipRepeatedFlag | src/cai_compute_chain/cai_llama_cpp_patched_binary_executor.py:833-846 | a concrete tree whose repeated flag is turned around by sorting |
| MetricsLayers.ProofSurvivesWrapping | src/cai_compute_chain/cai_llama_cpp_assignment_artifact_engine.py:1360-1482 | through any number of layers with plain, distinct keys and key-sorting hops the shard-only verdicts are those of the innermost metrics |
| MetricsLayers.StackKeepsProof | src/cai_compute_chain/cai_llama_cpp_assignment_artifact_engine.py:1905-2029 | the engine's verdict on the metrics that executor, host and engine have wrapped is the verdict on the binary's own |
| MetricsLayers.ExecutorLayerIsGood | src/cai_compute_chain/cai_llama_cpp_patched_binary_executor.py:491-518 | the executor's own entries carry no flag and no marker, and its keys and its carrier are distinct, whatever its configuration |
| MetricsLayers.HostLayerIsGood | src/cai_compute_chain/cai_llama_cpp_patched_executor_host.py:525-587 | the host's own, preflight and validated-state entries carry no flag and no marker and have distinct keys, in every combination of what it read and accepted |
| MetricsLayers.EngineLayerIsGood | src/cai_compute_chain/cai_llama_cpp_assignment_artifact_engine.py:1905-2029 | the engine's entries carry no flag and no marker and have distinct keys in every combination, also when they name a reference backend |
| EngineReceipts.EngineReceiptsAreAccepted | src/cai_compute_chain/cai_llama_cpp_assignment_artifact_engine.py:1082-1277 | for every request, requirements and executor metrics, with or without an executor, what the engine yields passes the bridge's validator iff it is no receipt or the used artifact's path reads back |
| EngineReceipts.ModelReceiptOutOfReach | src/cai_compute_chain/cai_llama_cpp_shard_native_bridge.py:468-512 | behind the bridge, whatever executor, host and engine put around them, no metrics of a binary yield a receipt of kind model iff not both flags are lax or no model artifact is usable |
| EngineReceipts.BooleanFlagsBind | src/cai_compute_chain/cai_llama_cpp_shard_native_bridge.py:468-512 | behind the bridge one boolean flag is enough to keep model receipts out |
| MetricsProof.LaxFlagsPassTheBridgeOnly | src/cai_compute_chain/cai_llama_cpp_assignment_artifact_engine.py:1374-1381 | flags written as the number 2 pass the bridge and not the engine |
| MetricsProof.RequiredShardOnlyIsProven | src/cai_compute_chain/cai_llama_cpp_assignment_artifact_engine.py:1312-1371 | under required shard-only loading an accepted executor leaves only the assignment artifact, with marker-free metrics and a ready flag |
| Handoff.PipelineTilesTheModel | src/cai_compute_chain/cai_llama_cpp_patched_executor_host.py:707-733 | for any number of accepted stages, with the files changing in any way between checks, every layer from first start to last end is run by exactly one stage and covered by a chunk of that stage |
| Handoff.ActivationStagesAreAdjacent | src/cai_compute_chain/cai_llama_cpp_patched_executor_host.py:707-733 | accepted activation hand-offs give proper ranges that meet |
| Handoff.StageCoversItsLayers | src/cai_compute_chain/cai_llama_cpp_patched_executor_host.py:1008-1090 | a stage whose artifact the host accepts has a chunk for each of its layers |
| Handoff.ProbeSplitIsAChain | src/cai_compute_chain/cai_llama_cpp_assignment_artifact_engine.py:511-550 | the generation probe's split of two or more layers is an accepted hand-off, and every layer is run by exactly one of the two shards |
| Handoff.DecodeChainWrapsAtMostOnce | src/cai_compute_chain/cai_llama_cpp_patched_executor_host.py:734-763 | a decode chain, also one that overwrites its state files, has at most one wrap, to layer 0, from prefill to decode, into a range ending at or before the producer's start |
| Handoff.DecodeStartsAreMonotone | src/cai_compute_chain/cai_llama_cpp_patched_executor_host.py:734-763 | between stages of one phase the layer start never decreases, over any distance |
| Handoff.HandoffIsExact | src/cai_compute_chain/cai_llama_cpp_patched_executor_host.py:707-767 | for any manifest and request a decode state is handed on iff its range is proper and stays, continues or wraps from prefill; an activation iff it ends where the request starts |
| Handoff.DecodeChainIsAcceptedIff | src/cai_compute_chain/cai_llama_cpp_patched_executor_host.py:734-767 | a decode chain whose states are delivered is accepted iff every hand-off stays, continues or wraps |
| Handoff.PipelineIsAcceptedIff | src/cai_compute_chain/cai_llama_cpp_patched_executor_host.py:707-733 | a pipeline whose activations are delivered is accepted iff its stages are adjacent |
| Handoff.StateFileIsExact | src/cai_compute_chain/cai_llama_cpp_real_state_contract.py:218-269 | a state file is accepted iff it lies in an allowed directory, is not empty and has exactly the stated size and hash |
| Handoff.OutputCheckIsExact | src/cai_compute_chain/cai_llama_cpp_real_state_contract.py:104-190 | an output is passed on iff its manifest fits the request in model, session, action and every stated bound and its file is intact in the workspace |
| Handoff.InputCheckIsExact | src/cai_compute_chain/cai_llama_cpp_patched_executor_host.py:666-767 | an input is taken in iff it is of the expected kind, model and session, its file is intact and its layers fit |
| Handoff.ArtifactCheckIsExact | src/cai_compute_chain/cai_llama_cpp_patched_executor_host.py:1008-1090 | a stage artifact is taken iff its file is there, it is accounted for, its bounds do not contradict the request and it covers the layers that count |
| DriftGuard.Executor.Handle | src/cai_compute_chain/cai_llama_cpp_patched_binary_executor.py:258-347 | one request: guard, call, manifest write or unlink, and normalization, in the source's order |
| DriftGuard.ReachIsExact | src/cai_compute_chain/cai_llama_cpp_patched_binary_executor.py:258-347 | the binary is called iff the request is well formed and the manifest present, if any, is readable and names no other context; otherwise nothing changes |
| DriftGuard.ProcessVerdictIsExact | src/cai_compute_chain/cai_llama_cpp_patched_binary_executor.py:423-488 | an answered process succeeds iff status, model, layers, required shard-only proof, output kind and payload are all right; a failure leaves the manifest, a success describes the request in it |
| DriftGuard.LifecycleVerdictIsExact | src/cai_compute_chain/cai_llama_cpp_patched_binary_executor.py:389-420 | an answered load or finalize succeeds iff it is ready and real and a load has the required proof; the manifest is written or removed either way |
| DriftGuard.GuardAtOneStep | src/cai_compute_chain/cai_llama_cpp_patched_binary_executor.py:641-667 | a drifting process or finalize is refused before the binary and changes nothing; only a load changes the signature; only a matching finalize removes it |
| DriftGuard.RunOwnsManifests | src/cai_compute_chain/cai_llama_cpp_patched_binary_executor.py:670-695 | after any run every manifest is one the executor wrote |
| DriftGuard.ManifestDecides | src/cai_compute_chain/cai_llama_cpp_patched_binary_executor.py:641-667 | after any run a process or finalize reaches the binary iff the manifest present has its signature |
| DriftGuard.SessionKeepsOneSignature | src/cai_compute_chain/cai_llama_cpp_patched_binary_executor.py:258-347 | between two loads or finalizes of a workspace everything that reaches the binary has the signature of the request that wrote the manifest |
| DriftGuard.SignatureDeterminesContext | src/cai_compute_chain/cai_llama_cpp_patched_binary_executor.py:623-638 | equal signatures mean one session, model, layer range, identity of both artifacts with coverage, and parsed chunk ranges |
| DriftGuard.SignedContextIsExact | src/cai_compute_chain/cai_llama_cpp_patched_binary_executor.py:623-725 | two contexts sign alike iff session, model, bounds and both artifacts agree, with the chunk mappings of the assignment only |
| ReferenceSession.SessionRoundTrip | src/cai_compute_chain/cai_llama_cpp_reference_patched_binary.py:354-437 | reading back a written session gives the same context iff its texts are trimmed and non-empty and its paths resolve to themselves |
| ReferenceSession.ReadSessionIsExact | src/cai_compute_chain/cai_llama_cpp_reference_patched_binary.py:387-437 | a session document gives a context iff it has the ABI and an artifact and states every required field |
| ReferenceBinary.Binary.Handle | src/cai_compute_chain/cai_llama_cpp_reference_patched_binary.py:93-113 | dispatch of one request on memory and files, with the call count |
| ReferenceBinary.Binary.PrepareShard | src/cai_compute_chain/cai_llama_cpp_reference_patched_binary.py:260-331 | checks, digest, copy and context in order; the copy is on disk before the required strings are read |
| ReferenceBinary.Binary.HandleLoad | src/cai_compute_chain/cai_llama_cpp_reference_patched_binary.py:116-134 | a prepared context enters memory and its session file |
| ReferenceBinary.Binary.LoadContext | src/cai_compute_chain/cai_llama_cpp_reference_patched_binary.py:334-351 | the context comes from memory, else from the request's session file, and is checked against the request |
| ReferenceBinary.Binary.RunPrefill | src/cai_compute_chain/cai_llama_cpp_reference_patched_binary.py:137-180 | window and input checks, then the receipt, then the output |
| ReferenceBinary.Binary.RunDecode | src/cai_compute_chain/cai_llama_cpp_reference_patched_binary.py:183-227 | window, receipt, input and input-state checks, then the output |
| ReferenceBinary.Binary.HandleFinalize | src/cai_compute_chain/cai_llama_cpp_reference_patched_binary.py:230-257 | memory entry dropped first, then session file, window and receipt unlinked |
| ReferenceBinary.Binary.Restart | src/cai_compute_chain/cai_llama_cpp_reference_patched_binary.py:55-56 | a new process keeps the files and nothing else |
| LoadedShards.LoadedWindowIsExact | src/cai_compute_chain/cai_llama_cpp_reference_patched_binary.py:277-294 | after a successful load the prepared file is the whole artifact without ranges, else exactly the ranges' bytes in order; size, hash, mode and declared byte count say so |
| LoadedShards.LoadedFacts | src/cai_compute_chain/cai_llama_cpp_reference_patched_binary.py:260-331 | a loaded shard states its artifact's source, digest, chunk count, coverage and the distinct tensor names of all ranges |
| LoadedShards.LoadIsAcceptedIff | src/cai_compute_chain/cai_llama_cpp_reference_patched_binary.py:260-331 | a load succeeds iff the named file is there, coverage and ranges are sound, every window is intact, and workspace, session, model and source are named |
| LoadedShards.LoadIsExact | src/cai_compute_chain/cai_llama_cpp_reference_patched_binary.py:116-134 | a successful load is remembered and recorded under the request's own session, model, bounds and slot, and writes only the window and the session file |
| BinaryAnswers.RecallIsExact | src/cai_compute_chain/cai_llama_cpp_reference_patched_binary.py:334-351 | a shard is found iff it is in the table, else in the session file of the slot, and the request is for it in every field it states |
| BinaryAnswers.ProcessIsExact | src/cai_compute_chain/cai_llama_cpp_reference_patched_binary.py:137-227 | a process request is answered iff its shard is found, the window is intact, the input is there, the answer has a place and, for a decode, a prefill backs it |
| BinaryAnswers.ProducedIsExact | src/cai_compute_chain/cai_llama_cpp_reference_patched_binary.py:137-227 | what an answered request puts out, field by field, with the right digest, and where it is on disk; nothing else is written but the receipt |
| BinaryAnswers.PrefillReceiptIsExact | src/cai_compute_chain/cai_llama_cpp_reference_patched_binary.py:791-834 | the receipt of a prefill states session, model, layers, tokens, window, input hash and digest |
| BinaryAnswers.PrefillDigestPins | src/cai_compute_chain/cai_llama_cpp_reference_patched_binary.py:791-813 | equal prefill digests mean one window, input, layer range and token range unless the two hashed texts collide |
| BinaryAnswers.FinalizeIsExact | src/cai_compute_chain/cai_llama_cpp_reference_patched_binary.py:230-257 | a finalize drops the table entry and removes exactly the session file, window and receipt of the shard it found |
| ReferenceRuns.PreparedIsStorable | src/cai_compute_chain/cai_llama_cpp_reference_patched_binary.py:260-331 | a context that was prepared survives being stored iff its artifact's resolved path reads back |
| ReferenceRuns.PreparedShardFits | src/cai_compute_chain/cai_llama_cpp_reference_patched_binary.py:260-331 | every context a load prepares from an artifact whose path reads back survives being stored and belongs to its session |
| ReferenceRuns.RecalledIsRecorded | src/cai_compute_chain/cai_llama_cpp_reference_patched_binary.py:334-351 | the context a process request works on is the one in its session file, wherever it was found |
| ReferenceRuns.StepKeepsInv | src/cai_compute_chain/cai_llama_cpp_reference_patched_binary.py:93-257 | whatever is asked and however it ends, memory implies an equal disk record |
| RestartTransparency.RestartsAreInvisible | src/cai_compute_chain/cai_llama_cpp_reference_patched_binary.py:334-437 | with restarts at any points of any run, and other files changing meanwhile, every outcome and every file but the manifests is that of a binary without memory |
| RestartTransparency.StepIgnoresSource | src/cai_compute_chain/cai_llama_cpp_reference_patched_binary.py:141-227 | no request looks at where the context of its input state was found |
| RestartTransparency.RestartPointsDoNotMatter | src/cai_compute_chain/cai_llama_cpp_reference_patched_binary.py:334-437 | runs that differ only in their restarts, and in the context source of the states they feed back, show equal outcomes, state bytes and final outputs |
| VisibleRestarts.UnkeptPathShowsRestart | src/cai_compute_chain/cai_llama_cpp_reference_patched_binary.py:354-460 | after a load, a request that names the artifact finds its shard in memory, and after a restart finds it on disk iff the artifact's path reads back, and is refused otherwise |
| VisibleRestarts.NoWorkspaceShowsRestart | src/cai_compute_chain/cai_llama_cpp_reference_patched_binary.py:334-351 | a process request without a workspace on a loaded session is always answered differently after a restart |
| VisibleRestarts.InputTells | src/cai_compute_chain/cai_llama_cpp_reference_patched_binary.py:892-909 | on two contents of its input file a process request answers differently iff its stated size or hash judges them differently, or both pass and it is a prefill or a decode that puts out a state |
| VisibleRestarts.RestartMarksManifest | src/cai_compute_chain/cai_llama_cpp_reference_patched_binary.py:503-532 | one process request with and without a restart before it has the same outcome and files but for the manifest, whose bytes differ |
| VisibleRestarts.ManifestReadersSeeRestarts | src/cai_compute_chain/cai_llama_cpp_reference_patched_binary.py:503-532 | from one state, with and without a restart before a state is put out, a later request that reads its manifest answers differently iff it tells the two contents apart |
| ReferenceSafety.RunTracksHistory | src/cai_compute_chain/cai_llama_cpp_reference_patched_binary.py:116-257 | after any run a session's files are exactly those of its latest load and latest prefill since the last finalize |
| ReferenceSafety.LatestLoadMeans | src/cai_compute_chain/cai_llama_cpp_reference_patched_binary.py:116-134 | the latest load happened and nothing after it loaded or ended the session |
| ReferenceSafety.LatestPrefillMeans | src/cai_compute_chain/cai_llama_cpp_reference_patched_binary.py:137-180 | the latest prefill happened on the shard loaded then and nothing after it ended the session |
| ReferenceSafety.AcceptedDecodeIsBacked | src/cai_compute_chain/cai_llama_cpp_reference_patched_binary.py:835-889 | an accepted decode has a load and a prefill no finalize has undone, and its input carries the latest prefill's digest and the loaded window's hash |
| ReferenceSafety.PrefillAcceptedIffAnswerable | src/cai_compute_chain/cai_llama_cpp_reference_patched_binary.py:137-180 | the receipt is written iff window and input check out; the prefill is accepted iff it is also answerable |
| ReferenceSafety.RefusedPrefillSupersedes | src/cai_compute_chain/cai_llama_cpp_reference_patched_binary.py:141-147 | a prefill without an output kind is refused and has replaced the receipt |
| SlotDiscipline.UnbackedDecodeIsAccepted | src/cai_compute_chain/cai_llama_cpp_reference_patched_binary.py:230-243 | with one session id loaded for two shards, a run in which a decode is accepted although the session was finalized after its only prefill |
| ExampleRuns.UnbackedDecodeExists | src/cai_compute_chain/cai_llama_cpp_reference_patched_binary.py:230-243 | one host, artifact and script on which that happens |
| ExampleRuns.BlankPathShowsRestart | src/cai_compute_chain/cai_llama_cpp_reference_patched_binary.py:354-460 | one host, load and prefill on a link to a file whose name ends with a blank: answered in the unbroken run, refused after a restart |
| ExampleHost.SoundHostExists | src/cai_compute_chain/cai_llama_cpp_reference_patched_binary.py:691-740 | what the theorems about runs assume of documents, paths and file names can be met together |
| ReferenceChains.QuietRunStaysPrimed | src/cai_compute_chain/cai_llama_cpp_reference_patched_binary.py:116-257 | any number of events that are no prefill, changed reload or finalize of the session and leave its window alone keep it ready to decode |
| ReferenceChains.StrangersAreQuiet | src/cai_compute_chain/cai_llama_cpp_reference_patched_binary.py:116-257 | whatever another session asks for in a workspace of its own, load and finalize included, is such an event |
| ReferenceChains.PrimedDecodeIsAccepted | src/cai_compute_chain/cai_llama_cpp_reference_patched_binary.py:856-889 | on a primed session a decode whose state carries digest and hash is accepted iff answerable, and its own state carries both |
| ReferenceChains.StatesFeedLaterDecodes | src/cai_compute_chain/cai_llama_cpp_reference_patched_binary.py:462-556 | over a run of such events every state a decode put out is accepted by every later answerable decode of the session |
| ReferenceChains.PrefillPrimes | src/cai_compute_chain/cai_llama_cpp_reference_patched_binary.py:790-832 | a prefill that wrote its receipt makes its session ready to decode |
| HostChains.HostAcceptsState | src/cai_compute_chain/cai_llama_cpp_patched_executor_host.py:666-763 | the host takes a stored decode state in for a next decode on the same shard |
| HostChains.DecodeChainsNeverBreak | src/cai_compute_chain/cai_llama_cpp_reference_patched_binary.py:462-556 | from one prefill any number of decodes, each fed the previous output, pass the host's check and the binary's check, whatever quiet events and restarts come between them |
| PayloadCodec.Base64RoundTrip | src/cai_compute_chain/cai_owned_transport_payload_codec.py:135-145 | decoding an encoding gives the bytes back, for all bytes |
| PayloadCodec.DecodeAcceptsExactlyBase64 | src/cai_compute_chain/cai_owned_transport_payload_codec.py:135-145 | the validating decoder accepts exactly whole quads of the alphabet with correct padding |
| PayloadCodec.AlphabetIsExact | src/cai_compute_chain/cai_owned_transport_payload_codec.py:135-145 | the value of a character is its place in the alphabet of RFC 4648, and no other character has one |
| PayloadCodec.DecodedQuadIsExact | src/cai_compute_chain/cai_owned_transport_payload_codec.py:135-145 | every full quad is the number its three bytes are, highest bits first |
| PayloadCodec.DecodedEndIsExact | src/cai_compute_chain/cai_owned_transport_payload_codec.py:135-145 | a padded last quad is cut off after its whole bytes |
| PayloadCodec.ChunkedShape | src/cai_compute_chain/cai_owned_transport_payload_codec.py:67-86 | chunks join to the payload and only the last may be short |
| PayloadCodec.ChunkedCount | src/cai_compute_chain/cai_owned_transport_payload_codec.py:67-86 | there are ceiling of length over size chunks |
| PayloadCodec.ChunkFields | src/cai_compute_chain/cai_owned_transport_payload_codec.py:67-86 | the chunked envelope declares the true chunk count, and every chunk but the last decodes to exactly the chunk size |
| PayloadCodec.PayloadRoundTrip | src/cai_compute_chain/cai_owned_transport_payload_codec.py:13-132 | for every payload, chunk size and accepted compression the envelope decodes to the payload |
| PayloadCodec.EnvelopeIsAcceptedIff | src/cai_compute_chain/cai_owned_transport_payload_codec.py:13-64 | an envelope is accepted iff it has one payload, whole or in the stated number of base64 chunks, uncompressed or gzip that decompresses |
| PayloadCodec.CompressionIsExact | src/cai_compute_chain/cai_owned_transport_payload_codec.py:89-99 | a compression setting is accepted iff it is absent, blank, none or gzip |
| BatchLease.Batch.ApplyLease | src/cai_compute_chain/cai_owned_transport_batch_lifecycle.py:19-27 | a lease stamps heartbeat, coerced seconds and expiry, and nothing else |
| BatchLease.Batch.ClearClaim | src/cai_compute_chain/cai_owned_transport_batch_lifecycle.py:111-122 | a clear keeps a non-empty runtime id as previous and drops the claim |
| BatchLease.Batch.TimeOut | src/cai_compute_chain/cai_owned_transport_batch_lifecycle.py:94-108 | a timeout mark stamps status, reason and errors |
| BatchLease.Batch.LeaseExpired | src/cai_compute_chain/cai_owned_transport_batch_lifecycle.py:30-39 | answers expiry without changing the batch |
| BatchLease.CoerceLease | src/cai_compute_chain/cai_owned_transport_batch_lifecycle.py:42-50 | a lease lasts as long as asked, never less than no time, and a minute where nothing usable is asked |
| BatchLease.StoredExpiry | src/cai_compute_chain/cai_owned_transport_batch_lifecycle.py:19-39 | the stored expiry is that of the last lease no clear follows, and absent iff there is none |
| BatchLease.ExpiredMeansHistory | src/cai_compute_chain/cai_owned_transport_batch_lifecycle.py:19-50 | after any updates the lease is expired at t iff the live lease, if any, has run out by t |
| BatchLease.PreviousIsLastCleared | src/cai_compute_chain/cai_owned_transport_batch_lifecycle.py:111-122 | previousRuntimeId is the last non-empty runtime id that was cleared |
| BatchLease.TimeoutIsSticky | src/cai_compute_chain/cai_owned_transport_batch_lifecycle.py:94-108 | a batch is not retryable exactly from its first timeout mark on and carries the last mark |
| BoxedAnswer.ScanBody | cai/bench/cai_eval.py:138-148 | the brace loop stops at the close of the body, or at the end of the text |
| BoxedAnswer.ExtractBoxed | cai/bench/cai_eval.py:131-152 | the outer loop terminates and returns the last collected body, stripped |
| BoxedAnswer.CloseMatches | cai/bench/cai_eval.py:138-148 | a reported close is a closing brace at depth zero with no prefix going below |
| BoxedAnswer.MatchesAreBalanced | cai/bench/cai_eval.py:131-152 | every collected body is brace-balanced |
| BoxedAnswer.MatchPrefixesStayOpen | cai/bench/cai_eval.py:131-152 | no prefix of a collected body closes more than it opens |
| BoxedAnswer.ScanCollectsBodies | cai/bench/cai_eval.py:131-152 | on a text of boxes with balanced bodies between box-free texts the scan collects exactly the bodies |
| BoxedAnswer.LastBoxWins | cai/bench/cai_eval.py:131-152 | for any number of such boxes the answer is the last body, stripped |

## Left out

- Subprocess and JSONL plumbing: persistent clients, timeouts, environment variables and command lines; a call to another process is a parameter that may fail.
- Failures of single file operations: a write, unlink or rename that raises, and a crash in the middle of a request; a restart falls between requests.
- A prepared shard path equal to the assignment artifact's own path, where opening the copy truncates its source.
- Session documents whose tensorNames is a mapping: they are refused where the source would read the keys.
- `str.lower()` and `str.strip()` beyond ASCII letters and the white space Python strips; digests and keywords are ASCII.
- Integer parsing of non-ASCII digits and of floats in text; floats and nested mappings appear as opaque values.
- Base64 decoding as in Python 3.13 and later, which refuses stray padding; earlier versions accept some padded texts that no encoder writes.
- Metrics content other than the flags, markers and entries that the searches look at, and responses whose metrics are not a mapping.
- The engine's managed session files and the generation probe beyond its layer split: they add staging of files but no new rule.
- The bridge's model-package lookup, download and cache paths, which choose an artifact before the model starts.
- Transport queues, HTTP endpoints, wallets, ledgers and scheduling outside the shard stack.
- Attempt counters and claim timeouts of batches, which are single comparisons.
- Other answer extractors of the evaluation harness, which are regular-expression searches.
