/**
 Whose context the assignment engine answers with: every answer of a run in terms of the calls before it, stated in
 the fields of the requests and without the engine's own keys.
 */
module EngineSessions {
  import opened PyValue
  import opened ArtifactContract
  import opened ChunkWindows
  import opened RequestSections
  import opened AssignmentEngine

  // ---------------------------------------------------------------- sessions in request fields

  /** Both requests name one session: the same stripped, non-blank id, model id and layer bounds. */
  predicate SameSession(q: Request, r: Request) {
    && q.frame.Section? && r.frame.Section? && Clean(q.frame.sessionId) == Clean(r.frame.sessionId) != ""
    && ModelId(q) == ModelId(r) && LayerStart(q) == LayerStart(r) && LayerEnd(q) == LayerEnd(r)
  }

  /** The calls that look for a context: a process, and a load that has an assignment. */
  predicate Resolves(op: Op) { op.Process? || (op.Load? && op.request.assignment.Some?) }

  /** The call ends the session of `r`. */
  predicate Ends(op: Op, r: Request) { op.Reset? || (op.Finalize? && SameSession(op.request, r)) }

  /** What call `i` was answered. */
  function AnswerAt(w: World, files: Files, ops: seq<Op>, i: nat): Resolution
    requires i < |ops| && Resolves(ops[i])
  {
    Resolve(w, files, Run(w, files, ops[..i]), ops[i].request).1
  }

  /** Call `i` resolved a context for the session of `r`. */
  predicate Opens(w: World, files: Files, ops: seq<Op>, i: nat, r: Request)
    requires i < |ops|
  {
    Resolves(ops[i]) && SameSession(ops[i].request, r) && AnswerAt(w, files, ops, i).Resolved?
  }

  /** And neither a finalize of that session nor a reset has come since. */
  ghost predicate Serves(w: World, files: Files, ops: seq<Op>, i: nat, r: Request) {
    i < |ops| && Opens(w, files, ops, i, r) && StillOpen(ops, i, r)
  }

  ghost predicate Served(w: World, files: Files, ops: seq<Op>, r: Request) {
    exists i: nat :: Serves(w, files, ops, i, r)
  }

  lemma KeyIsSession(q: Request, r: Request)
    ensures SessionKeyOf(r).Some? <==> SameSession(r, r)
    ensures SessionKeyOf(r).Some? ==> (SessionKeyOf(q) == SessionKeyOf(r) <==> SameSession(q, r))
  {
  }

  // ---------------------------------------------------------------- the session table

  /** What the table holds for the session of `r`. */
  function Entry(st: State, r: Request): Option<Context> {
    if SessionKeyOf(r).Some? && SessionKeyOf(r).value in st.sessions then
      Some(AsResident(st.sessions[SessionKeyOf(r).value])) else None
  }

  lemma ResolveFillsEntry(w: World, st: State, q: Request, anew: Result<Context, EngineError>, r: Request)
    ensures var (after, out) := ResolveVia(w, st, q, anew);
            Entry(after, r) ==
              if out.Resolved? && SameSession(q, r) then Some(AsResident(out.context)) else Entry(st, r)
  {
    KeyIsSession(q, r);
  }

  lemma FinalizeEmptiesEntry(w: World, files: Files, st: State, q: Request, r: Request)
    ensures Entry(Step(w, files, st, Finalize(q)), r) == if SameSession(q, r) then None else Entry(st, r)
  {
    KeyIsSession(q, r);
    KeyIsSession(r, q);
  }

  lemma StepEntry(w: World, files: Files, st: State, op: Op, r: Request)
    ensures Entry(Step(w, files, st, op), r) ==
              if Ends(op, r) then None
              else if Resolves(op) && SameSession(op.request, r) && Resolve(w, files, st, op.request).1.Resolved? then
                Some(AsResident(Resolve(w, files, st, op.request).1.context))
              else Entry(st, r)
  {
    match op {
      case Load(q) => ResolveFillsEntry(w, st, q, Fresh(w, files, q), r);
      case Process(q) => ResolveFillsEntry(w, st, q, Fresh(w, files, q), r);
      case Finalize(q) => FinalizeEmptiesEntry(w, files, st, q, r);
      case Reset =>
    }
  }

  /** What an earlier call was answered does not depend on later calls. */
  lemma AnswerStays(w: World, files: Files, ops: seq<Op>, n: nat, k: nat)
    requires k < n <= |ops|
    ensures ops[..n][k] == ops[k]
    ensures Resolves(ops[k]) ==> AnswerAt(w, files, ops[..n], k) == AnswerAt(w, files, ops, k)
  {
    assert ops[..n][..k] == ops[..k];
  }

  ghost predicate StillOpen(ops: seq<Op>, i: nat, r: Request) { forall k :: i < k < |ops| ==> !Ends(ops[k], r) }

  lemma StillOpenGrows(ops: seq<Op>, i: nat, r: Request)
    requires i + 1 < |ops|
    ensures var n := |ops| - 1; StillOpen(ops, i, r) <==> StillOpen(ops[..n], i, r) && !Ends(ops[n], r)
  {
    var n := |ops| - 1;
    assert forall k :: 0 <= k < n ==> ops[..n][k] == ops[k];
  }

  /** Serving calls after one more call. */
  lemma ServesGrows(w: World, files: Files, ops: seq<Op>, i: nat, r: Request)
    requires ops != []
    ensures var n := |ops| - 1;
            Serves(w, files, ops, i, r) <==>
              if i == n then Opens(w, files, ops, n, r) else Serves(w, files, ops[..n], i, r) && !Ends(ops[n], r)
  {
    var n := |ops| - 1;
    if i < n {
      AnswerStays(w, files, ops, n, i);
      StillOpenGrows(ops, i, r);
    }
  }

  /** The table after a run holds the context of a session's serving calls, and nothing where there is none. */
  lemma {:induction false} TableFollowsCalls(w: World, files: Files, ops: seq<Op>, r: Request)
    ensures Entry(Run(w, files, ops), r).Some? <==> Served(w, files, ops, r)
    ensures forall i: nat :: Serves(w, files, ops, i, r) ==>
              Entry(Run(w, files, ops), r) == Some(AsResident(AnswerAt(w, files, ops, i).context))
  {
    if ops == [] {
    } else {
      var n := |ops| - 1;
      TableFollowsCalls(w, files, ops[..n], r);
      forall i: nat | Serves(w, files, ops, i, r)
        ensures Entry(Run(w, files, ops), r) == Some(AsResident(AnswerAt(w, files, ops, i).context))
      {
        ServesGrows(w, files, ops, i, r);
        if i < n {
          AnswerStays(w, files, ops, n, i);
          EntryStays(w, files, Run(w, files, ops[..n]), ops[n], r);
        } else {
          StepEntry(w, files, Run(w, files, ops[..n]), ops[n], r);
        }
      }
      if Entry(Run(w, files, ops), r).Some? { SomeCallServes(w, files, ops, r); }
    }
  }

  /** Only the end of its session changes an entry. */
  lemma EntryStays(w: World, files: Files, st: State, op: Op, r: Request)
    requires Entry(st, r).Some? && !Ends(op, r)
    ensures Entry(Step(w, files, st, op), r) == Entry(st, r)
  {
    StepEntry(w, files, st, op, r);
    if Resolves(op) && SameSession(op.request, r) {
      KeyIsSession(op.request, r);
      FoundInTable(w, st, op.request, Fresh(w, files, op.request));
    }
  }

  lemma SomeCallServes(w: World, files: Files, ops: seq<Op>, r: Request)
    requires ops != [] && Entry(Run(w, files, ops), r).Some?
    requires Entry(Run(w, files, ops[..|ops| - 1]), r).Some? <==> Served(w, files, ops[..|ops| - 1], r)
    ensures Served(w, files, ops, r)
  {
    var n := |ops| - 1;
    StepEntry(w, files, Run(w, files, ops[..n]), ops[n], r);
    if Opens(w, files, ops, n, r) {
      ServesGrows(w, files, ops, n, r);
    } else {
      var i: nat :| Serves(w, files, ops[..n], i, r);
      ServesGrows(w, files, ops, i, r);
      assert Serves(w, files, ops, i, r);
    }
  }

  // ---------------------------------------------------------------- drift

  /** Nothing the request states contradicts the context. */
  ghost predicate Consistent(w: World, a: Artifact, c: Context) {
    && (Clean(a.localPath) != "" ==>
          w.resolve(Clean(a.localPath)).Some? && w.resolve(Clean(a.localPath)) == w.resolve(c.path))
    && (OptInt(a.layerStart).Some? ==> c.layerStart == OptInt(a.layerStart))
    && (OptInt(a.layerEnd).Some? ==> c.layerEnd == OptInt(a.layerEnd))
    && (Clean(a.expectedDigest) != "" && c.expectedDigest.Some? && c.expectedDigest != Some("") ==>
          c.expectedDigest == Some(Clean(a.expectedDigest)))
    && (LenientRanges(a) != [] ==> c.chunks == LenientRanges(a))
  }

  lemma DriftIsContradiction(w: World, a: Artifact, c: Context)
    ensures MismatchOf(w, a, c).None? <==> Consistent(w, a, c)
    ensures MismatchOf(w, a, AsResident(c)) == MismatchOf(w, a, c)
  {
  }

  /** The request of a session that is in the table: the context it is answered, or its drift. */
  ghost predicate AnsweredFrom(w: World, r: Request, c: Context, how: How, out: Resolution) {
    if r.assignment.Some? && !Consistent(w, r.assignment.value, c) then
      if how == SessionHit then out.Refused? && out.error.SessionDrifted? else out == Refused(ResidentDrifted)
    else out == Resolved(AsResident(c), how)
  }

  lemma FoundInTable(w: World, st: State, r: Request, anew: Result<Context, EngineError>)
    requires Entry(st, r).Some?
    ensures AnsweredFrom(w, r, Entry(st, r).value, SessionHit, ResolveVia(w, st, r, anew).1)
  {
    var c := st.sessions[SessionKeyOf(r).value];
    if r.assignment.Some? {
      DriftIsContradiction(w, r.assignment.value, c);
      DriftIsContradiction(w, r.assignment.value, AsResident(c));
    }
  }

  // ---------------------------------------------------------------- resident shards

  /** Where the engine keeps a context that request `q` made it load: its stripped path, else the context's own. */
  function ShelfPath(w: World, q: Request, c: Context): string {
    var named := if q.assignment.Some? then Clean(q.assignment.value.localPath) else "";
    if named != "" && w.resolve(named).Some? then w.resolve(named).value
    else if w.resolve(c.path).Some? then w.resolve(c.path).value else c.path
  }

  /** `r` asks for the shard that `q` made the engine load: model, bounds, path, stated digest and chunks. */
  predicate SameShard(w: World, q: Request, c: Context, r: Request) {
    && r.assignment.Some? && Clean(r.assignment.value.localPath) != ""
    && w.resolve(Clean(r.assignment.value.localPath)) == Some(ShelfPath(w, q, c))
    && ModelId(q) == ModelId(r) && LayerStart(q) == LayerStart(r) && LayerEnd(q) == LayerEnd(r)
    && c.expectedDigest == CleanOrNone(r.assignment.value.expectedDigest)
    && c.chunks == LenientRanges(r.assignment.value)
  }

  // Chunks come from the lenient parser with everything stripped, so their signature is the chunks themselves.

  lemma {:induction false} ParsedNamesAreClean(items: seq<Value>)
    ensures CleanNames(LenientNames(items)) == LenientNames(items)
  {
    if items == [] {
    } else {
      ParsedNamesAreClean(items[1..]);
      var name := Strip(StrOf(items[0]));
      if name != "" {
        assert Strip(name) == name;
        assert LenientNames(items)[1..] == LenientNames(items[1..]);
      }
    }
  }

  lemma ParsedHashIsClean(v: Value)
    ensures NonEmpty(ExpectedHash(NonEmpty(Lower(Clean(v))))) == NonEmpty(Lower(Clean(v)))
  {
    LowerTwice(Clean(v));
    CleanHashStays(Lower(Clean(v)));
  }

  lemma CleanHashStays(sha: string)
    requires Trimmed(sha) && Lower(sha) == sha
    ensures NonEmpty(ExpectedHash(NonEmpty(sha))) == NonEmpty(sha)
  {
    assert Strip(sha) == sha;
  }

  /** A chunk as its signature keeps it. */
  function Signed(c: LenientChunk): LenientChunk {
    c.(chunkId := Strip(c.chunkId), sha := NonEmpty(ExpectedHash(c.sha)), tensors := CleanNames(c.tensors))
  }

  lemma ParsedChunkIsSigned(item: ChunkItem)
    requires LenientItem(item).Some?
    ensures Signed(LenientItem(item).value) == LenientItem(item).value
  {
    ParsedHashIsClean(item.sha256Hex);
    if item.tensorNames.List? { ParsedNamesAreClean(item.tensorNames.items); }
  }

  lemma {:induction false} ParsedChunksAreSigned(items: seq<ChunkItem>, i: nat)
    requires i < |LenientItems(items)|
    ensures Signed(LenientItems(items)[i]) == LenientItems(items)[i]
  {
    if LenientItem(items[0]).None? {
      ParsedChunksAreSigned(items[1..], i);
    } else {
      ParsedChunkIsSigned(items[0]);
      if i > 0 { ParsedChunksAreSigned(items[1..], i - 1); }
    }
  }

  /** The signature of parsed chunks is the chunks. */
  lemma SignatureIsTheChunks(a: Artifact)
    ensures Signature(LenientRanges(a)) == LenientRanges(a)
  {
    var chunks := LenientRanges(a);
    forall i | 0 <= i < |chunks| ensures Signature(chunks)[i] == chunks[i] {
      ParsedChunksAreSigned(a.chunkRanges.items, i);
    }
  }

  /** Call `i` read the files for the shard `r` asks for. */
  predicate Shelves(w: World, files: Files, ops: seq<Op>, i: nat, r: Request)
    requires i < |ops|
  {
    && Resolves(ops[i]) && AnswerAt(w, files, ops, i).Resolved? && AnswerAt(w, files, ops, i).how == Loaded
    && SameShard(w, ops[i].request, AnswerAt(w, files, ops, i).context, r)
  }

  /** And since then there was no reset, and no later call read the files for that shard. */
  ghost predicate Supplies(w: World, files: Files, ops: seq<Op>, i: nat, r: Request) {
    i < |ops| && Shelves(w, files, ops, i, r) && StillShelved(w, files, ops, i, r)
  }

  ghost predicate Supplied(w: World, files: Files, ops: seq<Op>, r: Request) {
    exists i: nat :: Supplies(w, files, ops, i, r)
  }

  function Shelf(w: World, st: State, r: Request): Option<Context> {
    if ResidentKeyOf(w, r).Some? && ResidentKeyOf(w, r).value in st.residents then
      Some(AsResident(st.residents[ResidentKeyOf(w, r).value])) else None
  }

  /** A loaded context is the one a fresh resolution gives. */
  lemma LoadedIsFresh(w: World, files: Files, st: State, q: Request)
    requires Resolve(w, files, st, q).1.Resolved? && Resolve(w, files, st, q).1.how == Loaded
    ensures Fresh(w, files, q) == Ok(Resolve(w, files, st, q).1.context)
    ensures var c := Resolve(w, files, st, q).1.context;
            && q.assignment.Some? && c.layerStart == LayerStart(q) && c.layerEnd == LayerEnd(q)
            && c.chunks == LenientRanges(q.assignment.value)
            && c.expectedDigest == CleanOrNone(q.assignment.value.expectedDigest)
  {
  }

  /** The key a context is kept under. */
  function ShelfKey(w: World, q: Request, c: Context): ResidentKey {
    if ResidentKeyOf(w, q).Some? then ResidentKeyOf(w, q).value
    else ResidentKeyOfContext(w, ModelId(q), AsResident(c))
  }

  lemma KeyIsShard(w: World, q: Request, c: Context, r: Request)
    requires q.assignment.Some? && c.layerStart == LayerStart(q) && c.layerEnd == LayerEnd(q)
    requires c.chunks == LenientRanges(q.assignment.value)
    requires c.expectedDigest == CleanOrNone(q.assignment.value.expectedDigest)
    ensures ResidentKeyOf(w, r) == Some(ShelfKey(w, q, c)) <==> SameShard(w, q, c, r)
  {
    ShelfKeyFields(w, q, c);
    RequestKeyFields(w, r, ShelfKey(w, q, c));
  }

  lemma ShelfKeyFields(w: World, q: Request, c: Context)
    requires q.assignment.Some? && c.layerStart == LayerStart(q) && c.layerEnd == LayerEnd(q)
    requires c.chunks == LenientRanges(q.assignment.value)
    requires c.expectedDigest == CleanOrNone(q.assignment.value.expectedDigest)
    ensures ShelfKey(w, q, c) ==
              ResidentKey(ModelId(q), ShelfPath(w, q, c), LayerStart(q), LayerEnd(q), c.expectedDigest, c.chunks)
  {
    SignatureIsTheChunks(q.assignment.value);
  }

  lemma RequestKeyFields(w: World, r: Request, k: ResidentKey)
    ensures ResidentKeyOf(w, r) == Some(k) <==>
              && r.assignment.Some? && Clean(r.assignment.value.localPath) != ""
              && w.resolve(Clean(r.assignment.value.localPath)) == Some(k.path)
              && k.modelId == ModelId(r) && k.layerStart == LayerStart(r) && k.layerEnd == LayerEnd(r)
              && k.expectedDigest == CleanOrNone(r.assignment.value.expectedDigest)
              && k.signature == LenientRanges(r.assignment.value)
  {
    if r.assignment.Some? { SignatureIsTheChunks(r.assignment.value); }
  }

  lemma ResolveFillsShelf(w: World, files: Files, st: State, q: Request, r: Request)
    ensures var (after, out) := Resolve(w, files, st, q);
            Shelf(w, after, r) ==
              if out.Resolved? && out.how == Loaded && SameShard(w, q, out.context, r) then
                Some(AsResident(out.context))
              else Shelf(w, st, r)
  {
    var out := Resolve(w, files, st, q).1;
    ResidentsAfter(w, files, st, q);
    if out.Resolved? && out.how == Loaded {
      LoadedIsFresh(w, files, st, q);
      KeyIsShard(w, q, out.context, r);
    }
  }

  lemma ResidentsAfter(w: World, files: Files, st: State, q: Request)
    ensures var (after, out) := Resolve(w, files, st, q);
            after.residents ==
              if out.Resolved? && out.how == Loaded then
                st.residents[ShelfKey(w, q, out.context) := AsResident(out.context)]
              else st.residents
  {
  }

  lemma StepShelf(w: World, files: Files, ops: seq<Op>, r: Request)
    requires ops != []
    ensures var n := |ops| - 1;
            Shelf(w, Run(w, files, ops), r) ==
              if ops[n].Reset? then None
              else if Shelves(w, files, ops, n, r) then Some(AsResident(AnswerAt(w, files, ops, n).context))
              else Shelf(w, Run(w, files, ops[..n]), r)
  {
    var n := |ops| - 1;
    if Resolves(ops[n]) { ResolveFillsShelf(w, files, Run(w, files, ops[..n]), ops[n].request, r); }
  }

  /** Call `k` is a reset or reads the files for the shard again. */
  predicate Replaces(w: World, files: Files, ops: seq<Op>, k: nat, r: Request) {
    k < |ops| && (ops[k].Reset? || Shelves(w, files, ops, k, r))
  }

  ghost predicate StillShelved(w: World, files: Files, ops: seq<Op>, i: nat, r: Request) {
    forall k: nat :: i < k < |ops| ==> !Replaces(w, files, ops, k, r)
  }

  lemma ShelvesStays(w: World, files: Files, ops: seq<Op>, n: nat, k: nat, r: Request)
    requires k < n <= |ops|
    ensures Shelves(w, files, ops[..n], k, r) <==> Shelves(w, files, ops, k, r)
    ensures Replaces(w, files, ops[..n], k, r) <==> Replaces(w, files, ops, k, r)
  {
    AnswerStays(w, files, ops, n, k);
  }

  lemma StaysShelved(w: World, files: Files, ops: seq<Op>, n: nat, i: nat, r: Request)
    requires |ops| == n + 1 && i < n && StillShelved(w, files, ops[..n], i, r) && !Replaces(w, files, ops, n, r)
    ensures StillShelved(w, files, ops, i, r)
  {
    forall k: nat | i < k < |ops| ensures !Replaces(w, files, ops, k, r) {
      if k < n { ShelvesStays(w, files, ops, n, k, r); }
    }
  }

  lemma WasShelved(w: World, files: Files, ops: seq<Op>, n: nat, i: nat, r: Request)
    requires |ops| == n + 1 && i < n && StillShelved(w, files, ops, i, r)
    ensures StillShelved(w, files, ops[..n], i, r) && !Replaces(w, files, ops, n, r)
  {
    forall k: nat | i < k < n ensures !Replaces(w, files, ops[..n], k, r) {
      assert !Replaces(w, files, ops, k, r);
      ShelvesStays(w, files, ops, n, k, r);
    }
  }

  /** The last call supplies what it shelves. */
  lemma LastSupplies(w: World, files: Files, ops: seq<Op>, n: nat, r: Request)
    requires |ops| == n + 1
    ensures Supplies(w, files, ops, n, r) <==> Shelves(w, files, ops, n, r)
  {
    assert StillShelved(w, files, ops, n, r);
  }

  /** An earlier call supplies what it did before, unless the last call takes its place. */
  lemma EarlierSupplies(w: World, files: Files, ops: seq<Op>, n: nat, i: nat, r: Request)
    requires |ops| == n + 1 && i < n
    ensures Supplies(w, files, ops, i, r) <==> Supplies(w, files, ops[..n], i, r) && !Replaces(w, files, ops, n, r)
  {
    ShelvesStays(w, files, ops, n, i, r);
    if StillShelved(w, files, ops, i, r) { WasShelved(w, files, ops, n, i, r); }
    if StillShelved(w, files, ops[..n], i, r) && !Replaces(w, files, ops, n, r) {
      StaysShelved(w, files, ops, n, i, r);
    }
  }

  ghost predicate OnShelf(w: World, files: Files, ops: seq<Op>, i: nat, r: Request) {
    Supplies(w, files, ops, i, r) ==>
      Shelf(w, Run(w, files, ops), r) == Some(AsResident(AnswerAt(w, files, ops, i).context))
  }

  lemma SupplyStaysOnShelf(w: World, files: Files, ops: seq<Op>, n: nat, i: nat, r: Request)
    requires |ops| == n + 1 && i <= n && (i < n ==> OnShelf(w, files, ops[..n], i, r))
    ensures OnShelf(w, files, ops, i, r)
  {
    if Supplies(w, files, ops, i, r) {
      StepShelf(w, files, ops, r);
      if i < n {
        EarlierSupplies(w, files, ops, n, i, r);
        AnswerStays(w, files, ops, n, i);
      }
    }
  }

  /** The shelf after a run holds the context of the supplying call, and nothing where there is none. */
  lemma {:induction false} ShelfFollowsCalls(w: World, files: Files, ops: seq<Op>, r: Request)
    ensures Shelf(w, Run(w, files, ops), r).Some? <==> Supplied(w, files, ops, r)
    ensures forall i: nat :: i < |ops| ==> OnShelf(w, files, ops, i, r)
  {
    if ops == [] {
    } else {
      var n := |ops| - 1;
      ShelfFollowsCalls(w, files, ops[..n], r);
      forall i: nat | i < |ops| ensures OnShelf(w, files, ops, i, r) { SupplyStaysOnShelf(w, files, ops, n, i, r); }
      if Shelf(w, Run(w, files, ops), r).Some? { SomeCallSupplies(w, files, ops, r); }
      if Supplied(w, files, ops, r) {
        var i: nat :| Supplies(w, files, ops, i, r);
        assert OnShelf(w, files, ops, i, r);
      }
    }
  }

  lemma SomeCallSupplies(w: World, files: Files, ops: seq<Op>, r: Request)
    requires ops != [] && Shelf(w, Run(w, files, ops), r).Some?
    requires Shelf(w, Run(w, files, ops[..|ops| - 1]), r).Some? <==> Supplied(w, files, ops[..|ops| - 1], r)
    ensures Supplied(w, files, ops, r)
  {
    var n := |ops| - 1;
    StepShelf(w, files, ops, r);
    if Shelves(w, files, ops, n, r) {
      LastSupplies(w, files, ops, n, r);
    } else {
      var i: nat :| Supplies(w, files, ops[..n], i, r);
      EarlierSupplies(w, files, ops, n, i, r);
      assert Supplies(w, files, ops, i, r);
    }
  }

  // ---------------------------------------------------------------- a fresh resolution

  /** The stated size if it is positive, else the size of the file. */
  function SizeOf(a: Artifact, file: Bytes): nat {
    match OptNat(a.sizeBytes)
    case Some(n) => if n > 0 then n else |file|
    case None => |file|
  }

  /** The context describes this artifact as it was found in the file store. */
  predicate ContextFor(w: World, files: Files, r: Request, c: Context)
    requires r.assignment.Some?
  {
    var a := r.assignment.value;
    && w.resolve(RawText(a.localPath)) == Some(c.path) && c.path in files
    && c.artifactId == CleanOrNone(a.artifactId) && c.source == Clean(a.source) && c.size == SizeOf(a, files[c.path])
    && c.layerStart == LayerStart(r) && c.layerEnd == LayerEnd(r)
    && c.expectedDigest == CleanOrNone(a.expectedDigest) && c.chunks == LenientRanges(a)
    && DigestOf(w, files[c.path], LenientWindows(c.chunks), c.expectedDigest) ==
         Ok(WindowDigest(c.digest, c.digestSource, c.bytesRead))
    && ResolveCoverage(a) == Ok(c.coverage)
  }

  /** There is a fresh context exactly when the artifact is named, there, well accounted and covers the layers. */
  lemma FreshIsExact(w: World, files: Files, r: Request, c: Context)
    ensures Fresh(w, files, r) == Ok(c) <==>
              && r.assignment.Some? && Clean(r.assignment.value.source) != ""
              && LayerCoverage(r.assignment.value, LayerStart(r), LayerEnd(r)).Ok? && ContextFor(w, files, r, c)
  {
  }

  // ---------------------------------------------------------------- every answer of a run

  lemma NotInTable(w: World, st: State, r: Request, anew: Result<Context, EngineError>)
    requires Entry(st, r).None?
    ensures var out := ResolveVia(w, st, r, anew).1;
            if Shelf(w, st, r).Some? then AnsweredFrom(w, r, Shelf(w, st, r).value, ResidentHit, out)
            else out == if anew.Ok? then Resolved(anew.value, Loaded) else Refused(anew.error)
  {
    if Shelf(w, st, r).Some? {
      var c := st.residents[ResidentKeyOf(w, r).value];
      DriftIsContradiction(w, r.assignment.value, c);
      DriftIsContradiction(w, r.assignment.value, AsResident(c));
    }
  }

  /**
   The engine's answer after any run.  A session that an earlier call opened, and that was not finalized or reset
   since, is answered with that call's context unless the request contradicts it; else a shard that the engine still
   holds is answered likewise; else the files are read.  In particular no session is answered with another's context.
   */
  lemma AnswersFollowHistory(w: World, files: Files, ops: seq<Op>, r: Request)
    ensures var out := Resolve(w, files, Run(w, files, ops), r).1;
            && (forall i: nat :: Serves(w, files, ops, i, r) ==>
                  AnsweredFrom(w, r, AnswerAt(w, files, ops, i).context, SessionHit, out))
            && (!Served(w, files, ops, r) ==>
                  && (forall i: nat :: Supplies(w, files, ops, i, r) ==>
                        AnsweredFrom(w, r, AnswerAt(w, files, ops, i).context, ResidentHit, out))
                  && (!Supplied(w, files, ops, r) ==>
                        out == match Fresh(w, files, r)
                               case Ok(c) => Resolved(c, Loaded)
                               case Err(e) => Refused(e)))
  {
    var st, anew := Run(w, files, ops), Fresh(w, files, r);
    TableFollowsCalls(w, files, ops, r);
    ShelfFollowsCalls(w, files, ops, r);
    forall i: nat | Serves(w, files, ops, i, r)
      ensures AnsweredFrom(w, r, AnswerAt(w, files, ops, i).context, SessionHit, ResolveVia(w, st, r, anew).1)
    {
      FoundInTable(w, st, r, anew);
      SameAnswer(w, r, AnswerAt(w, files, ops, i).context, SessionHit, ResolveVia(w, st, r, anew).1);
    }
    if !Served(w, files, ops, r) {
      NotInTable(w, st, r, anew);
      forall i: nat | Supplies(w, files, ops, i, r)
        ensures AnsweredFrom(w, r, AnswerAt(w, files, ops, i).context, ResidentHit, ResolveVia(w, st, r, anew).1)
      {
        assert OnShelf(w, files, ops, i, r);
        SameAnswer(w, r, AnswerAt(w, files, ops, i).context, ResidentHit, ResolveVia(w, st, r, anew).1);
      }
    }
  }

  lemma SameAnswer(w: World, r: Request, c: Context, how: How, out: Resolution)
    ensures AnsweredFrom(w, r, AsResident(c), how, out) <==> AnsweredFrom(w, r, c, how, out)
  {
    if r.assignment.Some? {
      DriftIsContradiction(w, r.assignment.value, c);
      DriftIsContradiction(w, r.assignment.value, AsResident(c));
    }
  }

  /** A session hit is there exactly when some call serves the session and the request does not contradict it. */
  lemma SessionHitsAreOwn(w: World, files: Files, ops: seq<Op>, r: Request)
    ensures var out := Resolve(w, files, Run(w, files, ops), r).1;
            out.Resolved? && out.how == SessionHit <==>
              exists i: nat :: Serves(w, files, ops, i, r)
                && (r.assignment.Some? ==> Consistent(w, r.assignment.value, AnswerAt(w, files, ops, i).context))
  {
    AnswersFollowHistory(w, files, ops, r);
    var out := Resolve(w, files, Run(w, files, ops), r).1;
    if out.Resolved? && out.how == SessionHit {
      OnlyServedHits(w, files, ops, r);
      var i: nat :| Serves(w, files, ops, i, r);
      assert AnsweredFrom(w, r, AnswerAt(w, files, ops, i).context, SessionHit, out);
    }
  }

  lemma OnlyServedHits(w: World, files: Files, ops: seq<Op>, r: Request)
    requires var out := Resolve(w, files, Run(w, files, ops), r).1; out.Resolved? && out.how == SessionHit
    ensures Served(w, files, ops, r)
  {
    TableFollowsCalls(w, files, ops, r);
    if Entry(Run(w, files, ops), r).None? { NotInTable(w, Run(w, files, ops), r, Fresh(w, files, r)); }
  }

  /** A finalize changes no answer to any other session, in any state. */
  lemma FinalizeSparesOthers(w: World, files: Files, st: State, q: Request, r: Request)
    requires !SameSession(q, r)
    ensures Resolve(w, files, Step(w, files, st, Finalize(q)), r).1 == Resolve(w, files, st, r).1
  {
    KeyIsSession(q, r);
    KeyIsSession(r, q);
  }

  /** After its finalize a session is answered from no table entry. */
  lemma FinalizeEndsSession(w: World, files: Files, ops: seq<Op>, q: Request, r: Request)
    requires SameSession(q, r)
    ensures var out := Resolve(w, files, Run(w, files, ops + [Finalize(q)]), r).1;
            !(out.Resolved? && out.how == SessionHit) && !(out.Refused? && out.error.SessionDrifted?)
  {
    var st := Run(w, files, ops);
    assert (ops + [Finalize(q)])[..|ops|] == ops;
    FinalizeEmptiesEntry(w, files, st, q, r);
    NotInTable(w, Step(w, files, st, Finalize(q)), r, Fresh(w, files, r));
    FreshNeverDrifts(w, files, r);
  }

  lemma FreshNeverDrifts(w: World, files: Files, r: Request)
    ensures Fresh(w, files, r).Err? ==> !Fresh(w, files, r).error.SessionDrifted?
  {
  }
}
