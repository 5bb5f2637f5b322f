/**
 What a load of the reference binary leaves behind: the prepared file byte by byte, and the facts that the loaded
 shard states about its artifact.
 */
module LoadedShards {
  import opened PyValue
  import opened ArtifactContract
  import opened ChunkWindows
  import opened ReferenceSession
  import opened Handoff
  import opened ReferenceBinary
  import opened ReferenceRuns
  import opened ReferenceChains

  /** Session files and prepared files have different names. */
  ghost predicate NamesApart(h: Host) { forall slot, d, k :: h.sessionFile(slot) != h.preparedFile(d, k) }

  /** Byte `k` of range `j` stands behind all the ranges before it. */
  predicate HoldsByte(content: Bytes, source: Bytes, rs: seq<ChunkRange>, j: nat, k: nat)
    requires j < |rs|
  {
    && rs[j].offset + k < |source| && TotalSize(rs[..j]) + k < |content|
    && content[TotalSize(rs[..j]) + k] == source[rs[j].offset + k]
  }

  /** The content is the ranges of the source, one after the other and nothing else. */
  ghost predicate HoldsRanges(content: Bytes, source: Bytes, rs: seq<ChunkRange>) {
    && |content| == TotalSize(rs)
    && forall j: nat, k: nat :: j < |rs| && k < rs[j].size ==> HoldsByte(content, source, rs, j, k)
  }

  lemma {:induction false} SizesBefore(rs: seq<ChunkRange>, j: nat)
    requires j <= |rs|
    ensures BytesBefore(StrictWindows(rs), j) == TotalSize(rs[..j])
  {
    if j == 0 {
    } else {
      SizesBefore(rs[1..], j - 1);
      assert StrictWindows(rs)[1..] == StrictWindows(rs[1..]);
      assert rs[..j][0] == rs[0] && rs[..j][1..] == rs[1..][..j - 1];
    }
  }

  lemma CopyHoldsByte(content: Bytes, source: Bytes, rs: seq<ChunkRange>, j: nat, k: nat)
    requires Materialized(source, StrictWindows(rs)) == Written(content, true) && j < |rs| && k < rs[j].size
    ensures HoldsByte(content, source, rs, j, k)
  {
    MaterializedByte(source, StrictWindows(rs), j, k);
    SizesBefore(rs, j);
  }

  /** The copy of strict ranges that passed the digest loop. */
  lemma CopyHoldsRanges(w: World, source: Bytes, rs: seq<ChunkRange>)
    requires HashedWindows(w, source, StrictWindows(rs)).Ok?
    ensures HoldsRanges(Materialized(source, StrictWindows(rs)).content, source, rs)
  {
    var content := Materialized(source, StrictWindows(rs)).content;
    DigestedWindowMaterializes(w, source, StrictWindows(rs));
    WindowBytesIsTotalSize(rs);
    forall j: nat, k: nat | j < |rs| && k < rs[j].size ensures HoldsByte(content, source, rs, j, k) {
      CopyHoldsByte(content, source, rs, j, k);
    }
  }

  /** What the load wrote for the shard, seen from the artifact it read. */
  ghost predicate PreparedFrom(h: Host, content: Bytes, source: Bytes, rs: seq<ChunkRange>, window: ShardWindow) {
    && window.size == |content| && window.sha == h.world.sha256(content)
    && (if rs == [] then content == source && window.mode == "full_artifact"
        else HoldsRanges(content, source, rs) && window.mode == "chunk_ranges")
  }

  lemma PlannedContent(h: Host, file: Bytes, r: Request, a: Artifact)
    requires PlanCopy(h, file, r, a).Ok?
    ensures StrictRanges(a).Ok?
    ensures var p, rs := PlanCopy(h, file, r, a).value, StrictRanges(a).value;
            PreparedFrom(h, p.copy.content, file, rs, WindowOf(h, p.path, p.copy.content, p.seen.ranges))
  {
    var rs := StrictRanges(a).value;
    if rs != [] { CopyHoldsRanges(h.world, file, rs); }
  }

  lemma ReadyWindow(h: Host, st: State, r: Request, c: Shard)
    requires NamesApart(h) && Step(h, st, r).1.reply == Ready(c)
    ensures c.window.path in Step(h, st, r).0.files && c.window.path in Prepare(h, st.files, r).0
    ensures Step(h, st, r).0.files[c.window.path] == Prepare(h, st.files, r).0[c.window.path]
  {
    ReadyIsPrepared(h, st, r, c);
    PreparedParts(h, st.files, r, c);
    PreparedNames(h, st.files, r, c);
  }

  lemma AssembledNames(h: Host, r: Request, a: Artifact, local: string, size: int, i: Inspection, dir: string,
                       window: ShardWindow)
    requires Assemble(h, r, a, local, size, i, dir, window).Ok?
    ensures var c := Assemble(h, r, a, local, size, i, dir, window).value;
            exists slot :: c.sessionPath == h.sessionFile(slot) && c.receiptPath == h.receiptFile(slot)
  {
  }

  lemma PreparedNames(h: Host, files: Files, r: Request, c: Shard)
    requires NamesApart(h) && Prepare(h, files, r).1 == Ok(c)
    ensures c.sessionPath != c.window.path
  {
    PreparedParts(h, files, r, c);
    var a := r.assignment.value;
    var p := PlanCopy(h, files[c.localPath], r, a).value;
    AssembledNames(h, r, a, c.localPath, |files[p.path := p.copy.content][c.localPath]|, p.seen, p.dir,
                   WindowOf(h, p.path, p.copy.content, p.seen.ranges));
  }

  /**
   A successful load, seen on disk: the prepared file is the whole artifact if there are no chunk ranges, and else
   exactly the ranges' bytes in order; size, hash and mode say so, and so does the declared byte count.
   */
  lemma LoadedWindowIsExact(h: Host, st: State, r: Request, c: Shard)
    requires NamesApart(h) && Step(h, st, r).1.reply == Ready(c)
    ensures Located(h, st.files, r) == Ok(c.localPath) && StrictRanges(r.assignment.value).Ok?
    ensures c.window.path in Step(h, st, r).0.files
    ensures var a, content := r.assignment.value, Step(h, st, r).0.files[c.window.path];
            var rs := StrictRanges(a).value;
            && PreparedFrom(h, content, st.files[c.localPath], rs, c.window)
            && (a.coverage.CoverageDoc? && rs != [] ==> c.facts.coveredBytes == Some(|content|))
  {
    ReadyIsPrepared(h, st, r, c);
    PreparedParts(h, st.files, r, c);
    ReadyWindow(h, st, r, c);
    var a := r.assignment.value;
    PlannedContent(h, st.files[c.localPath], r, a);
    LoadedFacts(h, st.files, r, c);
    if a.coverage.CoverageDoc? && StrictRanges(a).value != [] { DeclaredBytes(a); }
  }

  lemma DeclaredBytes(a: Artifact)
    requires ResolveCoverage(a).Ok? && a.coverage.CoverageDoc? && StrictRanges(a).Ok? && StrictRanges(a).value != []
    ensures ResolveCoverage(a).value.Some?
    ensures ResolveCoverage(a).value.value.coveredBytes == TotalSize(StrictRanges(a).value)
  {
  }

  // ---------------------------------------------------------------- the facts

  /** The names of all ranges, without blank ones and repetitions. */
  ghost predicate TensorsOf(tensors: seq<string>, rs: seq<ChunkRange>) {
    && (forall t :: t in tensors <==> Strip(t) != "" && NamedBy(rs, t))
    && (forall i, j :: 0 <= i < j < |tensors| ==> tensors[i] != tensors[j])
  }

  ghost predicate NamedBy(rs: seq<ChunkRange>, t: string) { exists i :: 0 <= i < |rs| && t in rs[i].tensors }

  lemma {:induction false} DistinctMeans(names: seq<string>)
    ensures forall t :: t in Distinct(names) <==> Strip(t) != "" && t in names
    ensures forall i, j :: 0 <= i < j < |Distinct(names)| ==> Distinct(names)[i] != Distinct(names)[j]
  {
    if names == [] {
    } else {
      var n := |names| - 1;
      DistinctMeans(names[..n]);
      assert names == names[..n] + [names[n]];
    }
  }

  lemma {:induction false} AllNamesMean(rs: seq<ChunkRange>, t: string)
    ensures t in AllNames(rs) <==> NamedBy(rs, t)
  {
    if rs == [] {
    } else {
      var n := |rs| - 1;
      AllNamesMean(rs[..n], t);
      if NamedBy(rs[..n], t) {
        var i :| 0 <= i < n && t in rs[..n][i].tensors;
        assert t in rs[i].tensors;
      }
      if NamedBy(rs, t) {
        var i :| 0 <= i < |rs| && t in rs[i].tensors;
        if i < n { assert t in rs[..n][i].tensors; }
      }
    }
  }

  lemma TensorsAreExact(rs: seq<ChunkRange>)
    ensures TensorsOf(Distinct(AllNames(rs)), rs)
  {
    DistinctMeans(AllNames(rs));
    forall t ensures t in AllNames(rs) <==> NamedBy(rs, t) { AllNamesMean(rs, t); }
  }

  /** What the loaded shard states about its artifact. */
  ghost predicate FactsAbout(h: Host, facts: ArtifactFacts, file: Bytes, a: Artifact) {
    var rs := StrictRanges(a);
    && rs.Ok? && ResolveCoverage(a).Ok?
    && facts.source == Clean(a.source) && facts.chunkCount == |rs.value| && TensorsOf(facts.tensors, rs.value)
    && facts.bytesRead >= 0
    && DigestOf(h.world, file, StrictWindows(rs.value), CleanOrNone(a.expectedDigest)) ==
         Ok(WindowDigest(facts.digest, facts.digestSource, facts.bytesRead))
    && (match ResolveCoverage(a).value
        case None => facts.coverageMode.None? && facts.coveredBytes.None? && facts.coveredRanges.None?
        case Some(x) => facts.coverageMode == Some(x.mode) && facts.coveredBytes == Some(x.coveredBytes)
                        && facts.coveredRanges == Some(x.coveredRanges))
  }

  lemma AssembledFacts(h: Host, r: Request, a: Artifact, file: Bytes, local: string, size: int, dir: string,
                       window: ShardWindow)
    requires Inspect(h, file, a).Ok? && Assemble(h, r, a, local, size, Inspect(h, file, a).value, dir, window).Ok?
    ensures var c := Assemble(h, r, a, local, size, Inspect(h, file, a).value, dir, window).value;
            FactsAbout(h, c.facts, file, a) && c.facts.sizeBytes == size
  {
    TensorsAreExact(StrictRanges(a).value);
  }

  /** Every load, whether or not its paths read back, states the truth about its artifact. */
  lemma LoadedFacts(h: Host, files: Files, r: Request, c: Shard)
    requires Prepare(h, files, r).1 == Ok(c)
    ensures Located(h, files, r) == Ok(c.localPath) && FactsAbout(h, c.facts, files[c.localPath], r.assignment.value)
    ensures c.window.path != c.localPath ==> c.facts.sizeBytes == |files[c.localPath]|
  {
    PreparedParts(h, files, r, c);
    var a := r.assignment.value;
    var p := PlanCopy(h, files[c.localPath], r, a).value;
    AssembledFacts(h, r, a, files[c.localPath], c.localPath, |files[p.path := p.copy.content][c.localPath]|, p.dir,
                   WindowOf(h, p.path, p.copy.content, p.seen.ranges));
  }

  // ---------------------------------------------------------------- which loads succeed

  /** The artifact file that the request names. */
  predicate Names(h: Host, r: Request, path: string) {
    && r.assignment.Some? && Clean(r.assignment.value.localPath) != ""
    && h.world.resolve(Clean(r.assignment.value.localPath)) == Some(path)
  }

  /** The artifact is there and sound: coverage, ranges, and windows that can be digested. */
  ghost predicate SoundArtifact(h: Host, files: Files, a: Artifact, path: string) {
    && path in files && ResolveCoverage(a).Ok? && StrictRanges(a).Ok?
    && var windows := StrictWindows(StrictRanges(a).value);
       if windows == [] then Clean(a.expectedDigest) != "" else AllIntact(h.world, files[path], windows)
  }

  /** The strings that a context needs. */
  predicate NamesContext(h: Host, r: Request) {
    && r.stateFilesDir.Some? && Clean(r.stateFilesDir.value) != ""
    && h.world.resolve(Clean(r.stateFilesDir.value)).Some?
    && Clean(r.sessionId) != "" && Clean(r.modelId) != ""
    && r.assignment.Some? && Clean(r.assignment.value.source) != ""
  }

  lemma LocatedIsExact(h: Host, files: Files, r: Request, path: string)
    ensures Located(h, files, r) == Ok(path) <==> Names(h, r, path) && path in files
  {
  }

  lemma InspectionIsExact(h: Host, files: Files, a: Artifact, path: string)
    requires path in files
    ensures Inspect(h, files[path], a).Ok? <==> SoundArtifact(h, files, a, path)
  {
    if StrictRanges(a).Ok? {
      DigestIsExact(h.world, files[path], StrictWindows(StrictRanges(a).value), CleanOrNone(a.expectedDigest));
    }
  }

  lemma CopyIsComplete(h: Host, file: Bytes, r: Request, a: Artifact)
    requires PlanCopy(h, file, r, a).Ok?
    ensures PlanCopy(h, file, r, a).value.copy.complete
  {
    var rs := StrictRanges(a).value;
    if rs != [] { DigestedWindowMaterializes(h.world, file, StrictWindows(rs)); }
  }

  lemma AssembledIff(h: Host, r: Request, a: Artifact, local: string, size: int, i: Inspection, dir: string,
                     window: ShardWindow)
    ensures Assemble(h, r, a, local, size, i, dir, window).Ok? <==>
              Clean(r.sessionId) != "" && Clean(r.modelId) != "" && Clean(a.source) != ""
  {
  }

  lemma PlannedIff(h: Host, file: Bytes, r: Request, a: Artifact)
    ensures PlanCopy(h, file, r, a).Ok? <==>
              && Inspect(h, file, a).Ok? && r.stateFilesDir.Some? && Clean(r.stateFilesDir.value) != ""
              && h.world.resolve(Clean(r.stateFilesDir.value)).Some?
  {
  }

  lemma PreparedIff(h: Host, files: Files, r: Request, path: string)
    requires Located(h, files, r) == Ok(path)
    ensures Prepare(h, files, r).1.Ok? <==> SoundArtifact(h, files, r.assignment.value, path) && NamesContext(h, r)
  {
    var a := r.assignment.value;
    InspectionIsExact(h, files, a, path);
    PlannedIff(h, files[path], r, a);
    if PlanCopy(h, files[path], r, a).Ok? {
      var p := PlanCopy(h, files[path], r, a).value;
      CopyIsComplete(h, files[path], r, a);
      AssembledIff(h, r, a, path, |files[p.path := p.copy.content][path]|, p.seen, p.dir,
                   WindowOf(h, p.path, p.copy.content, p.seen.ranges));
    }
  }

  /** A load succeeds exactly when its artifact is sound and the request names workspace, session and model. */
  lemma LoadIsAcceptedIff(h: Host, st: State, r: Request)
    requires r.action == LoadShard
    ensures Step(h, st, r).1.reply.Ready? <==>
              exists path :: Names(h, r, path) && SoundArtifact(h, st.files, r.assignment.value, path)
                             && NamesContext(h, r)
    ensures !Step(h, st, r).1.reply.Ready? ==> Step(h, st, r).0.loaded == st.loaded
  {
    if Located(h, st.files, r).Ok? {
      var path := Located(h, st.files, r).value;
      LocatedIsExact(h, st.files, r, path);
      PreparedIff(h, st.files, r, path);
    }
    if path :| Names(h, r, path) && path in st.files { LocatedIsExact(h, st.files, r, path); }
  }

  /** Where the loaded shard keeps its files, and what it is called. */
  ghost predicate LoadedAs(h: Host, r: Request, c: Shard) {
    && c.sessionId == Clean(r.sessionId) && c.modelId == Clean(r.modelId)
    && c.layerStart == OptInt(r.layerStart) && c.layerEnd == OptInt(r.layerEnd) && Names(h, r, c.localPath)
    && SlotOf(h, r).Ok? && c.sessionPath == h.sessionFile(SlotOf(h, r).value)
    && c.receiptPath == h.receiptFile(SlotOf(h, r).value)
    && c.window.path == h.preparedFile(SlotOf(h, r).value.dir, c.facts.digest)
  }

  lemma AssembledAs(h: Host, r: Request, a: Artifact, local: string, size: int, i: Inspection, dir: string,
                    window: ShardWindow)
    requires Assemble(h, r, a, local, size, i, dir, window).Ok? && WorkspaceOf(h, r) == Ok(dir)
    ensures var c := Assemble(h, r, a, local, size, i, dir, window).value;
            && c.sessionId == Clean(r.sessionId) && c.modelId == Clean(r.modelId)
            && c.layerStart == OptInt(r.layerStart) && c.layerEnd == OptInt(r.layerEnd) && c.localPath == local
            && c.window == window && c.facts.digest == i.digest.digest
            && SlotOf(h, r).Ok? && SlotOf(h, r).value.dir == dir
            && c.sessionPath == h.sessionFile(SlotOf(h, r).value)
            && c.receiptPath == h.receiptFile(SlotOf(h, r).value)
  {
  }

  /** A successful load is remembered and recorded under the request's own names, and writes nothing else. */
  lemma LoadIsExact(h: Host, st: State, r: Request, c: Shard)
    requires r.action == LoadShard && Step(h, st, r).1.reply == Ready(c)
    ensures LoadedAs(h, r, c)
    ensures Step(h, st, r).0.loaded == st.loaded[c.sessionId := c]
    ensures var after := Step(h, st, r).0.files;
            && c.sessionPath in after && after[c.sessionPath] == h.dumpSession(WriteSession(c))
            && WritesOnly(st.files, after, {c.window.path, c.sessionPath})
  {
    ReadyIsPrepared(h, st, r, c);
    PreparedParts(h, st.files, r, c);
    PreparedAs(h, st.files, r, c);
  }

  lemma PreparedAs(h: Host, files: Files, r: Request, c: Shard)
    requires Prepare(h, files, r).1 == Ok(c)
    ensures LoadedAs(h, r, c)
  {
    PreparedParts(h, files, r, c);
    LocatedIsExact(h, files, r, c.localPath);
    var a := r.assignment.value;
    var p := PlanCopy(h, files[c.localPath], r, a).value;
    AssembledAs(h, r, a, c.localPath, |files[p.path := p.copy.content][c.localPath]|, p.seen, p.dir,
                WindowOf(h, p.path, p.copy.content, p.seen.ranges));
  }
}
