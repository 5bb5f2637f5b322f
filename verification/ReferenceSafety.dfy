/**
 Run safety of the reference binary: over every run with restarts, an accepted decode follows a load and
 a prefill of its session that no finalize has undone, and its input state belongs to the latest of both.
 */
module ReferenceSafety {
  import opened PyValue
  import opened ReferenceSession
  import opened Handoff
  import opened ReferenceBinary
  import opened ReferenceRuns
  import opened RestartTransparency

  // ---------------------------------------------------------------- the history of a session

  /** What one event did to a session; a prefill that wrote its receipt counts even if it was then refused. */
  datatype Mark = Nothing | Loads(shard: Shard) | Prefills(digest: Digest) | Ends

  function MarkOf(r: Request, out: Outcome, s: string): Mark {
    if out.reply.Ready? && out.reply.shard.sessionId == s then Loads(out.reply.shard)
    else if out.receipt.Some? && Clean(r.sessionId) == s then Prefills(out.receipt.value)
    else if out.reply.Finalized? && Clean(r.sessionId) == s then Ends
    else Nothing
  }

  function EventMark(h: Host, st: State, e: Event, s: string): Mark {
    if e.Call? then MarkOf(e.request, Step(h, st, e.request).1, s) else Nothing
  }

  /** Entry `i` is what event `i` did at its point of the run. */
  function History(h: Host, st: State, events: seq<Event>, s: string): (marks: seq<Mark>)
    ensures |marks| == |events|
  {
    seq(|events|, i requires 0 <= i < |events| => EventMark(h, Run(h, st, events[..i]), events[i], s))
  }

  lemma HistoryGrows(h: Host, st: State, events: seq<Event>, s: string, n: nat)
    requires |events| == n + 1
    ensures History(h, st, events, s) == History(h, st, events[..n], s) +
        [EventMark(h, Run(h, st, events[..n]), events[n], s)]
  {
    forall i | 0 <= i < n ensures events[..n][..i] == events[..i] {}
  }

  datatype LoadMark = LoadMark(at: nat, shard: Shard)
  datatype PrefillMark = PrefillMark(at: nat, sha: string, digest: Digest)

  /** The latest load that no end of the session follows. */
  function LatestLoad(marks: seq<Mark>): Option<LoadMark> {
    if marks == [] then None
    else
      var n := |marks| - 1;
      LoadAfter(LatestLoad(marks[..n]), marks[n], n)
  }

  function LoadAfter(load: Option<LoadMark>, mark: Mark, at: nat): Option<LoadMark> {
    if mark.Loads? then Some(LoadMark(at, mark.shard)) else if mark.Ends? then None else load
  }

  /** The latest prefill that no end of the session follows, with the hash of the shard it ran on. */
  function LatestPrefill(marks: seq<Mark>): Option<PrefillMark> {
    if marks == [] then None
    else
      var n := |marks| - 1;
      PrefillAfter(LatestPrefill(marks[..n]), LatestLoad(marks[..n]), marks[n], n)
  }

  function PrefillAfter(prefill: Option<PrefillMark>, load: Option<LoadMark>, mark: Mark,
                        at: nat): Option<PrefillMark> {
    if mark.Prefills? && load.Some? then Some(PrefillMark(at, load.value.shard.window.sha, mark.digest))
    else if mark.Ends? then None
    else prefill
  }

  /** The latest load happened, and nothing since then loaded or ended the session. */
  lemma {:induction false} LatestLoadMeans(marks: seq<Mark>)
    requires LatestLoad(marks).Some?
    ensures var m := LatestLoad(marks).value;
            && m.at < |marks| && marks[m.at] == Loads(m.shard)
            && forall i :: m.at < i < |marks| ==> !marks[i].Loads? && !marks[i].Ends?
  {
    if !marks[|marks| - 1].Loads? { LatestLoadMeans(marks[..|marks| - 1]); }
  }

  /** The latest prefill happened, on the shard loaded then, and nothing since then ended the session. */
  lemma {:induction false} LatestPrefillMeans(marks: seq<Mark>)
    requires LatestPrefill(marks).Some?
    ensures var m := LatestPrefill(marks).value;
            && m.at < |marks| && marks[m.at] == Prefills(m.digest)
            && LatestLoad(marks[..m.at]).Some? && LatestLoad(marks[..m.at]).value.shard.window.sha == m.sha
            && (forall i :: m.at < i < |marks| ==> !marks[i].Ends?)
            && (forall i :: m.at < i < |marks| && marks[i].Prefills? ==> LatestLoad(marks[..i]).None?)
  {
    var n := |marks| - 1;
    if !(marks[n].Prefills? && LatestLoad(marks[..n]).Some?) {
      LatestPrefillMeans(marks[..n]);
      var m := LatestPrefill(marks).value;
      assert marks[..n][..m.at] == marks[..m.at];
      forall i | m.at < i < |marks| && marks[i].Prefills? ensures LatestLoad(marks[..i]).None? {
        if i < n { assert marks[..n][..i] == marks[..i] && marks[..n][i] == marks[i]; }
      }
    }
  }

  // ---------------------------------------------------------------- what the files say about the history

  ghost predicate HoldsReceipt(h: Host, bytes: Bytes, sha: string, digest: Digest) {
    var doc := h.loadReceipt(bytes);
    && doc.Some? && doc.value.abi == Text(RECEIPT_ABI)
    && doc.value.preparedSha == Text(sha) && doc.value.prefillDigest == Text(digest) && IsDigest(sha)
  }

  /** The session file is that of the latest load, the receipt that of the latest prefill. */
  ghost predicate Tracks(h: Host, plan: Plan, files: Files, s: string, load: Option<LoadMark>,
                         prefill: Option<PrefillMark>) {
    && (load.Some? <==> Home(h, plan, s) in files)
    && (load.Some? ==> Recorded(h, plan, files, s, load.value.shard))
    && (prefill.Some? <==> ReceiptHome(h, plan, s) in files)
    && (prefill.Some? ==>
          && load.Some?
          && HoldsReceipt(h, files[ReceiptHome(h, plan, s)], prefill.value.sha, prefill.value.digest))
  }

  /** `Tracks` after one more mark. */
  ghost predicate Advances(h: Host, plan: Plan, files: Files, s: string, load: Option<LoadMark>,
                           prefill: Option<PrefillMark>, mark: Mark, at: nat) {
    Tracks(h, plan, files, s, LoadAfter(load, mark, at), PrefillAfter(prefill, load, mark, at))
  }

  /** The same for the mark of a request, given what the request did. */
  ghost predicate StepAdvances(h: Host, plan: Plan, step: (State, Outcome), r: Request, s: string,
                               load: Option<LoadMark>, prefill: Option<PrefillMark>, at: nat) {
    Advances(h, plan, step.0.files, s, load, prefill, MarkOf(r, step.1, s), at)
  }

  lemma NothingAdvances(h: Host, plan: Plan, files: Files, s: string, load: Option<LoadMark>,
                        prefill: Option<PrefillMark>, mark: Mark, at: nat)
    requires Tracks(h, plan, files, s, load, prefill) && mark == Nothing
    ensures Advances(h, plan, files, s, load, prefill, mark, at)
  {
  }

  lemma LoadAdvances(h: Host, plan: Plan, files: Files, s: string, load: Option<LoadMark>,
                     prefill: Option<PrefillMark>, c: Shard, at: nat)
    requires Tracks(h, plan, files, s, Some(LoadMark(at, c)), prefill)
    ensures Advances(h, plan, files, s, load, prefill, Loads(c), at)
  {
  }

  lemma ReadyMark(r: Request, c: Shard, s: string)
    ensures MarkOf(r, Outcome(Ready(c), None), s) == if c.sessionId == s then Loads(c) else Nothing
  {
  }

  lemma RefusedMark(r: Request, e: Error, s: string)
    ensures MarkOf(r, Outcome(Refused(e), None), s) == Nothing
  {
  }

  /** Neither file of the session changed. */
  predicate Untouched(h: Host, plan: Plan, f: Files, g: Files, s: string) {
    SameAt(f, g, Home(h, plan, s)) && SameAt(f, g, ReceiptHome(h, plan, s))
  }

  lemma TracksUntouched(h: Host, plan: Plan, f: Files, g: Files, s: string, load: Option<LoadMark>,
                        prefill: Option<PrefillMark>)
    requires Tracks(h, plan, f, s, load, prefill) && Untouched(h, plan, f, g, s)
    ensures Tracks(h, plan, g, s, load, prefill)
  {
  }

  lemma PrepareLeavesSessions(h: Host, plan: Plan, files: Files, r: Request, s: string)
    requires Separate(h, plan)
    ensures Untouched(h, plan, files, Prepare(h, files, r).0, s)
  {
    if Located(h, files, r).Ok? {
      var p := PlanCopy(h, files[Located(h, files, r).value], r, r.assignment.value);
      if p.Ok? { assert p.value.path == h.preparedFile(p.value.dir, p.value.seen.digest.digest); }
    }
  }

  lemma RecordTracks(h: Host, plan: Plan, files: Files, c: Shard, load: Option<LoadMark>, prefill: Option<PrefillMark>,
                     at: nat)
    requires Sound(h, plan) && Tracks(h, plan, files, c.sessionId, load, prefill) && Fits(h, plan, c.sessionId, c)
    ensures Tracks(h, plan, files[c.sessionPath := h.dumpSession(WriteSession(c))], c.sessionId, Some(LoadMark(at, c)),
                   prefill)
  {
    assert Home(h, plan, c.sessionId) != ReceiptHome(h, plan, c.sessionId);
  }

  lemma RecordLeavesOthers(h: Host, plan: Plan, files: Files, c: Shard, s: string)
    requires Sound(h, plan) && Fits(h, plan, c.sessionId, c) && c.sessionId != s
    ensures Untouched(h, plan, files, files[c.sessionPath := h.dumpSession(WriteSession(c))], s)
  {
    assert Home(h, plan, s) != Home(h, plan, c.sessionId) && ReceiptHome(h, plan, s) != Home(h, plan, c.sessionId);
  }

  lemma ReadyTracks(h: Host, plan: Plan, files: Files, c: Shard, r: Request, s: string, load: Option<LoadMark>,
                    prefill: Option<PrefillMark>, at: nat)
    requires Sound(h, plan) && Tracks(h, plan, files, s, load, prefill) && Fits(h, plan, c.sessionId, c)
    ensures Advances(h, plan, files[c.sessionPath := h.dumpSession(WriteSession(c))], s, load, prefill,
                     MarkOf(r, Outcome(Ready(c), None), s), at)
  {
    var after := files[c.sessionPath := h.dumpSession(WriteSession(c))];
    ReadyMark(r, c, s);
    if c.sessionId == s {
      OwnReadyTracks(h, plan, files, after, c, load, prefill, at);
    } else {
      OtherReadyTracks(h, plan, files, after, c, s, load, prefill, at);
    }
  }

  lemma OwnReadyTracks(h: Host, plan: Plan, files: Files, after: Files, c: Shard, load: Option<LoadMark>,
                       prefill: Option<PrefillMark>, at: nat)
    requires Sound(h, plan) && Tracks(h, plan, files, c.sessionId, load, prefill) && Fits(h, plan, c.sessionId, c)
    requires after == files[c.sessionPath := h.dumpSession(WriteSession(c))]
    ensures Advances(h, plan, after, c.sessionId, load, prefill, Loads(c), at)
  {
    RecordTracks(h, plan, files, c, load, prefill, at);
    LoadAdvances(h, plan, after, c.sessionId, load, prefill, c, at);
  }

  lemma OtherReadyTracks(h: Host, plan: Plan, files: Files, after: Files, c: Shard, s: string, load: Option<LoadMark>,
                         prefill: Option<PrefillMark>, at: nat)
    requires Sound(h, plan) && Tracks(h, plan, files, s, load, prefill) && Fits(h, plan, c.sessionId, c)
    requires c.sessionId != s && after == files[c.sessionPath := h.dumpSession(WriteSession(c))]
    ensures Advances(h, plan, after, s, load, prefill, Nothing, at)
  {
    RecordLeavesOthers(h, plan, files, c, s);
    TracksUntouched(h, plan, files, after, s, load, prefill);
    NothingAdvances(h, plan, after, s, load, prefill, Nothing, at);
  }

  lemma InstallTracks(h: Host, plan: Plan, loaded: map<string, Shard>, files: Files, result: Result<Shard, Error>,
                      r: Request, s: string,
                      load: Option<LoadMark>, prefill: Option<PrefillMark>, at: nat)
    requires Sound(h, plan) && Tracks(h, plan, files, s, load, prefill)
    requires result.Ok? ==> Fits(h, plan, result.value.sessionId, result.value)
    ensures var (after, out) := Install(h, loaded, files, result);
            Advances(h, plan, after.files, s, load, prefill, MarkOf(r, out, s), at)
  {
    if result.Ok? {
      ReadyTracks(h, plan, files, result.value, r, s, load, prefill, at);
    } else {
      RefusedMark(r, result.error, s);
      NothingAdvances(h, plan, files, s, load, prefill, Nothing, at);
    }
  }

  lemma LoadTracks(h: Host, plan: Plan, st: State, r: Request, s: string, load: Option<LoadMark>,
                   prefill: Option<PrefillMark>, at: nat)
    requires Sound(h, plan) && Disciplined(h, plan, r) && r.action == LoadShard
    requires Tracks(h, plan, st.files, s, load, prefill)
    ensures StepAdvances(h, plan, LoadStep(h, st, r), r, s, load, prefill, at)
  {
    var (files, result) := Prepare(h, st.files, r);
    PrepareLeavesSessions(h, plan, st.files, r, s);
    TracksUntouched(h, plan, st.files, files, s, load, prefill);
    if result.Ok? { PreparedShardFits(h, plan, st.files, r); }
    InstallTracks(h, plan, st.loaded, files, result, r, s, load, prefill, at);
  }

  // ---------------------------------------------------------------- prefill and decode

  lemma TargetsLeaveSessions(h: Host, plan: Plan, f: Files, g: Files, r: Request, s: string)
    requires Disciplined(h, plan, r) && WritesOnly(f, g, TargetPaths(h, r))
    ensures Untouched(h, plan, f, g, s)
  {
    TargetsAreNoHomes(h, plan, r, s);
  }

  lemma OutputLeavesSessions(h: Host, plan: Plan, files: Files, c: Shard, source: Source, r: Request, payload: Bytes,
                             digest: Option<string>, s: string)
    requires Disciplined(h, plan, r)
    ensures Untouched(h, plan, files, Store(h, files, OutputOf(h, c, source, r, payload, digest)), s)
  {
    var o := OutputOf(h, c, source, r, payload, digest);
    OutputOnTarget(h, c, source, r, payload, digest);
    StoreWrites(h, files, o, TargetPaths(h, r));
    TargetsLeaveSessions(h, plan, files, Store(h, files, o), r, s);
  }

  lemma WrittenReceiptHolds(h: Host, c: Shard, r: Request, inputSha: Digest, digest: Digest)
    requires Faithful(h) && IsDigest(c.window.sha)
    ensures HoldsReceipt(h, h.dumpReceipt(ReceiptOf(c, r, inputSha, digest)), c.window.sha, digest)
  {
  }

  lemma RecordIsLatest(h: Host, plan: Plan, files: Files, s: string, c: Shard, load: Option<LoadMark>,
                       prefill: Option<PrefillMark>)
    requires Sound(h, plan) && Tracks(h, plan, files, s, load, prefill) && Recorded(h, plan, files, s, c)
    ensures load.Some? && load.value.shard == c
  {
    RecordedReads(h, plan, files, s, c);
    RecordedReads(h, plan, files, s, load.value.shard);
  }

  lemma ReceiptTracks(h: Host, plan: Plan, files: Files, s: string, c: Shard, bytes: Bytes, digest: Digest,
                      load: Option<LoadMark>, prefill: Option<PrefillMark>, at: nat)
    requires Sound(h, plan) && Tracks(h, plan, files, s, load, prefill) && Recorded(h, plan, files, s, c)
    requires HoldsReceipt(h, bytes, c.window.sha, digest)
    ensures Tracks(h, plan, files[c.receiptPath := bytes], s, load, Some(PrefillMark(at, c.window.sha, digest)))
  {
    assert Home(h, plan, s) != ReceiptHome(h, plan, s);
  }

  /** What a prefill does to the history of its own session. */
  lemma PrefillTracks(h: Host, plan: Plan, files: Files, found: Found, r: Request, s: string, load: Option<LoadMark>,
                      prefill: Option<PrefillMark>, at: nat)
    requires Sound(h, plan) && Disciplined(h, plan, r) && Tracks(h, plan, files, s, load, prefill)
    requires Recorded(h, plan, files, s, found.shard)
    ensures var (after, out) := PrefillOn(h, files, found, r);
            Tracks(h, plan, after, s, load, if out.receipt.Some? then
                Some(PrefillMark(at, found.shard.window.sha, out.receipt.value)) else prefill)
  {
    var c := found.shard;
    var payload := PrefillInput(h, files, c, r);
    if payload.Ok? {
      var inputSha := h.world.sha256(payload.value);
      var digest := ExecutionDigest(h, c, r, inputSha);
      var bytes := h.dumpReceipt(ReceiptOf(c, r, inputSha, digest));
      var mark := Some(PrefillMark(at, c.window.sha, digest));
      WrittenReceiptHolds(h, c, r, inputSha, digest);
      ReceiptTracks(h, plan, files, s, c, bytes, digest, load, prefill, at);
      OutputLeavesSessions(h, plan, files[c.receiptPath := bytes], c, found.source, r, payload.value,
                           CleanOrNone(Text(digest)), s);
      TracksUntouched(h, plan, files[c.receiptPath := bytes], PrefillOn(h, files, found, r).0, s, load, mark);
    }
  }

  lemma ProcessLeavesOthers(h: Host, plan: Plan, files: Files, found: Found, r: Request, s: string, t: string)
    requires Separate(h, plan) && Disciplined(h, plan, r) && s != t
    requires found.shard.receiptPath == ReceiptHome(h, plan, t)
    ensures Untouched(h, plan, files, ProcessOn(h, files, found, r).0, s)
  {
    ProcessWrites(h, files, found, r);
    TargetsAreNoHomes(h, plan, r, s);
    assert ReceiptHome(h, plan, s) != ReceiptHome(h, plan, t);
  }

  lemma DecodeLeavesAll(h: Host, plan: Plan, files: Files, found: Found, r: Request, s: string)
    requires Disciplined(h, plan, r)
    ensures Untouched(h, plan, files, DecodeOn(h, files, found, r).0, s) && DecodeOn(h, files, found, r).1.receipt.None?
  {
    DecodeWrites(h, files, found, r);
    TargetsLeaveSessions(h, plan, files, DecodeOn(h, files, found, r).0, r, s);
  }

  lemma ProcessReplies(h: Host, files: Files, found: Found, r: Request)
    ensures var out := ProcessOn(h, files, found, r).1;
            !out.reply.Ready? && !out.reply.Finalized? && (r.action != Prefill ==> out.receipt.None?)
  {
  }

  lemma ProcessMark(r: Request, out: Outcome, s: string)
    requires !out.reply.Ready? && !out.reply.Finalized?
    ensures MarkOf(r, out, s) == if out.receipt.Some?
        && Clean(r.sessionId) == s then Prefills(out.receipt.value) else Nothing
  {
  }

  lemma OtherProcessTracks(h: Host, plan: Plan, files: Files, after: Files, r: Request, out: Outcome, s: string,
                           load: Option<LoadMark>, prefill: Option<PrefillMark>, at: nat)
    requires Tracks(h, plan, files, s, load, prefill) && Untouched(h, plan, files, after, s)
    requires !out.reply.Ready? && !out.reply.Finalized? && (out.receipt.None? || Clean(r.sessionId) != s)
    ensures Advances(h, plan, after, s, load, prefill, MarkOf(r, out, s), at)
  {
    ProcessMark(r, out, s);
    TracksUntouched(h, plan, files, after, s, load, prefill);
    NothingAdvances(h, plan, after, s, load, prefill, Nothing, at);
  }

  lemma ReceiptAdvances(h: Host, plan: Plan, files: Files, s: string, load: Option<LoadMark>,
                        prefill: Option<PrefillMark>, receipt: Option<Digest>, sha: string, at: nat)
    requires load.Some? && load.value.shard.window.sha == sha
    requires Tracks(h, plan, files, s, load, if receipt.Some? then
        Some(PrefillMark(at, sha, receipt.value)) else prefill)
    ensures Advances(h, plan, files, s, load, prefill, if receipt.Some? then Prefills(receipt.value) else Nothing, at)
  {
  }

  lemma OwnPrefillTracks(h: Host, plan: Plan, files: Files, found: Found, r: Request, s: string,
                         load: Option<LoadMark>, prefill: Option<PrefillMark>, at: nat,
                         after: Files, out: Outcome)
    requires Sound(h, plan) && Disciplined(h, plan, r) && Tracks(h, plan, files, s, load, prefill)
    requires Recorded(h, plan, files, s, found.shard)
    requires Clean(r.sessionId) == s && (after, out) == PrefillOn(h, files, found, r) && !out.reply.Ready?
    requires !out.reply.Finalized?
    ensures Advances(h, plan, after, s, load, prefill, MarkOf(r, out, s), at)
  {
    ProcessMark(r, out, s);
    RecordIsLatest(h, plan, files, s, found.shard, load, prefill);
    PrefillTracks(h, plan, files, found, r, s, load, prefill, at);
    ReceiptAdvances(h, plan, after, s, load, prefill, out.receipt, found.shard.window.sha, at);
  }

  lemma ProcessOnTracks(h: Host, plan: Plan, files: Files, found: Found, r: Request, s: string, t: string,
                        load: Option<LoadMark>, prefill: Option<PrefillMark>, at: nat,
                        after: Files, out: Outcome)
    requires Sound(h, plan) && Disciplined(h, plan, r) && Tracks(h, plan, files, s, load, prefill)
    requires Recorded(h, plan, files, t, found.shard) && Clean(r.sessionId) == t
    requires (after, out) == ProcessOn(h, files, found, r)
    ensures Advances(h, plan, after, s, load, prefill, MarkOf(r, out, s), at)
  {
    ProcessReplies(h, files, found, r);
    if s != t {
      ProcessLeavesOthers(h, plan, files, found, r, s, t);
      OtherProcessTracks(h, plan, files, after, r, out, s, load, prefill, at);
    } else if r.action == Prefill {
      OwnPrefillTracks(h, plan, files, found, r, s, load, prefill, at, after, out);
    } else {
      DecodeLeavesAll(h, plan, files, found, r, s);
      OtherProcessTracks(h, plan, files, after, r, out, s, load, prefill, at);
    }
  }

  lemma ProcessTracks(h: Host, plan: Plan, st: State, r: Request, s: string, load: Option<LoadMark>,
                      prefill: Option<PrefillMark>, at: nat)
    requires Sound(h, plan) && Inv(h, plan, st) && Disciplined(h, plan, r)
    requires Tracks(h, plan, st.files, s, load, prefill)
    ensures StepAdvances(h, plan, ProcessStep(h, st, r), r, s, load, prefill, at)
  {
    if Recall(h, st, r).Ok? {
      RecalledIsRecorded(h, plan, st, r);
      var (after, out) := ProcessOn(h, st.files, Recall(h, st, r).value, r);
      ProcessOnTracks(h, plan, st.files, Recall(h, st, r).value, r, s, Clean(r.sessionId), load, prefill, at, after,
                      out);
    } else {
      RefusedMark(r, Recall(h, st, r).error, s);
      NothingAdvances(h, plan, st.files, s, load, prefill, Nothing, at);
    }
  }

  // ---------------------------------------------------------------- finalize

  lemma DropTracks(h: Host, plan: Plan, files: Files, s: string, c: Shard)
    requires Fits(h, plan, s, c)
    ensures Tracks(h, plan, files - {Home(h, plan, s), c.window.path, c.receiptPath}, s, None, None)
  {
  }

  lemma DropLeavesOthers(h: Host, plan: Plan, files: Files, s: string, t: string, c: Shard)
    requires Sound(h, plan) && Fits(h, plan, t, c) && s != t
    ensures Untouched(h, plan, files, files - {Home(h, plan, t), c.window.path, c.receiptPath}, s)
  {
    assert Home(h, plan, s) != Home(h, plan, t) && ReceiptHome(h, plan, s) != ReceiptHome(h, plan, t);
    assert Home(h, plan, s) != ReceiptHome(h, plan, t) && ReceiptHome(h, plan, s) != Home(h, plan, t);
    assert Home(h, plan, s) != c.window.path && ReceiptHome(h, plan, s) != c.window.path;
  }

  lemma DiscardTracks(h: Host, plan: Plan, st: State, s: string, t: string, dropped: Option<Result<Found, Error>>,
                      load: Option<LoadMark>, prefill: Option<PrefillMark>)
    requires Sound(h, plan) && Inv(h, plan, st) && Tracks(h, plan, st.files, s, load, prefill)
    requires dropped == Dropped(h, st, t, Home(h, plan, t))
    ensures var (files, reply) := Discard(st.files, Home(h, plan, t), dropped);
            if reply.Finalized? && s == t then
              Tracks(h, plan, files, s, None, None) else Tracks(h, plan, files, s, load, prefill)
  {
    match dropped
    case Some(Ok(f)) =>
      DroppedIsRecorded(h, plan, st, t, f);
      if s == t {
        DropTracks(h, plan, st.files, s, f.shard);
      } else {
        DropLeavesOthers(h, plan, st.files, s, t, f.shard);
        TracksUntouched(h, plan, st.files, Discard(st.files, Home(h, plan, t), dropped).0, s, load, prefill);
      }
    case Some(Err(_)) =>
    case None =>
  }

  lemma FinalizeMark(h: Host, plan: Plan, files: Files, r: Request, reply: Reply, s: string, load: Option<LoadMark>,
                     prefill: Option<PrefillMark>, at: nat)
    requires !reply.Ready?
    requires if reply.Finalized? && s == Clean(r.sessionId) then
        Tracks(h, plan, files, s, None, None) else Tracks(h, plan, files, s, load, prefill)
    ensures Advances(h, plan, files, s, load, prefill, MarkOf(r, Outcome(reply, None), s), at)
  {
  }

  lemma FinalizeTracks(h: Host, plan: Plan, st: State, r: Request, s: string, load: Option<LoadMark>,
                       prefill: Option<PrefillMark>, at: nat)
    requires Sound(h, plan) && Inv(h, plan, st) && Disciplined(h, plan, r)
    requires Tracks(h, plan, st.files, s, load, prefill)
    ensures StepAdvances(h, plan, FinalizeStep(h, st, r), r, s, load, prefill, at)
  {
    var t, slot := Clean(r.sessionId), SlotOf(h, r);
    if t == "" || slot.Err? {
      FinalizeRefuses(h, st, r);
      FinalizeMark(h, plan, st.files, r, FinalizeStep(h, st, r).1.reply, s, load, prefill, at);
    } else {
      FinalizeDiscards(h, plan, st, r, t);
      var dropped := Dropped(h, st, t, Home(h, plan, t));
      DiscardTracks(h, plan, st, s, t, dropped, load, prefill);
      var (files, reply) := Discard(st.files, Home(h, plan, t), dropped);
      FinalizeMark(h, plan, files, r, reply, s, load, prefill, at);
    }
  }

  lemma FinalizeRefuses(h: Host, st: State, r: Request)
    requires Clean(r.sessionId) == "" || SlotOf(h, r).Err?
    ensures var (after, out) := FinalizeStep(h, st, r);
            after.files == st.files && out.reply.Refused? && out == Outcome(out.reply, None)
  {
  }

  lemma FinalizeDiscards(h: Host, plan: Plan, st: State, r: Request, t: string)
    requires Disciplined(h, plan, r) && SlotOf(h, r).Ok? && t == Clean(r.sessionId) != ""
    ensures var (files, reply) := Discard(st.files, Home(h, plan, t), Dropped(h, st, t, Home(h, plan, t)));
            FinalizeStep(h, st, r) == (State(st.loaded - {t}, files), Outcome(reply, None))
  {
  }

  // ---------------------------------------------------------------- runs

  lemma StepTracks(h: Host, plan: Plan, st: State, r: Request, s: string, load: Option<LoadMark>,
                   prefill: Option<PrefillMark>, at: nat)
    requires Sound(h, plan) && Inv(h, plan, st) && Disciplined(h, plan, r)
    requires Tracks(h, plan, st.files, s, load, prefill)
    ensures StepAdvances(h, plan, Step(h, st, r), r, s, load, prefill, at)
  {
    StepDispatches(h, st, r);
    match r.action {
      case LoadShard => LoadTracks(h, plan, st, r, s, load, prefill, at);
      case Prefill => ProcessTracks(h, plan, st, r, s, load, prefill, at);
      case DecodeStep => ProcessTracks(h, plan, st, r, s, load, prefill, at);
      case Finalize => FinalizeTracks(h, plan, st, r, s, load, prefill, at);
      case Unsupported => UnsupportedTracks(h, plan, st, r, s, load, prefill, at);
    }
  }

  lemma StepDispatches(h: Host, st: State, r: Request)
    ensures r.action == LoadShard ==> Step(h, st, r) == LoadStep(h, st, r)
    ensures r.action == Prefill || r.action == DecodeStep ==> Step(h, st, r) == ProcessStep(h, st, r)
    ensures r.action == Finalize ==> Step(h, st, r) == FinalizeStep(h, st, r)
    ensures r.action == Unsupported ==> Step(h, st, r) == (st, Outcome(Refused(RequestUnsupported), None))
  {
  }

  lemma UnsupportedTracks(h: Host, plan: Plan, st: State, r: Request, s: string, load: Option<LoadMark>,
                          prefill: Option<PrefillMark>, at: nat)
    requires Tracks(h, plan, st.files, s, load, prefill)
    ensures StepAdvances(h, plan, (st, Outcome(Refused(RequestUnsupported), None)), r, s, load, prefill, at)
  {
    RefusedMark(r, RequestUnsupported, s);
    NothingAdvances(h, plan, st.files, s, load, prefill, Nothing, at);
  }

  ghost predicate AllOrderly(h: Host, plan: Plan, events: seq<Event>) {
    forall i :: 0 <= i < |events| ==> Orderly(h, plan, events[i])
  }

  /** A start without sessions and receipts. */
  ghost predicate Blank(h: Host, plan: Plan, st: State) {
    && st.loaded == map[]
    && (forall s :: Home(h, plan, s) !in st.files)
    && (forall s :: ReceiptHome(h, plan, s) !in st.files)
  }

  /** After any run a session's files are exactly those of its latest load and prefill. */
  lemma {:induction false} RunTracksHistory(h: Host, plan: Plan, st: State, events: seq<Event>, s: string)
    requires Sound(h, plan) && Blank(h, plan, st) && AllOrderly(h, plan, events)
    ensures var after, marks := Run(h, st, events), History(h, st, events, s);
            Inv(h, plan, after) && Tracks(h, plan, after.files, s, LatestLoad(marks), LatestPrefill(marks))
  {
    if events == [] {
      assert Home(h, plan, s) !in st.files && ReceiptHome(h, plan, s) !in st.files;
      EmptyWorkspacesStart(h, plan, st.files);
    } else {
      var n := |events| - 1;
      var before, e := events[..n], events[n];
      RunTracksHistory(h, plan, st, before, s);
      var here, marks := Run(h, st, before), History(h, st, before, s);
      HistoryGrows(h, st, events, s, n);
      LatestGrows(marks, EventMark(h, here, e, s));
      EventTracks(h, plan, here, e, s, LatestLoad(marks), LatestPrefill(marks), n);
    }
  }

  lemma LatestGrows(marks: seq<Mark>, mark: Mark)
    ensures LatestLoad(marks + [mark]) == LoadAfter(LatestLoad(marks), mark, |marks|)
    ensures LatestPrefill(marks + [mark]) == PrefillAfter(LatestPrefill(marks), LatestLoad(marks), mark, |marks|)
  {
    assert (marks + [mark])[..|marks|] == marks;
  }

  lemma OutsideTracks(h: Host, plan: Plan, files: Files, path: string, content: Option<Bytes>, s: string,
                      load: Option<LoadMark>, prefill: Option<PrefillMark>, at: nat)
    requires NotControl(h, plan, path) && Tracks(h, plan, files, s, load, prefill)
    ensures Advances(h, plan, PutFile(files, path, content), s, load, prefill, Nothing, at)
  {
    TracksUntouched(h, plan, files, PutFile(files, path, content), s, load, prefill);
    NothingAdvances(h, plan, PutFile(files, path, content), s, load, prefill, Nothing, at);
  }

  lemma EventTracks(h: Host, plan: Plan, st: State, e: Event, s: string, load: Option<LoadMark>,
                    prefill: Option<PrefillMark>, at: nat)
    requires Sound(h, plan) && Inv(h, plan, st) && Tracks(h, plan, st.files, s, load, prefill) && Orderly(h, plan, e)
    ensures Inv(h, plan, Apply(h, st, e))
    ensures Advances(h, plan, Apply(h, st, e).files, s, load, prefill, EventMark(h, st, e, s), at)
  {
    ApplyKeepsInv(h, plan, st, e);
    match e {
      case Call(r) => StepTracks(h, plan, st, r, s, load, prefill, at);
      case Restart => NothingAdvances(h, plan, st.files, s, load, prefill, Nothing, at);
      case Outside(path, content) => OutsideTracks(h, plan, st.files, path, content, s, load, prefill, at);
    }
  }

  // ---------------------------------------------------------------- accepted decodes

  /** The decode's input state carries this prefill digest and this shard hash. */
  predicate Carries(state: Option<Manifest>, digest: string, sha: string) {
    && state.Some? && state.value.metadata.Metadata?
    && Clean(state.value.metadata.prefillDigest) == digest && Lower(Clean(state.value.metadata.shardSha)) == sha
  }

  lemma ReceiptFieldsRead(sha: string, digest: Digest)
    requires IsDigest(sha)
    ensures Lower(Clean(Text(sha))) == sha && Clean(Text(digest)) == digest && digest != ""
  {
    DigestIsClean(sha);
    DigestIsClean(digest);
  }

  lemma PassedDecode(h: Host, files: Files, c: Shard, r: Request, sha: string, digest: Digest)
    requires DecodeInput(h, files, c, r).Ok? && c.receiptPath in files
    requires HoldsReceipt(h, files[c.receiptPath], sha, digest)
    ensures sha == c.window.sha && Carries(r.inputState, digest, c.window.sha) && WindowFault(h, files, c.window).None?
  {
    ReceiptFieldsRead(sha, digest);
  }

  lemma AcceptedDecodePassed(h: Host, st: State, r: Request)
    requires r.action == DecodeStep && Step(h, st, r).1.reply.Produced?
    ensures Recall(h, st, r).Ok? && DecodeInput(h, st.files, Recall(h, st, r).value.shard, r).Ok?
  {
  }

  lemma DecodeReadReceipt(h: Host, files: Files, c: Shard, r: Request)
    requires DecodeInput(h, files, c, r).Ok?
    ensures c.receiptPath in files
  {
  }

  /**
   Run safety: an accepted decode of session `s` comes after a load and a prefill of `s` that no finalize
   has undone; its input state carries the digest of the latest prefill and the hash of the currently
   loaded shard, on which that prefill ran; and the prepared shard file on disk still has that hash.
   */
  lemma AcceptedDecodeIsBacked(h: Host, plan: Plan, st: State, events: seq<Event>, r: Request)
    requires Sound(h, plan) && Blank(h, plan, st) && AllOrderly(h, plan, events) && Disciplined(h, plan, r)
    requires r.action == DecodeStep && Step(h, Run(h, st, events), r).1.reply.Produced?
    ensures var marks := History(h, st, events, Clean(r.sessionId));
            var load, prefill := LatestLoad(marks), LatestPrefill(marks);
            && load.Some? && prefill.Some? && prefill.value.sha == load.value.shard.window.sha
            && Carries(r.inputState, prefill.value.digest, load.value.shard.window.sha)
            && WindowFault(h, Run(h, st, events).files, load.value.shard.window).None?
  {
    var s, here := Clean(r.sessionId), Run(h, st, events);
    var marks := History(h, st, events, s);
    RunTracksHistory(h, plan, st, events, s);
    AcceptedDecodePassed(h, here, r);
    RecalledIsRecorded(h, plan, here, r);
    BackedDecode(h, plan, here.files, Recall(h, here, r).value.shard, r, s, LatestLoad(marks), LatestPrefill(marks));
  }

  lemma BackedDecode(h: Host, plan: Plan, files: Files, c: Shard, r: Request, s: string, load: Option<LoadMark>,
                     prefill: Option<PrefillMark>)
    requires Sound(h, plan) && Tracks(h, plan, files, s, load, prefill) && Recorded(h, plan, files, s, c)
    requires DecodeInput(h, files, c, r).Ok?
    ensures load.Some? && prefill.Some? && prefill.value.sha == load.value.shard.window.sha
    ensures Carries(r.inputState, prefill.value.digest, load.value.shard.window.sha)
    ensures WindowFault(h, files, load.value.shard.window).None?
  {
    RecordIsLatest(h, plan, files, s, c, load, prefill);
    DecodeReadReceipt(h, files, c, r);
    PassedDecode(h, files, c, r, prefill.value.sha, prefill.value.digest);
  }

  // ---------------------------------------------------------------- refused prefills

  /** The request asks for a known kind of output and says where to put it. */
  predicate Answerable(r: Request) {
    var kindText := Lower(Clean(r.expectedOutputKind));
    && kindText != "" && r.targets.Some? && Clean(r.targets.value.outputPayloadPath) != ""
    && (WantsFinal(r, kindText) || (Clean(r.targets.value.outputStateFilePath) != ""
        && ParseKind(Text(kindText)).Some?))
  }

  lemma FinalAnswered(h: Host, c: Shard, r: Request, digest: Option<string>)
    ensures ReplyOf(FinalOutputOf(h, c, r, digest)).Produced? <==>
              r.targets.Some? && Clean(r.targets.value.outputPayloadPath) != ""
  {
  }

  lemma StateAnswered(h: Host, c: Shard, source: Source, r: Request, kindText: string, payload: Bytes,
                      digest: Option<string>)
    ensures ReplyOf(StateOutputOf(h, c, source, r, kindText, payload, digest)).Produced? <==>
              && r.targets.Some? && Clean(r.targets.value.outputPayloadPath) != ""
              && Clean(r.targets.value.outputStateFilePath) != "" && ParseKind(Text(kindText)).Some?
  {
  }

  lemma AnsweredIff(h: Host, c: Shard, source: Source, r: Request, payload: Bytes, digest: Option<string>)
    ensures ReplyOf(OutputOf(h, c, source, r, payload, digest)).Produced? <==> Answerable(r)
  {
    FinalAnswered(h, c, r, digest);
    StateAnswered(h, c, source, r, Lower(Clean(r.expectedOutputKind)), payload, digest);
  }

  /**
   A prefill supersedes the previous one as soon as its window and input check out; it is accepted exactly
   when it is also answerable.  So for answerable requests the latest prefill is the latest accepted one.
   */
  lemma PrefillAcceptedIffAnswerable(h: Host, files: Files, found: Found, r: Request)
    ensures var out := PrefillOn(h, files, found, r).1;
            && (out.receipt.Some? <==> PrefillInput(h, files, found.shard, r).Ok?)
            && (out.reply.Produced? <==> out.receipt.Some? && Answerable(r))
  {
    var payload := PrefillInput(h, files, found.shard, r);
    if payload.Ok? {
      var digest := ExecutionDigest(h, found.shard, r, h.world.sha256(payload.value));
      AnsweredIff(h, found.shard, found.source, r, payload.value, CleanOrNone(Text(digest)));
    }
  }

  /** A prefill without an output kind is refused, yet its receipt has replaced the previous one. */
  lemma RefusedPrefillSupersedes(h: Host, files: Files, found: Found, r: Request)
    requires r.expectedOutputKind == Null && PrefillInput(h, files, found.shard, r).Ok?
    ensures var (after, out) := PrefillOn(h, files, found, r);
            && out.reply == Refused(OutputKindMissing) && out.receipt.Some?
            && var inputSha := h.world.sha256(PrefillInput(h, files, found.shard, r).value);
               var receipt := ReceiptOf(found.shard, r, inputSha, out.receipt.value);
               after == files[found.shard.receiptPath := h.dumpReceipt(receipt)]
  {
  }
}
