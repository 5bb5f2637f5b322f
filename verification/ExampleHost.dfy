/**
 A host that meets everything the theorems about runs ask for: documents as a prefix code over bytes, one link to a
 file whose name ends with a blank, and every other path resolving to itself.
 */
module ExampleHost {
  import opened PyValue
  import opened ArtifactContract
  import opened ChunkWindows
  import opened ReferenceSession
  import opened Handoff
  import opened ReferenceBinary
  import opened ReferenceRuns

  // ---------------------------------------------------------------- a prefix code for values

  function NatCode(n: nat): Bytes { seq(n, i => 1) + [0] }

  lemma NatCodeDecides(a: nat, b: nat, s: Bytes, t: Bytes)
    requires NatCode(a) + s == NatCode(b) + t
    ensures a == b && s == t
  {
    var whole := NatCode(a) + s;
    FirstZero(a, s, whole);
    FirstZero(b, t, whole);
    assert s == whole[a + 1..] && t == whole[b + 1..];
  }

  lemma FirstZero(n: nat, s: Bytes, whole: Bytes)
    requires whole == NatCode(n) + s
    ensures n < |whole| && whole[n] == 0 && forall i :: 0 <= i < n ==> whole[i] == 1
  {
  }

  function CharsCode(s: string): Bytes { if s == "" then [] else NatCode(s[0] as int) + CharsCode(s[1..]) }

  lemma {:induction false} CharsCodeDecides(a: string, b: string, s: Bytes, t: Bytes)
    requires |a| == |b| && CharsCode(a) + s == CharsCode(b) + t
    ensures a == b && s == t
  {
    if a == "" {
      assert s == CharsCode(a) + s && t == CharsCode(b) + t;
    } else {
      assert CharsCode(a) + s == NatCode(a[0] as int) + (CharsCode(a[1..]) + s);
      assert CharsCode(b) + t == NatCode(b[0] as int) + (CharsCode(b[1..]) + t);
      NatCodeDecides(a[0] as int, b[0] as int, CharsCode(a[1..]) + s, CharsCode(b[1..]) + t);
      CharsCodeDecides(a[1..], b[1..], s, t);
      assert a == [a[0]] + a[1..] && b == [b[0]] + b[1..];
    }
  }

  function TextCode(s: string): Bytes { NatCode(|s|) + CharsCode(s) }

  lemma TextCodeDecides(a: string, b: string, s: Bytes, t: Bytes)
    requires TextCode(a) + s == TextCode(b) + t
    ensures a == b && s == t
  {
    assert TextCode(a) + s == NatCode(|a|) + (CharsCode(a) + s);
    assert TextCode(b) + t == NatCode(|b|) + (CharsCode(b) + t);
    NatCodeDecides(|a|, |b|, CharsCode(a) + s, CharsCode(b) + t);
    CharsCodeDecides(a, b, s, t);
  }

  /** An integer as a natural number. */
  function Fold(n: int): nat { if n >= 0 then 2 * n else -2 * n - 1 }

  function FlagNat(b: bool): nat { if b then 1 else 0 }

  function WholeNat(v: Option<int>): nat { if v.Some? then Fold(v.value) + 1 else 0 }

  /** The constructor's number, then the code of its parts. */
  function ValueCode(v: Value): Bytes
    decreases v, 1
  {
    NatCode(Tag(v)) + PartsCode(v)
  }

  function Tag(v: Value): nat {
    match v
    case Null => 0
    case Bool(_) => 1
    case Num(_) => 2
    case Text(_) => 3
    case List(_, _) => 4
    case Other(_, _, _) => 5
  }

  function PartsCode(v: Value): Bytes
    decreases v, 0
  {
    match v
    case Null => []
    case Bool(b) => NatCode(FlagNat(b))
    case Num(n) => NatCode(Fold(n))
    case Text(s) => TextCode(s)
    case List(items, shown) => NatCode(|items|) + (ItemsCode(items) + TextCode(shown))
    case Other(b, shown, whole) => NatCode(FlagNat(b)) + (TextCode(shown) + NatCode(WholeNat(whole)))
  }

  function ItemsCode(items: seq<Value>): Bytes
    decreases items, 0
  {
    if items == [] then [] else ValueCode(items[0]) + ItemsCode(items[1..])
  }

  lemma {:induction false} ValueCodeDecides(a: Value, b: Value, s: Bytes, t: Bytes)
    requires ValueCode(a) + s == ValueCode(b) + t
    ensures a == b && s == t
    decreases a, 1
  {
    assert ValueCode(a) + s == NatCode(Tag(a)) + (PartsCode(a) + s);
    assert ValueCode(b) + t == NatCode(Tag(b)) + (PartsCode(b) + t);
    NatCodeDecides(Tag(a), Tag(b), PartsCode(a) + s, PartsCode(b) + t);
    match a {
      case Null => assert s == PartsCode(a) + s && t == PartsCode(b) + t;
      case Bool(x) => NatCodeDecides(FlagNat(x), FlagNat(b.flag), s, t);
      case Num(x) => NatCodeDecides(Fold(x), Fold(b.num), s, t);
      case Text(x) => TextCodeDecides(x, b.text, s, t);
      case List(items, shown) => ListCodeDecides(items, shown, b.items, b.shown, s, t);
      case Other(x, shown, whole) => OtherCodeDecides(x, shown, whole, b.truthy, b.shown, b.whole, s, t);
    }
  }

  lemma OtherCodeDecides(x: bool, shown: string, whole: Option<int>, y: bool, shown': string, whole': Option<int>,
                         s: Bytes, t: Bytes)
    requires NatCode(FlagNat(x)) + (TextCode(shown) + NatCode(WholeNat(whole))) + s ==
             NatCode(FlagNat(y)) + (TextCode(shown') + NatCode(WholeNat(whole'))) + t
    ensures x == y && shown == shown' && whole == whole' && s == t
  {
    var restX, restY := NatCode(WholeNat(whole)) + s, NatCode(WholeNat(whole')) + t;
    assert NatCode(FlagNat(x)) + (TextCode(shown) + NatCode(WholeNat(whole))) + s ==
           NatCode(FlagNat(x)) + (TextCode(shown) + restX);
    assert NatCode(FlagNat(y)) + (TextCode(shown') + NatCode(WholeNat(whole'))) + t ==
           NatCode(FlagNat(y)) + (TextCode(shown') + restY);
    NatCodeDecides(FlagNat(x), FlagNat(y), TextCode(shown) + restX, TextCode(shown') + restY);
    TextCodeDecides(shown, shown', restX, restY);
    NatCodeDecides(WholeNat(whole), WholeNat(whole'), s, t);
  }

  lemma {:induction false} ListCodeDecides(a: seq<Value>, shown: string, b: seq<Value>, shown': string, s: Bytes,
                                           t: Bytes)
    requires NatCode(|a|) + (ItemsCode(a) + TextCode(shown)) + s == NatCode(|b|) + (ItemsCode(b) + TextCode(shown')) + t
    ensures a == b && shown == shown' && s == t
    decreases a, 1
  {
    var restA, restB := TextCode(shown) + s, TextCode(shown') + t;
    assert NatCode(|a|) + (ItemsCode(a) + TextCode(shown)) + s == NatCode(|a|) + (ItemsCode(a) + restA);
    assert NatCode(|b|) + (ItemsCode(b) + TextCode(shown')) + t == NatCode(|b|) + (ItemsCode(b) + restB);
    NatCodeDecides(|a|, |b|, ItemsCode(a) + restA, ItemsCode(b) + restB);
    ItemsCodeDecides(a, b, restA, restB);
    TextCodeDecides(shown, shown', s, t);
  }

  lemma {:induction false} ItemsCodeDecides(a: seq<Value>, b: seq<Value>, s: Bytes, t: Bytes)
    requires |a| == |b| && ItemsCode(a) + s == ItemsCode(b) + t
    ensures a == b && s == t
    decreases a, 0
  {
    if a == [] {
      assert s == ItemsCode(a) + s && t == ItemsCode(b) + t;
    } else {
      assert ItemsCode(a) + s == ValueCode(a[0]) + (ItemsCode(a[1..]) + s);
      assert ItemsCode(b) + t == ValueCode(b[0]) + (ItemsCode(b[1..]) + t);
      ValueCodeDecides(a[0], b[0], ItemsCode(a[1..]) + s, ItemsCode(b[1..]) + t);
      ItemsCodeDecides(a[1..], b[1..], s, t);
      assert a == [a[0]] + a[1..] && b == [b[0]] + b[1..];
    }
  }

  /** Different lists of values have different codes. */
  lemma CodeIsInjective(a: seq<Value>, b: seq<Value>)
    requires |a| == |b| && ItemsCode(a) == ItemsCode(b)
    ensures a == b
  {
    assert ItemsCode(a) + [] == ItemsCode(b) + [];
    ItemsCodeDecides(a, b, [], []);
  }

  // ---------------------------------------------------------------- documents as lists of values

  function RecordValues(a: Option<ShardRecord>): Value {
    if a.None? then Null
    else
      var x := a.value;
      List([x.localPath, x.source, x.sizeBytes, x.digest, x.digestSource, x.bytesRead, x.chunkCount, x.coverageMode,
            x.coveredBytes, x.coveredRanges, x.tensorNames, x.preparedPath, x.preparedSha, x.preparedSize,
            x.preparedMode, x.receiptPath], "")
  }

  function SessionValues(d: SessionDoc): seq<Value> {
    [d.abi, d.sessionId, d.modelId, d.layerStart, d.layerEnd, RecordValues(d.artifact)]
  }

  function ReceiptValues(d: ReceiptDoc): seq<Value> {
    [d.abi, d.sessionId, d.modelId, d.layerStart, d.layerEnd, d.tokenStart, d.tokenEnd, d.preparedPath, d.preparedSha,
     d.preparedSize, d.inputSha, d.prefillDigest]
  }

  function StateFileValue(f: StateFile): Value {
    match f
    case NoStateFile => Null
    case StateFile(path, sha, size) => List([path, sha, size], "")
  }

  function MetadataValue(m: Metadata): Value {
    match m
    case NoMetadata => Null
    case MetadataNotMapping => Bool(true)
    case Metadata(digest, sha, source) => List([digest, sha, source], "")
  }

  function ManifestValues(m: Manifest): seq<Value> {
    [m.schemaVersion, m.abi, m.stateKind, m.producedByAction, m.modelId, m.sessionId, m.layerStart, m.layerEnd,
     m.tokenStart, m.tokenEnd, m.stateFormat, StateFileValue(m.stateFile), MetadataValue(m.metadata)]
  }

  lemma RecordValuesDecide(a: Option<ShardRecord>, b: Option<ShardRecord>)
    requires RecordValues(a) == RecordValues(b)
    ensures a == b
  {
    if a.Some? && b.Some? {
      var s, t := RecordValues(a).items, RecordValues(b).items;
      assert forall i :: 0 <= i < |s| ==> s[i] == t[i];
    }
  }

  lemma SessionsDecide(a: SessionDoc, b: SessionDoc)
    requires ItemsCode(SessionValues(a)) == ItemsCode(SessionValues(b))
    ensures a == b
  {
    CodeIsInjective(SessionValues(a), SessionValues(b));
    var s, t := SessionValues(a), SessionValues(b);
    assert forall i :: 0 <= i < |s| ==> s[i] == t[i];
    assert s[5] == t[5];
    RecordValuesDecide(a.artifact, b.artifact);
  }

  lemma ReceiptsDecide(a: ReceiptDoc, b: ReceiptDoc)
    requires ItemsCode(ReceiptValues(a)) == ItemsCode(ReceiptValues(b))
    ensures a == b
  {
    CodeIsInjective(ReceiptValues(a), ReceiptValues(b));
    var s, t := ReceiptValues(a), ReceiptValues(b);
    assert forall i :: 0 <= i < |s| ==> s[i] == t[i];
  }

  lemma FileAndMetadataDecide(f: StateFile, g: StateFile, m: Metadata, n: Metadata)
    requires StateFileValue(f) == StateFileValue(g) && MetadataValue(m) == MetadataValue(n)
    ensures f == g && m == n
  {
    if f.StateFile? && g.StateFile? {
      var s, t := StateFileValue(f).items, StateFileValue(g).items;
      assert s[0] == t[0] && s[1] == t[1] && s[2] == t[2];
    }
    if m.Metadata? && n.Metadata? {
      var s, t := MetadataValue(m).items, MetadataValue(n).items;
      assert s[0] == t[0] && s[1] == t[1] && s[2] == t[2];
    }
  }

  lemma ManifestsDecide(a: Manifest, b: Manifest)
    requires ItemsCode(ManifestValues(a)) == ItemsCode(ManifestValues(b))
    ensures a == b
  {
    CodeIsInjective(ManifestValues(a), ManifestValues(b));
    var s, t := ManifestValues(a), ManifestValues(b);
    assert forall i :: 0 <= i < |s| ==> s[i] == t[i];
    assert s[11] == t[11] && s[12] == t[12];
    FileAndMetadataDecide(a.stateFile, b.stateFile, a.metadata, b.metadata);
  }

  // ---------------------------------------------------------------- the host

  function Zeros(): Digest { seq(64, i => '0') }

  /** "l" is a link to a file whose name ends with a blank; every other path is its own. */
  function Resolve(p: string): Option<string> { if p == "l" then Some("b ") else Some(p) }

  function SlotName(kind: string, slot: Slot): string {
    kind + slot.dir + "/" + slot.sessionId + "/" + slot.modelId + "."
  }

  function WindowName(dir: string, digest: string): string { "p" + dir + "/" + digest + "." }

  /** The example hosts: their hash, paths and names, and documents that are read back. */
  ghost predicate Example(h: Host) {
    && Faithful(h)
    && (forall p :: h.world.resolve(p) == Resolve(p))
    && (forall b :: h.world.sha256(b) == Zeros())
    && (forall p :: h.absolute(p) == p)
    && (forall slot :: h.sessionFile(slot) == SlotName("s", slot))
    && (forall slot :: h.receiptFile(slot) == SlotName("r", slot))
    && (forall d, k :: h.preparedFile(d, k) == WindowName(d, k))
  }

  /** Every session has the slot of its own id in one workspace and for one model. */
  function ThePlan(): Plan { s => Slot("d", s, "m", None, None) }

  lemma SessionLoader() returns (load: Bytes -> Option<SessionDoc>)
    ensures forall d :: load(ItemsCode(SessionValues(d))) == Some(d)
  {
    load := b => if exists d :: ItemsCode(SessionValues(d)) == b then
                   var d :| ItemsCode(SessionValues(d)) == b; Some(d)
                 else None;
    forall d ensures load(ItemsCode(SessionValues(d))) == Some(d) {
      SessionsDecide(d, load(ItemsCode(SessionValues(d))).value);
    }
  }

  lemma ReceiptLoader() returns (load: Bytes -> Option<ReceiptDoc>)
    ensures forall d :: load(ItemsCode(ReceiptValues(d))) == Some(d)
  {
    load := b => if exists d :: ItemsCode(ReceiptValues(d)) == b then
                   var d :| ItemsCode(ReceiptValues(d)) == b; Some(d)
                 else None;
    forall d ensures load(ItemsCode(ReceiptValues(d))) == Some(d) {
      ReceiptsDecide(d, load(ItemsCode(ReceiptValues(d))).value);
    }
  }

  lemma ManifestLoader() returns (load: Bytes -> Option<Manifest>)
    ensures forall m :: load(ItemsCode(ManifestValues(m))) == Some(m)
  {
    load := b => if exists m :: ItemsCode(ManifestValues(m)) == b then
                   var m :| ItemsCode(ManifestValues(m)) == b; Some(m)
                 else None;
    forall m ensures load(ItemsCode(ManifestValues(m))) == Some(m) {
      ManifestsDecide(m, load(ItemsCode(ManifestValues(m))).value);
    }
  }

  lemma ExampleExists() returns (h: Host)
    ensures Example(h)
  {
    var loadSession := SessionLoader();
    var loadReceipt := ReceiptLoader();
    var loadManifest := ManifestLoader();
    h := Host(World((b: Bytes) => Zeros(), (t: string) => [], (p: string) => Resolve(p)), (p: string) => p,
              slot => SlotName("s", slot), slot => SlotName("r", slot), (d: string, k: string) => WindowName(d, k),
              d => ItemsCode(SessionValues(d)), loadSession, d => ItemsCode(ReceiptValues(d)), loadReceipt,
              (d: StateDoc) => TextCode(d.inputSha), (d: ManifestDoc) => ItemsCode(ManifestValues(d.manifest)),
              loadManifest, (k: StateKind) => "f");
  }

  /** A name that begins with a letter and ends with a dot is its own path. */
  lemma NameIsKept(h: Host, name: string)
    requires Example(h) && |name| > 1 && 'a' <= name[0] <= 'z' && name[|name| - 1] == '.'
    ensures PathKept(h.world, name)
  {
    assert Trimmed(name) && Strip(name) == name;
    assert name != "l";
  }

  lemma PathsAreStable(h: Host)
    requires Example(h)
    ensures StablePaths(h)
  {
    forall slot ensures PathKept(h.world, h.receiptFile(slot)) { NameIsKept(h, SlotName("r", slot)); }
    forall d, k ensures PathKept(h.world, h.preparedFile(d, k)) { NameIsKept(h, WindowName(d, k)); }
  }

  lemma SlotNamesDiffer(kind: string, s: string, t: string)
    requires SlotName(kind, ThePlan()(s)) == SlotName(kind, ThePlan()(t))
    ensures s == t
  {
    var x, y := SlotName(kind, ThePlan()(s)), SlotName(kind, ThePlan()(t));
    var n := |kind| + 2;
    assert |s| == |t|;
    assert x[n..n + |s|] == s && y[n..n + |t|] == t;
  }

  /** The three sorts of files differ in their first letter. */
  lemma SortsDiffer(slot: Slot, slot': Slot, d: string, k: string)
    ensures SlotName("s", slot) != SlotName("r", slot')
    ensures SlotName("s", slot) != WindowName(d, k) && SlotName("r", slot) != WindowName(d, k)
  {
    assert SlotName("s", slot)[0] == 's' && SlotName("r", slot)[0] == 'r' && SlotName("r", slot')[0] == 'r';
    assert WindowName(d, k)[0] == 'p';
  }

  lemma FilesAreSeparate(h: Host)
    requires Example(h)
    ensures Separate(h, ThePlan())
  {
    var plan := ThePlan();
    forall s, t | Home(h, plan, s) == Home(h, plan, t) ensures s == t { SlotNamesDiffer("s", s, t); }
    forall s, t | ReceiptHome(h, plan, s) == ReceiptHome(h, plan, t) ensures s == t { SlotNamesDiffer("r", s, t); }
    forall s, t ensures Home(h, plan, s) != ReceiptHome(h, plan, t) { SortsDiffer(plan(s), plan(t), "", ""); }
    forall s, d, k ensures Home(h, plan, s) != h.preparedFile(d, k) { SortsDiffer(plan(s), plan(s), d, k); }
    forall s, d, k ensures ReceiptHome(h, plan, s) != h.preparedFile(d, k) { SortsDiffer(plan(s), plan(s), d, k); }
  }

  /** What the theorems about runs assume of a host can be met, also where paths keep their blanks. */
  lemma SoundHostExists() returns (h: Host)
    ensures Example(h) && Sound(h, ThePlan())
    ensures h.world.resolve("b ") == Some("b ")
  {
    h := ExampleExists();
    PathsAreStable(h);
    FilesAreSeparate(h);
  }
}
