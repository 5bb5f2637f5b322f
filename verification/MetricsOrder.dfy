/**
 Metrics in different key orders: which values a search can find first over all orders of the keys, exactly when
 the order does not matter, and the key sorting that every hop between processes does.
 */
module MetricsOrder {
  import opened PyValue
  import opened ArtifactContract
  import opened MetricsProof

  // ---------------------------------------------------------------- same tree, another order

  function Without(es: seq<Entry>, i: nat): seq<Entry>
    requires i < |es|
  {
    es[..i] + es[i + 1..]
  }

  /** The same tree up to the order of the entries of every mapping; lists keep their order. */
  ghost predicate Reordered(a: Metric, b: Metric)
    decreases a, 1
  {
    match a
    case Scalar(_) => b == a
    case Node(es) => b.Node? && EntriesReordered(es, b.entries)
    case Many(items) => b.Many? && ItemsReordered(items, b.items)
  }

  ghost predicate EntriesReordered(es: seq<Entry>, fs: seq<Entry>)
    decreases es, 0
  {
    if es == [] then fs == []
    else exists i: nat :: i < |fs| && HeadAt(es[0], fs[i]) && EntriesReordered(es[1..], Without(fs, i))
  }

  ghost predicate HeadAt(e: Entry, f: Entry)
    decreases e, 2
  {
    f.key == e.key && Reordered(e.value, f.value)
  }

  ghost predicate ItemsReordered(items: seq<Metric>, js: seq<Metric>)
    decreases items, 0
  {
    if items == [] then js == [] else js != [] && Reordered(items[0], js[0]) && ItemsReordered(items[1..], js[1..])
  }

  lemma {:induction false} ReorderedRefl(m: Metric)
    ensures Reordered(m, m)
    decreases m, 1
  {
    match m
    case Scalar(_) =>
    case Node(es) => EntriesRefl(es);
    case Many(items) => ItemsRefl(items);
  }

  lemma {:induction false} EntriesRefl(es: seq<Entry>)
    ensures EntriesReordered(es, es)
    decreases es, 0
  {
    if es == [] {
    } else {
      ReorderedRefl(es[0].value);
      EntriesRefl(es[1..]);
      PutFirst(es[0], es[0], es[1..], es[1..]);
      assert [es[0]] + es[1..] == es;
    }
  }

  lemma {:induction false} ItemsRefl(items: seq<Metric>)
    ensures ItemsReordered(items, items)
    decreases items, 0
  {
    if items == [] {
    } else {
      ReorderedRefl(items[0]);
      ItemsRefl(items[1..]);
    }
  }

  lemma PutFirst(e: Entry, f: Entry, es: seq<Entry>, fs: seq<Entry>)
    requires HeadAt(e, f) && EntriesReordered(es, fs)
    ensures EntriesReordered([e] + es, [f] + fs)
  {
    assert ([e] + es)[1..] == es && Without([f] + fs, 0) == fs;
  }

  /** The head of `es` moved to place `i`. */
  lemma PutAt(es: seq<Entry>, fs: seq<Entry>, i: nat)
    requires es != [] && i < |fs| && HeadAt(es[0], fs[i]) && EntriesReordered(es[1..], Without(fs, i))
    ensures EntriesReordered(es, fs)
  {
  }

  lemma WithoutMembers(fs: seq<Entry>, i: nat)
    requires i < |fs|
    ensures forall e :: e in fs <==> e == fs[i] || e in Without(fs, i)
  {
    assert fs == fs[..i] + [fs[i]] + fs[i + 1..];
  }

  // ---------------------------------------------------------------- values that can come first

  ghost function OwnAt(e: Entry, key: string): set<bool> {
    if e.key == key && e.value.Scalar? && e.value.value.Bool? then {e.value.value.flag} else {}
  }

  ghost function OwnSet(es: seq<Entry>, key: string): set<bool> {
    if es == [] then {} else OwnAt(es[0], key) + OwnSet(es[1..], key)
  }

  /** The values the search can find over all orders of the keys. */
  ghost function Leading(m: Metric, key: string): set<bool>
    decreases m, 1
  {
    match m
    case Scalar(_) => {}
    case Node(es) => if OwnSet(es, key) != {} then OwnSet(es, key) else LeadingOf(es, key)
    case Many(items) => LeadingIn(items, key)
  }

  ghost function LeadingOf(es: seq<Entry>, key: string): set<bool>
    decreases es, 0
  {
    if es == [] then {} else Leading(es[0].value, key) + LeadingOf(es[1..], key)
  }

  ghost function LeadingIn(items: seq<Metric>, key: string): set<bool>
    decreases items, 0
  {
    if items == [] then {} else if Leading(items[0], key) != {} then
        Leading(items[0], key) else LeadingIn(items[1..], key)
  }

  /** No two different values can come first. */
  ghost predicate Settled(m: Metric, key: string) { !(true in Leading(m, key) && false in Leading(m, key)) }

  // ---------------------------------------------------------------- unique keys

  ghost predicate UniqueKeys(m: Metric)
    decreases m
  {
    match m
    case Scalar(_) => true
    case Node(es) => Distinct(es) && forall e :: e in es ==> UniqueKeys(e.value)
    case Many(items) => forall x :: x in items ==> UniqueKeys(x)
  }

  ghost predicate Distinct(es: seq<Entry>) {
    es == [] || (Lacks(es[1..], es[0].key) && Distinct(es[1..]))
  }

  ghost predicate Lacks(es: seq<Entry>, key: string) { forall e :: e in es ==> e.key != key }

  lemma {:induction false} LacksOwn(es: seq<Entry>, key: string)
    requires Lacks(es, key)
    ensures OwnBool(es, key).None? && OwnSet(es, key) == {}
  {
    if es == [] {
    } else {
      assert es[0] in es;
      assert Lacks(es[1..], key);
      LacksOwn(es[1..], key);
    }
  }

  /** With unique keys a mapping's own value is the one value it has. */
  lemma {:induction false} OwnIsOwnSet(es: seq<Entry>, key: string)
    requires Distinct(es)
    ensures OwnSet(es, key) == if OwnBool(es, key).Some? then {OwnBool(es, key).value} else {}
  {
    if es == [] {
    } else if es[0].key == key {
      LacksOwn(es[1..], key);
    } else {
      OwnIsOwnSet(es[1..], key);
    }
  }

  /** The search finds nothing exactly when no value can come first, and otherwise one that can. */
  lemma {:induction false} FoundIsLeading(m: Metric, key: string)
    requires UniqueKeys(m)
    ensures NestedBool(m, key).None? <==> Leading(m, key) == {}
    ensures NestedBool(m, key).Some? ==> NestedBool(m, key).value in Leading(m, key)
    decreases m, 1
  {
    match m
    case Scalar(_) =>
    case Node(es) =>
      OwnIsOwnSet(es, key);
      FoundInEntries(es, key);
    case Many(items) => FoundInItems(items, key);
  }

  lemma {:induction false} FoundInEntries(es: seq<Entry>, key: string)
    requires forall e :: e in es ==> UniqueKeys(e.value)
    ensures NestedBoolEntries(es, key).None? <==> LeadingOf(es, key) == {}
    ensures NestedBoolEntries(es, key).Some? ==> NestedBoolEntries(es, key).value in LeadingOf(es, key)
    decreases es, 0
  {
    if es == [] {
    } else {
      FoundIsLeading(es[0].value, key);
      FoundInEntries(es[1..], key);
    }
  }

  lemma {:induction false} FoundInItems(items: seq<Metric>, key: string)
    requires forall x :: x in items ==> UniqueKeys(x)
    ensures NestedBoolItems(items, key).None? <==> LeadingIn(items, key) == {}
    ensures NestedBoolItems(items, key).Some? ==> NestedBoolItems(items, key).value in LeadingIn(items, key)
    decreases items, 0
  {
    if items == [] {
    } else {
      FoundIsLeading(items[0], key);
      FoundInItems(items[1..], key);
    }
  }

  // ---------------------------------------------------------------- reordering keeps them

  lemma {:induction false} LeadingAt(fs: seq<Entry>, i: nat, key: string)
    requires i < |fs|
    ensures LeadingOf(fs, key) == Leading(fs[i].value, key) + LeadingOf(Without(fs, i), key)
    ensures OwnSet(fs, key) == OwnAt(fs[i], key) + OwnSet(Without(fs, i), key)
  {
    if i == 0 {
      assert Without(fs, 0) == fs[1..];
    } else {
      LeadingAt(fs[1..], i - 1, key);
      assert Without(fs, i) == [fs[0]] + Without(fs[1..], i - 1);
      assert Without(fs, i)[1..] == Without(fs[1..], i - 1);
    }
  }

  lemma {:induction false} ReorderingKeepsLeading(a: Metric, b: Metric, key: string)
    requires Reordered(a, b)
    ensures Leading(a, key) == Leading(b, key)
    decreases a, 1
  {
    match a
    case Scalar(_) =>
    case Node(es) => EntriesKeepLeading(es, b.entries, key);
    case Many(items) => ItemsKeepLeading(items, b.items, key);
  }

  lemma {:induction false} EntriesKeepLeading(es: seq<Entry>, fs: seq<Entry>, key: string)
    requires EntriesReordered(es, fs)
    ensures LeadingOf(es, key) == LeadingOf(fs, key) && OwnSet(es, key) == OwnSet(fs, key)
    decreases es, 0
  {
    if es == [] {
    } else {
      var i: nat :| i < |fs| && HeadAt(es[0], fs[i]) && EntriesReordered(es[1..], Without(fs, i));
      ReorderingKeepsLeading(es[0].value, fs[i].value, key);
      EntriesKeepLeading(es[1..], Without(fs, i), key);
      LeadingAt(fs, i, key);
    }
  }

  lemma {:induction false} ItemsKeepLeading(items: seq<Metric>, js: seq<Metric>, key: string)
    requires ItemsReordered(items, js)
    ensures LeadingIn(items, key) == LeadingIn(js, key)
    decreases items, 0
  {
    if items == [] {
    } else {
      ReorderingKeepsLeading(items[0], js[0], key);
      ItemsKeepLeading(items[1..], js[1..], key);
    }
  }

  lemma {:induction false} DistinctAt(fs: seq<Entry>, i: nat)
    requires i < |fs| && Distinct(Without(fs, i)) && Lacks(Without(fs, i), fs[i].key)
    ensures Distinct(fs)
  {
    if i == 0 {
      assert Without(fs, 0) == fs[1..];
    } else {
      var rest := Without(fs[1..], i - 1);
      assert Without(fs, i) == [fs[0]] + rest && Without(fs, i)[1..] == rest && fs[1..][i - 1] == fs[i];
      assert fs[0] in Without(fs, i) && forall e :: e in rest ==> e in Without(fs, i);
      DistinctAt(fs[1..], i - 1);
      WithoutMembers(fs[1..], i - 1);
    }
  }

  lemma {:induction false} ReorderingKeepsUnique(a: Metric, b: Metric)
    requires Reordered(a, b) && UniqueKeys(a)
    ensures UniqueKeys(b)
    decreases a, 1
  {
    match a
    case Scalar(_) =>
    case Node(es) => EntriesKeepUnique(es, b.entries);
    case Many(items) => ItemsKeepUnique(items, b.items);
  }

  lemma {:induction false} EntriesKeepUnique(es: seq<Entry>, fs: seq<Entry>)
    requires EntriesReordered(es, fs) && Distinct(es) && forall e :: e in es ==> UniqueKeys(e.value)
    ensures Distinct(fs) && forall e :: e in fs ==> UniqueKeys(e.value)
    ensures forall k :: Lacks(es, k) ==> Lacks(fs, k)
    decreases es, 0
  {
    if es == [] {
    } else {
      var i: nat :| i < |fs| && HeadAt(es[0], fs[i]) && EntriesReordered(es[1..], Without(fs, i));
      assert es[0] in es && forall e :: e in es[1..] ==> e in es;
      ReorderingKeepsUnique(es[0].value, fs[i].value);
      EntriesKeepUnique(es[1..], Without(fs, i));
      WithoutMembers(fs, i);
      DistinctAt(fs, i);
      forall k | Lacks(es, k) ensures Lacks(fs, k) { assert Lacks(es[1..], k); }
    }
  }

  lemma {:induction false} ItemsKeepUnique(items: seq<Metric>, js: seq<Metric>)
    requires ItemsReordered(items, js) && forall x :: x in items ==> UniqueKeys(x)
    ensures forall x :: x in js ==> UniqueKeys(x)
    decreases items, 0
  {
    if items == [] {
    } else {
      ReorderingKeepsUnique(items[0], js[0]);
      ItemsKeepUnique(items[1..], js[1..]);
      assert forall x :: x in js <==> x == js[0] || x in js[1..];
    }
  }

  ghost predicate Unmarked(es: seq<Entry>) { forall e :: e in es ==> !IsMarker(e) && NoMarker(e.value) }

  /** Markers are found in every order of the keys, or in none. */
  lemma {:induction false} ReorderingKeepsMarkers(a: Metric, b: Metric)
    requires Reordered(a, b)
    ensures NoMarker(a) <==> NoMarker(b)
    decreases a, 1
  {
    match a
    case Scalar(_) =>
    case Node(es) => EntriesKeepMarkers(es, b.entries);
    case Many(items) => ItemsKeepMarkers(items, b.items);
  }

  lemma {:induction false} EntriesKeepMarkers(es: seq<Entry>, fs: seq<Entry>)
    requires EntriesReordered(es, fs)
    ensures Unmarked(es) <==> Unmarked(fs)
    decreases es, 0
  {
    if es == [] {
    } else {
      var i: nat :| i < |fs| && HeadAt(es[0], fs[i]) && EntriesReordered(es[1..], Without(fs, i));
      ReorderingKeepsMarkers(es[0].value, fs[i].value);
      EntriesKeepMarkers(es[1..], Without(fs, i));
      SameMarker(es[0], fs[i]);
      WithoutMembers(fs, i);
      assert forall e :: e in es <==> e == es[0] || e in es[1..];
    }
  }

  lemma SameMarker(e: Entry, f: Entry)
    requires HeadAt(e, f)
    ensures IsMarker(e) <==> IsMarker(f)
  {
  }

  lemma {:induction false} ItemsKeepMarkers(items: seq<Metric>, js: seq<Metric>)
    requires ItemsReordered(items, js)
    ensures (forall x :: x in items ==> NoMarker(x)) <==> (forall x :: x in js ==> NoMarker(x))
    decreases items, 0
  {
    if items == [] {
    } else {
      ReorderingKeepsMarkers(items[0], js[0]);
      ItemsKeepMarkers(items[1..], js[1..]);
      assert forall x :: x in items <==> x == items[0] || x in items[1..];
      assert forall x :: x in js <==> x == js[0] || x in js[1..];
    }
  }

  // ---------------------------------------------------------------- every leading value is found in some order

  lemma {:induction false} Leader(m: Metric, key: string, v: bool) returns (b: Metric)
    requires UniqueKeys(m) && v in Leading(m, key)
    ensures Reordered(m, b) && NestedBool(b, key) == Some(v)
    decreases m, 1
  {
    match m
    case Node(es) =>
      OwnIsOwnSet(es, key);
      if OwnSet(es, key) != {} {
        b := m;
        ReorderedRefl(m);
      } else {
        var fs := LeaderOf(es, key, v);
        b := Node(fs);
        EntriesKeepLeading(es, fs, key);
        EntriesKeepUnique(es, fs);
        OwnIsOwnSet(fs, key);
      }
    case Many(items) =>
      var js := LeaderIn(items, key, v);
      b := Many(js);
  }

  lemma {:induction false} LeaderOf(es: seq<Entry>, key: string, v: bool) returns (fs: seq<Entry>)
    requires (forall e :: e in es ==> UniqueKeys(e.value)) && v in LeadingOf(es, key)
    ensures EntriesReordered(es, fs) && fs != [] && NestedBool(fs[0].value, key) == Some(v)
    decreases es, 0
  {
    if v in Leading(es[0].value, key) {
      var b := Leader(es[0].value, key, v);
      fs := [Entry(es[0].key, b)] + es[1..];
      EntriesRefl(es[1..]);
      PutFirst(es[0], Entry(es[0].key, b), es[1..], es[1..]);
      assert [es[0]] + es[1..] == es;
    } else {
      var rest := LeaderOf(es[1..], key, v);
      fs := [rest[0]] + [es[0]] + rest[1..];
      ReorderedRefl(es[0].value);
      assert Without(fs, 1) == rest;
      PutAt(es, fs, 1);
    }
  }

  lemma {:induction false} LeaderIn(items: seq<Metric>, key: string, v: bool) returns (js: seq<Metric>)
    requires (forall x :: x in items ==> UniqueKeys(x)) && v in LeadingIn(items, key)
    ensures ItemsReordered(items, js) && NestedBoolItems(js, key) == Some(v)
    decreases items, 0
  {
    if Leading(items[0], key) != {} {
      var b := Leader(items[0], key, v);
      js := [b] + items[1..];
      ItemsRefl(items[1..]);
      assert js[1..] == items[1..];
    } else {
      var rest := LeaderIn(items[1..], key, v);
      js := [items[0]] + rest;
      ReorderedRefl(items[0]);
      FoundIsLeading(items[0], key);
      assert js[1..] == rest;
    }
  }

  // ---------------------------------------------------------------- when the order does not matter

  /** A settled flag is found the same in every order of the keys. */
  lemma OrderDoesNotMatter(a: Metric, b: Metric, key: string)
    requires Reordered(a, b) && UniqueKeys(a) && Settled(a, key)
    ensures NestedBool(b, key) == NestedBool(a, key) && Settled(b, key) && UniqueKeys(b)
  {
    ReorderingKeepsLeading(a, b, key);
    ReorderingKeepsUnique(a, b);
    FoundIsLeading(a, key);
    FoundIsLeading(b, key);
    if NestedBool(a, key).Some? { OneValue(Leading(a, key), NestedBool(a, key).value, NestedBool(b, key).value); }
  }

  lemma OneValue(values: set<bool>, x: bool, y: bool)
    requires x in values && y in values && !(true in values && false in values)
    ensures x == y
  {
    if x {
    } else {
    }
  }

  /** Order independence holds exactly for settled flags. */
  lemma OrderIsIrrelevantIff(a: Metric, key: string)
    requires UniqueKeys(a)
    ensures (forall b :: Reordered(a, b) ==> NestedBool(b, key) == NestedBool(a, key)) <==> Settled(a, key)
  {
    if Settled(a, key) {
      forall b | Reordered(a, b) ensures NestedBool(b, key) == NestedBool(a, key) { OrderDoesNotMatter(a, b, key); }
    } else {
      var yes := Leader(a, key, true);
      var no := Leader(a, key, false);
      assert Reordered(a, yes) && Reordered(a, no) && NestedBool(yes, key) != NestedBool(no, key);
    }
  }

  lemma {:induction false} OwnAmongFlags(es: seq<Entry>, key: string)
    requires Distinct(es)
    ensures forall v :: v in OwnSet(es, key) ==> OwnBool(es, key) == Some(v)
  {
    OwnIsOwnSet(es, key);
  }

  lemma {:induction false} LeadingAmongFlags(m: Metric, key: string, v: bool)
    requires UniqueKeys(m) && v in Leading(m, key)
    ensures v in Flags(m, key)
    decreases m, 1
  {
    match m
    case Node(es) =>
      OwnAmongFlags(es, key);
      if OwnSet(es, key) == {} { LeadingBelow(es, key, v); }
    case Many(items) => LeadingWithin(items, key, v);
  }

  lemma {:induction false} LeadingBelow(es: seq<Entry>, key: string, v: bool)
    requires (forall e :: e in es ==> UniqueKeys(e.value)) && v in LeadingOf(es, key)
    ensures v in FlagsBelow(es, key)
    decreases es, 0
  {
    if v in Leading(es[0].value, key) {
      LeadingAmongFlags(es[0].value, key, v);
    } else {
      LeadingBelow(es[1..], key, v);
    }
  }

  lemma {:induction false} LeadingWithin(items: seq<Metric>, key: string, v: bool)
    requires (forall x :: x in items ==> UniqueKeys(x)) && v in LeadingIn(items, key)
    ensures v in FlagsIn(items, key)
    decreases items, 0
  {
    if Leading(items[0], key) != {} { LeadingAmongFlags(items[0], key, v); } else { LeadingWithin(items[1..], key, v); }
  }

  /** All occurrences of the flag have one value; in particular it may occur at most once. */
  ghost predicate Agreeing(m: Metric, key: string) { !(true in Flags(m, key) && false in Flags(m, key)) }

  /** A flag whose occurrences agree is settled. */
  lemma AgreeingFlagsAreSettled(m: Metric, key: string)
    requires UniqueKeys(m) && Agreeing(m, key)
    ensures Settled(m, key)
  {
    if true in Leading(m, key) { LeadingAmongFlags(m, key, true); }
    if false in Leading(m, key) { LeadingAmongFlags(m, key, false); }
  }

  // ---------------------------------------------------------------- key sorting

  function InsertEntry(e: Entry, es: seq<Entry>): seq<Entry> {
    if es == [] then [e]
    else if TextLeq(e.key, es[0].key) then [e] + es
    else [es[0]] + InsertEntry(e, es[1..])
  }

  /** The tree after `json.dumps(sort_keys=True)` and `json.loads`: what each process hop does. */
  function SortKeys(m: Metric): (r: Metric)
    ensures r.Node? <==> m.Node?
    ensures m.Scalar? || r.Scalar? ==> r == m
    decreases m, 1
  {
    match m
    case Scalar(_) => m
    case Node(es) => Node(SortEntries(es))
    case Many(items) => Many(SortItems(items))
  }

  function SortEntries(es: seq<Entry>): seq<Entry>
    decreases es, 0
  {
    if es == [] then [] else InsertEntry(Entry(es[0].key, SortKeys(es[0].value)), SortEntries(es[1..]))
  }

  function SortItems(items: seq<Metric>): seq<Metric>
    decreases items, 0
  {
    if items == [] then [] else [SortKeys(items[0])] + SortItems(items[1..])
  }

  lemma WithoutBehind(e: Entry, es: seq<Entry>, j: nat)
    requires j < |es|
    ensures ([e] + es)[j + 1] == es[j] && Without([e] + es, j + 1) == [e] + Without(es, j)
  {
  }

  lemma {:induction false} InsertIndex(e: Entry, es: seq<Entry>) returns (i: nat)
    ensures i < |InsertEntry(e, es)| && InsertEntry(e, es)[i] == e && Without(InsertEntry(e, es), i) == es
  {
    if es == [] || TextLeq(e.key, es[0].key) {
      i := 0;
      assert Without([e] + es, 0) == es;
    } else {
      var j := InsertIndex(e, es[1..]);
      i := j + 1;
      WithoutBehind(es[0], InsertEntry(e, es[1..]), j);
      assert [es[0]] + es[1..] == es;
    }
  }

  /** Sorting the keys at every level is a reordering. */
  lemma {:induction false} SortKeysReorders(m: Metric)
    ensures Reordered(m, SortKeys(m))
    decreases m, 1
  {
    match m
    case Scalar(_) =>
    case Node(es) => SortEntriesReorders(es);
    case Many(items) => SortItemsReorders(items);
  }

  lemma {:induction false} SortEntriesReorders(es: seq<Entry>)
    ensures EntriesReordered(es, SortEntries(es))
    decreases es, 0
  {
    if es == [] {
    } else {
      SortKeysReorders(es[0].value);
      SortEntriesReorders(es[1..]);
      var i := InsertIndex(Entry(es[0].key, SortKeys(es[0].value)), SortEntries(es[1..]));
      PutAt(es, SortEntries(es), i);
    }
  }

  lemma {:induction false} SortItemsReorders(items: seq<Metric>)
    ensures ItemsReordered(items, SortItems(items))
    decreases items, 0
  {
    if items == [] {
    } else {
      SortKeysReorders(items[0]);
      SortItemsReorders(items[1..]);
      assert SortItems(items)[1..] == SortItems(items[1..]);
    }
  }

  // ---------------------------------------------------------------- a flag that is not settled

  function Flagged(ready: bool): Metric { Node([Entry(SHARD_ONLY_READY, Scalar(Bool(ready)))]) }

  /** Two contradicting flags: sorting the keys on the next hop turns the found value around. */
  lemma SortingCanFlipRepeatedFlag()
    ensures var m := Node([Entry("b", Flagged(true)), Entry("a", Flagged(false))]);
            && UniqueKeys(m)
            && NestedBool(m, SHARD_ONLY_READY) == Some(true)
            && NestedBool(SortKeys(m), SHARD_ONLY_READY) == Some(false)
  {
    var yes, no := Flagged(true), Flagged(false);
    var es := [Entry("b", yes), Entry("a", no)];
    assert es[1..] == [Entry("a", no)] && es[1..][1..] == [];
    assert NestedBool(yes, SHARD_ONLY_READY) == Some(true) && NestedBool(no, SHARD_ONLY_READY) == Some(false);
    assert SortEntries(yes.entries) == yes.entries && SortEntries(no.entries) == no.entries by {
      assert yes.entries[1..] == [] && no.entries[1..] == [];
    }
    assert !TextLeq("b", "a");
    assert SortEntries(es[1..]) == [Entry("a", no)];
    assert InsertEntry(Entry("b", yes), es[1..]) == [Entry("a", no)] + InsertEntry(Entry("b", yes), []);
    assert SortKeys(yes) == yes && SortEntries(es) == [Entry("a", no), Entry("b", yes)];
    assert Lacks(es[1..], "b") && Distinct(es[1..][1..]) && Distinct(es[1..]);
    assert UniqueKeys(yes) && UniqueKeys(no) by {
      assert Distinct(yes.entries[1..]) && Distinct(no.entries[1..]);
    }
  }
}
