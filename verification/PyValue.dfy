/**
 Raw JSON values and the Python coercions the shard stack applies to them.

 A document is modelled elsewhere as a record with one `Value` per key that the code reads; an
 absent key is `Null`, as with `dict.get`.  Everything the code does to such a value goes through
 `Truthy` (`bool(v)`), `StrOf` (`str(v)`), `Clean` (`str(v or "").strip()`) and `OptInt`.
 */
module PyValue {

  datatype Option<+T> = None | Some(value: T)

  datatype Result<+T, +E> = Ok(value: T) | Err(error: E) {
    predicate IsFailure() { Err? }
    function PropagateFailure<U>(): Result<U, E>
      requires Err?
    {
      Err(error)
    }
    function Extract(): T
      requires Ok?
    {
      value
    }
  }

  /** `Other` stands for floats and nested mappings: it carries what `bool`, `str` and `int` give. */
  datatype Value =
    | Null
    | Bool(flag: bool)
    | Num(num: int)
    | Text(text: string)
    | List(items: seq<Value>, shown: string)
    | Other(truthy: bool, shown: string, whole: Option<int>)

  type Byte = x: int | 0 <= x < 256
  type Bytes = seq<Byte>

  predicate Truthy(v: Value) {
    match v
    case Null => false
    case Bool(b) => b
    case Num(n) => n != 0
    case Text(s) => s != ""
    case List(items, _) => items != []
    case Other(t, _, _) => t
  }

  function StrOf(v: Value): string {
    match v
    case Null => "None"
    case Bool(b) => if b then "True" else "False"
    case Num(n) => Decimal(n)
    case Text(s) => s
    case List(_, shown) => shown
    case Other(_, shown, _) => shown
  }

  /** `str(v or "").strip()` */
  function Clean(v: Value): (r: string)
    ensures Trimmed(r)
  {
    Strip(if Truthy(v) then StrOf(v) else "")
  }

  /** `str(v or "").strip() or None` */
  function CleanOrNone(v: Value): (r: Option<string>)
    ensures r.Some? ==> Trimmed(r.value) && r.value != ""
  {
    NonEmpty(Clean(v))
  }

  function NonEmpty(s: string): Option<string> {
    if s == "" then None else Some(s)
  }

  /** `int(v)` with `None`, the empty string and every failed conversion read as absent. */
  function OptInt(v: Value): Option<int> {
    match v
    case Null => None
    case Bool(b) => Some(if b then 1 else 0)
    case Num(n) => Some(n)
    case Text(s) => ParseInt(Strip(s))
    case List(_, _) => None
    case Other(_, _, whole) => whole
  }

  function NonNegative(v: Option<int>): (r: Option<nat>)
    ensures r.Some? ==> v == Some(r.value as int)
    ensures r.None? <==> v.None? || v.value < 0
  {
    if v.Some? && v.value >= 0 then Some(v.value) else None
  }

  function OptNat(v: Value): Option<nat> {
    NonNegative(OptInt(v))
  }

  /** `_truthy`: booleans as they are, other values by the words "1", "true", "yes" and "on". */
  predicate SaysYes(v: Value) {
    match v
    case Bool(b) => b
    case Null => false
    case _ => var word := Lower(Strip(StrOf(v))); word == "1" || word == "true" || word == "yes" || word == "on"
  }

  /** The value a Python `int | None` is written as in a document. */
  function FromInt(v: Option<int>): Value {
    if v.Some? then Num(v.value) else Null
  }

  /** The value a Python `str | None` is written as in a document. */
  function FromText(v: Option<string>): Value {
    if v.Some? then Text(v.value) else Null
  }

  function Decimal(n: int): string
    decreases if n < 0 then 1 - n else n
  {
    if n < 0 then "-" + Decimal(-n)
    else if n < 10 then [('0' as int + n) as char]
    else Decimal(n / 10) + [('0' as int + n % 10) as char]
  }

  /** Decimal literals as `int` reads them: an optional sign, then digits with single underscores. */
  function ParseInt(s: string): Option<int> {
    if s != "" && s[0] == '-' then
      var r := ParseDigits(s[1..], 0, false);
      if r.Some? then Some(-r.value) else None
    else if s != "" && s[0] == '+' then ParseDigits(s[1..], 0, false)
    else ParseDigits(s, 0, false)
  }

  function ParseDigits(s: string, acc: int, afterDigit: bool): Option<int> {
    if s == "" then (if afterDigit then Some(acc) else None)
    else if '0' <= s[0] <= '9' then ParseDigits(s[1..], 10 * acc + (s[0] as int - '0' as int), true)
    else if s[0] == '_' && afterDigit then ParseDigits(s[1..], acc, false)
    else None
  }

  /** The characters `str.strip()` removes. */
  predicate IsSpace(c: char) {
    var k := c as int;
    || 9 <= k <= 13 || 28 <= k <= 32 || k == 0x85 || k == 0xA0 || k == 0x1680
    || 0x2000 <= k <= 0x200A || k == 0x2028 || k == 0x2029 || k == 0x202F || k == 0x205F || k == 0x3000
  }

  predicate Trimmed(s: string) {
    s != "" ==> !IsSpace(s[0]) && !IsSpace(s[|s| - 1])
  }

  /** The last `n` characters of `s` without leading white space. */
  function StripLeft(s: string, n: nat): (r: string)
    requires n <= |s|
    ensures r != "" ==> s != "" && !IsSpace(r[0]) && r[|r| - 1] == s[|s| - 1]
    ensures n == |s| > 0 && !IsSpace(s[0]) ==> r == s
  {
    if n > 0 && IsSpace(s[|s| - n]) then StripLeft(s, n - 1) else s[|s| - n..]
  }

  /** The first `n` characters of `s` without trailing white space. */
  function StripRight(s: string, n: nat): (r: string)
    requires n <= |s|
    ensures r != "" ==> s != "" && !IsSpace(r[|r| - 1]) && r[0] == s[0]
    ensures n == |s| > 0 && !IsSpace(s[n - 1]) ==> r == s
  {
    if n > 0 && IsSpace(s[n - 1]) then StripRight(s, n - 1) else s[..n]
  }

  /** `str.strip()`: the result has no outer white space, and text without any is unchanged. */
  function Strip(s: string): (r: string)
    ensures Trimmed(r)
    ensures Trimmed(s) ==> r == s
  {
    var t := StripLeft(s, |s|);
    StripRight(t, |t|)
  }

  function LowerChar(c: char): (r: char)
    ensures IsSpace(r) <==> IsSpace(c)
  {
    if 'A' <= c <= 'Z' then (c as int + 32) as char else c
  }

  /** `str.lower()` on ASCII letters; other characters are left as they are. */
  function Lower(s: string): (r: string)
    ensures |r| == |s|
    ensures Trimmed(s) ==> Trimmed(r)
    ensures (forall i :: 0 <= i < |s| ==> !('A' <= s[i] <= 'Z')) ==> r == s
  {
    seq(|s|, i requires 0 <= i < |s| => LowerChar(s[i]))
  }

  predicate IsHex(c: char) { '0' <= c <= '9' || 'a' <= c <= 'f' }

  /** A SHA-256 hex digest. */
  type Digest = s: string | |s| == 64 && forall i :: 0 <= i < |s| ==> IsHex(s[i])
    witness seq(64, i => '0')

  /** Reading a digest back with `strip().lower()` gives the digest. */
  lemma DigestIsClean(d: Digest)
    ensures Trimmed(d) && Lower(d) == d && Clean(Text(d)) == d
  {
    assert forall i :: 0 <= i < |d| ==> IsHex(d[i]);
    assert IsHex(d[0]) && IsHex(d[|d| - 1]);
  }

  /** The parts of the host that the stack calls: hashing, text encoding and path resolution. */
  datatype World = World(
    sha256: Bytes -> Digest,
    utf8: string -> Bytes,
    resolve: string -> Option<string>)

  /** `Path(p).expanduser().resolve()` is idempotent. */
  ghost predicate PathsResolve(w: World) {
    forall p: string :: w.resolve(p).Some? ==> w.resolve(w.resolve(p).value) == w.resolve(p)
  }

  /** Stripping and resolving the path again leads back to it. */
  predicate PathKept(w: World, p: string) { Strip(p) != "" && w.resolve(Strip(p)) == Some(p) }

  // ---------------------------------------------------------------- what the text functions do

  ghost predicate AllSpace(s: string) { forall i :: 0 <= i < |s| ==> IsSpace(s[i]) }

  lemma {:induction false} StripLeftCuts(s: string, n: nat) returns (lead: string)
    requires n <= |s|
    ensures AllSpace(lead) && s[|s| - n..] == lead + StripLeft(s, n)
  {
    lead := "";
    if n > 0 && IsSpace(s[|s| - n]) {
      var rest := StripLeftCuts(s, n - 1);
      lead := [s[|s| - n]] + rest;
      assert s[|s| - n..] == [s[|s| - n]] + s[|s| - n + 1..];
    }
  }

  lemma {:induction false} StripRightCuts(s: string, n: nat) returns (trail: string)
    requires n <= |s|
    ensures AllSpace(trail) && s[..n] == StripRight(s, n) + trail
  {
    trail := "";
    if n > 0 && IsSpace(s[n - 1]) {
      var rest := StripRightCuts(s, n - 1);
      trail := rest + [s[n - 1]];
      assert s[..n] == s[..n - 1] + [s[n - 1]];
    }
  }

  /** Stripping takes white space off both ends and nothing else. */
  lemma StripIsExact(s: string) returns (lead: string, trail: string)
    ensures AllSpace(lead) && AllSpace(trail) && s == lead + Strip(s) + trail && Trimmed(Strip(s))
  {
    lead := StripLeftCuts(s, |s|);
    var t := StripLeft(s, |s|);
    trail := StripRightCuts(t, |t|);
    assert s[|s| - |s|..] == s && t[..|t|] == t;
    assert lead + (StripRight(t, |t|) + trail) == lead + StripRight(t, |t|) + trail;
  }

  /** Lower case, character by character: capital letters are moved by 32, others stay. */
  lemma LowerIsExact(s: string, i: nat)
    requires i < |s|
    ensures |Lower(s)| == |s|
    ensures Lower(s)[i] as int == if 'A' <= s[i] <= 'Z' then s[i] as int + 32 else s[i] as int
  {
  }

  lemma LowerTwice(s: string)
    ensures Lower(Lower(s)) == Lower(s)
  {
    assert forall i :: 0 <= i < |s| ==> !('A' <= Lower(s)[i] <= 'Z');
  }

  predicate IsDigit(c: char) { '0' <= c <= '9' }

  /** Digits, with single underscores between them; one may stand in front after a digit. */
  ghost predicate Numeral(s: string, afterDigit: bool) {
    if s == "" then afterDigit
    else
      && (forall i :: 0 <= i < |s| ==> IsDigit(s[i]) || s[i] == '_')
      && IsDigit(s[|s| - 1]) && (!IsDigit(s[0]) ==> afterDigit)
      && (forall i :: 0 < i < |s| ==> IsDigit(s[i]) || IsDigit(s[i - 1]))
  }

  lemma NumeralSplits(s: string, afterDigit: bool)
    requires s != "" && (IsDigit(s[0]) || (s[0] == '_' && afterDigit))
    ensures Numeral(s, afterDigit) <==> Numeral(s[1..], IsDigit(s[0]))
  {
    var rest := s[1..];
    assert forall i :: 0 <= i < |rest| ==> rest[i] == s[i + 1];
    if Numeral(rest, IsDigit(s[0])) {
      forall i | 0 < i < |s| ensures IsDigit(s[i]) || IsDigit(s[i - 1]) {
        if i > 1 { assert IsDigit(rest[i - 1]) || IsDigit(rest[i - 2]); }
      }
      forall i | 0 <= i < |s| ensures IsDigit(s[i]) || s[i] == '_' { if i > 0 { assert s[i] == rest[i - 1]; } }
    }
    if Numeral(s, afterDigit) && rest != "" {
      forall i | 0 < i < |rest| ensures IsDigit(rest[i]) || IsDigit(rest[i - 1]) {
        assert IsDigit(s[i + 1]) || IsDigit(s[i]);
      }
      assert IsDigit(s[1]) || IsDigit(s[0]);
    }
  }

  lemma {:induction false} DigitsAreExact(s: string, acc: int, afterDigit: bool)
    ensures ParseDigits(s, acc, afterDigit).Some? <==> Numeral(s, afterDigit)
  {
    if s == "" {
    } else if IsDigit(s[0]) {
      DigitsAreExact(s[1..], 10 * acc + (s[0] as int - '0' as int), true);
      NumeralSplits(s, afterDigit);
    } else if s[0] == '_' && afterDigit {
      DigitsAreExact(s[1..], acc, false);
      NumeralSplits(s, afterDigit);
    }
  }

  /** An integer is read exactly from a numeral with at most one sign in front. */
  lemma NumeralIsExact(s: string)
    ensures ParseInt(s).Some? <==>
              Numeral(if s != "" && (s[0] == '-' || s[0] == '+') then s[1..] else s, false)
    ensures s != "" && s[0] == '-' && ParseInt(s).Some? ==>
              ParseInt(s[1..]).Some? && ParseInt(s).value == -ParseInt(s[1..]).value
    ensures s != "" && s[0] == '+' && ParseInt(s).Some? ==> ParseInt(s) == ParseInt(s[1..])
  {
    DigitsAreExact(s, 0, false);
    if s != "" { DigitsAreExact(s[1..], 0, false); }
  }

  /** What the digits of `n` add to a number that is being read. */
  function ReadOn(n: nat, acc: int): int { if n < 10 then 10 * acc + n else 10 * ReadOn(n / 10, acc) + n % 10 }

  lemma {:induction false} ReadOnNothing(n: nat)
    ensures ReadOn(n, 0) == n
  {
    if n >= 10 { ReadOnNothing(n / 10); }
  }

  lemma {:induction false} DigitsRead(n: nat, acc: int, after: bool, rest: string)
    ensures ParseDigits(Decimal(n) + rest, acc, after) == ParseDigits(rest, ReadOn(n, acc), true)
  {
    var last := [('0' as int + n % 10) as char];
    if n < 10 {
      assert Decimal(n) == last && (last + rest)[1..] == rest && (last + rest)[0] == last[0];
    } else {
      assert Decimal(n) + rest == Decimal(n / 10) + (last + rest);
      DigitsRead(n / 10, acc, after, last + rest);
      assert (last + rest)[1..] == rest && (last + rest)[0] == last[0];
    }
  }

  lemma {:induction false} DecimalStarts(n: nat)
    ensures Decimal(n) != "" && '0' <= Decimal(n)[0] <= '9'
  {
    if n >= 10 { DecimalStarts(n / 10); }
  }

  /** A written integer is read back. */
  lemma DecimalReadsBack(n: int)
    ensures ParseInt(Decimal(n)) == Some(n)
  {
    var m := if n < 0 then -n else n;
    DecimalStarts(m);
    DigitsRead(m, 0, false, "");
    ReadOnNothing(m);
    assert Decimal(m) + "" == Decimal(m);
    if n < 0 { assert Decimal(n)[1..] == Decimal(m); }
  }
}
