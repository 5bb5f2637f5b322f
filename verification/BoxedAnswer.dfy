/** Extraction of the last `\boxed{...}` answer from a model response. */
module BoxedAnswer {
  import opened PyValue

  const OPENER := "\\boxed{"

  // ---------------------------------------------------------------- specification of the scan

  /** `text[i:i + 7]` is the opener, character by character. */
  predicate OpenerAt(text: string, i: int) {
    && 0 <= i && i + 7 <= |text|
    && text[i] == '\\' && text[i + 1] == 'b' && text[i + 2] == 'o' && text[i + 3] == 'x'
    && text[i + 4] == 'e' && text[i + 5] == 'd' && text[i + 6] == '{'
  }

  /** `text.find(OPENER, from)` */
  function FindOpener(text: string, from: nat): (r: Option<nat>)
    ensures r.Some? ==> from <= r.value && r.value + 7 <= |text|
    decreases |text| - from
  {
    if from + 7 > |text| then None
    else if OpenerAt(text, from) then Some(from)
    else FindOpener(text, from + 1)
  }

  /** The search finds the first opener, and nothing exactly when there is none. */
  lemma {:induction false} FindOpenerIsFirst(text: string, from: nat)
    ensures match FindOpener(text, from)
            case Some(pos) => OpenerAt(text, pos) && forall j :: from <= j < pos ==> !OpenerAt(text, j)
            case None => forall j :: from <= j ==> !OpenerAt(text, j)
    decreases |text| - from
  {
    if from + 7 <= |text| && !OpenerAt(text, from) { FindOpenerIsFirst(text, from + 1); }
  }

  /** The index of the brace that closes depth `depth` from `i` on, or the length of the text. */
  function CloseAt(text: string, i: nat, depth: nat): (c: nat)
    requires i <= |text|
    ensures i <= c <= |text|
    decreases |text| - i
  {
    if i == |text| then i
    else if text[i] == '{' then CloseAt(text, i + 1, depth + 1)
    else if text[i] == '}' then (if depth == 0 then i else CloseAt(text, i + 1, depth - 1))
    else CloseAt(text, i + 1, depth)
  }

  /** The bodies collected from `idx` on; an unclosed box ends the scan. */
  function Matches(text: string, idx: nat): seq<string>
    decreases |text| - idx
  {
    var pos := FindOpener(text, idx);
    if pos.None? then []
    else
      var start := pos.value + 7;
      var close := CloseAt(text, start, 0);
      if close == |text| then [] else [text[start..close]] + Matches(text, close + 1)
  }

  function LastStripped(matches: seq<string>): Option<string> {
    if matches == [] then None else Some(Strip(matches[|matches| - 1]))
  }

  /** The inner scanning loop: from `start`, look for the brace that closes the box. */
  method ScanBody(text: string, start: nat) returns (i: nat)
    requires start <= |text|
    ensures i == CloseAt(text, start, 0)
  {
    var depth: nat := 0;
    i := start;
    while i < |text|
      invariant start <= i <= |text|
      invariant CloseAt(text, i, depth) == CloseAt(text, start, 0)
    {
      if text[i] == '{' {
        depth := depth + 1;
      } else if text[i] == '}' {
        if depth == 0 {
          break;
        }
        depth := depth - 1;
      }
      i := i + 1;
    }
  }

  lemma MatchesStep(text: string, idx: nat)
    requires FindOpener(text, idx).Some?
    ensures var start := FindOpener(text, idx).value + 7;
            var close := CloseAt(text, start, 0);
            Matches(text, idx) == if close == |text| then [] else [text[start..close]] + Matches(text, close + 1)
  {
  }

  lemma NoOpenerAtEnd(text: string)
    ensures FindOpener(text, |text|) == None && Matches(text, |text|) == []
  {
  }

  /** The outer scanning loop. */
  method ExtractBoxed(text: string) returns (r: Option<string>)
    ensures r == LastStripped(Matches(text, 0))
  {
    var matches: seq<string> := [];
    var idx: nat := 0;
    while true
      invariant idx <= |text|
      invariant Matches(text, 0) == matches + Matches(text, idx)
      decreases |text| - idx
    {
      var pos := FindOpener(text, idx);
      if pos.None? {
        break;
      }
      var start := pos.value + 7;
      var i := ScanBody(text, start);
      CollectStep(text, matches, idx);
      if i < |text| {
        matches := matches + [text[start..i]];
        idx := i + 1;
      } else {
        idx := |text|;
      }
    }
    assert matches + [] == matches;
    return LastStripped(matches);
  }

  lemma CollectStep(text: string, matches: seq<string>, idx: nat)
    requires FindOpener(text, idx).Some? && Matches(text, 0) == matches + Matches(text, idx)
    ensures var start := FindOpener(text, idx).value + 7;
            var close := CloseAt(text, start, 0);
            if close == |text| then Matches(text, 0) == matches + Matches(text, |text|)
            else Matches(text, 0) == (matches + [text[start..close]]) + Matches(text, close + 1)
  {
    MatchesStep(text, idx);
    NoOpenerAtEnd(text);
  }

  // ---------------------------------------------------------------- brace balance

  function Delta(c: char): int { if c == '{' then 1 else if c == '}' then -1 else 0 }

  /** Opened minus closed braces. */
  function Net(s: string): int { if s == "" then 0 else Delta(s[0]) + Net(s[1..]) }

  /** From depth `depth`, no prefix closes more than was open. */
  predicate NeverBelow(s: string, depth: int) {
    depth >= 0 && (s != "" ==> NeverBelow(s[1..], depth + Delta(s[0])))
  }

  predicate Balanced(s: string) { NeverBelow(s, 0) && Net(s) == 0 }

  lemma {:induction false} NeverBelowPrefixes(s: string, depth: int, k: nat)
    requires NeverBelow(s, depth) && k <= |s|
    ensures depth + Net(s[..k]) >= 0
  {
    if k > 0 {
      assert s[..k][1..] == s[1..][..k - 1];
      NeverBelowPrefixes(s[1..], depth + Delta(s[0]), k - 1);
    }
  }

  /** The closing index is found exactly where the depth first returns to zero at a closing brace. */
  lemma {:induction false} CloseMatches(text: string, i: nat, depth: nat)
    requires i <= |text|
    ensures var c := CloseAt(text, i, depth);
            c < |text| ==> text[c] == '}' && NeverBelow(text[i..c], depth) && depth + Net(text[i..c]) == 0
    decreases |text| - i
  {
    var c := CloseAt(text, i, depth);
    if i < |text| && !(text[i] == '}' && depth == 0) {
      CloseMatches(text, i + 1, depth + Delta(text[i]));
      if c < |text| { assert text[i..c][1..] == text[i + 1..c]; }
    }
  }

  lemma {:induction false} CloseIsUnique(text: string, i: nat, depth: nat, c: nat)
    requires i <= c < |text| && text[c] == '}' && NeverBelow(text[i..c], depth) && depth + Net(text[i..c]) == 0
    ensures CloseAt(text, i, depth) == c
    decreases c - i
  {
    if i < c {
      assert text[i..c][1..] == text[i + 1..c];
      assert depth + Delta(text[i]) >= 0;
      CloseIsUnique(text, i + 1, depth + Delta(text[i]), c);
    }
  }

  /** Every collected match is balanced. */
  lemma {:induction false} MatchesAreBalanced(text: string, idx: nat, k: nat)
    requires k < |Matches(text, idx)|
    ensures Balanced(Matches(text, idx)[k])
    decreases |text| - idx
  {
    MatchesStep(text, idx);
    var start := FindOpener(text, idx).value + 7;
    var close := CloseAt(text, start, 0);
    if k == 0 {
      CloseMatches(text, start, 0);
    } else {
      MatchesAreBalanced(text, close + 1, k - 1);
    }
  }

  /** No prefix of a collected match closes more braces than it opens. */
  lemma MatchPrefixesStayOpen(text: string, k: nat, n: nat)
    requires k < |Matches(text, 0)| && n <= |Matches(text, 0)[k]|
    ensures Net(Matches(text, 0)[k][..n]) >= 0 && Net(Matches(text, 0)[k]) == 0
  {
    MatchesAreBalanced(text, 0, k);
    NeverBelowPrefixes(Matches(text, 0)[k], 0, n);
  }

  // ---------------------------------------------------------------- texts with any number of boxes

  /** Plain text, then any number of boxes, each followed by plain text. */
  datatype Doc = Plain(plain: string) | Boxed(plain: string, body: string, rest: Doc)

  function Render(d: Doc): string {
    match d
    case Plain(p) => p
    case Boxed(p, b, rest) => p + (OPENER + (b + ("}" + Render(rest))))
  }

  function Bodies(d: Doc): seq<string> {
    match d
    case Plain(_) => []
    case Boxed(_, b, rest) => [b] + Bodies(rest)
  }

  ghost predicate NoOpener(s: string) { forall i :: !OpenerAt(s, i) }

  /** Plain texts hold no opener, and bodies are balanced (they may hold boxes of their own). */
  ghost predicate WellBoxed(d: Doc) {
    && NoOpener(d.plain)
    && (d.Boxed? ==> Balanced(d.body) && WellBoxed(d.rest))
  }

  lemma OpenerIsOpener(text: string, i: nat)
    requires i + 7 <= |text|
    ensures OpenerAt(text, i) <==> text[i..i + 7] == OPENER
  {
    var s := text[i..i + 7];
    assert forall k :: 0 <= k < 7 ==> s[k] == text[i + k];
    if OpenerAt(text, i) {
      assert s[0] == OPENER[0] && s[1] == OPENER[1] && s[2] == OPENER[2] && s[3] == OPENER[3];
      assert s[4] == OPENER[4] && s[5] == OPENER[5] && s[6] == OPENER[6];
    }
  }

  lemma OpenerInside(text: string, plain: string, rest: string, at: nat, j: nat)
    requires at <= |text| && text[at..] == plain + rest && at <= j && j + 7 <= at + |plain|
    ensures OpenerAt(text, j) <==> OpenerAt(plain, j - at)
  {
    assert forall k :: 0 <= k < |plain| ==> text[at..][k] == plain[k];
    assert forall k :: 0 <= k < |plain| ==> text[at + k] == plain[k];
  }

  /** An opener cannot straddle the end of plain text: only its first character is a backslash. */
  lemma OpenerDoesNotStraddle(text: string, plain: string, rest: string, at: nat, j: nat)
    requires at <= |text| && text[at..] == plain + rest && at <= j < at + |plain| < j + 7
    requires rest == "" || rest[0] == '\\'
    ensures !OpenerAt(text, j)
  {
    if rest != "" {
      assert text[at + |plain|] == text[at..][|plain|] == rest[0];
    }
  }

  /** No opener starts inside plain text that is followed by nothing or by a backslash. */
  lemma NoEarlyOpener(text: string, plain: string, rest: string, at: nat, j: nat)
    requires at <= |text| && text[at..] == plain + rest && at <= j < at + |plain|
    requires NoOpener(plain) && (rest == "" || rest[0] == '\\')
    ensures !OpenerAt(text, j)
  {
    if j + 7 <= at + |plain| {
      OpenerInside(text, plain, rest, at, j);
    } else {
      OpenerDoesNotStraddle(text, plain, rest, at, j);
    }
  }

  lemma OpenerFoundAt(text: string, plain: string, rest: string, at: nat)
    requires at <= |text| && text[at..] == plain + (OPENER + rest) && NoOpener(plain)
    ensures FindOpener(text, at) == Some(at + |plain|)
  {
    var pos := at + |plain|;
    assert text[pos..pos + 7] == text[at..][|plain|..|plain| + 7] == OPENER;
    OpenerIsOpener(text, pos);
    forall j | at <= j < pos ensures !OpenerAt(text, j) { NoEarlyOpener(text, plain, OPENER + rest, at, j); }
    FindOpenerIsFirst(text, at);
  }

  lemma NoOpenerFound(text: string, plain: string, at: nat)
    requires at <= |text| && text[at..] == plain && NoOpener(plain)
    ensures FindOpener(text, at) == None
  {
    forall j | at <= j ensures !OpenerAt(text, j) {
      if j < |text| {
        assert plain + "" == plain;
        NoEarlyOpener(text, plain, "", at, j);
      }
    }
    FindOpenerIsFirst(text, at);
  }

  /** From any position where the document begins, the scan collects exactly the bodies. */
  lemma {:induction false} ScanCollectsBodies(text: string, at: nat, d: Doc)
    requires at <= |text| && text[at..] == Render(d) && WellBoxed(d)
    ensures Matches(text, at) == Bodies(d)
    decreases d
  {
    match d
    case Plain(p) =>
      NoOpenerFound(text, p, at);
    case Boxed(p, b, rest) =>
      BoxStep(text, at, p, b, Render(rest));
      ScanCollectsBodies(text, at + |p| + 7 + |b| + 1, rest);
  }

  /** One box: its body is collected and the scan goes on right behind it. */
  lemma BoxStep(text: string, at: nat, plain: string, body: string, tail: string)
    requires at <= |text| && text[at..] == plain + (OPENER + (body + ("}" + tail)))
    requires NoOpener(plain) && Balanced(body)
    ensures var close := at + |plain| + 7 + |body|;
            close < |text| && text[close + 1..] == tail && Matches(text, at) == [body] + Matches(text, close + 1)
  {
    OpenerFoundAt(text, plain, body + ("}" + tail), at);
    BoxLayout(text, at, plain, body, tail);
    CloseIsUnique(text, at + |plain| + 7, 0, at + |plain| + 7 + |body|);
    MatchesStep(text, at);
  }

  lemma BoxLayout(text: string, at: nat, plain: string, body: string, tail: string)
    requires at <= |text| && text[at..] == plain + (OPENER + (body + ("}" + tail)))
    ensures var start := at + |plain| + 7;
            var close := start + |body|;
            close < |text| && text[start..close] == body && text[close] == '}' && text[close + 1..] == tail
  {
    var s := text[at..];
    var k := |plain| + 7;
    assert s[k..k + |body|] == body && s[k + |body|] == '}' && s[k + |body| + 1..] == tail;
    assert text[at + k..at + k + |body|] == s[k..k + |body|];
  }

  /** For any number of boxes with balanced bodies, the answer is the last body, stripped. */
  lemma LastBoxWins(d: Doc)
    requires WellBoxed(d)
    ensures LastStripped(Matches(Render(d), 0)) == LastStripped(Bodies(d))
    ensures d.Boxed? && d.rest.Plain? ==> LastStripped(Matches(Render(d), 0)) == Some(Strip(d.body))
  {
    assert Render(d)[0..] == Render(d);
    ScanCollectsBodies(Render(d), 0, d);
  }
}
