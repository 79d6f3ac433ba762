/**
 * `parseQuery`: the pattern `^\s*(fragment|query|mutation) (\w*)( |\()` applied with `String.prototype.split`,
 * written out as a lexer. The pattern is anchored at the start of the text, so it either matches there
 * (and the split yields the keyword and the name as its second and third parts) or the text comes back
 * whole and both parts are `undefined`.
 */
module QueryText {
  import opened Common

  /** `\s`: the JavaScript whitespace and line-terminator characters. */
  predicate IsSpace(c: char)
  {
    || c == '\t' || c == '\n' || c == '\U{B}' || c == '\U{C}' || c == '\r' || c == ' '
    || c == '\U{A0}' || c == '\U{1680}' || ('\U{2000}' <= c <= '\U{200A}')
    || c == '\U{2028}' || c == '\U{2029}' || c == '\U{202F}' || c == '\U{205F}'
    || c == '\U{3000}' || c == '\U{FEFF}'
  }

  /** `\w`: ASCII letters, digits and the underscore. */
  predicate IsWordChar(c: char)
  {
    ('a' <= c <= 'z') || ('A' <= c <= 'Z') || ('0' <= c <= '9') || c == '_'
  }

  /** The operation keywords the pattern accepts. */
  predicate IsKeyword(w: string)
  {
    w == "fragment" || w == "query" || w == "mutation"
  }

  /** `{type, name}`; both are `undefined` when the pattern does not match. */
  datatype Parsed = Parsed(operationType: Option<string>, name: Option<string>)

  /** The end of the run of whitespace starting at `i`. */
  function SpaceEnd(s: string, i: nat): (j: nat)
    requires i <= |s|
    ensures i <= j <= |s|
    ensures forall k :: i <= k < j ==> IsSpace(s[k])
    ensures j < |s| ==> !IsSpace(s[j])
    decreases |s| - i
  {
    if i < |s| && IsSpace(s[i]) then SpaceEnd(s, i + 1) else i
  }

  /** The end of the run of word characters starting at `i`. */
  function WordEnd(s: string, i: nat): (j: nat)
    requires i <= |s|
    ensures i <= j <= |s|
    ensures forall k :: i <= k < j ==> IsWordChar(s[k])
    ensures j < |s| ==> !IsWordChar(s[j])
    decreases |s| - i
  {
    if i < |s| && IsWordChar(s[i]) then WordEnd(s, i + 1) else i
  }

  /** The keyword spelled out at position `i`, if any; the three keywords start with different letters. */
  function KeywordAt(s: string, i: nat): (r: Option<string>)
    requires i <= |s|
    ensures r.Some? ==> IsKeyword(r.value) && r.value <= s[i..]
    ensures r.None? ==> !("fragment" <= s[i..]) && !("query" <= s[i..]) && !("mutation" <= s[i..])
  {
    if "fragment" <= s[i..] then Some("fragment")
    else if "query" <= s[i..] then Some("query")
    else if "mutation" <= s[i..] then Some("mutation")
    else None
  }

  /** `parseQuery(str)`. */
  function ParseQuery(s: string): (r: Parsed)
    ensures r.operationType.Some? <==> r.name.Some?
    ensures r.operationType.Some? ==> IsKeyword(r.operationType.value)
    ensures r.name.Some? ==> forall k :: 0 <= k < |r.name.value| ==> IsWordChar(r.name.value[k])
  {
    var i := SpaceEnd(s, 0);
    match KeywordAt(s, i)
    case None => Parsed(None, None)
    case Some(kw) => NameAfter(s, i + |kw|, kw)
  }

  /** The rest of the pattern once the keyword `kw` ends at `j`: one space, the name, then a space or `(`. */
  function NameAfter(s: string, j: nat, kw: string): (r: Parsed)
    requires j <= |s|
    ensures r.operationType.Some? <==> r.name.Some?
    ensures r.operationType.Some? ==> r.operationType.value == kw
    ensures r.name.Some? ==>
      var k := j + 1 + |r.name.value|;
      && k < |s| && s[j] == ' ' && (s[k] == ' ' || s[k] == '(') && r.name.value == s[j + 1..k]
      && (forall m :: j < m < k ==> IsWordChar(s[m]))
      && (forall m :: 0 <= m < |r.name.value| ==> IsWordChar(r.name.value[m]))
    ensures (j < |s| && s[j] == ' ' && WordEnd(s, j + 1) < |s|
             && (s[WordEnd(s, j + 1)] == ' ' || s[WordEnd(s, j + 1)] == '(')) ==> r.name.Some?
  {
    if j < |s| && s[j] == ' ' then
      var k := WordEnd(s, j + 1);
      if k < |s| && (s[k] == ' ' || s[k] == '(') then Parsed(Some(kw), Some(s[j + 1..k]))
      else Parsed(None, None)
    else Parsed(None, None)
  }

  /**
   * The pattern, by positions: whitespace before `i`, a keyword from `i` to `j`, one space at `j`,
   * word characters strictly between `j` and `k`, and a space or an opening parenthesis at `k`.
   */
  ghost predicate MatchesAt(s: string, i: nat, j: nat, k: nat)
  {
    && i <= j < k < |s|
    && (forall m :: 0 <= m < i ==> IsSpace(s[m]))
    && IsKeyword(s[i..j])
    && s[j] == ' '
    && (forall m :: j < m < k ==> IsWordChar(s[m]))
    && (s[k] == ' ' || s[k] == '(')
  }

  /**
   * `s.split(pattern)`. The pattern is anchored, so it can only match at the start of the text. On a
   * match, `split` returns the empty text before it, the three captures (keyword, name, separator)
   * and the text after it; the leading whitespace and the space after the keyword are consumed.
   * Without a match the text comes back whole.
   */
  function Split(s: string): (r: seq<string>)
    ensures |r| == 1 || |r| == 5
    ensures |r| == 1 ==> r == [s]
    ensures |r| == 5 ==> r[0] == "" && |r[3]| == 1
  {
    var i := SpaceEnd(s, 0);
    match KeywordAt(s, i)
    case None => [s]
    case Some(kw) =>
      var j := i + |kw|;
      var p := NameAfter(s, j, kw);
      if p.name.None? then [s]
      else
        var k := j + 1 + |p.name.value|;
        ["", kw, p.name.value, [s[k]], s[k + 1..]]
  }

  /** A five-part split is the lead, a keyword, the name and a one-character separator around the consumed whitespace and space, and the rest. */
  lemma SplitParts(s: string)
    requires |Split(s)| == 5
    ensures var r := Split(s);
      && IsKeyword(r[1]) && (r[3] == " " || r[3] == "(")
      && s == s[..SpaceEnd(s, 0)] + r[1] + " " + r[2] + r[3] + r[4]
  {
    ParseTakesCaptures(s);
    var i, j, k := ParseSound(s);
    SplitAtMatch(s, i, j, k);
    assert s[i] == s[i..j][0];
    SpaceEndAt(s, i);
    Reassemble(s, i, j, k);
    SeparatorText(s[k]);
  }

  /** Proof helper for `SplitParts`: the separator capture as a one-character text. */
  lemma SeparatorText(c: char)
    requires c == ' ' || c == '('
    ensures [c] == " " || [c] == "("
  {
    if c == ' ' {
      assert [c][0] == " "[0];
    }
  }

  /** Proof helper for `SplitParts`: text cut at positions `i <= j < k` with a space at `j` joins back up around that space. */
  lemma Reassemble(s: string, i: nat, j: nat, k: nat)
    requires i <= j < k < |s| && s[j] == ' '
    ensures s == s[..i] + s[i..j] + " " + s[j + 1..k] + [s[k]] + s[k + 1..]
  {
    assert s[j..] == [s[j]] + s[j + 1..k] + [s[k]] + s[k + 1..];
    assert s == s[..i] + s[i..j] + s[j..];
  }

  /** `const [_, type, name] = ...`: `parseQuery` takes the second and third parts of the split, `undefined` when missing. */
  lemma ParseTakesCaptures(s: string)
    ensures var parts := Split(s);
      ParseQuery(s) == Parsed(if |parts| > 1 then Some(parts[1]) else None, if |parts| > 2 then Some(parts[2]) else None)
  {
  }

  /** At a match, `split` returns exactly the empty lead, keyword, name, separator and rest at the match's positions. */
  lemma SplitAtMatch(s: string, i: nat, j: nat, k: nat)
    requires MatchesAt(s, i, j, k)
    ensures Split(s) == ["", s[i..j], s[j + 1..k], [s[k]], s[k + 1..]]
  {
    ParseComplete(s, i, j, k);
    SpaceEndAt(s, i);
    SplitFromParse(s);
  }

  /** When `ParseQuery` reports a name, the split holds its type and name with the separator right after the name. */
  lemma SplitFromParse(s: string)
    requires ParseQuery(s).name.Some?
    ensures var p := ParseQuery(s);
      var k := SpaceEnd(s, 0) + |p.operationType.value| + 1 + |p.name.value|;
      k < |s| && Split(s) == ["", p.operationType.value, p.name.value, [s[k]], s[k + 1..]]
  {
  }

  /** Without a match, `split` returns the text whole, so both captures read as `undefined`. */
  lemma SplitWithoutMatch(s: string)
    requires !exists i, j, k :: MatchesAt(s, i, j, k)
    ensures Split(s) == [s]
  {
    ParseFailsOnlyWithoutMatch(s);
    ParseTakesCaptures(s);
  }

  /** Whatever `ParseQuery` reports comes from a genuine match of the pattern, with the keyword and name at its positions. */
  lemma ParseSound(s: string) returns (i: nat, j: nat, k: nat)
    requires ParseQuery(s).operationType.Some?
    ensures MatchesAt(s, i, j, k)
    ensures ParseQuery(s) == Parsed(Some(s[i..j]), Some(s[j + 1..k]))
  {
    ParseQueryUnfold(s);
    i := SpaceEnd(s, 0);
    var kw := KeywordAt(s, i).value;
    KeywordSpan(s, i);
    j := i + |kw|;
    k := TailSound(s, i, j, kw);
  }

  /** `ParseQuery` after a keyword: the rest is up to `NameAfter`. */
  lemma ParseQueryUnfold(s: string)
    requires ParseQuery(s).operationType.Some?
    ensures var i := SpaceEnd(s, 0);
      KeywordAt(s, i).Some? && ParseQuery(s) == NameAfter(s, i + |KeywordAt(s, i).value|, KeywordAt(s, i).value)
  {
  }

  /** Once the keyword is in place, a name read by `NameAfter` completes a match. */
  lemma TailSound(s: string, i: nat, j: nat, kw: string) returns (k: nat)
    requires i <= j <= |s| && s[i..j] == kw && IsKeyword(kw)
    requires forall m :: 0 <= m < i ==> IsSpace(s[m])
    requires NameAfter(s, j, kw).name.Some?
    ensures MatchesAt(s, i, j, k)
    ensures NameAfter(s, j, kw) == Parsed(Some(kw), Some(s[j + 1..k]))
  {
    k := j + 1 + |NameAfter(s, j, kw).name.value|;
  }

  /** The keyword `KeywordAt` finds spans the text from `i` on. */
  lemma KeywordSpan(s: string, i: nat)
    requires i <= |s| && KeywordAt(s, i).Some?
    ensures var kw := KeywordAt(s, i).value; i + |kw| <= |s| && s[i..i + |kw|] == kw
  {
    var kw := KeywordAt(s, i).value;
    assert s[i..][..|kw|] == s[i..i + |kw|];
  }

  /** `SpaceEnd` stops at the first non-whitespace character. */
  lemma SpaceEndAt(s: string, e: nat)
    requires e <= |s|
    requires forall k :: 0 <= k < e ==> IsSpace(s[k])
    requires e < |s| ==> !IsSpace(s[e])
    ensures SpaceEnd(s, 0) == e
  {
  }

  /** `WordEnd` stops at the first character that is not a word character. */
  lemma WordEndAt(s: string, b: nat, e: nat)
    requires b <= e <= |s|
    requires forall k :: b <= k < e ==> IsWordChar(s[k])
    requires e < |s| ==> !IsWordChar(s[e])
    ensures WordEnd(s, b) == e
  {
  }

  /** A keyword in the text at `i` is the one `KeywordAt` reports. */
  lemma KeywordAtFinds(s: string, i: nat, j: nat)
    requires i <= j <= |s| && IsKeyword(s[i..j])
    ensures KeywordAt(s, i) == Some(s[i..j])
  {
    assert s[i..][..j - i] == s[i..j];
    assert s[i] == s[i..j][0];
  }

  /** Any match of the pattern is found, with exactly its keyword and name. */
  lemma ParseComplete(s: string, i: nat, j: nat, k: nat)
    requires MatchesAt(s, i, j, k)
    ensures ParseQuery(s) == Parsed(Some(s[i..j]), Some(s[j + 1..k]))
  {
    assert s[i] == s[i..j][0];
    SpaceEndAt(s, i);
    KeywordAtFinds(s, i, j);
    WordEndAt(s, j + 1, k);
    assert ParseQuery(s) == NameAfter(s, j, s[i..j]);
  }

  /** `parseQuery` leaves both fields `undefined` exactly when no match of the pattern exists. */
  lemma ParseFailsOnlyWithoutMatch(s: string)
    ensures ParseQuery(s) == Parsed(None, None) <==> !exists i, j, k :: MatchesAt(s, i, j, k)
  {
    if ParseQuery(s).operationType.Some? {
      var i, j, k := ParseSound(s);
    } else if exists i, j, k :: MatchesAt(s, i, j, k) {
      var i, j, k :| MatchesAt(s, i, j, k);
      ParseComplete(s, i, j, k);
    }
  }

  /** The first case of tag.test.js. */
  lemma ParsesTestQuery()
    ensures ParseQuery("query Arrrgh { blargh }") == Parsed(Some("query"), Some("Arrrgh"))
  {
    var s := "query Arrrgh { blargh }";
    assert s[0..5] == "query" && s[6..12] == "Arrrgh";
    ParseComplete(s, 0, 5, 12);
  }

  /** The second case of tag.test.js. */
  lemma ParsesTestMutation()
    ensures ParseQuery("mutation Arrrgh { blargh }") == Parsed(Some("mutation"), Some("Arrrgh"))
  {
    var s := "mutation Arrrgh { blargh }";
    assert s[0..8] == "mutation" && s[9..15] == "Arrrgh";
    ParseComplete(s, 0, 8, 15);
  }

  /** An anonymous operation (`query {`) does not match, so it gets neither a type nor a name. */
  lemma AnonymousQueryUnparsed()
    ensures ParseQuery("query { a }") == Parsed(None, None)
  {
    var s := "query { a }";
    assert SpaceEnd(s, 0) == 0;
    assert KeywordAt(s, 0) == Some("query");
    assert WordEnd(s, 6) == 6;
  }
}
