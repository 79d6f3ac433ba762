/**
 * tag.js: the template tag that stringifies its template (`noop`) and turns the text into a
 * "String" operation, or returns the bare text for a fragment. Fragments are spliced in as text,
 * with no deduplication.
 */
module Tag {
  import opened Common
  import opened QueryText
  import opened Operations

  /** `t[i]` as `join` sees it: a segment past the end is `undefined`, which joins as "". */
  function Segment(t: seq<string>, i: nat): string
  {
    if i < |t| then t[i] else ""
  }

  /** `t[0] + values[0] + t[1] + ... + values[n-1] + t[n]`. */
  function Interleave(t: seq<string>, values: seq<string>): string
  {
    if |values| == 0 then Segment(t, 0)
    else Interleave(t, values[..|values| - 1]) + values[|values| - 1] + Segment(t, |values|)
  }

  /** `noop(t, ...values)`: push the first segment, then each value with the segment after it; join with "". */
  method Noop(t: seq<string>, values: seq<string>) returns (s: string)
    ensures s == Interleave(t, values)
  {
    var o := [Segment(t, 0)];
    var i := 1;
    while i < |values| + 1
      invariant 1 <= i <= |values| + 1
      invariant Concat(o) == Interleave(t, values[..i - 1])
    {
      var pushed := o + [values[i - 1], Segment(t, i)];
      assert pushed[..|pushed| - 1] == o + [values[i - 1]];
      assert (o + [values[i - 1]])[..|o|] == o;
      assert values[..i][..i - 1] == values[..i - 1];
      o := pushed;
      i := i + 1;
    }
    assert values[..|values|] == values;
    s := Concat(o);
  }

  /** Sum of the lengths of some strings. */
  function TotalLength(parts: seq<string>): nat
  {
    if |parts| == 0 then 0 else TotalLength(parts[..|parts| - 1]) + |parts[|parts| - 1]|
  }

  /** For a template (one more segment than values) the text is exactly as long as all its parts together. */
  lemma {:induction false} InterleaveLength(t: seq<string>, values: seq<string>)
    requires |t| == |values| + 1
    ensures |Interleave(t, values)| == TotalLength(t) + TotalLength(values)
  {
    if |values| > 0 {
      var n := |values|;
      assert t[..n][..n - 1] == t[..n - 1];
      assert values[..n - 1] + [values[n - 1]] == values;
      InterleaveLength(t[..n], values[..n - 1]);
      InterleaveIgnoresLaterSegments(t, values[..n - 1]);
    }
  }

  /** The text only reads the segments up to the number of values. */
  lemma {:induction false} InterleaveIgnoresLaterSegments(t: seq<string>, values: seq<string>)
    requires |values| < |t|
    ensures Interleave(t[..|values| + 1], values) == Interleave(t, values)
    decreases |values|
  {
    if |values| > 0 {
      var n := |values|;
      assert t[..n + 1][..n] == t[..n];
      InterleaveIgnoresLaterSegments(t[..n + 1], values[..n - 1]);
      InterleaveIgnoresLaterSegments(t, values[..n - 1]);
    }
  }

  /** The first `j` values' part of the text is a prefix of the whole text. */
  lemma {:induction false} InterleavePrefix(t: seq<string>, values: seq<string>, j: nat)
    requires j <= |values|
    ensures Interleave(t, values[..j]) <= Interleave(t, values)
    decreases |values|
  {
    if j < |values| {
      var n := |values|;
      assert values[..n - 1][..j] == values[..j];
      InterleavePrefix(t, values[..n - 1], j);
    } else {
      assert values[..j] == values;
    }
  }

  /** Each value stands in the text right after the part built from the values before it. */
  lemma ValueAt(t: seq<string>, values: seq<string>, i: nat)
    requires i < |values|
    ensures var at := |Interleave(t, values[..i])|;
      at + |values[i]| <= |Interleave(t, values)| &&
      Interleave(t, values)[at..at + |values[i]|] == values[i]
  {
    var before := Interleave(t, values[..i]);
    var upto := Interleave(t, values[..i + 1]);
    var at := |before|;
    assert values[..i + 1][..i] == values[..i];
    assert upto == before + values[i] + Segment(t, i + 1);
    assert upto[at..at + |values[i]|] == values[i];
    InterleavePrefix(t, values, i + 1);
  }

  /** `gql` as tag.js writes it: the stringified template, classified by `parseQuery`. */
  function Gql(t: seq<string>, values: seq<string>): (r: Query)
    ensures r.FragmentText? || r.StringOperation?
  {
    var text := Interleave(t, values);
    var parsed := ParseQuery(text);
    if parsed.operationType == Some("fragment") then FragmentText(text)
    else StringOperation(parsed.operationType, parsed.name, text)
  }

  /** A fragment comes back as its bare text; anything else as an operation `createOperation` accepts. */
  lemma GqlFeedsCreateOperation(t: seq<string>, values: seq<string>, variables: Json.Value)
    ensures var text := Interleave(t, values);
      && (ParseQuery(text).operationType == Some("fragment") <==> Gql(t, values) == FragmentText(text))
      && (Gql(t, values).FragmentText? ==> CreateOperation(Gql(t, values), variables) == Err(UnknownQuery))
      && (Gql(t, values).StringOperation? ==>
            CreateOperation(Gql(t, values), variables).Ok? &&
            CreateOperation(Gql(t, values), variables).value.query == Text(text) &&
            CreateOperation(Gql(t, values), variables).value.name == ParseQuery(text).name &&
            CreateOperation(Gql(t, values), variables).value.operationType == ParseQuery(text).operationType)
  {
  }

  /**
   * The composition from tag.test.js, as written: a query interpolating a fragment and a second
   * fragment that itself interpolates the first carries the first fragment's text twice.
   */
  lemma AsWrittenRepeatsSharedFragment(shared: string, outerHead: string, outerTail: string,
                                       queryHead: string, gap: string, queryTail: string)
    requires |shared| > 0
    ensures var outer := Interleave([outerHead, outerTail], [shared]);
      var text := Interleave([queryHead, gap, queryTail], [shared, outer]);
      var second := |queryHead| + |shared| + |gap| + |outerHead|;
      && second + |shared| <= |text|
      && text[|queryHead|..|queryHead| + |shared|] == shared
      && text[second..second + |shared|] == shared
      && |queryHead| < second
  {
    var ot := [outerHead, outerTail];
    var qt := [queryHead, gap, queryTail];
    assert [shared][..0] == [];
    assert Interleave(ot, []) == outerHead && Segment(ot, 1) == outerTail;
    var outer := Interleave(ot, [shared]);
    assert outer == outerHead + shared + outerTail;
    assert Interleave(qt, []) == queryHead && Segment(qt, 1) == gap && Segment(qt, 2) == queryTail;
    var first := Interleave(qt, [shared]);
    assert first == queryHead + shared + gap;
    var text := Interleave(qt, [shared, outer]);
    assert [shared, outer][..1] == [shared];
    assert text == queryHead + shared + gap + (outerHead + shared + outerTail) + queryTail;
    var second := |queryHead| + |shared| + |gap| + |outerHead|;
    assert text[second..second + |shared|] == shared;
  }
}
