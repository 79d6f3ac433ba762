/**
 * lib.esm.js `gql`: fragments form a tree of `[literal, values]` pairs; a query or mutation
 * flattens the tree depth-first, keeps the first copy of each fragment body (a `Set` remembers
 * insertion order) and appends the bodies to its own literal.
 */
module Fragments {
  import opened Common
  import opened QueryText
  import opened Operations

  /** A fragment as an interpolated value: the two-element array `[literal, values]`. */
  function FragmentItem(literal: string, values: seq<Item>): Item
  {
    Nested([Leaf(literal), Nested(values)])
  }

  /** `flatten([x, ...xs])`: stops at the first `undefined`, descends into arrays, keeps other values. */
  function Flatten(xs: seq<Item>): (r: seq<string>)
    ensures forall k :: 0 <= k < |r| ==> LeafIn(r[k], xs)
  {
    if |xs| == 0 || xs[0].Absent? then []
    else if xs[0].Nested? then Flatten(xs[0].items) + Flatten(xs[1..])
    else [xs[0].text] + Flatten(xs[1..])
  }

  /** `s` is the text of a string leaf somewhere in the tree `xs`. */
  predicate LeafIn(s: string, xs: seq<Item>)
  {
    exists i :: 0 <= i < |xs| && ((xs[i].Leaf? && xs[i].text == s) || (xs[i].Nested? && LeafIn(s, xs[i].items)))
  }

  /** No `undefined` at the top level of an array. */
  predicate NoAbsent(xs: seq<Item>)
  {
    forall i :: 0 <= i < |xs| ==> !xs[i].Absent?
  }

  /** Flattening an `undefined`-free array and then another is flattening each and concatenating. */
  lemma {:induction false} FlattenAppend(xs: seq<Item>, ys: seq<Item>)
    requires NoAbsent(xs)
    ensures Flatten(xs + ys) == Flatten(xs) + Flatten(ys)
  {
    if |xs| > 0 {
      assert (xs + ys)[0] == xs[0];
      assert (xs + ys)[1..] == xs[1..] + ys;
      FlattenAppend(xs[1..], ys);
    } else {
      assert xs + ys == ys;
    }
  }

  /** An `undefined` value cuts the array short: nothing after it is flattened. */
  lemma {:induction false} FlattenStopsAtAbsent(xs: seq<Item>, ys: seq<Item>)
    requires NoAbsent(xs)
    ensures Flatten(xs + [Absent] + ys) == Flatten(xs)
  {
    FlattenAppend(xs, [Absent] + ys);
    assert xs + [Absent] + ys == xs + ([Absent] + ys);
  }

  /** Depth first: a fragment's own body comes before the bodies it depends on, then the rest. */
  lemma FlattenFragment(literal: string, values: seq<Item>, rest: seq<Item>)
    ensures Flatten([FragmentItem(literal, values)] + rest) == [literal] + Flatten(values) + Flatten(rest)
  {
    var pair := [Leaf(literal), Nested(values)];
    assert ([FragmentItem(literal, values)] + rest)[1..] == rest;
    assert pair[1..] == [Nested(values)];
    assert [Nested(values)][1..] == [];
    assert Flatten([Nested(values)]) == Flatten(values) + Flatten([]);
    assert Flatten(pair) == [literal] + Flatten(values);
  }

  /** The elements of a sequence in order of first appearance: what iterating `new Set(xs)` yields. */
  function Distinct(xs: seq<string>): seq<string>
  {
    if |xs| == 0 then []
    else
      var d := Distinct(xs[..|xs| - 1]);
      if xs[|xs| - 1] in d then d else d + [xs[|xs| - 1]]
  }

  /** The index of the first occurrence of `x`. */
  function FirstIndex(xs: seq<string>, x: string): (i: nat)
    requires x in xs
    ensures i < |xs| && xs[i] == x
    ensures forall j :: 0 <= j < i ==> xs[j] != x
  {
    if xs[0] == x then 0 else 1 + FirstIndex(xs[1..], x)
  }

  /**
   * Deduplication keeps every element exactly once and nothing else, in the order in which the
   * elements were first seen.
   */
  lemma DistinctSpec(xs: seq<string>)
    ensures forall x :: multiset(Distinct(xs))[x] == if x in xs then 1 else 0
    ensures forall i, j :: 0 <= i < j < |Distinct(xs)| ==>
      Distinct(xs)[i] in xs && Distinct(xs)[j] in xs &&
      FirstIndex(xs, Distinct(xs)[i]) < FirstIndex(xs, Distinct(xs)[j])
  {
    DistinctCounts(xs);
    DistinctOrder(xs);
  }

  /** Every element occurs once in the deduplicated list, and nothing else does. */
  lemma {:induction false} DistinctCounts(xs: seq<string>)
    ensures forall x :: multiset(Distinct(xs))[x] == if x in xs then 1 else 0
  {
    if |xs| > 0 {
      var init := xs[..|xs| - 1];
      var last := xs[|xs| - 1];
      DistinctCounts(init);
      assert xs == init + [last];
      if last in Distinct(init) {
        assert last in multiset(Distinct(init));
      }
    }
  }

  /** The deduplicated list is ordered by first occurrence. */
  lemma {:induction false} DistinctOrder(xs: seq<string>)
    ensures forall i :: 0 <= i < |Distinct(xs)| ==> Distinct(xs)[i] in xs
    ensures forall i, j :: 0 <= i < j < |Distinct(xs)| ==>
      Distinct(xs)[i] in xs && Distinct(xs)[j] in xs &&
      FirstIndex(xs, Distinct(xs)[i]) < FirstIndex(xs, Distinct(xs)[j])
  {
    if |xs| > 0 {
      var init := xs[..|xs| - 1];
      var last := xs[|xs| - 1];
      DistinctOrder(init);
      var d := Distinct(init);
      assert xs == init + [last];
      forall x | x in init ensures FirstIndex(xs, x) == FirstIndex(init, x) {
        FirstIndexExtend(init, last, x);
      }
      if last !in d {
        DistinctCounts(init);
        assert multiset(d)[last] == 0;
        assert FirstIndex(xs, last) == |init|;
      }
    }
  }

  lemma FirstIndexExtend(xs: seq<string>, y: string, x: string)
    requires x in xs
    ensures FirstIndex(xs + [y], x) == FirstIndex(xs, x)
  {
    var i := FirstIndex(xs, x);
    assert (xs + [y])[i] == x;
  }

  /** `Array.from(new Set(xs))`: a set that remembers which bodies were already emitted. */
  method Dedup(xs: seq<string>) returns (r: seq<string>)
    ensures r == Distinct(xs)
  {
    var seen: set<string> := {};
    r := [];
    var i := 0;
    while i < |xs|
      invariant 0 <= i <= |xs|
      invariant r == Distinct(xs[..i])
      invariant forall x :: x in seen <==> x in r
    {
      assert xs[..i + 1][..i] == xs[..i];
      if xs[i] !in seen {
        seen := seen + {xs[i]};
        r := r + [xs[i]];
      }
      i := i + 1;
    }
    assert xs[..i] == xs;
  }

  /** `/^\s+$/`: one or more whitespace characters and nothing else. */
  predicate IsBlank(s: string)
  {
    |s| > 0 && forall k :: 0 <= k < |s| ==> IsSpace(s[k])
  }

  /** Fragments may only be interpolated where whitespace separates them: every segment after the first is blank. */
  ghost predicate SeparatorsBlank(strings: seq<string>)
  {
    forall i :: 1 <= i < |strings| ==> IsBlank(strings[i])
  }

  /** The validation loop of `gql`. */
  method CheckSeparators(strings: seq<string>) returns (ok: bool)
    ensures ok <==> SeparatorsBlank(strings)
  {
    var i := 1;
    while i < |strings|
      invariant 1 <= i
      invariant forall j :: 1 <= j < i && j < |strings| ==> IsBlank(strings[j])
    {
      if !IsBlank(strings[i]) {
        return false;
      }
      i := i + 1;
    }
    return true;
  }

  /** The executable text of a query or mutation: its literal, a space, and the distinct fragment bodies joined by spaces. */
  function ComposedText(literal: string, values: seq<Item>): (r: string)
    ensures |literal| < |r| && r[..|literal|] == literal && r[|literal|] == ' '
    ensures |values| == 0 ==> r == literal + " "
  {
    literal + " " + Join(Distinct(Flatten(values)), " ")
  }

  /** `gql(strings, ...values)` as lib.esm.js writes it. */
  method Gql(strings: seq<string>, values: seq<Item>) returns (r: Result<Query>)
    ensures |strings| == 0 ==> r == Err(PropertyOfUndefined)
    ensures |strings| > 0 && !SeparatorsBlank(strings) ==> r == Err(ExpectedWhitespace)
    ensures |strings| > 0 && SeparatorsBlank(strings) ==>
      var parsed := ParseQuery(strings[0]);
      r == if parsed.operationType == Some("fragment") then Ok(FragmentNode(strings[0], values))
           else Ok(StringOperation(parsed.operationType, parsed.name, ComposedText(strings[0], values)))
  {
    var ok := CheckSeparators(strings);
    if !ok {
      return Err(ExpectedWhitespace);
    }
    if |strings| == 0 {
      return Err(PropertyOfUndefined);
    }
    var literal := strings[0];
    var parsed := ParseQuery(literal);
    if parsed.operationType == Some("fragment") {
      return Ok(FragmentNode(literal, values));
    }
    var bodies := Dedup(Flatten(values));
    r := Ok(StringOperation(parsed.operationType, parsed.name, literal + " " + Join(bodies, " ")));
  }

  /**
   * Every fragment body reachable through the interpolated values appears in the composed list
   * exactly once, in the order of first appearance in the depth-first walk.
   */
  lemma EachFragmentOnce(values: seq<Item>)
    ensures var bodies := Distinct(Flatten(values));
      && (forall b :: multiset(bodies)[b] == if b in Flatten(values) then 1 else 0)
      && (forall i, j :: 0 <= i < j < |bodies| ==>
            FirstIndex(Flatten(values), bodies[i]) < FirstIndex(Flatten(values), bodies[j]))
  {
    DistinctSpec(Flatten(values));
  }

  /**
   * The diamond of tag.test.js: the query interpolates a fragment and a second fragment that
   * interpolates the first; the shared body is emitted once, before the second one.
   */
  lemma DiamondAppearsOnce(shared: string, outer: string, literal: string)
    requires shared != outer
    ensures var values := [FragmentItem(shared, []), FragmentItem(outer, [FragmentItem(shared, [])])];
      && Flatten(values) == [shared, outer, shared]
      && Distinct(Flatten(values)) == [shared, outer]
      && ComposedText(literal, values) == literal + " " + shared + " " + outer
  {
    DiamondFlattens(shared, outer);
    DiamondDistinct(shared, outer);
  }

  /** Depth first, the diamond yields the shared body, the outer body, then the shared body again. */
  lemma DiamondFlattens(shared: string, outer: string)
    ensures Flatten([FragmentItem(shared, []), FragmentItem(outer, [FragmentItem(shared, [])])]) == [shared, outer, shared]
  {
    var inner := FragmentItem(shared, []);
    var values := [inner, FragmentItem(outer, [inner])];
    FlattenFragment(shared, [], []);
    assert Flatten([inner]) == [shared];
    FlattenFragment(outer, [inner], []);
    assert Flatten([FragmentItem(outer, [inner])]) == [outer, shared];
    FlattenFragment(shared, [], [FragmentItem(outer, [inner])]);
    assert [inner] + [FragmentItem(outer, [inner])] == values;
  }

  /** The repeated shared body is dropped by the `Set`. */
  lemma DiamondDistinct(shared: string, outer: string)
    requires shared != outer
    ensures Distinct([shared, outer, shared]) == [shared, outer]
  {
    var flat := [shared, outer, shared];
    assert flat[..2] == [shared, outer];
    assert [shared, outer][..1] == [shared];
    assert [shared][..0] == [];
    assert Distinct([shared]) == [shared];
    assert Distinct([shared, outer]) == [shared, outer];
  }

}
