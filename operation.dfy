/**
 * Operation identity: the canonical operation record built from either query shape,
 * and the cache key derived from its name and variables (client.js `createOperation`, `getCacheKey`).
 */
module Operations {
  import opened Common
  import opened Json

  /** One entry of a parsed document's `definitions` list; `name` is the optional Name node's value. */
  datatype Definition = Definition(name: Option<string>, operation: Option<string>)

  /** An interpolated template value as the fragment composer sees it: a string leaf, `undefined`, or an array. */
  datatype Item = Leaf(text: string) | Absent | Nested(items: seq<Item>)

  /** The values a caller can hand over as `query`, told apart by their `kind` discriminator. */
  datatype Query =
    | DocumentNode(definitions: seq<Definition>)   // kind "Document": a parsed document
    | StringOperation(operationType: Option<string>, name: Option<string>, text: string) // kind "String": gql's result
    | FragmentText(text: string)                   // tag.js gql on a fragment: a bare string, no kind
    | FragmentNode(literal: string, values: seq<Item>) // lib.esm.js gql on a fragment: [literal, values], no kind

  datatype Body = Document(definitions: seq<Definition>) | Text(text: string)

  /** The canonical operation record. `kind` is "Document" or "String". */
  datatype Operation = Operation(
    name: Option<string>,
    operationType: Option<string>,
    kind: string,
    query: Body,
    variables: Value)

  /** `!op.name` is false: the name is present and not the empty string. */
  predicate HasName(op: Operation)
  {
    op.name.Some? && op.name.value != ""
  }

  /** What string concatenation appends for `JSON.stringify(variables)`. */
  function VariablesText(v: Value): (r: string)
    ensures v.Undefined? ==> r == "undefined"
  {
    match Stringify(v)
    case Some(t) => t
    case None => "undefined"
  }

  /** `getCacheKey`: the operation name followed by the serialised variables; fails without a name. */
  function CacheKey(op: Operation): (r: Result<string>)
    ensures r.Err? <==> !HasName(op)
    ensures r.Err? ==> r.error == MissingName
    ensures r.Ok? ==> var n := op.name.value;
      |n| < |r.value| && r.value[..|n|] == n && r.value[|n|..] == VariablesText(op.variables)
  {
    if !HasName(op) then Err(MissingName) else Ok(op.name.value + VariablesText(op.variables))
  }

  /** `variables = {}`: the default applies only when the argument is `undefined`. */
  function DefaultVariables(variables: Value): (r: Value)
    ensures r.Undefined? == false
    ensures !variables.Undefined? ==> r == variables
  {
    if variables.Undefined? then Obj([]) else variables
  }

  /** The query shapes `createOperation` accepts without throwing. */
  predicate Accepted(query: Query)
  {
    || (query.DocumentNode? && |query.definitions| > 0 && query.definitions[0].name.Some?)
    || query.StringOperation?
  }

  /**
   * `createOperation({query, variables})`. A document takes name and type from its first definition
   * (reading `definitions[0].name.value` throws when the list is empty or the name node is missing);
   * a "String" operation passes its fields through; anything else is an unknown query.
   */
  function CreateOperation(query: Query, variables: Value): (r: Result<Operation>)
    ensures r.Ok? <==> Accepted(query)
    ensures r.Ok? ==> r.value.variables == DefaultVariables(variables)
    ensures r.Ok? && query.DocumentNode? ==>
      var d := query.definitions[0];
      r.value == Operation(d.name, d.operation, "Document", Document(query.definitions), r.value.variables)
    ensures r.Ok? && query.StringOperation? ==>
      r.value == Operation(query.name, query.operationType, "String", Text(query.text), r.value.variables)
    ensures query.DocumentNode? && !Accepted(query) ==> r == Err(PropertyOfUndefined)
    ensures (query.FragmentText? || query.FragmentNode?) ==> r == Err(UnknownQuery)
  {
    match query
    case DocumentNode(definitions) =>
      if |definitions| == 0 || definitions[0].name.None? then Err(PropertyOfUndefined)
      else Ok(Operation(definitions[0].name, definitions[0].operation, "Document",
                        Document(definitions), DefaultVariables(variables)))
    case StringOperation(operationType, name, text) =>
      Ok(Operation(name, operationType, "String", Text(text), DefaultVariables(variables)))
    case FragmentText(_) => Err(UnknownQuery)
    case FragmentNode(_, _) => Err(UnknownQuery)
  }

  /** The key depends on name and variables only: operations differing in kind, type or query share it. */
  lemma KeyIgnoresKindTypeAndQuery(a: Operation, b: Operation)
    requires a.name == b.name && a.variables == b.variables
    ensures CacheKey(a) == CacheKey(b)
  {
  }

  /** Whether `createOperation` succeeds, and the resulting key's success, depend on the query alone. */
  lemma OperationValidityIgnoresVariables(query: Query, v1: Value, v2: Value)
    ensures CreateOperation(query, v1).Ok? == CreateOperation(query, v2).Ok?
    ensures CreateOperation(query, v1).Ok? ==>
      CreateOperation(query, v1).value.name == CreateOperation(query, v2).value.name &&
      (CacheKey(CreateOperation(query, v1).value).Ok? <==> CacheKey(CreateOperation(query, v2).value).Ok?)
  {
  }

  /** The example key from client.test.js. */
  lemma CoolQueryKey()
    ensures CacheKey(Operation(Some("CoolQuery"), None, "String", Text(""), Obj([("data", Str("rules"))])))
         == Ok("CoolQuery{\"data\":\"rules\"}")
  {
    CoolQueryVariables();
    CoolQueryText();
  }

  /** The example's variables serialise member by member. */
  lemma CoolQueryVariables()
    ensures VariablesText(Obj([("data", Str("rules"))])) == "{" + ("\"" + "data" + "\"") + ":" + ("\"" + "rules" + "\"") + "}"
  {
    EscapePlain("data");
    EscapePlain("rules");
    SingleMemberText("data", Str("rules"));
  }

  /** Proof helper for `CoolQueryKey`: the example's name and serialised variables, put together, spell the expected key. */
  lemma CoolQueryText()
    ensures "CoolQuery" + ("{" + ("\"" + "data" + "\"") + ":" + ("\"" + "rules" + "\"") + "}") == "CoolQuery{\"data\":\"rules\"}"
  {
  }

  /** Serialisation of an object with one defined member. */
  lemma SingleMemberText(k: string, v: Value)
    requires !v.Undefined?
    ensures Stringify(Obj([(k, v)])) == Some("{" + Quote(k) + ":" + Stringify(v).value + "}")
  {
    var o := Obj([(k, v)]);
    assert MemberTexts(o, 1) == [];
    assert MemberTexts(o, 0) == [Quote(k) + ":" + Stringify(v).value];
    assert Join(MemberTexts(o, 0), ",") == Quote(k) + ":" + Stringify(v).value;
    assert Stringify(o) == Some("{" + Join(MemberTexts(o, 0), ",") + "}");
    var m := Quote(k) + ":" + Stringify(v).value;
    assert "{" + m + "}" == "{" + Quote(k) + ":" + Stringify(v).value + "}";
  }

  /** Under one name, two operations share a key exactly when their variables serialise alike. */
  lemma KeysSeparateVariables(a: Operation, b: Operation)
    requires HasName(a) && a.name == b.name
    ensures CacheKey(a) == CacheKey(b) <==> VariablesText(a.variables) == VariablesText(b.variables)
  {
    var n := |a.name.value|;
    if CacheKey(a) == CacheKey(b) {
      assert CacheKey(a).value[n..] == CacheKey(b).value[n..];
    }
  }

  /** `{key: m}` and `{key: n}` with different numbers give different cache keys under any name. */
  lemma NumericVariablesSeparate(name: string, key: string, m: SafeInteger, n: SafeInteger)
    requires name != "" && m != n
    ensures CacheKey(Operation(Some(name), None, "String", Text(""), Obj([(key, Num(m))])))
         != CacheKey(Operation(Some(name), None, "String", Text(""), Obj([(key, Num(n))])))
  {
    var a := Operation(Some(name), None, "String", Text(""), Obj([(key, Num(m))]));
    var b := a.(variables := Obj([(key, Num(n))]));
    KeysSeparateVariables(a, b);
    SingleMemberText(key, Num(m));
    SingleMemberText(key, Num(n));
    var lead := "{" + Quote(key) + ":";
    var tm, tn := lead + IntText(m) + "}", lead + IntText(n) + "}";
    if tm == tn {
      assert |IntText(m)| == |IntText(n)|;
      assert IntText(m) == tm[|lead|..|tm| - 1] == tn[|lead|..|tn| - 1] == IntText(n);
      IntTextInjective(m, n);
    }
  }
}
