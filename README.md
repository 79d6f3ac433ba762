# artemis query layer in Dafny

A model of the client-side query layer of artemis, a small GraphQL client for React. It covers
four pieces. The modules follow the structure of the JavaScript code.

- **Operations and cache keys** (`Operations`, `Json`).
  - `createOperation` turns either query shape into one operation record: a parsed document
    (`kind: "Document"`) or an artemis tag result (`kind: "String"`).
  - `getCacheKey` builds the key `name + JSON.stringify(variables)`.
  - `JSON.stringify` is written out for undefined, null, booleans, safe integers, strings, arrays
    and objects whose member names are distinct and not integer-like.
- **The cache store and client** (`Cache`).
  - `createStore` closes over a JavaScript `Map`. The model is a class whose fields are the map's
    keys, in insertion order, and its entries.
  - `get`, `set` and `extract` are its members, and `createClient` owns one store.
  - `load` writes a result's `data` only when it is truthy.
  - The pure `Table` functions state what the map does. Lemmas prove that rebuilding a store
    from `extract()` gives back the same map.
- **Query text** (`QueryText`, `Tag`, `Fragments`).
  - `parseQuery` is written as a lexer for its anchored pattern, and proved equal to the pattern.
  - `tag.js` builds its text with `noop` and passes fragments on as plain text.
  - `lib.esm.js` keeps fragments as a `[literal, values]` tree. It checks that only whitespace
    stands between interpolations, flattens the tree depth first, and keeps the first copy of
    each fragment body.
- **Fetch state** (`Reducer`, `Controller`).
  - Both versions of `dataFetchReducer` are modelled, with the initial state of `useQuery`.
  - The cache-first controller behind `useQuery` in `lib.esm.js` is a class. Its constructor is
    the mount. `Refetch` and `FetchMore` change the variables. `OnNext` and `OnError` are the
    link's notifications.
  - After each event the component re-renders. The effect runs again when the operation or
    `hasData` changed. `Commit` models that step.

`dist/lib.esm.js:4-53` repeats `getCacheKey`, `createStore` and `createOperation` from
`src/runtime/client.js` unchanged. One model (`Operations`, `Cache`) covers both copies. The two
`load` functions differ: `src/runtime/client.js` takes an operation (`Cache.Client.Load`), while
`dist/lib.esm.js` takes a query and variables (`Cache.Client.LoadQuery`).

Modelling choices:

- **Errors.** Exceptions the code throws become the `Err` case of a `Result`:
  - `MissingName`: the missing-name error.
  - `UnknownQuery`: "Unknown Query!".
  - `ExpectedWhitespace`: "Expected Whitespace!".
  - `UnknownAction`: the reducer's bare `Error`.
  - `PropertyOfUndefined`: a `TypeError` from reading a property of `undefined` or calling `null`.
- **The react-api.js initial state.** That state spells its flag `isError`. So its `error` field
  stays absent (`None`) until the first action sets it. The model keeps that difference.
- **Observables and the network.** The link is left out. Its subscription is a field of the
  controller. Each notification is a method call with the result's `data` as a parameter.
- **Subscription lifetime.** A subscription is closed by the effect's cleanup, which runs when
  the operation or `hasData` changes, and by an error notification. Once it is closed,
  notifications change nothing.
- **Refetch to a cached key.** When `refetch` or `fetchMore` switches to variables whose result
  is already cached, nothing is dispatched: the state keeps the previous data, and a `loading`
  flag set by an interrupted fetch stays set. The model keeps this behaviour.
- **Requests.** A ghost field `requests` records every operation handed to `client.execute`.
  This lets the contracts say when the link is used.

## Model

| member | source | states |
|---|---|---|
| Operations.CacheKey | src/runtime/client.js:1-6 | fails with the missing-name error exactly when the name is absent or empty; otherwise the key starts with the name and the rest is the serialised variables (`undefined` serialises as "undefined") |
| Operations.KeyIgnoresKindTypeAndQuery | src/runtime/client.js:5 | operations with the same name and variables have the same key, whatever their kind, type and query |
| Operations.CoolQueryKey | src/runtime/__tests__/client.test.js:6-9 | the key of `CoolQuery` with `{data: "rules"}` is `CoolQuery{"data":"rules"}` |
| Operations.KeysSeparateVariables | src/runtime/client.js:5 | under one name, two operations share a key exactly when their variables serialise to the same text |
| Operations.NumericVariablesSeparate | src/runtime/client.js:5 | `{key: m}` and `{key: n}` with different numbers give different keys under any non-empty name |
| Json.DigitsInjective | src/runtime/client.js:5 | different natural numbers are written with different decimal digits |
| Json.IntTextInjective | src/runtime/client.js:5 | different integers serialise to different JSON numbers |
| Operations.SingleMemberText | src/runtime/client.js:5 | a one-member object serialises as `{"key":value}` |
| Json.Stringify | src/runtime/client.js:5 | serialisation yields `undefined` exactly for `undefined`, so a key always has a text after the name |
| Json.EscapePlain | src/runtime/client.js:5 | strings without quotes, backslashes or control characters are written unescaped between quotes |
| Json.Truthy | src/runtime/client.js:14 | a value is truthy exactly when it is none of `undefined`, `null`, `false`, `0` and `""`; this is the test behind `\|\| null`, `!!` and `if (res.data)` |
| Operations.DefaultVariables | src/runtime/client.js:41 | `undefined` variables become `{}`; any other value, falsy ones included, is kept |
| Operations.CreateOperation | src/runtime/client.js:41-65 | succeeds exactly for a document with a first definition that has a name node, or a "String" operation. A document gives name and type from `definitions[0]`, kind "Document" and the document as query. A "String" operation passes name, type and text through. An empty or nameless document reads a property of `undefined`; anything else is an unknown query. Variables default to `{}` only when `undefined` |
| Operations.OperationValidityIgnoresVariables | src/runtime/client.js:41-65 | whether an operation can be built, its name, and whether it has a key do not depend on the variables |
| Cache.Put | src/runtime/client.js:16-19 | the map keeps one entry per listed key. A write replaces the value under its key and nothing else. A new key goes at the end of the order; an existing key keeps its place |
| Cache.FromPairs | src/runtime/client.js:9 | a map built from pairs is well formed |
| Cache.FromPairsLastWins | src/runtime/client.js:9 | a key is present exactly when some pair has it, and the last such pair gives its value |
| Cache.Lookup | src/runtime/client.js:12-15 | a truthy stored payload is returned; a missing key or falsy payload reads as `null` |
| Cache.ReadYourWrite | src/runtime/__tests__/client.test.js:11-15 | after a write, the key reads the payload (or `null` for a falsy one) and every other key reads as before |
| Cache.LastWriteWins | src/runtime/client.js:16-19 | a second write to a key replaces the first entirely |
| Cache.HydrateDump | src/runtime/client.js:8-22 | rebuilding a map from its own dump gives back the same keys, order and values |
| Cache.HydratedLookups | src/runtime/__tests__/client.test.js:17-22 | a store hydrated from a dump reads every key as the original does, and dumps the same pairs |
| Cache.Store.constructor | src/runtime/client.js:8-9 | the store holds the map built from the initial pairs, or the empty map |
| Cache.Store.Get | src/runtime/client.js:12-15 | throws exactly when the operation has no name; otherwise the lookup under its key |
| Cache.Store.Set | src/runtime/client.js:16-19 | throws without a name and leaves the store alone; otherwise the new store is the old one with the entry under the key replaced |
| Cache.Store.Extract | src/runtime/client.js:20-22 | the pairs in insertion order, one per key, and building a map from them gives back this store's map |
| Cache.Client.constructor | src/runtime/client.js:26-33 | a fresh store from the initial state, and the `ssrMode` flag |
| Cache.Client.Load | src/runtime/client.js:34-39 | falsy data leaves the store unchanged; truthy data is written under the operation's key, or the write throws without a name |
| Cache.Client.LoadQuery | dist/lib.esm.js:63-70 | the operation is built first and its error returned; then the write as in `Load` |
| Cache.LoadQueryObjectFails | src/runtime/client.js:34-39 | handed an object without a name, as src/runtime/__tests__/e2e.test.js:140 does, `load` fails with the missing-name error once a truthy answer arrives |
| Cache.LoadQueryThenHit | dist/lib.esm.js:63-70 | for an accepted query whose operation has a name, a truthy answer is stored and the next read of that operation returns it |
| QueryText.SpaceEnd | src/runtime/tag.js:10 | the end of the leading run of `\s` characters |
| QueryText.WordEnd | src/runtime/tag.js:10 | the end of a run of `\w` characters |
| QueryText.KeywordAt | src/runtime/tag.js:10 | finds `fragment`, `query` or `mutation` at a position exactly when the text continues with one |
| QueryText.ParseQuery | src/runtime/tag.js:8-14 | type and name are both present or both absent; the type is one of the three keywords; the name is made of word characters |
| QueryText.NameAfter | src/runtime/tag.js:10 | after the keyword: a name is reported exactly with one space before it, word characters in it and a space or `(` after it, and it is the text between them |
| QueryText.Split | src/runtime/tag.js:9-11 | `split` with the anchored pattern returns either the whole text alone or five parts, the first of them empty |
| QueryText.SplitParts | src/runtime/tag.js:9-11 | five parts are the empty lead, a keyword, the name, a one-character separator (space or `(`) and the rest; with the consumed whitespace and space they make up the text |
| QueryText.ParseTakesCaptures | src/runtime/tag.js:9-13 | `parseQuery`'s type and name are the second and third parts of the split, `undefined` when the split has fewer |
| QueryText.SplitAtMatch | src/runtime/tag.js:9-11 | at a match of the pattern the split is exactly the empty lead, the keyword, the name, the separator and the rest at the match's positions |
| QueryText.SplitWithoutMatch | src/runtime/tag.js:9-11 | without a match the split is the whole text alone |
| QueryText.ParseSound | src/runtime/tag.js:9-11 | a reported type and name come from a genuine match at some positions (whitespace, keyword, one space, the name, then a space or `(`) and are the text at those positions |
| QueryText.ParseComplete | src/runtime/tag.js:9-11 | every match of the pattern is found, with exactly its keyword and name |
| QueryText.ParseFailsOnlyWithoutMatch | src/runtime/tag.js:9-13 | both fields are absent exactly when the text has no match of the pattern |
| QueryText.ParsesTestQuery | src/runtime/__tests__/tag.test.js:3-7 | `query Arrrgh { blargh }` gives type `query` and name `Arrrgh` |
| QueryText.ParsesTestMutation | src/runtime/__tests__/tag.test.js:9-13 | `mutation Arrrgh { blargh }` gives type `mutation` and name `Arrrgh` |
| QueryText.AnonymousQueryUnparsed | src/runtime/tag.js:10 | an anonymous `query { a }` has no match, so neither type nor name |
| Tag.Noop | src/runtime/tag.js:2-6 | the loop's result is the segments interleaved with the values |
| Tag.InterleaveLength | src/runtime/tag.js:2-6 | with one more segment than values, the text is as long as all parts together |
| Tag.InterleavePrefix | src/runtime/tag.js:3-4 | the text built from the first values is a prefix of the whole text |
| Tag.InterleaveIgnoresLaterSegments | src/runtime/tag.js:3-4 | segments past the last value are not read |
| Tag.ValueAt | src/runtime/tag.js:3-4 | each value stands in the text right after the part built before it |
| Tag.Gql | src/runtime/tag.js:16-25 | the result is a bare fragment text or a "String" operation |
| Tag.GqlFeedsCreateOperation | src/runtime/tag.js:16-25 | a parsed `fragment` gives exactly its bare text, which `createOperation` rejects; anything else gives an operation that `createOperation` accepts, with the full text as query and the parsed name and type |
| Tag.AsWrittenRepeatsSharedFragment | src/runtime/__tests__/tag.test.js:15-45 | interpolating a fragment and a second fragment that contains it puts the first fragment's text in the query twice, at two different offsets |
| Fragments.Flatten | dist/lib.esm.js:226-236 | every string in the flattened list is the text of a string leaf somewhere in the tree |
| Fragments.FlattenAppend | dist/lib.esm.js:226-236 | flattening an array without `undefined` followed by another is flattening each and concatenating |
| Fragments.FlattenStopsAtAbsent | dist/lib.esm.js:227-229 | nothing after an `undefined` element is flattened |
| Fragments.FlattenFragment | dist/lib.esm.js:231-235 | depth first: a fragment's body comes before the bodies it interpolates, then the rest |
| Fragments.FirstIndex | dist/lib.esm.js:261 | the position of the first occurrence |
| Fragments.FirstIndexExtend | dist/lib.esm.js:261 | appending an element keeps first occurrences where they were |
| Fragments.DistinctSpec | dist/lib.esm.js:261-263 | iterating the `Set` yields every element exactly once and nothing else, in order of first appearance |
| Fragments.DistinctCounts | dist/lib.esm.js:261-263 | each element occurs exactly once in the `Set`'s iteration, and nothing else occurs |
| Fragments.DistinctOrder | dist/lib.esm.js:261-263 | the `Set`'s iteration lists elements of the input in the order of their first appearance |
| Fragments.Dedup | dist/lib.esm.js:261-263 | the loop with a set of seen bodies computes that distinct sequence |
| Fragments.CheckSeparators | dist/lib.esm.js:245-251 | succeeds exactly when every segment after the first is one or more whitespace characters |
| Fragments.Gql | dist/lib.esm.js:238-266 | no segments: a property of `undefined`. A non-blank separator: "Expected Whitespace!". A fragment: the pair of literal and values. Otherwise a "String" operation with the parsed type and name, whose text is the literal, a space and the distinct fragment bodies joined by spaces |
| Fragments.ComposedText | dist/lib.esm.js:263 | the query text is the template literal, then one space, then the fragment bodies; with no values it is the literal and a space |
| Fragments.EachFragmentOnce | dist/lib.esm.js:260-263 | every reachable fragment body appears exactly once, in first-seen order |
| Fragments.DiamondAppearsOnce | src/runtime/__tests__/tag.test.js:15-45 | with the test's diamond, the shared body is emitted once, before the fragment that includes it |
| Reducer.SrcReduce | src/runtime/react-api.js:33-60 | unknown types throw. Loading is set exactly by SET_VARIABLES and FETCH_INIT. The error flag is raised exactly by FETCH_FAILURE and cleared by every other action. Data changes only on FETCH_SUCCESS, to its payload. Variables change only on SET_VARIABLES. Loading and error are never both set |
| Reducer.SrcInitialState | src/runtime/react-api.js:90-101 | data is the cache hit, loading exactly when there was no hit, no `error` or `variables` yet |
| Reducer.Reduce | dist/lib.esm.js:97-117 | SET_VARIABLES and unknown types throw. Loading equals the FETCH_INIT payload and is cleared by the other actions. The error flag is raised exactly by FETCH_FAILURE. Data changes only on FETCH_SUCCESS. Loading and error are never both set |
| Reducer.InitialState | dist/lib.esm.js:159-168 | data is the cache hit, loading exactly when there was no hit, no error |
| Reducer.RunSnoc | dist/lib.esm.js:97-117 | dispatching one more action applies the reducer to the state reached so far |
| Reducer.RunPublishesLastSuccess | dist/lib.esm.js:97-117 | after any accepted series of actions the data is the payload of the last FETCH_SUCCESS (the start data if there was none), and loading and error are not both set |
| Controller.OptionVariables | dist/lib.esm.js:136 | falsy variables become `{}`, truthy ones are kept |
| Controller.QueryController.Commit | dist/lib.esm.js:170-201 | `hasData` becomes the truthiness of the cache hit. When neither it nor the operation changed, nothing else does. Otherwise the old subscription is dropped. On a hit nothing more happens. On a miss FETCH_INIT sets loading unless a merge is pending, and one request opens a subscription that remembers the data shown |
| Controller.QueryController.Mount | dist/lib.esm.js:134-177 | an unaccepted query or a nameless operation throws at the first render; otherwise the state starts from the cache hit, and the link is used exactly when there was no hit |
| Controller.QueryController.constructor | dist/lib.esm.js:134-177 | state from the cache hit; on a hit no subscription and no request; on a miss one request and a subscription that is not an update |
| Controller.QueryController.Refetch | dist/lib.esm.js:206 | the operation is rebuilt from the new variables. On a cache hit the state is unchanged and nothing is fetched. On a miss exactly one request is added and loading is set, unless a merge is still pending |
| Controller.QueryController.FetchMore | dist/lib.esm.js:208-211 | as `Refetch`, and the merge function is kept. On a miss the subscription is an update exactly when a merge function was given, and loading stays off then |
| Controller.QueryController.OnNext | dist/lib.esm.js:178-190 | with no open subscription nothing changes. Otherwise the raw data is written under the key. On an update without a merge function the call throws after the write. Otherwise the published data is the merge of the remembered data with `{fetchMoreResult: data}`, or the data itself; the merge is cleared; the subscription closes exactly when the data is truthy |
| Controller.QueryController.OnError | dist/lib.esm.js:192-194 | an open subscription is closed and FETCH_FAILURE keeps the data with error set; with none, nothing changes |
| Controller.CacheFirstMount | dist/lib.esm.js:159-177 | with `Q` and variables `{v: 1}` already cached, mounting shows the cached payload, not loading, and makes no request |
| Controller.AppendPages | dist/lib.esm.js:182-185 | the appending merge of `{items: xs}` with `{fetchMoreResult: {items: ys}}` is `{items: xs + ys}` |
| Controller.PagedKeysDiffer | dist/lib.esm.js:153-159 | `Q` with `{a: 1}` and `Q` with `{a: 2}` get different cache keys |
| Controller.RefetchToCachedKeyStaysLoading | dist/lib.esm.js:159-206 | a `refetch` to cached variables while the first fetch is out leaves the state loading with the old (empty) data and no open subscription, and a late result changes nothing; the cache holds the hit that is never shown |
| Controller.FetchMoreMerge | dist/lib.esm.js:178-211 | for any two variable objects with different keys: after the first page `{items: xs}`, a `fetchMore` with the appending merge and the page `{items: ys}` publishes `{items: xs + ys}`, not loading and without error. Two requests were made, the subscription is closed, and the store holds the raw page under the new key |

## Left out

- React: the context provider, `useArtemisClient`, and the hook scheduler. Re-rendering is
  modelled only as far as `Commit` describes: one render after each event, then the effect
  when `op` or `hasData` changed. Each `refetch`/`fetchMore` is taken to create a new `op`
  identity, since `useMemo` recomputes it for every new variables object.
- The execution link and observables: `client.execute`, `executePromise`, the promise chain of
  `load`, `fetchJSON` and the zen-observable executor. A result enters as the `data` parameter
  of `OnNext`/`Load`. An error enters as a call to `OnError`.
- Unsubscribe races. A cleaned-up subscription is modelled as closed, so later notifications
  are ignored. Delivery timing is not modelled.
- The legacy adapters (`graphql`, `withApollo`, `Query`, `compose`), the apollo-link
  compatibility wrapper, the empty `useMutation` stub, and the examples and build files.
- react-api.js `useQuery` outside its initial state: the `shallowCompare` resync of
  `opts.variables` and its effect.
- Json.Value: numbers are safe integers (up to `Number.MAX_SAFE_INTEGER` in magnitude), so
  fractional, non-finite and larger numbers and their serialisation are not modelled. Lone surrogates are not distinguished in string escapes.
- Json.Stringify: writes a number in plain decimal digits, which is what `JSON.stringify` does
  for every safe integer. JavaScript rounds integers beyond 2^53 and writes 10^21 and above in
  exponent form; such numbers are outside `Json.Value`, so keys built from them are not modelled.
- Json.Stringify: writes an object's members in the order of its `Obj` list and lets a name
  appear twice. A JavaScript object holds each name once, and `JSON.stringify` writes integer-like
  names (`"0"`, `"1"`, …) first, in ascending order. Objects with repeated or integer-like names
  are outside the model; GraphQL variable names cannot be integer-like, but payload objects can.
- Tag.Gql: interpolated values are taken to be strings. An object interpolated by the tag.js
  `gql` would be stringified by JavaScript's own conversion, which is not modelled.
- Fragments.Gql: interpolated values are string leaves, `undefined` or arrays. Other objects,
  such as an operation interpolated into a query, are not modelled.
- Tag.Gql: its own contract states only the shape of the result. What it returns for each parse
  is stated by `Tag.GqlFeedsCreateOperation`.
- Cache.Client.constructor: `ssrMode` is stored but nothing in this layer reads it.
- Controller.QueryController.Mount: `client` and `query` are fixed for the controller's lifetime.
  In `useQuery` a new `query` argument rebuilds the operation and re-runs the effect, as new
  variables do; a change of client or of query is not modelled. Variables passed in later
  renders through `opts.variables` are ignored by the source itself, whose resync is commented
  out, so only `refetch` and `fetchMore` change them.

## Findings

| source | as written | input that shows it | evidently intended | confidence | as-written member | corrected member |
|---|---|---|---|---|---|---|
| src/runtime/tag.js:16-25 | `gql` splices a fragment's full text into every template that interpolates it. So a fragment reached twice, directly and through another fragment, appears twice in the query. | the composition of src/runtime/__tests__/tag.test.js:15-37: a fragment `CoolFragment`, a fragment `CoolerFragment` that interpolates it, and a query that interpolates both | each fragment body appears once (the test at src/runtime/__tests__/tag.test.js:43-44 expects one `fragment CoolFragment`), as `dist/lib.esm.js:238-266` does with its flatten-and-dedup composition | high; not executed | Tag.AsWrittenRepeatsSharedFragment | Fragments.DiamondAppearsOnce |
| src/runtime/client.js:34-39 | `load` passes its argument to the link and to `store.set` as the operation itself | src/runtime/__tests__/e2e.test.js:140 calls `client.load({query: q, variables: {articleId: "hola"}})`; that object has no `name`, so once the answer has data `store.set` throws the missing-name error and the awaited promise rejects | `load` takes `{query, variables}` and builds the operation first, as `dist/lib.esm.js:63-70` does | medium; not executed | Cache.LoadQueryObjectFails | Cache.LoadQueryThenHit |
