/**
 * The cache-first controller behind lib.esm.js `useQuery`, as an object whose fields are the
 * hook's state: the variables (`useState`), the memoised operation, the reducer state, the
 * `updateQuery` ref set by `fetchMore`, the open subscription and the `hasData` value the effect
 * last ran with. Each method is one event: mount, `refetch`, `fetchMore`, and a notification from
 * the link. After every event the component re-renders, and the effect runs again when its
 * dependencies (`op`, `hasData`) changed.
 */
module Controller {
  import opened Common
  import opened Json
  import opened Operations
  import opened Cache
  import opened Reducer

  /** A caller's `updateQuery(previousData, {fetchMoreResult})`. */
  type Merge = (Value, Value) -> Value

  /** What an open subscription's `next` closure captured: the operation, whether it is a `fetchMore`, and the data shown then. */
  datatype Subscription = Subscription(op: Operation, isUpdate: bool, prevData: Value)

  /** `opts.variables || {}`: any falsy variables become an empty object. */
  function OptionVariables(v: Value): (r: Value)
    ensures Truthy(v) ==> r == v
    ensures !Truthy(v) ==> r == Obj([])
  {
    if Truthy(v) then v else Obj([])
  }

  /** Rendering does not throw: `createOperation` accepts the query and `store.get` finds a name. */
  predicate Renders(query: Query, variables: Value)
  {
    Accepted(query) && HasName(CreateOperation(query, variables).value)
  }

  /** The argument `updateQuery` receives for a page of results. */
  function FetchMoreResult(data: Value): Value
  {
    Obj([("fetchMoreResult", data)])
  }

  class QueryController {
    const store: Store
    const query: Query
    var variables: Value
    var op: Operation
    var state: FetchState
    var pendingMerge: Option<Merge>
    var subscription: Option<Subscription>
    var hasData: bool
    /** The operations handed to `client.execute`, oldest first. */
    ghost var requests: seq<Operation>

    ghost predicate Valid()
      reads this, store
    {
      && store.Valid()
      && Renders(query, variables)
      && op == CreateOperation(query, variables).value
      && Consistent(state)
      && (subscription.Some? ==> !hasData && subscription.value.op == op)
    }

    /** The cache key of the current operation. */
    function Key(): string
      reads this
      requires HasName(op)
    {
      CacheKey(op).value
    }

    /** `client.store.get(op)` during a render. */
    function CacheHit(): Value
      reads this, store
      requires HasName(op)
    {
      Lookup(store.View(), Key())
    }

    /**
     * A render followed by the effect when its dependencies changed (`opChanged`, or a new
     * `hasData`): the old subscription is cleaned up, and on a cache miss FETCH_INIT is dispatched
     * (loading unless this is a `fetchMore`) and the operation is executed.
     */
    method Commit(opChanged: bool)
      requires store.Valid() && Renders(query, variables) && op == CreateOperation(query, variables).value
      requires Consistent(state)
      requires !opChanged ==> (subscription.Some? ==> !hasData && subscription.value.op == op)
      modifies this
      ensures Valid()
      ensures variables == old(variables) && op == old(op) && pendingMerge == old(pendingMerge)
      ensures hasData == Truthy(CacheHit())
      ensures !opChanged && hasData == old(hasData) ==>
        state == old(state) && subscription == old(subscription) && requests == old(requests)
      ensures (opChanged || hasData != old(hasData)) && hasData ==>
        state == old(state) && subscription.None? && requests == old(requests)
      ensures (opChanged || hasData != old(hasData)) && !hasData ==>
        && state == FetchState(old(state).data, pendingMerge.None?, false)
        && subscription == Some(Subscription(op, pendingMerge.Some?, old(state).data))
        && requests == old(requests) + [op]
    {
      var hit := Truthy(CacheHit());
      if opChanged || hit != hasData {
        subscription := None;
        hasData := hit;
        if !hasData {
          var isUpdate := pendingMerge.Some?;
          var prevData := state.data;
          state := Reduce(state, FetchInit(!isUpdate)).value;
          subscription := Some(Subscription(op, isUpdate, prevData));
          requests := requests + [op];
        }
      }
    }

    /**
     * Mounting `useQuery(query, {variables})`: the reducer starts from the cache hit, and the
     * operation is executed only on a miss.
     */
    constructor (store: Store, query: Query, variables: Value)
      requires store.Valid() && Renders(query, OptionVariables(variables))
      ensures Valid()
      ensures this.store == store && this.query == query && this.variables == OptionVariables(variables)
      ensures pendingMerge.None?
      ensures state == InitialState(CacheHit())
      ensures Truthy(CacheHit()) ==> subscription.None? && requests == []
      ensures !Truthy(CacheHit()) ==> subscription == Some(Subscription(op, false, Null)) && requests == [op]
    {
      this.store := store;
      this.query := query;
      this.variables := OptionVariables(variables);
      op := CreateOperation(query, OptionVariables(variables)).value;
      pendingMerge := None;
      subscription := None;
      hasData := false;
      requests := [];
      state := InitialState(Lookup(store.View(), CacheKey(CreateOperation(query, OptionVariables(variables)).value).value));
      new;
      Commit(true);
    }

    /**
     * Mounting, with the exceptions the first render can throw: `createOperation` rejects the
     * query, or `store.get` finds no operation name. Otherwise the controller is constructed.
     */
    static method Mount(store: Store, query: Query, variables: Value) returns (r: Result<QueryController>)
      requires store.Valid()
      ensures !Accepted(query) ==> r == Err(CreateOperation(query, OptionVariables(variables)).error)
      ensures Accepted(query) && !Renders(query, OptionVariables(variables)) ==> r == Err(MissingName)
      ensures r.Ok? <==> Renders(query, OptionVariables(variables))
      ensures r.Ok? ==> && fresh(r.value) && r.value.Valid() && r.value.store == store
                        && r.value.state == InitialState(r.value.CacheHit())
                        && (r.value.requests == [] <==> Truthy(r.value.CacheHit()))
    {
      var vars := OptionVariables(variables);
      var op := CreateOperation(query, vars);
      if op.Err? {
        return Err(op.error);
      }
      if !HasName(op.value) {
        return Err(MissingName);
      }
      var c := new QueryController(store, query, variables);
      r := Ok(c);
    }

    /** Moving to new variables re-creates the operation; the query alone decides whether rendering throws. */
    lemma RendersWith(vars: Value)
      requires Valid()
      ensures Renders(query, vars)
    {
      OperationValidityIgnoresVariables(query, variables, vars);
    }

    /**
     * `refetch(vars)` (`setVariables`): the new operation is looked up in the cache. On a miss it
     * is executed; on a hit nothing is dispatched, so the reducer keeps showing the previous data.
     */
    method Refetch(vars: Value)
      requires Valid()
      modifies this
      ensures Valid()
      ensures variables == vars && op == CreateOperation(query, vars).value
      ensures pendingMerge == old(pendingMerge)
      ensures Truthy(CacheHit()) ==> state == old(state) && subscription.None? && requests == old(requests)
      ensures !Truthy(CacheHit()) ==>
        && state == FetchState(old(state).data, pendingMerge.None?, false)
        && subscription == Some(Subscription(op, pendingMerge.Some?, old(state).data))
        && requests == old(requests) + [op]
    {
      RendersWith(vars);
      variables := vars;
      op := CreateOperation(query, vars).value;
      Commit(true);
    }

    /**
     * `fetchMore({variables, updateQuery})`: like `refetch`, with `updateQuery` kept for the next
     * result. On a miss the fetch is an update, so FETCH_INIT does not raise `loading` when a merge
     * function was given.
     */
    method FetchMore(vars: Value, updateQuery: Option<Merge>)
      requires Valid()
      modifies this
      ensures Valid()
      ensures variables == vars && op == CreateOperation(query, vars).value
      ensures pendingMerge == updateQuery
      ensures Truthy(CacheHit()) ==> state == old(state) && subscription.None? && requests == old(requests)
      ensures !Truthy(CacheHit()) ==>
        && state == FetchState(old(state).data, updateQuery.None?, false)
        && subscription == Some(Subscription(op, updateQuery.Some?, old(state).data))
        && requests == old(requests) + [op]
    {
      RendersWith(vars);
      variables := vars;
      pendingMerge := updateQuery;
      op := CreateOperation(query, vars).value;
      Commit(true);
    }

    /**
     * The subscription's `next({data})`. The raw data is written to the store; the payload is the
     * data, or for a `fetchMore` the merge of the data shown when the fetch started with
     * `{fetchMoreResult: data}`; the merge function is then dropped and FETCH_SUCCESS dispatched.
     * The re-render finds truthy data in the cache, which flips `hasData` and closes the
     * subscription. A second result on an update subscription calls the dropped (`null`) merge
     * function and throws after the store write.
     */
    method OnNext(data: Value) returns (r: Result<()>)
      requires Valid()
      modifies this, store
      ensures Valid()
      ensures variables == old(variables) && op == old(op) && requests == old(requests)
      ensures old(subscription).None? ==>
        && r == Ok(()) && store.View() == old(store.View()) && state == old(state) && subscription.None?
        && pendingMerge == old(pendingMerge) && hasData == old(hasData)
      ensures old(subscription).Some? ==> store.View() == Put(old(store.View()), Key(), data)
      ensures old(subscription).Some? && old(subscription.value.isUpdate) && old(pendingMerge).None? ==>
        && r == Err(PropertyOfUndefined) && state == old(state) && subscription == old(subscription)
        && pendingMerge.None? && hasData == old(hasData)
      ensures old(subscription).Some? && !(old(subscription.value.isUpdate) && old(pendingMerge).None?) ==>
        && r == Ok(())
        && pendingMerge.None?
        && state == FetchState(
             if old(subscription.value.isUpdate)
             then old(pendingMerge).value(old(subscription.value.prevData), FetchMoreResult(data))
             else data,
             false, false)
        && (subscription.None? <==> Truthy(data))
        && (subscription.Some? ==> subscription == old(subscription))
    {
      if subscription.None? {
        return Ok(());
      }
      var sub := subscription.value;
      var key := Key();
      var written := store.Set(op, data);
      assert store.View() == Put(old(store.View()), key, data);
      if sub.isUpdate && pendingMerge.None? {
        return Err(PropertyOfUndefined);
      }
      var payload := if sub.isUpdate then pendingMerge.value(sub.prevData, FetchMoreResult(data)) else data;
      pendingMerge := None;
      state := Reduce(state, FetchSuccess(payload)).value;
      Commit(false);
      r := Ok(());
    }

    /** The subscription's `error`: FETCH_FAILURE keeps the data shown, and the subscription is closed. */
    method OnError()
      requires Valid()
      modifies this
      ensures Valid()
      ensures variables == old(variables) && op == old(op) && pendingMerge == old(pendingMerge)
      ensures requests == old(requests) && subscription.None?
      ensures old(subscription).None? ==> state == old(state)
      ensures old(subscription).Some? ==> state == FetchState(old(state).data, false, true)
    {
      if subscription.Some? {
        state := Reduce(state, FetchFailure).value;
        subscription := None;
        Commit(false);
      }
    }
  }

  /** Property access `v[k]` on an object value: the first member named `k`, `undefined` when there is none. */
  function Member(v: Value, k: string): (r: Value)
    ensures r != Undefined ==> v.Obj? && exists i :: 0 <= i < |v.members| && v.members[i] == (k, r)
    decreases if v.Obj? then |v.members| else 0
  {
    if !v.Obj? || |v.members| == 0 then Undefined
    else if v.members[0].0 == k then v.members[0].1
    else Member(Obj(v.members[1..]), k)
  }

  /** The elements of an array value; anything else has none. */
  function Elements(v: Value): seq<Value>
  {
    if v.Arr? then v.elems else []
  }

  /**
   * The paging merge used with `fetchMore`: an object whose `items` are the items of the data
   * shown, followed by the items of the `fetchMoreResult` member of its second argument.
   */
  function AppendItems(prev: Value, more: Value): Value
  {
    Obj([("items", Arr(Elements(Member(prev, "items")) + Elements(Member(Member(more, "fetchMoreResult"), "items"))))])
  }

  /** An operation named `Q` with the given variables, as a "String" query. */
  const PagedQuery: Query := StringOperation(Some("query"), Some("Q"), "query Q { items }")

  /**
   * Cache-first mount: with the store already holding a payload for `Q` with variables `{v: 1}`,
   * mounting a controller for the same operation shows that payload, is not loading and
   * executes nothing.
   */
  method CacheFirstMount() returns (c: QueryController)
    ensures c.state == FetchState(Obj([("items", Arr([Num(1)]))]), false, false)
    ensures c.requests == [] && c.subscription.None?
  {
    var store := new Store(None);
    var vars := Obj([("v", Num(1))]);
    var op := CreateOperation(PagedQuery, vars).value;
    var payload := Obj([("items", Arr([Num(1)]))]);
    var written := store.Set(op, payload);
    c := new QueryController(store, PagedQuery, vars);
  }

  /**
   * `refetch` to cached variables while the first fetch is still out: the effect's cleanup closes
   * the subscription and nothing is dispatched for the hit, so the state keeps `loading` set and
   * the data of the first variables, and a late result no longer reaches it.
   */
  method RefetchToCachedKeyStaysLoading(first: Value, second: Value, cached: Value, late: Value)
    returns (c: QueryController)
    requires first.Obj? && second.Obj? && Truthy(cached)
    requires CacheKey(CreateOperation(PagedQuery, first).value) != CacheKey(CreateOperation(PagedQuery, second).value)
    ensures c.Valid() && c.variables == second && c.CacheHit() == cached
    ensures c.state == FetchState(Null, true, false) && c.subscription.None? && |c.requests| == 1
  {
    var store := new Store(None);
    var written := store.Set(CreateOperation(PagedQuery, second).value, cached);
    c := new QueryController(store, PagedQuery, first);
    c.Refetch(second);
    var r := c.OnNext(late);
  }

  /** `Q` with `{a: 1}` and `Q` with `{a: 2}` are cached under different keys, as `FetchMoreMerge` asks. */
  lemma PagedKeysDiffer()
    ensures CacheKey(CreateOperation(PagedQuery, Obj([("a", Num(1))])).value)
         != CacheKey(CreateOperation(PagedQuery, Obj([("a", Num(2))])).value)
  {
    NumericVariablesSeparate("Q", "a", 1, 2);
    KeyIgnoresKindTypeAndQuery(
      Operation(Some("Q"), None, "String", Text(""), Obj([("a", Num(1))])),
      CreateOperation(PagedQuery, Obj([("a", Num(1))])).value);
    KeyIgnoresKindTypeAndQuery(
      Operation(Some("Q"), None, "String", Text(""), Obj([("a", Num(2))])),
      CreateOperation(PagedQuery, Obj([("a", Num(2))])).value);
  }

  /** The appending merge joins the item lists of the shown data and the new page. */
  lemma AppendPages(xs: seq<Value>, ys: seq<Value>)
    ensures AppendItems(Obj([("items", Arr(xs))]), FetchMoreResult(Obj([("items", Arr(ys))])))
         == Obj([("items", Arr(xs + ys))])
  {
  }

  /** Mounting the paged query with variables `first` on an empty cache and receiving the page `items: xs`. */
  method FirstPage(first: Value, xs: seq<Value>) returns (c: QueryController)
    requires first.Obj?
    ensures fresh(c) && fresh(c.store)
    ensures c.Valid() && c.query == PagedQuery && c.variables == first
    ensures c.state.data == Obj([("items", Arr(xs))]) && c.subscription.None? && c.pendingMerge.None?
    ensures |c.requests| == 1 && c.store.entries == map[c.Key() := Obj([("items", Arr(xs))])]
  {
    var store := new Store(None);
    c := new QueryController(store, PagedQuery, first);
    assert |c.requests| == 1;
    var r1 := c.OnNext(Obj([("items", Arr(xs))]));
  }

  /**
   * `fetchMore` merge: the first page `{items: xs}` is shown, `fetchMore` asks for the next page
   * under variables with another cache key, with the appending merge, and the page `{items: ys}`
   * is published as `{items: xs + ys}`, while the store keeps the raw page under the new key.
   */
  method FetchMoreMerge(first: Value, second: Value, xs: seq<Value>, ys: seq<Value>) returns (c: QueryController)
    requires first.Obj? && second.Obj?
    requires CacheKey(CreateOperation(PagedQuery, first).value) != CacheKey(CreateOperation(PagedQuery, second).value)
    ensures c.state == FetchState(Obj([("items", Arr(xs + ys))]), false, false)
    ensures |c.requests| == 2 && c.pendingMerge.None? && c.subscription.None?
    ensures c.Valid() && c.variables == second && c.CacheHit() == Obj([("items", Arr(ys))])
  {
    c := FirstPage(first, xs);
    ghost var firstKey := c.Key();
    c.FetchMore(second, Some(AppendItems));
    assert c.Key() != firstKey;
    var r2 := c.OnNext(Obj([("items", Arr(ys))]));
    AppendPages(xs, ys);
  }
}
