/**
 * `dataFetchReducer` in its two versions (react-api.js with SET_VARIABLES, lib.esm.js with a
 * FETCH_INIT that takes its loading flag from the payload) and the state `useQuery` starts from.
 */
module Reducer {
  import opened Common
  import opened Json

  /** The dispatched actions; `Other` stands for any other `type` string, so its name is none of the four above. */
  datatype Action =
    | SetVariables(variables: Value)  // "SET_VARIABLES"
    | FetchInit(payload: bool)        // "FETCH_INIT" (react-api.js ignores the payload)
    | FetchSuccess(data: Value)       // "FETCH_SUCCESS"
    | FetchFailure                    // "FETCH_FAILURE"
    | Other(name: string)

  /**
   * react-api.js state. Its initial object spells the flag `isError`, so `error` stays absent until
   * the first action sets it; `variables` is absent until SET_VARIABLES.
   */
  datatype SrcState = SrcState(data: Value, loading: bool, error: Option<bool>, variables: Option<Value>)

  /** Loading and a raised error flag are never shown together. */
  predicate SrcConsistent(s: SrcState)
  {
    !(s.loading && s.error == Some(true))
  }

  /** react-api.js `dataFetchReducer`: each case spreads the old state and overrides some fields. */
  function SrcReduce(state: SrcState, action: Action): (r: Result<SrcState>)
    ensures r.Err? <==> action.Other?
    ensures r.Err? ==> r.error == UnknownAction
    ensures r.Ok? ==> SrcConsistent(r.value)
    ensures r.Ok? ==> (r.value.loading <==> action.SetVariables? || action.FetchInit?)
    ensures r.Ok? ==> r.value.error == Some(action.FetchFailure?)
    ensures r.Ok? ==> r.value.data == (if action.FetchSuccess? then action.data else state.data)
    ensures r.Ok? ==> r.value.variables == (if action.SetVariables? then Some(action.variables) else state.variables)
  {
    match action
    case SetVariables(v) => Ok(state.(loading := true, error := Some(false), variables := Some(v)))
    case FetchInit(_) => Ok(state.(loading := true, error := Some(false)))
    case FetchSuccess(d) => Ok(state.(loading := false, error := Some(false), data := d))
    case FetchFailure => Ok(state.(loading := false, error := Some(true)))
    case Other(_) => Err(UnknownAction)
  }

  /** react-api.js initial state: the cache hit (or `null`), loading exactly when there was no hit. */
  function SrcInitialState(cacheHit: Value): (s: SrcState)
    ensures s.data == cacheHit
    ensures s.loading <==> !Truthy(cacheHit)
    ensures s.error.None? && s.variables.None?
    ensures SrcConsistent(s)
  {
    SrcState(cacheHit, !Truthy(cacheHit), None, None)
  }

  /** lib.esm.js state. */
  datatype FetchState = FetchState(data: Value, loading: bool, error: bool)

  predicate Consistent(s: FetchState)
  {
    !(s.loading && s.error)
  }

  /** lib.esm.js `dataFetchReducer`: no SET_VARIABLES case, and FETCH_INIT sets `loading` from its payload. */
  function Reduce(state: FetchState, action: Action): (r: Result<FetchState>)
    ensures r.Err? <==> action.Other? || action.SetVariables?
    ensures r.Err? ==> r.error == UnknownAction
    ensures r.Ok? ==> Consistent(r.value)
    ensures r.Ok? ==> (r.value.loading <==> action.FetchInit? && action.payload)
    ensures r.Ok? ==> (r.value.error <==> action.FetchFailure?)
    ensures r.Ok? ==> r.value.data == (if action.FetchSuccess? then action.data else state.data)
  {
    match action
    case FetchInit(p) => Ok(state.(loading := p, error := false))
    case FetchSuccess(d) => Ok(state.(loading := false, error := false, data := d))
    case FetchFailure => Ok(state.(loading := false, error := true))
    case SetVariables(_) => Err(UnknownAction)
    case Other(_) => Err(UnknownAction)
  }

  /** lib.esm.js initial state. */
  function InitialState(cacheHit: Value): (s: FetchState)
    ensures s.data == cacheHit
    ensures s.loading <==> !Truthy(cacheHit)
    ensures !s.error && Consistent(s)
  {
    FetchState(cacheHit, !Truthy(cacheHit), false)
  }

  /** Dispatching actions one after another; the first unknown action throws. */
  function Run(state: FetchState, actions: seq<Action>): Result<FetchState>
    decreases |actions|
  {
    if |actions| == 0 then Ok(state)
    else match Reduce(state, actions[0])
      case Ok(next) => Run(next, actions[1..])
      case Err(e) => Err(e)
  }

  /** The payload of the last FETCH_SUCCESS, or `data` when there is none. */
  function LastSuccess(data: Value, actions: seq<Action>): Value
  {
    if |actions| == 0 then data
    else if actions[|actions| - 1].FetchSuccess? then actions[|actions| - 1].data
    else LastSuccess(data, actions[..|actions| - 1])
  }

  /** Running a single action more. */
  lemma {:induction false} RunSnoc(state: FetchState, actions: seq<Action>, a: Action)
    ensures Run(state, actions + [a]) ==
      match Run(state, actions)
      case Ok(s) => Reduce(s, a)
      case Err(e) => Err(e)
    decreases |actions|
  {
    if |actions| == 0 {
      assert [a][1..] == [];
    } else {
      assert (actions + [a])[1..] == actions[1..] + [a];
      match Reduce(state, actions[0])
      case Ok(next) => RunSnoc(next, actions[1..], a);
      case Err(_) =>
    }
  }

  /**
   * Over any accepted run the published data is the last fetched payload (failures keep the
   * previous data), and loading and error are never both set once an action has been handled.
   */
  lemma {:induction false} RunPublishesLastSuccess(state: FetchState, actions: seq<Action>)
    requires Consistent(state)
    ensures Run(state, actions).Ok? ==>
      Run(state, actions).value.data == LastSuccess(state.data, actions) &&
      Consistent(Run(state, actions).value)
    decreases |actions|
  {
    if |actions| > 0 {
      var n := |actions|;
      var init := actions[..n - 1];
      assert init + [actions[n - 1]] == actions;
      RunSnoc(state, init, actions[n - 1]);
      RunPublishesLastSuccess(state, init);
    }
  }
}
