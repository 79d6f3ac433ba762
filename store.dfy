/**
 * The cache store and the client that owns it (client.js `createStore`, `createClient`, `load`).
 * The store wraps a JavaScript `Map` from cache key to payload; a `Map` remembers the order in
 * which keys were first inserted, which is the order `extract()` dumps them in.
 */
module Cache {
  import opened Common
  import opened Json
  import opened Operations

  /** The contents of a `Map`: its keys in insertion order and the value under each. */
  datatype Table = Table(order: seq<string>, entries: map<string, Value>)

  /** Every key is listed once, and exactly the listed keys have an entry. */
  ghost predicate WellFormed(t: Table)
  {
    && (forall i, j :: 0 <= i < j < |t.order| ==> t.order[i] != t.order[j])
    && (forall k :: k in t.entries <==> k in t.order)
  }

  const Empty: Table := Table([], map[])

  /** `map.set(k, v)`: overwrite in place, or append a new key at the end of the order. */
  function Put(t: Table, k: string, v: Value): (r: Table)
    requires WellFormed(t)
    ensures WellFormed(r)
    ensures k in r.entries && r.entries[k] == v
    ensures forall k' :: k' != k ==> (k' in r.entries <==> k' in t.entries)
    ensures forall k' :: k' != k && k' in t.entries ==> r.entries[k'] == t.entries[k']
    ensures k in t.entries ==> r.order == t.order
    ensures k !in t.entries ==> r.order == t.order + [k]
  {
    Table(if k in t.entries then t.order else t.order + [k], t.entries[k := v])
  }

  /** `new Map(pairs)`: the pairs are set one after the other, so a later duplicate key wins. */
  function FromPairs(pairs: seq<(string, Value)>): (r: Table)
    ensures WellFormed(r)
  {
    if |pairs| == 0 then Empty
    else Put(FromPairs(pairs[..|pairs| - 1]), pairs[|pairs| - 1].0, pairs[|pairs| - 1].1)
  }

  /** The `[key, value]` pairs of `[...map]`, in insertion order. */
  function Pairs(order: seq<string>, entries: map<string, Value>): (r: seq<(string, Value)>)
    requires forall k :: k in order ==> k in entries
    ensures |r| == |order|
    ensures forall i :: 0 <= i < |r| ==> r[i] == (order[i], entries[order[i]])
  {
    if |order| == 0 then []
    else Pairs(order[..|order| - 1], entries) + [(order[|order| - 1], entries[order[|order| - 1]])]
  }

  function Dump(t: Table): seq<(string, Value)>
    requires WellFormed(t)
  {
    Pairs(t.order, t.entries)
  }

  /** `store.get(key) || null`: a missing key and a falsy payload both read as `null`. */
  function Lookup(t: Table, k: string): (r: Value)
    ensures Truthy(r) ==> k in t.entries && t.entries[k] == r
    ensures !Truthy(r) ==> r == Null
    ensures k in t.entries && Truthy(t.entries[k]) ==> r == t.entries[k]
  {
    if k in t.entries && Truthy(t.entries[k]) then t.entries[k] else Null
  }

  /** Index of the last pair whose key is `k`. */
  function LastIndexOf(pairs: seq<(string, Value)>, k: string): (i: nat)
    requires exists j :: 0 <= j < |pairs| && pairs[j].0 == k
    ensures i < |pairs| && pairs[i].0 == k
    ensures forall j :: i < j < |pairs| ==> pairs[j].0 != k
  {
    if pairs[|pairs| - 1].0 == k then |pairs| - 1 else LastIndexOf(pairs[..|pairs| - 1], k)
  }

  /** The entries of `new Map(pairs)`, without the key order. */
  function EntriesOf(pairs: seq<(string, Value)>): map<string, Value>
  {
    if |pairs| == 0 then map[]
    else EntriesOf(pairs[..|pairs| - 1])[pairs[|pairs| - 1].0 := pairs[|pairs| - 1].1]
  }

  /** Building the table and building only its entries agree. */
  lemma {:induction false} FromPairsEntries(pairs: seq<(string, Value)>)
    ensures FromPairs(pairs).entries == EntriesOf(pairs)
  {
    if |pairs| > 0 {
      FromPairsEntries(pairs[..|pairs| - 1]);
    }
  }

  /** The last pair with a key gives its entry. */
  lemma {:induction false} EntriesOfLastWins(pairs: seq<(string, Value)>, k: string)
    ensures k in EntriesOf(pairs) <==> exists j :: 0 <= j < |pairs| && pairs[j].0 == k
    ensures k in EntriesOf(pairs) ==> EntriesOf(pairs)[k] == pairs[LastIndexOf(pairs, k)].1
  {
    if |pairs| > 0 {
      var n := |pairs|;
      var init := pairs[..n - 1];
      EntriesOfLastWins(init, k);
      if pairs[n - 1].0 != k {
        if exists j :: 0 <= j < n && pairs[j].0 == k {
          var j :| 0 <= j < n && pairs[j].0 == k;
          assert init[j].0 == k;
        }
        if exists j :: 0 <= j < n - 1 && init[j].0 == k {
          var j :| 0 <= j < n - 1 && init[j].0 == k;
          assert pairs[j].0 == k;
        }
      }
    }
  }

  /** Building a `Map` from pairs: a key is present iff some pair has it, and the last such pair gives its value. */
  lemma FromPairsLastWins(pairs: seq<(string, Value)>, k: string)
    ensures k in FromPairs(pairs).entries <==> exists j :: 0 <= j < |pairs| && pairs[j].0 == k
    ensures k in FromPairs(pairs).entries ==> FromPairs(pairs).entries[k] == pairs[LastIndexOf(pairs, k)].1
  {
    FromPairsEntries(pairs);
    EntriesOfLastWins(pairs, k);
  }

  /** The table before its newest key was inserted. */
  function DropLast(t: Table): (r: Table)
    requires WellFormed(t) && |t.order| > 0
    ensures WellFormed(r)
    ensures t.order[|t.order| - 1] !in r.entries
  {
    var n := |t.order|;
    var last := t.order[n - 1];
    var r := Table(t.order[..n - 1], t.entries - {last});
    assert forall k :: k in r.order ==> k != last by {
      forall k | k in r.order ensures k != last {
        var i :| 0 <= i < n - 1 && r.order[i] == k;
        assert t.order[i] != t.order[n - 1];
      }
    }
    r
  }

  lemma DumpDropLast(t: Table)
    requires WellFormed(t) && |t.order| > 0
    ensures Dump(t)[..|t.order| - 1] == Dump(DropLast(t))
  {
    var n := |t.order|;
    var r := DropLast(t);
    forall i | 0 <= i < n - 1
      ensures Dump(t)[i] == Dump(r)[i]
    {
      assert r.order[i] == t.order[i];
    }
  }

  /** Re-inserting the newest key with its value undoes `DropLast`. */
  lemma PutDropLast(t: Table)
    requires WellFormed(t) && |t.order| > 0
    ensures Put(DropLast(t), t.order[|t.order| - 1], t.entries[t.order[|t.order| - 1]]) == t
  {
    var n := |t.order|;
    var last := t.order[n - 1];
    var rest := DropLast(t);
    assert rest.entries[last := t.entries[last]] == t.entries;
    assert rest.order + [last] == t.order;
  }

  /** One insertion step of the round trip: re-inserting the newest key rebuilds the table. */
  lemma HydrateStep(t: Table)
    requires WellFormed(t) && |t.order| > 0
    requires FromPairs(Dump(DropLast(t))) == DropLast(t)
    ensures FromPairs(Dump(t)) == t
  {
    var n := |t.order|;
    var d := Dump(t);
    DumpDropLast(t);
    assert FromPairs(d) == Put(FromPairs(d[..n - 1]), d[n - 1].0, d[n - 1].1);
    PutDropLast(t);
  }

  /** Hydration round trip: a `Map` rebuilt from its own dump has the same keys, order and values. */
  lemma {:induction false} HydrateDump(t: Table)
    requires WellFormed(t)
    ensures FromPairs(Dump(t)) == t
    decreases |t.order|
  {
    if |t.order| == 0 {
      assert t.entries == map[];
    } else {
      HydrateDump(DropLast(t));
      HydrateStep(t);
    }
  }

  /** Reading through a rebuilt store gives what the original store gives, for every key. */
  lemma HydratedLookups(t: Table, k: string)
    requires WellFormed(t)
    ensures Lookup(FromPairs(Dump(t)), k) == Lookup(t, k)
    ensures Dump(FromPairs(Dump(t))) == Dump(t)
  {
    HydrateDump(t);
  }

  /** Reading after `set`: the written payload when it is truthy, `null` otherwise; other keys read as before. */
  lemma {:induction false} ReadYourWrite(t: Table, k: string, d: Value, other: string)
    requires WellFormed(t) && other != k
    ensures Lookup(Put(t, k, d), k) == (if Truthy(d) then d else Null)
    ensures Lookup(Put(t, k, d), other) == Lookup(t, other)
  {
  }

  /** `set` is last-write-wins: a second write to the same key replaces the first entirely. */
  lemma {:induction false} LastWriteWins(t: Table, k: string, v1: Value, v2: Value)
    requires WellFormed(t)
    ensures Put(Put(t, k, v1), k, v2) == Put(t, k, v2)
  {
    var once := Put(t, k, v1);
    assert k in once.entries;
    assert Put(once, k, v2) == Table(once.order, t.entries[k := v1][k := v2]);
    assert t.entries[k := v1][k := v2] == t.entries[k := v2];
    assert once.order == Put(t, k, v2).order;
  }

  /** The object `createStore` returns, holding the `Map` it closes over. */
  class Store {
    var order: seq<string>
    var entries: map<string, Value>

    function View(): Table
      reads this
    {
      Table(order, entries)
    }

    ghost predicate Valid()
      reads this
    {
      WellFormed(View())
    }

    /** `createStore(initialState)`; an absent initial state gives an empty map. */
    constructor (initialState: Option<seq<(string, Value)>>)
      ensures Valid()
      ensures initialState.None? ==> View() == Empty
      ensures initialState.Some? ==> View() == FromPairs(initialState.value)
    {
      var pairs := if initialState.Some? then initialState.value else [];
      var t := Empty;
      var i := 0;
      while i < |pairs|
        invariant 0 <= i <= |pairs|
        invariant t == FromPairs(pairs[..i])
      {
        assert pairs[..i + 1][..i] == pairs[..i];
        t := Put(t, pairs[i].0, pairs[i].1);
        i := i + 1;
      }
      assert pairs[..i] == pairs;
      order, entries := t.order, t.entries;
    }

    /** `get(op)`: the payload under the operation's key, `null` on a miss; throws without a name. */
    function Get(op: Operation): (r: Result<Value>)
      reads this
      ensures r.Err? <==> !HasName(op)
      ensures r.Err? ==> r.error == MissingName
      ensures r.Ok? ==> r.value == Lookup(View(), CacheKey(op).value)
    {
      match CacheKey(op)
      case Ok(key) => Ok(Lookup(View(), key))
      case Err(e) => Err(e)
    }

    /** `set(op, data)`: overwrite the entry under the operation's key; throws without a name. */
    method Set(op: Operation, data: Value) returns (r: Result<()>)
      requires Valid()
      modifies this
      ensures Valid()
      ensures r.Err? <==> !HasName(op)
      ensures r.Err? ==> r.error == MissingName && View() == old(View())
      ensures r.Ok? ==> View() == Put(old(View()), CacheKey(op).value, data)
    {
      var key := CacheKey(op);
      if key.Err? {
        return Err(key.error);
      }
      if key.value !in entries {
        order := order + [key.value];
      }
      entries := entries[key.value := data];
      r := Ok(());
    }

    /** `extract()`: the entries as `[key, value]` pairs in insertion order, ready to hydrate another store. */
    function Extract(): (r: seq<(string, Value)>)
      reads this
      requires Valid()
      ensures |r| == |order|
      ensures forall i :: 0 <= i < |r| ==> r[i].0 == order[i] && r[i].1 == entries[order[i]]
      ensures FromPairs(r) == View()
    {
      HydrateDump(View());
      Dump(View())
    }
  }

  /** What `createClient` returns, without the link's `execute` (the network is not modelled). */
  class Client {
    const store: Store
    const ssrMode: bool

    /** `createClient({link, initialState, ssrMode = false})`. */
    constructor (initialState: Option<seq<(string, Value)>>, ssrMode: bool)
      ensures fresh(store) && store.Valid()
      ensures store.View() == (if initialState.Some? then FromPairs(initialState.value) else Empty)
      ensures this.ssrMode == ssrMode
    {
      store := new Store(initialState);
      this.ssrMode := ssrMode;
    }

    /**
     * The write step of client.js `load(op)`, once the link has answered with `res.data`:
     * the payload is stored only when it is truthy (and storing throws when the operation has no name).
     */
    method Load(op: Operation, data: Value) returns (r: Result<()>)
      requires store.Valid()
      modifies store
      ensures store.Valid()
      ensures !Truthy(data) ==> r == Ok(()) && store.View() == old(store.View())
      ensures Truthy(data) && !HasName(op) ==> r == Err(MissingName) && store.View() == old(store.View())
      ensures Truthy(data) && HasName(op) ==>
        r == Ok(()) && store.View() == Put(old(store.View()), CacheKey(op).value, data)
    {
      r := Ok(());
      if Truthy(data) {
        r := store.Set(op, data);
        assert r.Ok? ==> r.value == ();
      }
    }

    /**
     * lib.esm.js `load({query, variables})`: the operation is built first (throwing on an unknown
     * query), then the answer's `data` is written as in `Load`.
     */
    method LoadQuery(query: Query, variables: Value, data: Value) returns (r: Result<()>)
      requires store.Valid()
      modifies store
      ensures store.Valid()
      ensures !Accepted(query) ==> r == Err(CreateOperation(query, variables).error) && store.View() == old(store.View())
      ensures Accepted(query) && !Truthy(data) ==> r == Ok(()) && store.View() == old(store.View())
      ensures Accepted(query) && Truthy(data) ==>
        var op := CreateOperation(query, variables).value;
        (r.Ok? <==> HasName(op)) &&
        store.View() == (if HasName(op) then Put(old(store.View()), CacheKey(op).value, data) else old(store.View()))
    {
      var op := CreateOperation(query, variables);
      if op.Err? {
        return Err(op.error);
      }
      r := Load(op.value, data);
    }
  }

  /**
   * client.js `load` stores under its argument's own name, so the `{query, variables}` object the
   * e2e test hands it has no name: a truthy answer makes `store.set` throw inside the promise.
   */
  method LoadQueryObjectFails(op: Operation, data: Value) returns (r: Result<()>)
    requires op.name.None? && Truthy(data)
    ensures r == Err(MissingName)
  {
    var client := new Client(None, false);
    r := client.Load(op, data);
  }

  /**
   * lib.esm.js `load` builds the operation first, so a named query's truthy answer is stored and
   * the next read of that operation is a hit, as the e2e test expects before it renders.
   */
  method LoadQueryThenHit(query: Query, variables: Value, data: Value) returns (r: Result<()>, hit: Result<Value>)
    requires Accepted(query) && HasName(CreateOperation(query, variables).value) && Truthy(data)
    ensures r == Ok(()) && hit == Ok(data)
  {
    var client := new Client(None, false);
    r := client.LoadQuery(query, variables, data);
    var op := CreateOperation(query, variables).value;
    hit := client.store.Get(op);
    assert r.value == ();
  }

}
