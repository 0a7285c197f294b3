/**
  The in-memory key/value store of lib/rate_limiter_pa/default_store.rb.

  The store wraps one hash, `@data`: `get` looks a key up (absent keys give
  `nil`) and `set` assigns a key, the later assignment winning. The value-level
  half of this module states those semantics on maps and on whole histories of
  reads and writes; the class `DefaultStore` is the object itself, its field
  updated in place, with contracts tied to the value-level functions.
*/
module Store {

  import opened Wrappers

  // ---------------------------------------------------------------------------
  // Value-level semantics

  /** Reading a key of the hash: its value, or `None` (Ruby's `nil`) when absent. */
  function Lookup<K, V>(m: map<K, V>, k: K): Option<V>
  {
    if k in m then Some(m[k]) else None
  }

  /** One call on a store: `get(attr)` or `set(attr, value)`. */
  datatype Op<K, V> = Read(attr: K) | Write(attr: K, value: V)

  /** The contents after one call: a read leaves them, a write assigns its key. */
  function Apply<K, V>(m: map<K, V>, op: Op<K, V>): map<K, V>
  {
    match op
    case Read(_) => m
    case Write(k, v) => m[k := v]
  }

  /** The contents after a history of calls, oldest first. */
  function Replay<K, V>(m: map<K, V>, ops: seq<Op<K, V>>): map<K, V>
  {
    if ops == [] then m else Apply(Replay(m, ops[..|ops| - 1]), ops[|ops| - 1])
  }

  /** The value of the most recent write to `k` in `ops`, if there is one. */
  function LastWrite<K(==), V>(ops: seq<Op<K, V>>, k: K): Option<V>
  {
    if ops == [] then None
    else
      var op := ops[|ops| - 1];
      if op.Write? && op.attr == k then Some(op.value) else LastWrite(ops[..|ops| - 1], k)
  }

  /** The writes of a history, in order: what remains once every read is dropped. */
  function Writes<K, V>(ops: seq<Op<K, V>>): seq<Op<K, V>>
  {
    if ops == [] then []
    else
      var op := ops[|ops| - 1];
      Writes(ops[..|ops| - 1]) + (if op.Write? then [op] else [])
  }

  /**
    Last write wins: after any history, reading `k` gives the value of the most
    recent write to `k`, and the value `k` had before the history if nothing
    wrote it.
  */
  lemma {:induction false} ReplayLastWriteWins<K, V>(m: map<K, V>, ops: seq<Op<K, V>>, k: K)
    ensures Lookup(Replay(m, ops), k) == match LastWrite(ops, k)
                                         case Some(v) => Some(v)
                                         case None => Lookup(m, k)
  {
    if ops != [] {
      ReplayLastWriteWins(m, ops[..|ops| - 1], k);
    }
  }

  /**
    A store that starts empty (as `initialize` makes it) answers every read
    with the most recent write to that key, and with `nil` for a key never written.
  */
  lemma FreshStoreHistory<K, V>(ops: seq<Op<K, V>>, k: K)
    ensures Lookup(Replay(map[], ops), k) == LastWrite(ops, k)
  {
    ReplayLastWriteWins(map[], ops, k);
  }

  /** Reads change nothing: a history has the same effect as its writes alone. */
  lemma {:induction false} ReadsAreInvisible<K, V>(m: map<K, V>, ops: seq<Op<K, V>>)
    ensures Replay(m, ops) == Replay(m, Writes(ops))
  {
    if ops != [] {
      var init, op := ops[..|ops| - 1], ops[|ops| - 1];
      ReadsAreInvisible(m, init);
      ReplayAppend(m, Writes(init), if op.Write? then [op] else []);
    }
  }

  /** Replaying a concatenation is replaying its two parts in turn. */
  lemma {:induction false} ReplayAppend<K, V>(m: map<K, V>, a: seq<Op<K, V>>, b: seq<Op<K, V>>)
    ensures Replay(m, a + b) == Replay(Replay(m, a), b)
  {
    if b == [] {
      assert a + b == a;
    } else {
      assert (a + b)[..|a + b| - 1] == a + b[..|b| - 1];
      ReplayAppend(m, a, b[..|b| - 1]);
    }
  }

  /** Writing the same key and value twice leaves what writing it once leaves. */
  lemma WriteIdempotent<K, V>(m: map<K, V>, k: K, v: V)
    ensures Apply(Apply(m, Write(k, v)), Write(k, v)) == Apply(m, Write(k, v))
  {
  }

  /** A second write to a key replaces the first: only the later value survives. */
  lemma WriteOverwrites<K, V>(m: map<K, V>, k: K, v1: V, v2: V)
    ensures Apply(Apply(m, Write(k, v1)), Write(k, v2)) == Apply(m, Write(k, v2))
  {
  }

  // ---------------------------------------------------------------------------
  // The store object

  class DefaultStore<K(==), V> {

    /** `@data`: the hash the store wraps. */
    var data: map<K, V>

    /** `initialize`: the store starts with an empty hash. */
    constructor ()
      ensures data == map[]
      ensures forall k :: Lookup(data, k) == None
    {
      data := map[];
    }

    /** `get(attr)`: the stored value for `attr`, or `None`; the store is not changed. */
    method Get(attr: K) returns (r: Option<V>)
      ensures r == Lookup(data, attr)
      ensures r.Some? <==> attr in data
      ensures r.Some? ==> r.value == data[attr]
    {
      r := if attr in data then Some(data[attr]) else None;
    }

    /**
      `set(attr, value)`: assigns `attr` in place, every other key keeps its
      value, and the call evaluates to the value stored (as a Ruby assignment does).
    */
    method Set(attr: K, value: V) returns (r: V)
      modifies this
      ensures data == Apply(old(data), Write(attr, value))
      ensures data.Keys == old(data.Keys) + {attr}
      ensures Lookup(data, attr) == Some(value)
      ensures forall k :: k != attr ==> Lookup(data, k) == Lookup(old(data), k)
      ensures r == value
    {
      data := data[attr := value];
      r := value;
    }
  }

  // ---------------------------------------------------------------------------
  // Clients: what a caller of the store can rely on from the contracts above

  /** A fresh store has no entries: `get` of any key is `nil`. */
  method FreshGet<K(==), V>(k: K) returns (r: Option<V>)
    ensures r == None
  {
    var store := new DefaultStore<K, V>();
    r := store.Get(k);
  }

  /**
    Round trip (spec/default_store_spec.rb): on any store, `set(k, v)` returns
    `v` and a following `get(k)` gives `v`.
  */
  method SetThenGet<K(==), V>(store: DefaultStore<K, V>, k: K, v: V) returns (stored: V, r: Option<V>)
    modifies store
    ensures stored == v
    ensures r == Some(v)
    ensures store.data == old(store.data)[k := v]
  {
    stored := store.Set(k, v);
    r := store.Get(k);
  }

  /** Last write wins: on any store, `set(k, v1)`, `set(k, v2)`, then `get(k)` gives `v2`. */
  method OverwriteThenGet<K(==), V>(store: DefaultStore<K, V>, k: K, v1: V, v2: V) returns (r: Option<V>)
    modifies store
    ensures r == Some(v2)
    ensures store.data == old(store.data)[k := v2]
  {
    var _ := store.Set(k, v1);
    var _ := store.Set(k, v2);
    r := store.Get(k);
  }

  /** Independence: on any store, writing `k2` does not disturb what `k1` holds. */
  method SetOtherThenGet<K(==), V>(store: DefaultStore<K, V>, k1: K, v1: V, k2: K, v2: V) returns (r: Option<V>)
    requires k1 != k2
    modifies store
    ensures r == Some(v1)
    ensures store.data == old(store.data)[k1 := v1][k2 := v2]
  {
    var _ := store.Set(k1, v1);
    var _ := store.Set(k2, v2);
    r := store.Get(k1);
  }

  /** `get` between two calls changes nothing: reading twice in a row agrees. */
  method GetTwice<K(==), V>(store: DefaultStore<K, V>, k: K) returns (r1: Option<V>, r2: Option<V>)
    ensures r1 == r2 == Lookup(store.data, k)
  {
    r1 := store.Get(k);
    r2 := store.Get(k);
  }
}
