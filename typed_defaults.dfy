/** The store abstraction of TypedDefaults: the convertible contract, the
    dictionary-backed store that keeps one serialized value under a fixed
    key, and the type-erasing handle that forwards to such a store. */
module TypedDefaults {
  import opened Transport

  /** The `DefaultConvertible` contract of a value type `D`: a failable
      initialiser from a transport payload and a serializer into one. */
  datatype Convertible<!D> = Convertible(decode: Value -> Option<D>, encode: D -> Value)

  /** The round-trip law a well-behaved convertible type obeys. */
  ghost predicate RoundTrips<D(!new)>(c: Convertible<D>)
  {
    forall d :: c.decode(c.encode(d)) == Some(d)
  }

  // ---------------------------------------------------------------------
  // The backing dictionary and the three point operations on it

  /** What `get` answers for backing dictionary `m`: nothing when `key` has no
      entry, otherwise whatever the failable initialiser makes of the entry. */
  function Lookup<D>(c: Convertible<D>, m: map<string, Value>, key: string): (r: Option<D>)
    ensures key !in m ==> r == None
    ensures r.Some? ==> key in m && c.decode(m[key]) == r
  {
    if key in m then c.decode(m[key]) else None
  }

  /** The dictionary after `set(v)`: the serialized value stored under `key`. */
  function Stored<D>(c: Convertible<D>, m: map<string, Value>, key: string, v: D): (r: map<string, Value>)
    ensures key in r && r[key] == c.encode(v)
    ensures r.Keys == m.Keys + {key}
  {
    m[key := c.encode(v)]
  }

  /** The dictionary after `remove()`: the entry under `key` is gone. */
  function Removed(m: map<string, Value>, key: string): (r: map<string, Value>)
    ensures key !in r
    ensures r.Keys == m.Keys - {key}
  {
    m - {key}
  }

  /** A fresh store has nothing to return. */
  lemma FreshLookupIsNone<D>(c: Convertible<D>, key: string)
    ensures Lookup(c, map[], key) == None
  {
  }

  /** `get` after `set(v)` yields the decoding of `v`'s serialization, which
      is `v` itself for a round-tripping convertible type. */
  lemma SetThenGet<D(!new)>(c: Convertible<D>, m: map<string, Value>, key: string, v: D)
    ensures Lookup(c, Stored(c, m, key, v), key) == c.decode(c.encode(v))
    ensures RoundTrips(c) ==> Lookup(c, Stored(c, m, key, v), key) == Some(v)
  {
  }

  /** A second `set` overwrites the first: only the last value matters. */
  lemma SetOverwrites<D>(c: Convertible<D>, m: map<string, Value>, key: string, a: D, b: D)
    ensures Stored(c, Stored(c, m, key, a), key, b) == Stored(c, m, key, b)
  {
  }

  /** `get` after `remove()` yields nothing, whatever was there before. */
  lemma RemoveThenGet<D>(c: Convertible<D>, m: map<string, Value>, key: string)
    ensures Lookup(c, Removed(m, key), key) == None
  {
  }

  /** `remove()` is idempotent, and removing from an empty store leaves it empty. */
  lemma RemoveIdempotent(m: map<string, Value>, key: string)
    ensures Removed(Removed(m, key), key) == Removed(m, key)
    ensures Removed(map[], key) == map[]
  {
  }

  /** `set` and `remove` touch only the entry under the store's key. */
  lemma OtherEntriesUntouched<D>(c: Convertible<D>, m: map<string, Value>, key: string, v: D, k: string)
    requires k != key
    ensures k in Stored(c, m, key, v) <==> k in m
    ensures k in Removed(m, key) <==> k in m
    ensures k in m ==> Stored(c, m, key, v)[k] == m[k] && Removed(m, key)[k] == m[k]
  {
  }

  // ---------------------------------------------------------------------
  // Sequences of calls on one store

  /** One call that changes a store. */
  datatype Op<D> = Set(value: D) | Remove

  function Step<D>(c: Convertible<D>, key: string, m: map<string, Value>, op: Op<D>): map<string, Value>
  {
    match op
    case Set(v) => Stored(c, m, key, v)
    case Remove => Removed(m, key)
  }

  /** The backing dictionary after the calls `ops`, in order. */
  function Replay<D>(c: Convertible<D>, key: string, m: map<string, Value>, ops: seq<Op<D>>): map<string, Value>
    decreases |ops|
  {
    if ops == [] then m else Replay(c, key, Step(c, key, m, ops[0]), ops[1..])
  }

  /** After any non-empty sequence of calls, `get` depends on the last call
      alone: the decoding of its value if it was a `set`, nothing if it was a
      `remove`. */
  lemma {:induction false} ReplayThenGet<D>(c: Convertible<D>, key: string, m: map<string, Value>, ops: seq<Op<D>>)
    requires ops != []
    ensures Lookup(c, Replay(c, key, m, ops), key)
         == if ops[|ops| - 1].Set? then c.decode(c.encode(ops[|ops| - 1].value)) else None
    decreases |ops|
  {
    var m' := Step(c, key, m, ops[0]);
    if |ops| == 1 {
      assert Replay(c, key, m', ops[1..]) == m';
    } else {
      ReplayThenGet(c, key, m', ops[1..]);
      assert ops[1..][|ops[1..]| - 1] == ops[|ops| - 1];
    }
  }

  /** `get` never fabricates a value: starting from an empty store, whatever
      it returns is the decoding of a value some `set` stored, and with a
      round-tripping convertible type it is that value itself. */
  lemma GetNeverFabricates<D(!new)>(c: Convertible<D>, key: string, ops: seq<Op<D>>, d: D)
    requires Lookup(c, Replay(c, key, map[], ops), key) == Some(d)
    ensures exists i :: 0 <= i < |ops| && ops[i].Set? && c.decode(c.encode(ops[i].value)) == Some(d)
    ensures RoundTrips(c) ==> Set(d) in ops
  {
    if ops == [] {
      assert false;
    }
    ReplayThenGet(c, key, map[], ops);
    var i := |ops| - 1;
    assert ops[i].Set? && c.decode(c.encode(ops[i].value)) == Some(d);
    if RoundTrips(c) {
      assert ops[i] == Set(d);
    }
  }

  /** Calls on a store never change an entry under any other key. */
  lemma {:induction false} ReplayKeepsOtherEntries<D>(c: Convertible<D>, key: string, m: map<string, Value>, ops: seq<Op<D>>, k: string)
    requires k != key
    ensures k in Replay(c, key, m, ops) <==> k in m
    ensures k in m ==> Replay(c, key, m, ops)[k] == m[k]
    decreases |ops|
  {
    if ops != [] {
      var m' := Step(c, key, m, ops[0]);
      assert k in m' <==> k in m;
      assert k in m ==> m'[k] == m[k];
      ReplayKeepsOtherEntries(c, key, m', ops[1..], k);
    }
  }

  // ---------------------------------------------------------------------
  // The stores

  /** `DictionaryStore`: keeps the serialized value in a dictionary of its
      own, under the key it was constructed with. */
  class DictionaryStore<D> {
    const key: string
    const conv: Convertible<D>
    var dictionary: map<string, Value>

    /** `init(type:key:)`: an empty store for the given key. */
    constructor (conv: Convertible<D>, key: string)
      ensures this.key == key && this.conv == conv
      ensures dictionary == map[]
    {
      this.key := key;
      this.conv := conv;
      dictionary := map[];
    }

    method Set(v: D)
      modifies this
      ensures dictionary == Stored(conv, old(dictionary), key, v)
    {
      dictionary := dictionary[key := conv.encode(v)];
    }

    method Get() returns (r: Option<D>)
      ensures r == Lookup(conv, dictionary, key)
    {
      if key !in dictionary {
        return None;
      }
      r := conv.decode(dictionary[key]);
    }

    method Remove()
      modifies this
      ensures dictionary == Removed(old(dictionary), key)
    {
      dictionary := dictionary - {key};
    }
  }

  /** `AnyStore`: a type-erasing handle. Built over a store it forwards every
      call to that store; built from a key alone it is inert. */
  class AnyStore<D> {
    const key: string
    /** The wrapped store; `null` for the inert handle. */
    const inner: DictionaryStore?<D>

    /** `init(_ inner:)`: forwards to `inner` and shares its key. */
    constructor (inner: DictionaryStore<D>)
      ensures key == inner.key && this.inner == inner
    {
      key := inner.key;
      this.inner := inner;
    }

    /** `init(type:key:)`: a handle whose operations do nothing. */
    constructor Inert(key: string)
      ensures this.key == key && inner == null
    {
      this.key := key;
      inner := null;
    }

    method Set(v: D)
      modifies inner
      ensures inner != null ==> inner.dictionary == Stored(inner.conv, old(inner.dictionary), inner.key, v)
    {
      if inner != null {
        inner.Set(v);
      }
    }

    method Get() returns (r: Option<D>)
      ensures inner == null ==> r == None
      ensures inner != null ==> r == Lookup(inner.conv, inner.dictionary, inner.key)
    {
      if inner == null {
        return None;
      }
      r := inner.Get();
    }

    method Remove()
      modifies inner
      ensures inner != null ==> inner.dictionary == Removed(old(inner.dictionary), inner.key)
    {
      if inner != null {
        inner.Remove();
      }
    }
  }
}
