/**
 * The string-keyed typed value store. src/structures/properties.rs (`Properties`)
 * and crates/core/src/structures/object.rs (`Object`) hold the same code over two
 * copies of the value union, so the store is written once, generic in the value
 * type, and instantiated by the modules `Properties` and `Objects`.
 *
 * The hash map's iteration order is unspecified: every operation that iterates
 * picks some enumeration of the keys and hands it back as a ghost out-parameter,
 * so its contract can speak of the order it used without fixing one.
 */
module KeyedStore {
  import opened Wrappers

  /** `order` visits every key of `m` exactly once: a possible iteration order of the map. */
  ghost predicate IsEnumeration<V>(m: map<string, V>, order: seq<string>) {
    && (forall i, j :: 0 <= i < j < |order| ==> order[i] != order[j])
    && (forall k :: k in m <==> k in order)
  }

  /** An iteration visits as many keys as the map holds. */
  lemma {:induction false} EnumerationLength<V>(m: map<string, V>, order: seq<string>)
    requires IsEnumeration(m, order)
    ensures |order| == |m|
  {
    if order == [] {
      assert m.Keys == {};
    } else {
      var k := order[|order| - 1];
      var rest := order[..|order| - 1];
      var m' := m - {k};
      assert k !in rest by {
        forall i | 0 <= i < |rest| ensures rest[i] != k {
          assert order[i] != order[|order| - 1];
        }
      }
      assert order == rest + [k];
      forall x ensures x in m' <==> x in rest {
        if x in rest { assert x != k; }
      }
      EnumerationLength(m', rest);
      assert m.Keys == m'.Keys + {k};
    }
  }

  /** The stored entries that satisfy `test`, in the order `order` visits their keys. */
  function Selected<V>(m: map<string, V>, order: seq<string>, test: (string, V) -> bool): seq<(string, V)> {
    if order == [] then []
    else
      var k := order[|order| - 1];
      Selected(m, order[..|order| - 1], test) + (if k in m && test(k, m[k]) then [(k, m[k])] else [])
  }

  /**
   * Along an enumeration without repeats, `Selected` yields exactly the stored
   * entries that satisfy `test`, each key once.
   */
  lemma {:induction false} SelectedEntries<V>(m: map<string, V>, order: seq<string>, test: (string, V) -> bool)
    requires forall i, j :: 0 <= i < j < |order| ==> order[i] != order[j]
    ensures forall e :: e in Selected(m, order, test) ==> e.0 in order && e.0 in m && e.1 == m[e.0] && test(e.0, e.1)
    ensures forall k :: k in order && k in m && test(k, m[k]) ==> (k, m[k]) in Selected(m, order, test)
    ensures forall i, j :: 0 <= i < j < |Selected(m, order, test)| ==>
              Selected(m, order, test)[i].0 != Selected(m, order, test)[j].0
  {
    if order != [] {
      var init := order[..|order| - 1];
      var k := order[|order| - 1];
      SelectedEntries(m, init, test);
      assert order == init + [k];
      assert k !in init by {
        forall j | 0 <= j < |init| ensures init[j] != k {
          assert order[j] != order[|order| - 1];
        }
      }
      var before := Selected(m, init, test);
      var after := Selected(m, order, test);
      assert after == before + (if k in m && test(k, m[k]) then [(k, m[k])] else []);
      forall i, j | 0 <= i < j < |after| ensures after[i].0 != after[j].0 {
        if j < |before| {
          assert after[i] == before[i] && after[j] == before[j];
        } else {
          assert after[i] == before[i] && before[i] in before;
          assert after[j].0 == k;
        }
      }
    }
  }

  /** The `Some` results of `transform` on the stored entries, in the order `order` visits their keys. */
  function FilterMapped<V>(m: map<string, V>, order: seq<string>, transform: (string, V) -> Option<V>): seq<V> {
    if order == [] then []
    else
      var k := order[|order| - 1];
      FilterMapped(m, order[..|order| - 1], transform)
      + (if k in m && transform(k, m[k]).Some? then [transform(k, m[k]).value] else [])
  }

  /** The keys whose entries `transform` maps to `Some`, in the order `order` visits them. */
  function PickedKeys<V>(m: map<string, V>, order: seq<string>, transform: (string, V) -> Option<V>): seq<string> {
    if order == [] then []
    else
      var k := order[|order| - 1];
      PickedKeys(m, order[..|order| - 1], transform)
      + (if k in m && transform(k, m[k]).Some? then [k] else [])
  }

  /**
   * Along an enumeration without repeats, the picked keys are exactly the stored
   * keys that `transform` maps to `Some`, each once, and the i-th result is what
   * `transform` returned for the i-th picked key.
   */
  lemma {:induction false} PickedEntries<V>(m: map<string, V>, order: seq<string>, transform: (string, V) -> Option<V>)
    requires forall i, j :: 0 <= i < j < |order| ==> order[i] != order[j]
    ensures |PickedKeys(m, order, transform)| == |FilterMapped(m, order, transform)|
    ensures forall i :: 0 <= i < |PickedKeys(m, order, transform)| ==>
              var k := PickedKeys(m, order, transform)[i];
              k in m && transform(k, m[k]) == Some(FilterMapped(m, order, transform)[i])
    ensures forall k :: k in PickedKeys(m, order, transform) ==> k in order && k in m && transform(k, m[k]).Some?
    ensures forall k :: k in order && k in m && transform(k, m[k]).Some? ==> k in PickedKeys(m, order, transform)
    ensures forall i, j :: 0 <= i < j < |PickedKeys(m, order, transform)| ==>
              PickedKeys(m, order, transform)[i] != PickedKeys(m, order, transform)[j]
  {
    if order != [] {
      var init := order[..|order| - 1];
      var k := order[|order| - 1];
      PickedEntries(m, init, transform);
      assert order == init + [k];
      assert k !in init by {
        forall j | 0 <= j < |init| ensures init[j] != k {
          assert order[j] != order[|order| - 1];
        }
      }
      var before := PickedKeys(m, init, transform);
      var after := PickedKeys(m, order, transform);
      var results := FilterMapped(m, init, transform);
      assert after == before + (if k in m && transform(k, m[k]).Some? then [k] else []);
      assert FilterMapped(m, order, transform) ==
             results + (if k in m && transform(k, m[k]).Some? then [transform(k, m[k]).value] else []);
      forall i, j | 0 <= i < j < |after| ensures after[i] != after[j] {
        if j < |before| {
          assert after[i] == before[i] && after[j] == before[j];
        } else {
          assert after[i] == before[i] && before[i] in before;
          assert after[j] == k;
        }
      }
    }
  }

  /** A string-keyed map of values, updated in place (`inner: HashMap<String, V>`). */
  class Store<V> {
    var inner: map<string, V>

    /** `Default::default()` / `HashMap::new()`: an empty store. */
    constructor ()
      ensures inner == map[]
    {
      inner := map[];
    }

    /** `get`: the value stored under `key`, if any. */
    function Get(key: string): (r: Option<V>)
      reads this
      ensures r.Some? <==> key in inner
      ensures r.Some? ==> r.value == inner[key]
    {
      if key in inner then Some(inner[key]) else None
    }

    /** `keys`: every stored key, each once, in some order. */
    method Keys() returns (keys: seq<string>)
      ensures IsEnumeration(inner, keys)
    {
      keys := [];
      var rest := inner.Keys;
      while rest != {}
        invariant forall k :: k in inner <==> k in keys || k in rest
        invariant forall k :: k in keys ==> k !in rest
        invariant forall i, j :: 0 <= i < j < |keys| ==> keys[i] != keys[j]
        decreases rest
      {
        var k :| k in rest;
        keys := keys + [k];
        rest := rest - {k};
      }
    }

    /** `values`: the stored value of each key, visited in the order `order`. */
    method Values() returns (values: seq<V>, ghost order: seq<string>)
      ensures IsEnumeration(inner, order)
      ensures |values| == |order|
      ensures forall i :: 0 <= i < |order| ==> values[i] == inner[order[i]]
    {
      var keys := Keys();
      order := keys;
      values := [];
      for i := 0 to |keys|
        invariant |values| == i
        invariant forall j :: 0 <= j < i ==> values[j] == inner[keys[j]]
      {
        values := values + [inner[keys[i]]];
      }
    }

    /**
     * `values_mut`: the caller may overwrite any value through the iterator;
     * `update(k, v)` is what it writes over the value `v` of key `k`. Keys are
     * never added or removed.
     */
    method ValuesMut(update: (string, V) -> V)
      modifies this
      ensures inner.Keys == old(inner.Keys)
      ensures forall k :: k in inner ==> inner[k] == update(k, old(inner)[k])
    {
      inner := map k | k in inner :: update(k, inner[k]);
    }

    /**
     * `find`: the first entry, in the iteration order `order`, that satisfies
     * `test`; `None` exactly when no stored entry satisfies it.
     */
    method Find(test: (string, V) -> bool) returns (found: Option<(string, V)>, ghost order: seq<string>)
      ensures IsEnumeration(inner, order)
      ensures found.None? <==> forall k :: k in inner ==> !test(k, inner[k])
      ensures found.Some? ==> found.value.0 in inner && found.value.1 == inner[found.value.0]
      ensures found.Some? ==> test(found.value.0, found.value.1)
      ensures found.Some? ==> exists i :: 0 <= i < |order| && order[i] == found.value.0 &&
                                          forall j :: 0 <= j < i ==> !test(order[j], inner[order[j]])
    {
      var keys := Keys();
      order := keys;
      var i := 0;
      while i < |keys|
        invariant 0 <= i <= |keys|
        invariant forall j :: 0 <= j < i ==> !test(keys[j], inner[keys[j]])
      {
        var k := keys[i];
        if test(k, inner[k]) {
          found := Some((k, inner[k]));
          return;
        }
        i := i + 1;
      }
      found := None;
    }

    /** `filter`: exactly the stored entries that satisfy `test`, each once. */
    method Filter(test: (string, V) -> bool) returns (entries: seq<(string, V)>, ghost order: seq<string>)
      ensures IsEnumeration(inner, order)
      ensures forall e :: e in entries <==> e.0 in inner && e.1 == inner[e.0] && test(e.0, e.1)
      ensures forall i, j :: 0 <= i < j < |entries| ==> entries[i].0 != entries[j].0
      ensures entries == Selected(inner, order, test)
    {
      var keys := Keys();
      order := keys;
      entries := [];
      for i := 0 to |keys|
        invariant entries == Selected(inner, keys[..i], test)
      {
        var k := keys[i];
        if test(k, inner[k]) {
          entries := entries + [(k, inner[k])];
        }
        assert keys[..i + 1][..i] == keys[..i];
      }
      assert keys[..|keys|] == keys;
      SelectedEntries(inner, keys, test);
    }

    /**
     * `filter_map` over the entries: `transform` is called on every entry and the
     * values it returns as `Some` are yielded; `picked` lists the keys that produced
     * them. Takes `&self`: the store is not modified.
     */
    method FilterMut(transform: (string, V) -> Option<V>)
      returns (results: seq<V>, ghost order: seq<string>, ghost picked: seq<string>)
      ensures IsEnumeration(inner, order)
      ensures |picked| == |results|
      ensures forall i :: 0 <= i < |picked| ==> picked[i] in inner && transform(picked[i], inner[picked[i]]) == Some(results[i])
      ensures forall k :: k in picked <==> k in inner && transform(k, inner[k]).Some?
      ensures forall i, j :: 0 <= i < j < |picked| ==> picked[i] != picked[j]
      ensures results == FilterMapped(inner, order, transform)
    {
      var keys := Keys();
      order := keys;
      results, picked := [], [];
      for i := 0 to |keys|
        invariant results == FilterMapped(inner, keys[..i], transform)
        invariant picked == PickedKeys(inner, keys[..i], transform)
      {
        var k := keys[i];
        var out := transform(k, inner[k]);
        if out.Some? {
          results, picked := results + [out.value], picked + [k];
        }
        assert keys[..i + 1][..i] == keys[..i];
      }
      assert keys[..|keys|] == keys;
      PickedEntries(inner, keys, transform);
    }

    /** `set`: inserts or overwrites `key`; every other entry is kept (last write wins). */
    method Set(key: string, value: V)
      modifies this
      ensures inner == old(inner)[key := value]
      ensures inner.Keys == old(inner.Keys) + {key}
      ensures Get(key) == Some(value)
      ensures forall k :: k != key ==> Get(k) == old(Get(k))
    {
      inner := inner[key := value];
    }

    /** `remove`: takes `key` out, returning the value it had (or `None`); nothing else changes. */
    method Remove(key: string) returns (removed: Option<V>)
      modifies this
      ensures removed == old(Get(key))
      ensures inner == old(inner) - {key}
      ensures Get(key) == None
      ensures forall k :: k != key ==> Get(k) == old(Get(k))
    {
      removed := Get(key);
      inner := inner - {key};
    }

    /** `clear`: removes every entry. */
    method Clear()
      modifies this
      ensures inner == map[]
    {
      inner := map[];
    }
  }

  /** After `clear`, `keys` and `values` yield nothing. */
  lemma ClearedStoreIsEmpty<V>(order: seq<string>)
    requires IsEnumeration<V>(map[], order)
    ensures order == []
  {
    EnumerationLength<V>(map[], order);
  }

  /** A store rewritten by `values_mut` keeps its size: every enumeration still has the old length. */
  lemma ValuesMutKeepsSize<V>(before: map<string, V>, after: map<string, V>, order: seq<string>)
    requires after.Keys == before.Keys
    requires IsEnumeration(after, order)
    ensures |order| == |before|
  {
    EnumerationLength(after, order);
  }

  // ---------------------------------------------------------------------------
  // The C boundary (`ffi` module of both files).
  // ---------------------------------------------------------------------------

  /** The bytes a `*const c_char` points to (up to its NUL terminator), or `None` for a null pointer. */
  type CString = Option<seq<bv8>>

  /** `CStr::to_str`: the key as UTF-8 text, or `None` when the bytes are not valid UTF-8. */
  type Utf8Decoder = seq<bv8> -> Option<string>

  /** The key a foreign call acts on: present only for a non-null, valid UTF-8 string. */
  function DecodedKey(key: CString, toStr: Utf8Decoder): (r: Option<string>)
    ensures r.Some? <==> key.Some? && toStr(key.value).Some?
    ensures r.Some? ==> r.value == toStr(key.value).value
  {
    if key.None? then None else toStr(key.value)
  }

  /** `create_property_map`: a new, empty map owned by the caller. */
  method CreatePropertyMap<V>() returns (m: Store<V>)
    ensures fresh(m)
    ensures m.inner == map[]
  {
    m := new Store();
  }

  /**
   * `insert_property`: with a null map, key or value pointer, or a key that is
   * not UTF-8, nothing happens; otherwise a clone of `*value` is stored under the key.
   */
  method InsertProperty<V>(m: Store?<V>, key: CString, value: Option<V>, toStr: Utf8Decoder)
    modifies m
    ensures m != null && value.Some? && DecodedKey(key, toStr).Some? ==>
              m.inner == old(m.inner)[DecodedKey(key, toStr).value := value.value]
    ensures m != null && (value.None? || DecodedKey(key, toStr).None?) ==> m.inner == old(m.inner)
  {
    if m == null || key.None? || value.None? {
      return;
    }
    var k := toStr(key.value);
    if k.Some? {
      m.Set(k.value, value.value);
    }
  }

  /** `remove_property`: a no-op on a null map or key or a non-UTF-8 key; otherwise `remove`. */
  method RemoveProperty<V>(m: Store?<V>, key: CString, toStr: Utf8Decoder)
    modifies m
    ensures m != null && DecodedKey(key, toStr).Some? ==> m.inner == old(m.inner) - {DecodedKey(key, toStr).value}
    ensures m != null && DecodedKey(key, toStr).None? ==> m.inner == old(m.inner)
  {
    if m == null || key.None? {
      return;
    }
    var k := toStr(key.value);
    if k.Some? {
      var _ := m.Remove(k.value);
    }
  }

  /** `clear_property_map`: empties a non-null map; a null pointer is ignored. */
  method ClearPropertyMap<V>(m: Store?<V>)
    modifies m
    ensures m != null ==> m.inner == map[]
  {
    if m != null {
      m.Clear();
    }
  }
}
