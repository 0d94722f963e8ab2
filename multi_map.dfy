/**
 * A map from keys to lists of values. The abstract state of a multimap is a
 * `map<K, seq<V>>`; the operations on that value are defined first, then the
 * class whose methods update its `entries` field in place.
 */
module MultiMap {
  import opened Wrappers

  /** The current list of a key, empty when the key is absent. */
  function ValuesOf<K, V>(m: map<K, seq<V>>, key: K): seq<V> {
    if key in m then m[key] else []
  }

  /** getFirst on a value: the first value of the key's list, or null when it has none. */
  function First<K, V>(m: map<K, seq<V>>, key: K): (r: Option<V>)
    ensures r.Some? <==> key in m && |m[key]| > 0
    ensures r.Some? ==> r.value == m[key][0]
  {
    if key in m && |m[key]| > 0 then Some(m[key][0]) else None
  }

  /** add(key, value) on a value. */
  function Added<K, V>(m: map<K, seq<V>>, key: K, value: V): map<K, seq<V>> {
    m[key := ValuesOf(m, key) + [value]]
  }

  /** addAll(key, values) on a value: the key is present afterwards even when `values` is empty. */
  function AddedAll<K, V>(m: map<K, seq<V>>, key: K, values: seq<V>): map<K, seq<V>> {
    m[key := ValuesOf(m, key) + values]
  }

  /** addAll(other) on a value: every key of either side, with the other list appended to its own. */
  function Merged<K, V>(m: map<K, seq<V>>, other: map<K, seq<V>>): (r: map<K, seq<V>>)
    ensures r.Keys == m.Keys + other.Keys
    ensures forall k :: k in r ==> r[k] == ValuesOf(m, k) + ValuesOf(other, k)
  {
    map k | k in m.Keys + other.Keys :: ValuesOf(m, k) + ValuesOf(other, k)
  }

  lemma MergedStep<K, V>(m: map<K, seq<V>>, done: map<K, seq<V>>, key: K, values: seq<V>)
    requires key !in done
    ensures AddedAll(Merged(m, done), key, values) == Merged(m, done[key := values])
  {
    var l, r := AddedAll(Merged(m, done), key, values), Merged(m, done[key := values]);
    assert l.Keys == r.Keys;
    forall k | k in l
      ensures l[k] == r[k]
    {
    }
  }

  /** setAll(values) on a value: each key of `values` gets the single-element list of its value. */
  function SetEach<K, V>(m: map<K, seq<V>>, values: map<K, V>): (r: map<K, seq<V>>)
    ensures r.Keys == m.Keys + values.Keys
    ensures forall k :: k in r ==> r[k] == (if k in values then [values[k]] else m[k])
  {
    map k | k in m.Keys + values.Keys :: if k in values then [values[k]] else m[k]
  }

  lemma SetEachStep<K, V>(m: map<K, seq<V>>, done: map<K, V>, key: K, value: V)
    ensures SetEach(m, done)[key := [value]] == SetEach(m, done[key := value])
  {
    var l, r := SetEach(m, done)[key := [value]], SetEach(m, done[key := value]);
    assert l.Keys == r.Keys;
  }

  /** toSingleValueMap on a value: each key whose list is not empty, to its first value. */
  function SingleValues<K, V>(m: map<K, seq<V>>): (r: map<K, V>)
    ensures r.Keys <= m.Keys
    ensures forall k | k in m :: k in r <==> First(m, k).Some?
    ensures forall k :: k in r ==> Some(r[k]) == First(m, k)
  {
    map k | k in m && |m[k]| > 0 :: m[k][0]
  }

  /** Adding values one at a time, in order. */
  function AddEach<K, V>(m: map<K, seq<V>>, key: K, values: seq<V>): map<K, seq<V>>
    decreases |values|
  {
    if |values| == 0 then m else Added(AddEach(m, key, values[..|values| - 1]), key, values[|values| - 1])
  }

  /** addAll(key, values) appends the values in order: the same as adding them one by one. */
  lemma {:induction false} AddedAllIsAddEach<K, V>(m: map<K, seq<V>>, key: K, values: seq<V>)
    requires key in m || |values| > 0
    ensures AddedAll(m, key, values) == AddEach(m, key, values)
  {
    if |values| > 0 {
      var init := values[..|values| - 1];
      var last := values[|values| - 1];
      var a := AddEach(m, key, init);
      if key in m || |init| > 0 {
        AddedAllIsAddEach(m, key, init);
        assert a == m[key := ValuesOf(m, key) + init];
      } else {
        assert a == m;
      }
      assert ValuesOf(a, key) == ValuesOf(m, key) + init;
      assert ValuesOf(m, key) + init + [last] == ValuesOf(m, key) + values;
      assert AddEach(m, key, values) == Added(a, key, last);
      assert a[key := ValuesOf(m, key) + values] == m[key := ValuesOf(m, key) + values];
    } else {
      assert ValuesOf(m, key) + values == m[key];
      assert m[key := m[key]] == m;
    }
  }

  /** add changes only the key it adds to, and that key's list grows by exactly the value at the end. */
  lemma AddedFrame<K, V>(m: map<K, seq<V>>, key: K, value: V, other: K)
    ensures var r := Added(m, key, value);
            && r.Keys == m.Keys + {key}
            && r[key] == ValuesOf(m, key) + [value]
            && (other != key ==> ValuesOf(r, other) == ValuesOf(m, other))
            && First(r, key) == (if First(m, key).Some? then First(m, key) else Some(value))
  {
  }

  /** After set(key, value), getFirst(key) is value and toSingleValueMap maps key to value. */
  lemma SetThenFirst<K, V>(m: map<K, seq<V>>, key: K, value: V)
    ensures First(m[key := [value]], key) == Some(value)
    ensures SingleValues(m[key := [value]])[key] == value
  {
  }

  /** A multimap built from a single-value map by setAll gives that map back as its single-value view. */
  lemma SetEachSingleValues<K, V>(values: map<K, V>)
    ensures SingleValues(SetEach(map[], values)) == values
  {
    var r := SingleValues(SetEach(map[], values));
    assert forall k :: k in r <==> k in values;
  }

  /**
   * One MultiMap instance: `entries` is the content of the underlying map
   * (a key mapped to a list of values).
   */
  class MultiMap<K(==), V> {
    var entries: map<K, seq<V>>

    constructor ()
      ensures entries == map[]
    {
      entries := map[];
    }

    /** Map.containsKey. */
    function ContainsKey(key: K): (r: bool)
      reads this
      ensures r <==> key in entries
    {
      key in entries
    }

    /** getFirst(key): the first value of the key's list, or null when there is none. */
    function GetFirst(key: K): (r: Option<V>)
      reads this
      ensures r.Some? <==> key in entries && |entries[key]| > 0
      ensures r.Some? ==> r.value == entries[key][0]
    {
      First(entries, key)
    }

    /** add(key, value): append to the key's current list; no other key changes. */
    method Add(key: K, value: V)
      modifies this
      ensures entries == Added(old(entries), key, value)
      ensures forall k :: k != key ==> ValuesOf(entries, k) == ValuesOf(old(entries), k)
    {
      entries := entries[key := ValuesOf(entries, key) + [value]];
    }

    /** addAll(key, values): append all the values, in order. */
    method AddAll(key: K, values: seq<V>)
      modifies this
      ensures entries == AddedAll(old(entries), key, values)
      ensures forall k :: k != key ==> ValuesOf(entries, k) == ValuesOf(old(entries), k)
    {
      entries := entries[key := ValuesOf(entries, key) + values];
    }

    /**
     * addAll(other): addAll(key, list) for every key of the other multimap,
     * whose content is given as `other`.
     */
    method AddAllFrom(other: map<K, seq<V>>)
      modifies this
      ensures entries == Merged(old(entries), other)
    {
      var pending := other.Keys;
      ghost var done: map<K, seq<V>> := map[];
      forall k | k in entries
        ensures Merged(entries, done)[k] == entries[k]
      {
        assert ValuesOf(entries, k) + [] == entries[k];
      }
      assert Merged(entries, done) == entries;
      while pending != {}
        invariant pending <= other.Keys
        invariant done.Keys == other.Keys - pending
        invariant forall k :: k in done ==> done[k] == other[k]
        invariant entries == Merged(old(entries), done)
        decreases pending
      {
        var key :| key in pending;
        AddAll(key, other[key]);
        MergedStep(old(entries), done, key, other[key]);
        done := done[key := other[key]];
        pending := pending - {key};
      }
      assert done == other;
    }

    /** addIfAbsent(key, value): add only when the key is absent; otherwise nothing changes. */
    method AddIfAbsent(key: K, value: V)
      modifies this
      ensures old(key in entries) ==> entries == old(entries)
      ensures old(key !in entries) ==> entries == old(entries)[key := [value]]
    {
      if !ContainsKey(key) {
        Add(key, value);
        assert ValuesOf(old(entries), key) + [value] == [value];
      }
    }

    /** set(key, value): the key's list becomes exactly [value]. */
    method Set(key: K, value: V)
      modifies this
      ensures entries == old(entries)[key := [value]]
    {
      entries := entries[key := [value]];
    }

    /** setAll(key, values): the key's list is replaced by `values`. */
    method SetAll(key: K, values: seq<V>)
      modifies this
      ensures entries == old(entries)[key := values]
    {
      entries := entries[key := values];
    }

    /** setAll(values): set(key, value) for every entry of the single-value map. */
    method SetAllFrom(values: map<K, V>)
      modifies this
      ensures entries == SetEach(old(entries), values)
    {
      var pending := values.Keys;
      ghost var done: map<K, V> := map[];
      assert SetEach(entries, done) == entries;
      while pending != {}
        invariant pending <= values.Keys
        invariant done.Keys == values.Keys - pending
        invariant forall k :: k in done ==> done[k] == values[k]
        invariant entries == SetEach(old(entries), done)
        decreases pending
      {
        var key :| key in pending;
        Set(key, values[key]);
        SetEachStep(old(entries), done, key, values[key]);
        done := done[key := values[key]];
        pending := pending - {key};
      }
      assert done == values;
    }

    /** toSingleValueMap(): each key to the first value of its list. */
    function ToSingleValueMap(): (r: map<K, V>)
      reads this
      ensures r.Keys <= entries.Keys
      ensures forall k | k in entries :: k in r <==> GetFirst(k).Some?
      ensures forall k :: k in r ==> Some(r[k]) == GetFirst(k)
    {
      SingleValues(entries)
    }
  }
}
