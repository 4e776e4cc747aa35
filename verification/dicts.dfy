/** Python dictionaries with string keys, as the table literals of FFling use them: entries keep
    insertion order, and assigning to a key already present replaces its value in place. */
module Dicts {
  import opened Results

  datatype Entry<+V> = Entry(key: string, value: V)

  /** The keys of `pairs`, in order. */
  function Keys<V>(pairs: seq<Entry<V>>): (ks: seq<string>)
    ensures |ks| == |pairs|
    ensures forall i :: 0 <= i < |pairs| ==> ks[i] == pairs[i].key
  {
    if pairs == [] then [] else [pairs[0].key] + Keys(pairs[1..])
  }

  /** No key occurs twice. */
  predicate UniqueKeys<V>(pairs: seq<Entry<V>>)
  {
    forall i, j :: 0 <= i < j < |pairs| ==> pairs[i].key != pairs[j].key
  }

  /** `d.get(key)`. */
  function Get<V>(pairs: seq<Entry<V>>, key: string): (r: Option<V>)
    ensures r.Some? <==> key in Keys(pairs)
  {
    if pairs == [] then None
    else if pairs[0].key == key then Some(pairs[0].value)
    else Get(pairs[1..], key)
  }

  /** `d[key] = value`: the value of a present key is replaced where it stands, a new key goes
      last. */
  function Put<V>(pairs: seq<Entry<V>>, key: string, value: V): (r: seq<Entry<V>>)
  {
    if pairs == [] then [Entry(key, value)]
    else if pairs[0].key == key then [Entry(key, value)] + pairs[1..]
    else [pairs[0]] + Put(pairs[1..], key, value)
  }

  /** After `d[key] = value`, the key maps to the value: a repeated key keeps its last value. */
  lemma {:induction false} PutGet<V>(pairs: seq<Entry<V>>, key: string, value: V)
    ensures Get(Put(pairs, key, value), key) == Some(value)
  {
    if pairs != [] && pairs[0].key != key {
      PutGet(pairs[1..], key, value);
      assert Put(pairs, key, value)[1..] == Put(pairs[1..], key, value);
    }
  }

  /** The other keys keep their values. */
  lemma {:induction false} PutGetOther<V>(pairs: seq<Entry<V>>, key: string, value: V, other: string)
    requires other != key
    ensures Get(Put(pairs, key, value), other) == Get(pairs, other)
  {
    if pairs != [] && pairs[0].key != key {
      PutGetOther(pairs[1..], key, value, other);
      assert Put(pairs, key, value)[1..] == Put(pairs[1..], key, value);
    } else if pairs != [] {
      assert Put(pairs, key, value)[1..] == pairs[1..];
    }
  }

  /** Key order: a present key stays where it is, a new key is appended. */
  lemma {:induction false} PutKeys<V>(pairs: seq<Entry<V>>, key: string, value: V)
    ensures Keys(Put(pairs, key, value)) == if key in Keys(pairs) then Keys(pairs) else Keys(pairs) + [key]
  {
    if pairs != [] && pairs[0].key != key {
      PutKeys(pairs[1..], key, value);
      assert Put(pairs, key, value)[1..] == Put(pairs[1..], key, value);
      assert Keys(pairs)[1..] == Keys(pairs[1..]);
      assert key in Keys(pairs) <==> key in Keys(pairs[1..]);
    }
  }

  /** Keys stay unique. */
  lemma PutUnique<V>(pairs: seq<Entry<V>>, key: string, value: V)
    requires UniqueKeys(pairs)
    ensures UniqueKeys(Put(pairs, key, value))
  {
    var r := Put(pairs, key, value);
    PutKeys(pairs, key, value);
    assert forall i :: 0 <= i < |r| ==> r[i].key == Keys(r)[i];
    assert forall i :: 0 <= i < |pairs| ==> pairs[i].key == Keys(pairs)[i];
  }

  // ---------------------------------------------------------------------------
  // A literal's entries assigned one after another

  /** `d[k] = v` for each entry of `entries` in turn, starting from `pairs`. */
  function PutAll<V>(pairs: seq<Entry<V>>, entries: seq<Entry<V>>): seq<Entry<V>>
    decreases |entries|
  {
    if entries == [] then pairs
    else
      var n := |entries| - 1;
      Put(PutAll(pairs, entries[..n]), entries[n].key, entries[n].value)
  }

  /** The keys of all entries but the last, then the key of the last. */
  lemma KeysLast<V>(entries: seq<Entry<V>>)
    requires |entries| > 0
    ensures Keys(entries) == Keys(entries[..|entries| - 1]) + [entries[|entries| - 1].key]
  {
    var n := |entries| - 1;
    assert forall i :: 0 <= i < n ==> entries[..n][i] == entries[i];
  }

  /** The value of the last entry of `entries` with the key `key`. */
  function LastValue<V>(entries: seq<Entry<V>>, key: string): V
    requires key in Keys(entries)
    decreases |entries|
  {
    var n := |entries| - 1;
    if entries[n].key == key then entries[n].value
    else
      KeysLast(entries);
      LastValue(entries[..n], key)
  }

  /** The keys of `ks` that are not in `seen`, each once, in the order of their first
      occurrences. */
  function NewKeys(seen: seq<string>, ks: seq<string>): (r: seq<string>)
    ensures forall k :: k in r <==> k in ks && k !in seen
    ensures forall i, j :: 0 <= i < j < |r| ==> r[i] != r[j]
    decreases |ks|
  {
    if ks == [] then []
    else
      var n := |ks| - 1;
      var f := NewKeys(seen, ks[..n]);
      assert ks == ks[..n] + [ks[n]];
      if ks[n] in seen || ks[n] in f then f else f + [ks[n]]
  }

  /** One more key: it is new when neither in `seen` nor among the new keys before it. */
  lemma NewKeysLast(seen: seq<string>, ks: seq<string>, k: string)
    ensures NewKeys(seen, ks + [k])
            == if k in seen || k in NewKeys(seen, ks) then NewKeys(seen, ks) else NewKeys(seen, ks) + [k]
  {
    assert (ks + [k])[..|ks|] == ks;
  }

  lemma AppendAssociates<T>(a: seq<T>, b: seq<T>, c: seq<T>)
    ensures a + b + c == a + (b + c)
  {
  }

  lemma PrefixTransitive<T>(a: seq<T>, b: seq<T>, c: seq<T>)
    requires a <= b && b <= c
    ensures a <= c
  {
    assert forall i :: 0 <= i < |a| ==> a[i] == b[i] == c[i];
  }

  /** Assigning one entry and then the rest is assigning them all. */
  lemma {:induction false} PutAllFirst<V>(pairs: seq<Entry<V>>, e: Entry<V>, entries: seq<Entry<V>>)
    ensures PutAll(pairs, [e] + entries) == PutAll(Put(pairs, e.key, e.value), entries)
    decreases |entries|
  {
    if entries == [] {
      assert ([e] + entries)[..0] == [];
    } else {
      var n := |entries| - 1;
      PutAllFirst(pairs, e, entries[..n]);
      assert ([e] + entries)[..n + 1] == [e] + entries[..n];
    }
  }

  /** After the assignments, a key of the entries maps to the value of its last entry; every
      other key keeps its value from before. */
  lemma {:induction false} PutAllGet<V>(pairs: seq<Entry<V>>, entries: seq<Entry<V>>, key: string)
    ensures Get(PutAll(pairs, entries), key)
            == if key in Keys(entries) then Some(LastValue(entries, key)) else Get(pairs, key)
    decreases |entries|
  {
    if entries != [] {
      var n := |entries| - 1;
      var e := entries[n];
      PutAllGet(pairs, entries[..n], key);
      KeysLast(entries);
      if e.key == key {
        PutGet(PutAll(pairs, entries[..n]), key, e.value);
      } else {
        PutGetOther(PutAll(pairs, entries[..n]), e.key, e.value, key);
      }
    }
  }

  /** After the assignments, the keys are the old keys followed by the new keys of the entries,
      each once, in the order of their first entries. */
  lemma {:induction false} PutAllKeys<V>(pairs: seq<Entry<V>>, entries: seq<Entry<V>>)
    ensures Keys(PutAll(pairs, entries)) == Keys(pairs) + NewKeys(Keys(pairs), Keys(entries))
    decreases |entries|
  {
    if entries != [] {
      var n := |entries| - 1;
      var e := entries[n];
      var before := PutAll(pairs, entries[..n]);
      var seen, ks := Keys(pairs), Keys(entries[..n]);
      var f := NewKeys(seen, ks);
      PutAllKeys(pairs, entries[..n]);
      PutKeys(before, e.key, e.value);
      KeysLast(entries);
      NewKeysLast(seen, ks, e.key);
      assert PutAll(pairs, entries) == Put(before, e.key, e.value);
      AppendAssociates(seen, f, [e.key]);
    }
  }
}
