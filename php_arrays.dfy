/** PHP arrays as the clients use them: maps that remember the order keys were added in. */
module PhpArrays {

  /** An ordered array: its keys in insertion order, and the value stored under each key. */
  datatype Arr<K, V> = Arr(keys: seq<K>, vals: map<K, V>)

  predicate Distinct<K(==)>(s: seq<K>) {
    forall i, j | 0 <= i < j < |s| :: s[i] != s[j]
  }

  /** Every key is listed once, and the listed keys are exactly the keys of the map. */
  predicate WellFormed<K, V>(a: Arr<K, V>) {
    && Distinct(a.keys)
    && (forall k | k in a.vals :: k in a.keys)
    && (forall i | 0 <= i < |a.keys| :: a.keys[i] in a.vals)
  }

  function EmptyArr<K, V>(): Arr<K, V> {
    Arr([], map[])
  }

  /** PHP empty() on an array: it has no entry. */
  predicate NoEntries<K, V>(a: Arr<K, V>) {
    |a.keys| == 0
  }

  /** $a[$k] = $v: an existing key keeps its place and gets the new value; a new key is
      appended at the end. */
  function Put<K, V>(a: Arr<K, V>, k: K, v: V): (r: Arr<K, V>)
    requires WellFormed(a)
    ensures WellFormed(r)
  {
    if k in a.vals then Arr(a.keys, a.vals[k := v]) else Arr(a.keys + [k], a.vals[k := v])
  }

  /** Writing the same key twice keeps only the second value. */
  lemma PutLastWins<K, V>(a: Arr<K, V>, k: K, v1: V, v2: V)
    requires WellFormed(a)
    ensures Put(Put(a, k, v1), k, v2) == Put(a, k, v2)
  {
  }

  /** A write stores its value, keeps every other entry, and never reorders the old keys. */
  lemma PutFrame<K, V>(a: Arr<K, V>, k: K, v: V)
    requires WellFormed(a)
    ensures Put(a, k, v).vals[k] == v
    ensures forall k' | k' != k :: (k' in Put(a, k, v).vals <==> k' in a.vals)
    ensures forall k' | k' != k && k' in a.vals :: Put(a, k, v).vals[k'] == a.vals[k']
    ensures |Put(a, k, v).keys| >= |a.keys| && Put(a, k, v).keys[..|a.keys|] == a.keys
  {
  }

  /** The entries of m under the keys ks. */
  function Restrict<K, V>(m: map<K, V>, ks: seq<K>): map<K, V>
    requires forall k | k in ks :: k in m
  {
    map k | k in ks :: m[k]
  }

  lemma RestrictStep<K, V>(base: map<K, V>, m: map<K, V>, ks: seq<K>)
    requires ks != [] && forall k | k in ks :: k in m
    ensures base[ks[0] := m[ks[0]]] + Restrict(m, ks[1..]) == base + Restrict(m, ks)
  {
    assert forall k | k in ks :: k == ks[0] || k in ks[1..];
  }

  lemma PrefixOfPrefix<K>(s: seq<K>, t: seq<K>, u: seq<K>)
    requires |s| >= |t| >= |u| && s[..|t|] == t && t[..|u|] == u
    ensures s[..|u|] == u
  {
    assert s[..|u|] == s[..|t|][..|u|];
  }

  /** Writes the keys ks, in order, with their values in m. */
  function PutAll<K, V>(a: Arr<K, V>, ks: seq<K>, m: map<K, V>): (r: Arr<K, V>)
    requires WellFormed(a) && forall k | k in ks :: k in m
    ensures WellFormed(r)
    ensures r.vals == a.vals + Restrict(m, ks)
    ensures |r.keys| >= |a.keys| && r.keys[..|a.keys|] == a.keys
    decreases |ks|
  {
    if ks == [] then
      assert Restrict(m, ks) == map[];
      a
    else
      var a' := Put(a, ks[0], m[ks[0]]);
      var r := PutAll(a', ks[1..], m);
      RestrictStep(a.vals, m, ks);
      PrefixOfPrefix(r.keys, a'.keys, a.keys);
      r
  }

  /** The keys of ks that m does not hold yet, in the order of ks. */
  function NewKeys<K, V>(ks: seq<K>, m: map<K, V>): seq<K> {
    if ks == [] then [] else (if ks[0] in m then [] else [ks[0]]) + NewKeys(ks[1..], m)
  }

  lemma {:induction false} NewKeysSkip<K, V>(ks: seq<K>, m: map<K, V>, k: K, v: V)
    requires k !in ks
    ensures NewKeys(ks, m[k := v]) == NewKeys(ks, m)
  {
    if ks != [] {
      NewKeysSkip(ks[1..], m, k, v);
    }
  }

  lemma ConcatAssoc<K>(x: seq<K>, y: seq<K>, z: seq<K>)
    ensures x + (y + z) == (x + y) + z
  {
  }

  /** Writing distinct keys in order appends the ones that are new, in that order. */
  lemma {:induction false} PutAllKeys<K, V>(a: Arr<K, V>, ks: seq<K>, m: map<K, V>)
    requires WellFormed(a) && Distinct(ks) && forall k | k in ks :: k in m
    ensures PutAll(a, ks, m).keys == a.keys + NewKeys(ks, a.vals)
    decreases |ks|
  {
    if ks != [] {
      var a' := Put(a, ks[0], m[ks[0]]);
      assert Distinct(ks[1..]) by {
        forall i, j | 0 <= i < j < |ks[1..]|
          ensures ks[1..][i] != ks[1..][j]
        {
          assert ks[1..][i] == ks[i + 1] && ks[1..][j] == ks[j + 1];
        }
      }
      assert ks[0] !in ks[1..] by {
        forall i | 0 <= i < |ks[1..]|
          ensures ks[1..][i] != ks[0]
        {
          assert ks[1..][i] == ks[i + 1];
        }
      }
      assert PutAll(a, ks, m) == PutAll(a', ks[1..], m);
      PutAllKeys(a', ks[1..], m);
      assert a'.vals == a.vals[ks[0] := m[ks[0]]];
      NewKeysSkip(ks[1..], a.vals, ks[0], m[ks[0]]);
      var rest := NewKeys(ks[1..], a.vals);
      if ks[0] in a.vals {
        assert a'.keys == a.keys && NewKeys(ks, a.vals) == rest;
      } else {
        assert a'.keys == a.keys + [ks[0]] && NewKeys(ks, a.vals) == [ks[0]] + rest;
        ConcatAssoc(a.keys, [ks[0]], rest);
      }
    }
  }

  /** array_merge(a, b) for string keys: the values of b win, the keys of a keep their places,
      and the keys new in b follow in b's order. */
  function Merge<K, V>(a: Arr<K, V>, b: Arr<K, V>): (r: Arr<K, V>)
    requires WellFormed(a) && WellFormed(b)
    ensures WellFormed(r)
    ensures r.vals == a.vals + b.vals
    ensures |r.keys| >= |a.keys| && r.keys[..|a.keys|] == a.keys
    ensures r.keys == a.keys + NewKeys(b.keys, a.vals)
  {
    assert forall k | k in b.keys :: k in b.vals;
    var r := PutAll(a, b.keys, b.vals);
    assert Restrict(b.vals, b.keys) == b.vals;
    PutAllKeys(a, b.keys, b.vals);
    r
  }

  /** The entries as "key<sep>value" strings, in insertion order. */
  function Render(ks: seq<string>, vals: map<string, string>, sep: string): (lines: seq<string>)
    requires forall k | k in ks :: k in vals
    ensures |lines| == |ks|
  {
    if ks == [] then []
    else Render(ks[..|ks| - 1], vals, sep) + [ks[|ks| - 1] + sep + vals[ks[|ks| - 1]]]
  }

  /** Line i of the rendering is entry i of the array. */
  lemma {:induction false} RenderAt(ks: seq<string>, vals: map<string, string>, sep: string, i: nat)
    requires forall k | k in ks :: k in vals
    requires i < |ks|
    ensures Render(ks, vals, sep)[i] == ks[i] + sep + vals[ks[i]]
  {
    if i < |ks| - 1 {
      RenderAt(ks[..|ks| - 1], vals, sep, i);
    }
  }

  /** All entries of a string array, "key<sep>value", in insertion order. */
  function Pairs(a: Arr<string, string>, sep: string): seq<string>
    requires WellFormed(a)
  {
    Render(a.keys, a.vals, sep)
  }
}
