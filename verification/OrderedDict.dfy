/** Insertion-ordered dictionaries, as the transcript parsers keep them: the oldest key is evicted first. */
module OrderedDict {
  datatype Dict<K(==,!new), V> = Dict(keys: seq<K>, values: map<K, V>) {
    /** Every key once, in insertion order. */
    ghost predicate Valid() {
      && (forall k :: k in keys <==> k in values)
      && (forall i, j :: 0 <= i < j < |keys| ==> keys[i] != keys[j])
    }

    /** Insertion or replacement: an existing key keeps its place. */
    function Put(k: K, v: V): Dict<K, V> {
      Dict(if k in values then keys else keys + [k], values[k := v])
    }

    /** `d` without the given keys. */
    function Without(gone: set<K>): Dict<K, V> {
      Dict(Outside(keys, gone), values - gone)
    }
  }

  function Outside<K(==,!new)>(keys: seq<K>, gone: set<K>): (rest: seq<K>)
    ensures |rest| <= |keys|
    ensures forall k :: k in rest <==> k in keys && k !in gone
  {
    if keys == [] then []
    else if keys[0] in gone then Outside(keys[1..], gone)
    else [keys[0]] + Outside(keys[1..], gone)
  }

  lemma {:induction false} OutsideDistinct<K(!new)>(keys: seq<K>, gone: set<K>)
    requires forall i, j :: 0 <= i < j < |keys| ==> keys[i] != keys[j]
    ensures var rest := Outside(keys, gone); forall i, j :: 0 <= i < j < |rest| ==> rest[i] != rest[j]
    ensures (exists k :: k in gone && k in keys) ==> |Outside(keys, gone)| < |keys|
  {
    if keys != [] {
      OutsideDistinct(keys[1..], gone);
      assert keys[0] !in keys[1..];
    }
  }

  lemma {:induction false} OutsideTwice<K(!new)>(keys: seq<K>, a: set<K>, b: set<K>)
    ensures Outside(Outside(keys, a), b) == Outside(keys, a + b)
  {
    if keys != [] {
      OutsideTwice(keys[1..], a, b);
      var rest := Outside(keys[1..], a);
      if keys[0] !in a {
        assert ([keys[0]] + rest)[1..] == rest;
      }
    }
  }

  lemma {:induction false} OutsideNone<K(!new)>(keys: seq<K>, gone: set<K>)
    requires forall k :: k in keys ==> k !in gone
    ensures Outside(keys, gone) == keys
  {
    if keys != [] {
      OutsideNone(keys[1..], gone);
    }
  }

  lemma PutValid<K(!new), V>(d: Dict<K, V>, k: K, v: V)
    requires d.Valid()
    ensures d.Put(k, v).Valid()
    ensures |d.Put(k, v).keys| == |d.keys| + if k in d.values then 0 else 1
  {
  }

  lemma WithoutValid<K(!new), V>(d: Dict<K, V>, gone: set<K>)
    requires d.Valid()
    ensures d.Without(gone).Valid() && |d.Without(gone).keys| <= |d.keys|
    ensures (exists k :: k in gone && k in d.values) ==> |d.Without(gone).keys| < |d.keys|
  {
    OutsideDistinct(d.keys, gone);
  }

  lemma WithoutTwice<K(!new), V>(d: Dict<K, V>, a: set<K>, b: set<K>)
    ensures d.Without(a).Without(b) == d.Without(a + b)
  {
    OutsideTwice(d.keys, a, b);
    assert d.values - a - b == d.values - (a + b);
  }

  lemma WithoutNone<K(!new), V>(d: Dict<K, V>, gone: set<K>)
    requires d.Valid() && forall k :: k in d.values ==> k !in gone
    ensures d.Without(gone) == d
  {
    OutsideNone(d.keys, gone);
    assert d.values - gone == d.values;
  }
}
