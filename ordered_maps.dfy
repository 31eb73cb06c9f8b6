/**
 * PHP arrays with string keys, as the plugin uses them for column lists and query
 * variables: an insertion-ordered sequence of key/value pairs in which every key
 * occurs at most once. Assigning to an existing key replaces its value in place;
 * assigning to a new key appends it at the end.
 */
module OrderedMaps {
  import opened Optional

  /** The keys of `m`, in order. */
  function Keys<K(!new), V(!new)>(m: seq<(K, V)>): (ks: seq<K>)
    ensures |ks| == |m|
    ensures forall i :: 0 <= i < |m| ==> ks[i] == m[i].0
  {
    if m == [] then [] else [m[0].0] + Keys(m[1..])
  }

  /** No key occurs twice: the invariant every PHP array satisfies. */
  predicate UniqueKeys<K(==), V>(m: seq<(K, V)>)
  {
    forall i, j :: 0 <= i < j < |m| ==> m[i].0 != m[j].0
  }

  /** The keys of a pair followed by more pairs. */
  lemma KeysCons<K(!new), V(!new)>(x: (K, V), m: seq<(K, V)>)
    ensures Keys([x] + m) == [x.0] + Keys(m)
  {
    assert ([x] + m)[1..] == m;
  }

  /** A pair followed by a PHP array is one exactly when the pair's key is new. */
  lemma UniqueCons<K(!new), V(!new)>(x: (K, V), m: seq<(K, V)>)
    ensures UniqueKeys([x] + m) <==> UniqueKeys(m) && x.0 !in Keys(m)
  {
    var xm := [x] + m;
    assert forall i :: 0 <= i < |m| ==> xm[i + 1] == m[i];
    if UniqueKeys(xm) {
      forall i, j | 0 <= i < j < |m| ensures m[i].0 != m[j].0 {
        assert xm[i + 1] == m[i] && xm[j + 1] == m[j];
      }
      forall i | 0 <= i < |m| ensures Keys(m)[i] != x.0 {
        assert xm[0].0 != xm[i + 1].0;
      }
    }
  }

  /** A PHP array is its first pair followed by a PHP array without that key. */
  lemma UniqueTail<K(!new), V(!new)>(m: seq<(K, V)>)
    requires m != []
    ensures UniqueKeys(m) <==> UniqueKeys(m[1..]) && m[0].0 !in Keys(m[1..])
  {
    assert m == [m[0]] + m[1..];
    UniqueCons(m[0], m[1..]);
  }

  /** `$m[$k]` for a key that may be missing (`None` when it is). */
  function Get<K(==,!new), V(!new)>(m: seq<(K, V)>, k: K): (r: Option<V>)
    ensures r.Some? <==> k in Keys(m)
  {
    if m == [] then None
    else if m[0].0 == k then Some(m[0].1)
    else Get(m[1..], k)
  }

  /** A value found under `k` is paired with `k` in `m`; with unique keys it is the only one. */
  lemma {:induction false} GetEntry<K(!new), V(!new)>(m: seq<(K, V)>, k: K, v: V)
    ensures Get(m, k) == Some(v) ==> (k, v) in m
    ensures UniqueKeys(m) && (k, v) in m ==> Get(m, k) == Some(v)
  {
    if m != [] {
      GetEntry(m[1..], k, v);
      if (k, v) in m && m[0] != (k, v) {
        var i :| 0 <= i < |m| && m[i] == (k, v);
        assert m[1..][i - 1] == (k, v);
      }
    }
  }

  /** `$m[$k] = $v`: overwrite in place when the key exists, append otherwise. */
  function Put<K(==,!new), V(!new)>(m: seq<(K, V)>, k: K, v: V): (r: seq<(K, V)>)
    ensures Keys(r) == if k in Keys(m) then Keys(m) else Keys(m) + [k]
    ensures UniqueKeys(m) ==> UniqueKeys(r)
  {
    if m == [] then [(k, v)]
    else
      UniqueTail(m);
      if m[0].0 == k then
        KeysCons((k, v), m[1..]);
        UniqueCons((k, v), m[1..]);
        [(k, v)] + m[1..]
      else
        var rest := Put(m[1..], k, v);
        KeysCons(m[0], rest);
        UniqueCons(m[0], rest);
        [m[0]] + rest
  }

  /** After `$m[$k] = $v`, `$m[$k]` is `$v` and every other key reads as before. */
  lemma {:induction false} GetPut<K(!new), V(!new)>(m: seq<(K, V)>, k: K, v: V, j: K)
    ensures Get(Put(m, k, v), j) == if j == k then Some(v) else Get(m, j)
  {
    if m != [] && m[0].0 != k {
      GetPut(m[1..], k, v, j);
    }
  }

  /** Keys of `ks` that are not in `present`, in the order of `ks`. */
  function Missing<K(==,!new)>(ks: seq<K>, present: seq<K>): (r: seq<K>)
    ensures forall x :: x in r <==> x in ks && x !in present
  {
    if ks == [] then []
    else
      var last := ks[|ks| - 1];
      assert forall x :: x in ks <==> x in ks[..|ks| - 1] || x == last;
      Missing(ks[..|ks| - 1], present) + (if last in present then [] else [last])
  }

  /**
   * PHP's `array_merge($a, $b)` for string keys: every pair of `$b` is assigned
   * into `$a` in `$b`'s order.
   */
  function Merge<K(==,!new), V(!new)>(a: seq<(K, V)>, b: seq<(K, V)>): (r: seq<(K, V)>)
  {
    if b == [] then a
    else Put(Merge(a, b[..|b| - 1]), b[|b| - 1].0, b[|b| - 1].1)
  }

  lemma KeysAppend<K(!new), V(!new)>(m: seq<(K, V)>, x: (K, V))
    ensures Keys(m + [x]) == Keys(m) + [x.0]
  {
    assert |Keys(m + [x])| == |Keys(m) + [x.0]|;
    forall i | 0 <= i < |m| + 1 ensures Keys(m + [x])[i] == (Keys(m) + [x.0])[i] {
    }
  }

  /** A PHP array with one more pair is one exactly when the pair's key is new. */
  lemma UniqueAppend<K(!new), V(!new)>(m: seq<(K, V)>, x: (K, V))
    ensures UniqueKeys(m + [x]) <==> UniqueKeys(m) && x.0 !in Keys(m)
  {
    var mx := m + [x];
    assert forall i :: 0 <= i < |m| ==> mx[i] == m[i];
    if UniqueKeys(mx) {
      forall i | 0 <= i < |m| ensures Keys(m)[i] != x.0 {
        assert mx[i].0 != mx[|m|].0;
      }
    }
  }

  /**
   * What `array_merge` promises for string keys: the first array's keys keep their
   * order and the second array's new keys follow in its order, and the result
   * stays a PHP array.
   */
  lemma {:induction false} MergeKeys<K(!new), V(!new)>(a: seq<(K, V)>, b: seq<(K, V)>)
    requires UniqueKeys(a) && UniqueKeys(b)
    ensures UniqueKeys(Merge(a, b))
    ensures Keys(Merge(a, b)) == Keys(a) + Missing(Keys(b), Keys(a))
  {
    if b != [] {
      var init, x := b[..|b| - 1], b[|b| - 1];
      assert b == init + [x];
      UniqueAppend(init, x);
      MergeKeys(a, init);
      KeysAppend(init, x);
      assert Keys(b)[..|b| - 1] == Keys(init);
      var m := Merge(a, init);
      assert x.0 in Keys(m) <==> x.0 in Keys(a);
    }
  }

  /**
   * The values `array_merge` gives: a key of the second array takes the second
   * array's value (in place when it collides), every other key keeps the first
   * array's value.
   */
  lemma {:induction false} MergeGet<K(!new), V(!new)>(a: seq<(K, V)>, b: seq<(K, V)>, j: K)
    requires UniqueKeys(b)
    ensures Get(Merge(a, b), j) == if j in Keys(b) then Get(b, j) else Get(a, j)
  {
    if b != [] {
      var init, x := b[..|b| - 1], b[|b| - 1];
      assert b == init + [x];
      assert UniqueKeys(init);
      KeysAppend(init, x);
      MergeGet(a, init, j);
      GetPut(Merge(a, init), x.0, x.1, j);
      if j == x.0 {
        GetEntry(b, x.0, x.1);
      } else if j in Keys(init) {
        var v := Get(init, j).value;
        GetEntry(init, j, v);
        GetEntry(b, j, v);
      }
    }
  }

  /** `array_merge` for string keys, all promises together. */
  lemma MergeSpec<K(!new), V(!new)>(a: seq<(K, V)>, b: seq<(K, V)>)
    requires UniqueKeys(a) && UniqueKeys(b)
    ensures UniqueKeys(Merge(a, b))
    ensures Keys(Merge(a, b)) == Keys(a) + Missing(Keys(b), Keys(a))
    ensures forall j :: Get(Merge(a, b), j) == if j in Keys(b) then Get(b, j) else Get(a, j)
  {
    MergeKeys(a, b);
    forall j ensures Get(Merge(a, b), j) == if j in Keys(b) then Get(b, j) else Get(a, j) {
      MergeGet(a, b, j);
    }
  }

  /** `unset($m[$k])`: the other pairs stay, in their order. */
  function Remove<K(==,!new), V(!new)>(m: seq<(K, V)>, k: K): (r: seq<(K, V)>)
    ensures k !in Keys(r)
    ensures forall p :: p in r <==> p in m && p.0 != k
    ensures UniqueKeys(m) ==> UniqueKeys(r)
  {
    if m == [] then []
    else
      var rest := Remove(m[1..], k);
      assert forall p :: p in m <==> p == m[0] || p in m[1..];
      UniqueTail(m);
      UniqueCons(m[0], rest);
      if m[0].0 == k then rest else [m[0]] + rest
  }
}
