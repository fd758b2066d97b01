/** PHP arrays: an ordered sequence of key/value entries in which
    `$a[$k] = $v` overwrites an existing key where it stands and appends a new one,
    and `array_merge` writes the entries of later arrays over earlier ones. */
module PhpArray {
  import opened Options
  import opened Seqs

  datatype Entry<K, V> = Entry(key: K, value: V)

  type Array<K, V> = seq<Entry<K, V>>

  /** The keys of `a`, in order. */
  function Keys<K(==), V>(a: Array<K, V>): (ks: seq<K>)
    ensures |ks| == |a|
    ensures forall i :: 0 <= i < |a| ==> ks[i] == a[i].key
  {
    seq(|a|, i requires 0 <= i < |a| => a[i].key)
  }

  /** The array literal pairing the keys `ks` with the values `vs`, position by position. */
  function Zip<K(==), V>(ks: seq<K>, vs: seq<V>): (a: Array<K, V>)
    requires |ks| == |vs|
    ensures Keys(a) == ks
    ensures forall i :: 0 <= i < |a| ==> a[i] == Entry(ks[i], vs[i])
  {
    seq(|ks|, i requires 0 <= i < |ks| => Entry(ks[i], vs[i]))
  }

  /** No key occurs twice; every array PHP builds has this shape. */
  predicate DistinctKeys<K(==), V>(a: Array<K, V>) {
    forall i, j :: 0 <= i < j < |a| ==> a[i].key != a[j].key
  }

  /** `ks` lists no element twice. */
  predicate NoDuplicates<K(==)>(ks: seq<K>) {
    forall i, j :: 0 <= i < j < |ks| ==> ks[i] != ks[j]
  }

  /** The position of key `k` in `a`, or `|a|` when `a` has no such key. */
  function Find<K(==), V>(a: Array<K, V>, k: K): (i: nat)
    ensures i <= |a|
    ensures i < |a| ==> a[i].key == k
    ensures forall j :: 0 <= j < i ==> a[j].key != k
  {
    if a == [] then 0
    else if a[0].key == k then 0
    else 1 + Find(a[1..], k)
  }

  /** `$a[$k]`, or `None` when the key is not set. */
  function Get<K(==), V>(a: Array<K, V>, k: K): Option<V> {
    var i := Find(a, k);
    if i < |a| then Some(a[i].value) else None
  }

  /** `$a[$k] = $v`. */
  function Put<K(==), V>(a: Array<K, V>, k: K, v: V): Array<K, V> {
    var i := Find(a, k);
    if i < |a| then a[i := Entry(k, v)] else a + [Entry(k, v)]
  }

  /** `array_merge($a, $b)` for non-integer keys: the entries of `b`, in order, written into `a`. */
  function Merge<K(==), V>(a: Array<K, V>, b: Array<K, V>): Array<K, V> {
    if b == [] then a
    else
      var last := b[|b| - 1];
      Put(Merge(a, b[..|b| - 1]), last.key, last.value)
  }

  /** `f` applied to every value, keys and order kept. */
  function MapValues<K(==), V, W>(f: V -> W, a: Array<K, V>): (r: Array<K, W>)
    ensures |r| == |a|
    ensures forall i :: 0 <= i < |a| ==> r[i] == Entry(a[i].key, f(a[i].value))
  {
    if a == [] then [] else MapValues(f, a[..|a| - 1]) + [Entry(a[|a| - 1].key, f(a[|a| - 1].value))]
  }

  lemma DistinctKeysIff<K, V>(a: Array<K, V>)
    ensures DistinctKeys(a) <==> NoDuplicates(Keys(a))
  {
  }

  lemma KeysMember<K, V>(a: Array<K, V>, k: K)
    ensures k in Keys(a) <==> Find(a, k) < |a|
  {
    if k in Keys(a) {
      var i :| 0 <= i < |a| && Keys(a)[i] == k;
      assert a[i].key == k;
    }
  }

  /** `$a[$k]` finds exactly the one entry for `k` in an array with distinct keys. */
  lemma GetAt<K, V>(a: Array<K, V>, i: int)
    requires DistinctKeys(a) && 0 <= i < |a|
    ensures Get(a, a[i].key) == Some(a[i].value)
  {
  }

  /** Reading a key of the first part of an array with distinct keys reads that part. */
  lemma GetPrefix<K, V>(a: Array<K, V>, b: Array<K, V>, k: K)
    requires DistinctKeys(a + b) && k in Keys(a)
    ensures Get(a + b, k) == Get(a, k)
  {
    var i := Find(a, k);
    KeysMember(a, k);
    GetAt(a + b, i);
    assert (a + b)[i] == a[i];
  }

  /** After `$a[$k] = $v`, reading `k` gives `v` and every other key reads as before;
      the key sequence grows by `k` exactly when `k` was new. */
  lemma PutSpec<K, V>(a: Array<K, V>, k: K, v: V)
    ensures Get(Put(a, k, v), k) == Some(v)
    ensures forall k' :: k' != k ==> Get(Put(a, k, v), k') == Get(a, k')
    ensures Keys(Put(a, k, v)) == if k in Keys(a) then Keys(a) else Keys(a) + [k]
    ensures DistinctKeys(a) ==> DistinctKeys(Put(a, k, v))
  {
    var r := Put(a, k, v);
    var i := Find(a, k);
    KeysMember(a, k);
    forall k' | k' != k
      ensures Get(r, k') == Get(a, k')
    {
      var j := Find(a, k');
      if j < |a| {
        PutFindOther(a, k, v, k', j);
      } else {
        PutFindAbsent(a, k, v, k');
      }
    }
    PutFindSame(a, k, v);
  }

  lemma PutFindSame<K, V>(a: Array<K, V>, k: K, v: V)
    ensures Find(Put(a, k, v), k) == Find(a, k)
  {
    var r := Put(a, k, v);
    var i := Find(a, k);
    assert i < |r| && r[i].key == k;
    assert forall j :: 0 <= j < i ==> r[j] == a[j];
  }

  lemma PutFindOther<K, V>(a: Array<K, V>, k: K, v: V, k': K, j: nat)
    requires k' != k && j == Find(a, k') && j < |a|
    ensures Find(Put(a, k, v), k') == j && Put(a, k, v)[j] == a[j]
  {
    var r := Put(a, k, v);
    assert r[j] == a[j];
    assert forall m :: 0 <= m < j ==> r[m].key == k || r[m] == a[m];
  }

  lemma PutFindAbsent<K, V>(a: Array<K, V>, k: K, v: V, k': K)
    requires k' != k && Find(a, k') == |a|
    ensures Find(Put(a, k, v), k') == |Put(a, k, v)|
  {
    var r := Put(a, k, v);
    assert forall m :: 0 <= m < |r| ==> r[m].key == k || r[m] == a[m];
  }

  /** Writing a key the array does not have yet appends it. */
  lemma PutFresh<K, V>(a: Array<K, V>, k: K, v: V)
    requires k !in Keys(a)
    ensures Put(a, k, v) == a + [Entry(k, v)]
  {
    KeysMember(a, k);
  }

  /** Writing the next key of an array literal with distinct keys extends the literal by that entry. */
  lemma ZipSnoc<K, V>(ks: seq<K>, vs: seq<V>, i: int, a: Array<K, V>, r: Array<K, V>)
    requires |ks| == |vs| && 0 <= i < |ks| && NoDuplicates(ks)
    requires a == Zip(ks[..i], vs[..i]) && r == Put(a, ks[i], vs[i])
    ensures r == Zip(ks[..i + 1], vs[..i + 1])
  {
    assert ks[i] !in Keys(a);
    PutFresh(a, ks[i], vs[i]);
    assert a + [Entry(ks[i], vs[i])] == Zip(ks[..i + 1], vs[..i + 1]);
  }

  /** Four writes of distinct keys: each key reads as written, every other key as before. */
  lemma FourPuts<K, V>(a: Array<K, V>, k0: K, k1: K, k2: K, k3: K, v0: V, v1: V, v2: V, v3: V)
    requires k0 != k1 && k0 != k2 && k0 != k3 && k1 != k2 && k1 != k3 && k2 != k3
    ensures var r := Put(Put(Put(Put(a, k0, v0), k1, v1), k2, v2), k3, v3);
      && Get(r, k0) == Some(v0) && Get(r, k1) == Some(v1) && Get(r, k2) == Some(v2) && Get(r, k3) == Some(v3)
      && forall k :: k != k0 && k != k1 && k != k2 && k != k3 ==> Get(r, k) == Get(a, k)
  {
    var a1 := Put(a, k0, v0);
    PutSpec(a, k0, v0);
    var a2 := Put(a1, k1, v1);
    PutSpec(a1, k1, v1);
    var a3 := Put(a2, k2, v2);
    PutSpec(a2, k2, v2);
    PutSpec(a3, k3, v3);
  }

  /** Eight writes of distinct keys: each key reads as written, every other key as before. */
  lemma EightPuts<K, V>(a: Array<K, V>, k0: K, k1: K, k2: K, k3: K, k4: K, k5: K, k6: K, k7: K,
                        v0: V, v1: V, v2: V, v3: V, v4: V, v5: V, v6: V, v7: V)
    requires NoDuplicates([k0, k1, k2, k3, k4, k5, k6, k7])
    ensures var r := Put(Put(Put(Put(Put(Put(Put(Put(a, k0, v0), k1, v1), k2, v2), k3, v3), k4, v4), k5, v5), k6, v6), k7, v7);
      && Get(r, k0) == Some(v0) && Get(r, k1) == Some(v1) && Get(r, k2) == Some(v2) && Get(r, k3) == Some(v3)
      && Get(r, k4) == Some(v4) && Get(r, k5) == Some(v5) && Get(r, k6) == Some(v6) && Get(r, k7) == Some(v7)
      && forall k :: k != k0 && k != k1 && k != k2 && k != k3 && k != k4 && k != k5 && k != k6 && k != k7
           ==> Get(r, k) == Get(a, k)
  {
    var ks := [k0, k1, k2, k3, k4, k5, k6, k7];
    assert k0 == ks[0] && k1 == ks[1] && k2 == ks[2] && k3 == ks[3];
    assert k4 == ks[4] && k5 == ks[5] && k6 == ks[6] && k7 == ks[7];
    var h := Put(Put(Put(Put(a, k0, v0), k1, v1), k2, v2), k3, v3);
    FourPuts(a, k0, k1, k2, k3, v0, v1, v2, v3);
    FourPuts(h, k4, k5, k6, k7, v4, v5, v6, v7);
  }

  /** Merging an array whose keys are all new to `a` concatenates the two. */
  lemma {:induction false} MergeDisjoint<K, V>(a: Array<K, V>, b: Array<K, V>)
    requires DistinctKeys(b)
    requires forall i :: 0 <= i < |b| ==> b[i].key !in Keys(a)
    ensures Merge(a, b) == a + b
    decreases |b|
  {
    if b != [] {
      var init := b[..|b| - 1];
      var last := b[|b| - 1];
      MergeDisjoint(a, init);
      assert Keys(a + init) == Keys(a) + Keys(init);
      assert last.key !in Keys(init);
      PutFresh(a + init, last.key, last.value);
      assert a + init + [last] == a + b;
    }
  }

  /** No key in common, stated entry by entry. */
  lemma KeysDisjoint<K, V>(a: Array<K, V>, b: Array<K, V>)
    requires forall k :: k in Keys(b) ==> k !in Keys(a)
    ensures forall i :: 0 <= i < |b| ==> b[i].key !in Keys(a)
  {
    forall i | 0 <= i < |b|
      ensures b[i].key !in Keys(a)
    {
      assert b[i].key == Keys(b)[i];
    }
  }

  /** Two arrays with distinct keys and no key in common concatenate to one with distinct keys. */
  lemma DistinctConcat<K, V>(a: Array<K, V>, b: Array<K, V>)
    requires DistinctKeys(a) && DistinctKeys(b)
    requires forall k :: k in Keys(b) ==> k !in Keys(a)
    ensures DistinctKeys(a + b)
    ensures Keys(a + b) == Keys(a) + Keys(b)
  {
    assert Keys(a + b) == Keys(a) + Keys(b);
    forall i, j | 0 <= i < j < |a + b|
      ensures (a + b)[i].key != (a + b)[j].key
    {
      if i < |a| <= j {
        assert (a + b)[j].key == Keys(b)[j - |a|];
        assert (a + b)[j].key in Keys(b);
        assert (a + b)[i].key == Keys(a)[i];
      }
    }
  }

  /** `array_merge($a, $b, $c)` of arrays with distinct keys, no key in two of them, is their
      concatenation, keeps the keys distinct and reads the keys of `a` as `a` does. */
  lemma MergeThree<K, V>(a: Array<K, V>, b: Array<K, V>, c: Array<K, V>)
    requires DistinctKeys(a) && DistinctKeys(b) && DistinctKeys(c)
    requires forall k :: k in Keys(b) ==> k !in Keys(a)
    requires forall k :: k in Keys(c) ==> k !in Keys(a) && k !in Keys(b)
    ensures Merge(Merge(a, b), c) == a + b + c
    ensures DistinctKeys(a + b + c)
    ensures forall k :: k in Keys(a) ==> Get(a + b + c, k) == Get(a, k)
  {
    var ab := a + b;
    assert Merge(a, b) == ab && DistinctKeys(ab) && Keys(ab) == Keys(a) + Keys(b) by {
      AppendPair(a, b, ab);
    }
    assert forall k :: k in Keys(c) ==> k !in Keys(ab);
    assert Merge(ab, c) == ab + c && DistinctKeys(ab + c) by {
      AppendPair(ab, c, ab + c);
    }
    ConcatAssoc(a, b, c);
    forall k | k in Keys(a)
      ensures Get(ab + c, k) == Get(a, k)
    {
      GetPrefix(a, b + c, k);
    }
  }

  /** The step of `MergeThree` that appends one array to another. */
  lemma AppendPair<K, V>(a: Array<K, V>, b: Array<K, V>, r: Array<K, V>)
    requires r == a + b
    requires DistinctKeys(a) && DistinctKeys(b)
    requires forall k :: k in Keys(b) ==> k !in Keys(a)
    ensures Merge(a, b) == r && DistinctKeys(r) && Keys(r) == Keys(a) + Keys(b)
  {
    KeysDisjoint(a, b);
    MergeDisjoint(a, b);
    DistinctConcat(a, b);
  }

  /** `array_merge` keeps every key of both arguments, those of `a` first and where they were,
      and repeats none when `a` repeats none. */
  lemma {:induction false} MergeKeys<K, V>(a: Array<K, V>, b: Array<K, V>)
    ensures forall k :: k in Keys(Merge(a, b)) <==> k in Keys(a) || k in Keys(b)
    ensures |Keys(a)| <= |Keys(Merge(a, b))| && Keys(Merge(a, b))[..|a|] == Keys(a)
    ensures DistinctKeys(a) ==> DistinctKeys(Merge(a, b))
    decreases |b|
  {
    if b != [] {
      var init := b[..|b| - 1];
      var last := b[|b| - 1];
      MergeKeys(a, init);
      PutSpec(Merge(a, init), last.key, last.value);
      assert Keys(b) == Keys(init) + [last.key];
    }
  }

  /** In `array_merge($a, $b)` a key of `b` reads as in `b` (later arrays win), any other key as in `a`. */
  lemma {:induction false} MergeGet<K, V>(a: Array<K, V>, b: Array<K, V>, k: K)
    requires DistinctKeys(b)
    ensures Get(Merge(a, b), k) == if k in Keys(b) then Get(b, k) else Get(a, k)
    decreases |b|
  {
    if b != [] {
      var init := b[..|b| - 1];
      var last := b[|b| - 1];
      assert b == init + [last];
      assert Get(Merge(a, b), k) == if k == last.key then Some(last.value) else Get(Merge(a, init), k) by {
        PutSpec(Merge(a, init), last.key, last.value);
      }
      MergeGet(a, init, k);
      assert Keys(b) == Keys(init) + [last.key];
      if k == last.key {
        GetAt(b, |b| - 1);
      } else if k in Keys(init) {
        GetPrefix(init, [last], k);
      }
    }
  }

  /** One more entry of `b` merged is one more `$a[$k] = $v`; the step a `foreach` takes. */
  lemma MergeSnoc<K, V>(a: Array<K, V>, b: Array<K, V>, e: Entry<K, V>)
    ensures Merge(a, b + [e]) == Put(Merge(a, b), e.key, e.value)
  {
    assert (b + [e])[..|b|] == b;
  }

  lemma MapValuesSnoc<K, V, W>(f: V -> W, a: Array<K, V>, i: int)
    requires 0 <= i < |a|
    ensures MapValues(f, a[..i + 1]) == MapValues(f, a[..i]) + [Entry(a[i].key, f(a[i].value))]
  {
    assert a[..i + 1][..i] == a[..i];
  }

  lemma MapValuesKeys<K, V, W>(f: V -> W, a: Array<K, V>)
    ensures Keys(MapValues(f, a)) == Keys(a)
    ensures DistinctKeys(a) ==> DistinctKeys(MapValues(f, a))
    ensures forall k :: Get(MapValues(f, a), k) == if k in Keys(a) then Some(f(Get(a, k).value)) else None
  {
    forall k ensures Get(MapValues(f, a), k) == if k in Keys(a) then Some(f(Get(a, k).value)) else None {
      KeysMember(a, k);
      KeysMember(MapValues(f, a), k);
      MapValuesFind(f, a, k);
    }
  }

  lemma MapValuesFind<K, V, W>(f: V -> W, a: Array<K, V>, k: K)
    ensures Find(MapValues(f, a), k) == Find(a, k)
  {
    var r := MapValues(f, a);
    var i := Find(a, k);
    assert forall j :: 0 <= j < |a| ==> r[j].key == a[j].key;
  }
}
