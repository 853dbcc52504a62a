/** Python's insertion-ordered `dict`, as a sequence of key/value pairs.
    Assigning to an existing key keeps its position; a new key goes last. */
module OrderedMap {
  import opened Wrappers

  type Dict<K, V> = seq<(K, V)>

  function Keys<K, V>(d: Dict<K, V>): (r: seq<K>)
    ensures |r| == |d|
    ensures forall i :: 0 <= i < |d| ==> r[i] == d[i].0
  {
    if d == [] then [] else [d[0].0] + Keys(d[1..])
  }

  function Values<K, V>(d: Dict<K, V>): (r: seq<V>)
    ensures |r| == |d|
    ensures forall i :: 0 <= i < |d| ==> r[i] == d[i].1
  {
    if d == [] then [] else [d[0].1] + Values(d[1..])
  }

  lemma KeysInit<K, V>(d: Dict<K, V>)
    requires d != []
    ensures Keys(d) == Keys(d[..|d| - 1]) + [d[|d| - 1].0]
  {
    var a := Keys(d);
    var b := Keys(d[..|d| - 1]) + [d[|d| - 1].0];
    assert |a| == |b|;
    forall i | 0 <= i < |a| ensures a[i] == b[i] {
      if i < |d| - 1 {
        assert d[..|d| - 1][i] == d[i];
      }
    }
  }

  /** No key appears twice, as in every Python dict. */
  ghost predicate UniqueKeys<K, V>(d: Dict<K, V>) {
    forall i, j :: 0 <= i < j < |d| ==> d[i].0 != d[j].0
  }

  /** Distinct keys stay distinct without the last pair, and the last key
      appears nowhere before it. */
  lemma UniqueInit<K, V>(d: Dict<K, V>)
    requires d != [] && UniqueKeys(d)
    ensures UniqueKeys(d[..|d| - 1])
    ensures forall i :: 0 <= i < |d| - 1 ==> d[i].0 != d[|d| - 1].0
  {
    var init := d[..|d| - 1];
    forall i, j | 0 <= i < j < |init| ensures init[i].0 != init[j].0 {
      assert init[i] == d[i] && init[j] == d[j];
    }
  }

  /** Position of the first pair with key `k`, or -1. */
  function IndexOf<K(==), V>(d: Dict<K, V>, k: K): (r: int)
    ensures -1 <= r < |d|
    ensures r == -1 <==> k !in Keys(d)
    ensures r >= 0 ==> d[r].0 == k && forall i :: 0 <= i < r ==> d[i].0 != k
  {
    if d == [] then -1
    else if d[0].0 == k then 0
    else
      var j := IndexOf(d[1..], k);
      if j == -1 then -1 else j + 1
  }

  /** `d.get(k)`, with `None` for a missing key. */
  function Get<K(==), V>(d: Dict<K, V>, k: K): (r: Option<V>)
    ensures r.None? <==> k !in Keys(d)
    ensures r.Some? ==> exists i :: 0 <= i < |d| && d[i] == (k, r.value)
  {
    var i := IndexOf(d, k);
    if i == -1 then None else Some(d[i].1)
  }

  /** `d[k] = v` */
  function Put<K(==), V>(d: Dict<K, V>, k: K, v: V): (r: Dict<K, V>)
    ensures Get(r, k) == Some(v)
    ensures k in Keys(d) ==> Keys(r) == Keys(d)
    ensures k !in Keys(d) ==> Keys(r) == Keys(d) + [k]
    ensures UniqueKeys(d) ==> UniqueKeys(r)
  {
    var i := IndexOf(d, k);
    if i == -1 then
      var r := d + [(k, v)];
      assert Keys(r) == Keys(d) + [k];
      r
    else
      var r := d[i := (k, v)];
      assert Keys(r) == Keys(d);
      assert IndexOf(r, k) == i;
      r
  }

  /** The dict literal pairing `keys[i]` with `values[i]`. */
  function Zip<K, V>(keys: seq<K>, values: seq<V>): (r: Dict<K, V>)
    requires |keys| == |values|
    ensures |r| == |keys| && forall i :: 0 <= i < |r| ==> r[i] == (keys[i], values[i])
  {
    seq(|keys|, i requires 0 <= i < |keys| => (keys[i], values[i]))
  }

  /** With distinct keys, each key of a dict literal holds its own value. */
  lemma GetZip<K, V>(keys: seq<K>, values: seq<V>, i: int)
    requires |keys| == |values| && 0 <= i < |keys|
    requires forall a, b :: 0 <= a < b < |keys| ==> keys[a] != keys[b]
    ensures Get(Zip(keys, values), keys[i]) == Some(values[i])
  {
    GetAt(Zip(keys, values), i, keys[i]);
  }

  /** Assigning replaces the pair of an existing key in place, or appends. */
  lemma PutShape<K, V>(d: Dict<K, V>, k: K, v: V)
    ensures var i := IndexOf(d, k);
            Put(d, k, v) == if i == -1 then d + [(k, v)] else d[i := (k, v)]
  {
  }

  /** Assigning a value held by no key keeps the values pairwise distinct;
      every pair is the new one or an untouched pair with another key. */
  lemma PutFresh<K, V>(d: Dict<K, V>, k: K, v: V)
    requires UniqueKeys(d)
    requires forall i, j :: 0 <= i < j < |d| ==> d[i].1 != d[j].1
    requires forall i :: 0 <= i < |d| ==> d[i].1 != v
    ensures var r := Put(d, k, v);
            && UniqueKeys(r)
            && (forall i, j :: 0 <= i < j < |r| ==> r[i].1 != r[j].1)
            && (forall i :: 0 <= i < |r| ==> r[i] == (k, v) || (i < |d| && r[i] == d[i] && d[i].0 != k))
            && (forall n :: n in Keys(r) <==> n in Keys(d) || n == k)
  {
    PutShape(d, k, v);
    var r := Put(d, k, v);
    var i := IndexOf(d, k);
    if i == -1 {
      assert r == d + [(k, v)];
      assert forall j :: 0 <= j < |d| ==> r[j] == d[j];
      assert Keys(r) == Keys(d) + [k];
    } else {
      assert r == d[i := (k, v)];
      assert Keys(r) == Keys(d);
    }
    forall a, b | 0 <= a < b < |r| ensures r[a].1 != r[b].1 {
      if b < |d| && a != i && b != i {
        assert r[a] == d[a] && r[b] == d[b];
      }
    }
  }

  /** Assigning one key leaves every other key's value alone. */
  lemma {:induction false} PutOther<K, V>(d: Dict<K, V>, k: K, v: V, k': K)
    requires k' != k
    ensures Get(Put(d, k, v), k') == Get(d, k')
  {
    var r := Put(d, k, v);
    var i := IndexOf(d, k');
    PutShape(d, k, v);
    if i != -1 {
      assert r[i] == d[i];
      assert forall j :: 0 <= j < i ==> r[j].0 == d[j].0;
      GetAt(r, i, k');
    } else {
      assert k' !in Keys(r);
    }
  }

  /** `for k, v in zip(keys, values): d[k] = v` */
  function PutAll<K(==), V>(d: Dict<K, V>, keys: seq<K>, values: seq<V>): (r: Dict<K, V>)
    requires |keys| == |values|
    ensures UniqueKeys(d) ==> UniqueKeys(r)
  {
    if keys == [] then d
    else
      var n := |keys| - 1;
      Put(PutAll(d, keys[..n], values[..n]), keys[n], values[n])
  }

  /** The first `k + 1` assignments are the first `k` and one more. */
  lemma PutAllPrefix<K, V>(d: Dict<K, V>, keys: seq<K>, values: seq<V>, k: int)
    requires |keys| == |values| && 0 <= k < |keys|
    ensures PutAll(d, keys[..k + 1], values[..k + 1]) == Put(PutAll(d, keys[..k], values[..k]), keys[k], values[k])
  {
    assert keys[..k + 1][..k] == keys[..k] && values[..k + 1][..k] == values[..k];
  }

  /** After the assignments, a key is one `d` had or one that was assigned. */
  lemma {:induction false} PutAllKeys<K, V>(d: Dict<K, V>, keys: seq<K>, values: seq<V>, k: K)
    requires |keys| == |values|
    ensures k in Keys(PutAll(d, keys, values)) <==> k in Keys(d) || k in keys
  {
    if keys != [] {
      var n := |keys| - 1;
      var before := PutAll(d, keys[..n], values[..n]);
      assert PutAll(d, keys, values) == Put(before, keys[n], values[n]);
      PutAllKeys(d, keys[..n], values[..n], k);
      InInit(keys, k);
    }
  }

  /** A property holds of every element exactly when it holds of all but the
      last and of the last. */
  lemma AllInit<T>(s: seq<T>, init: seq<T>, p: T -> bool)
    requires s != [] && init == s[..|s| - 1]
    ensures (forall j :: 0 <= j < |s| ==> p(s[j]))
            <==> (forall j :: 0 <= j < |init| ==> p(init[j])) && p(s[|s| - 1])
  {
    assert forall j :: 0 <= j < |s| - 1 ==> s[..|s| - 1][j] == s[j];
  }

  /** An element of a non-empty sequence is in all but its last place, or last. */
  lemma InInit<T>(s: seq<T>, x: T)
    requires s != []
    ensures x in s <==> x in s[..|s| - 1] || x == s[|s| - 1]
  {
    var n := |s| - 1;
    if x in s {
      var i :| 0 <= i < |s| && s[i] == x;
      if i < n {
        assert s[..n][i] == x;
      }
    }
    if x in s[..n] {
      var i :| 0 <= i < n && s[..n][i] == x;
      assert s[i] == x;
    }
  }

  /** An assigned key holds the value of its last assignment. */
  lemma {:induction false} PutAllLast<K, V>(d: Dict<K, V>, keys: seq<K>, values: seq<V>, j: int)
    requires |keys| == |values| && 0 <= j < |keys|
    requires forall j' :: j < j' < |keys| ==> keys[j'] != keys[j]
    ensures Get(PutAll(d, keys, values), keys[j]) == Some(values[j])
  {
    var n := |keys| - 1;
    var before := PutAll(d, keys[..n], values[..n]);
    assert PutAll(d, keys, values) == Put(before, keys[n], values[n]);
    if j < n {
      assert keys[..n][j] == keys[j] && values[..n][j] == values[j];
      PutAllLast(d, keys[..n], values[..n], j);
      PutOther(before, keys[n], values[n], keys[j]);
    } else {
      assert j == n;
    }
  }

  /** Every value after the assignments was in `d` or was assigned. */
  lemma {:induction false} PutAllValues<K, V>(d: Dict<K, V>, keys: seq<K>, values: seq<V>, i: int)
    requires |keys| == |values| && 0 <= i < |PutAll(d, keys, values)|
    ensures PutAll(d, keys, values)[i].1 in Values(d) || PutAll(d, keys, values)[i].1 in values
  {
    if keys != [] {
      var n := |keys| - 1;
      var before := PutAll(d, keys[..n], values[..n]);
      var r := PutAll(d, keys, values);
      assert r == Put(before, keys[n], values[n]);
      PutShape(before, keys[n], values[n]);
      if r[i].1 != values[n] {
        assert i < |before| && r[i] == before[i];
        PutAllValues(d, keys[..n], values[..n], i);
        assert values[..n] <= values;
      }
    }
  }

  /** Dicts with the same keys in the same order find a key at the same
      position. */
  lemma IndexOfSameKeys<K, V, W>(d: Dict<K, V>, e: Dict<K, W>, k: K)
    requires |d| == |e| && forall i :: 0 <= i < |d| ==> d[i].0 == e[i].0
    ensures IndexOf(d, k) == IndexOf(e, k)
  {
    assert Keys(d) == Keys(e);
  }

  /** The value of the first pair with key `k`. */
  lemma GetAt<K, V>(d: Dict<K, V>, i: int, k: K)
    requires 0 <= i < |d| && d[i].0 == k
    requires forall j :: 0 <= j < i ==> d[j].0 != k
    ensures Get(d, k) == Some(d[i].1)
  {
    assert Keys(d)[i] == k;
  }

  /** The pairs whose key is not in `ks`, in their original order: what is
      left after `del d[k]` for every `k` in `ks`. */
  function Drop<K(==), V>(d: Dict<K, V>, ks: seq<K>): (r: Dict<K, V>)
    ensures |r| <= |d|
    ensures forall i :: 0 <= i < |r| ==> r[i] in d && r[i].0 !in ks
    ensures forall i :: 0 <= i < |d| && d[i].0 !in ks ==> d[i] in r
    ensures UniqueKeys(d) ==> UniqueKeys(r)
  {
    if d == [] then []
    else
      var rest := Drop(d[1..], ks);
      assert forall i :: 1 <= i < |d| ==> d[i] == d[1..][i - 1];
      if d[0].0 in ks then rest else [d[0]] + rest
  }

  /** One step of `Drop`: the first pair unless its key is dropped, then the rest. */
  lemma DropCons<K, V>(d: Dict<K, V>, ks: seq<K>)
    requires d != []
    ensures Drop(d, ks) == (if d[0].0 in ks then [] else [d[0]]) + Drop(d[1..], ks)
  {
  }

  /** A prefix one element longer. */
  lemma TakeSnoc<T>(s: seq<T>, i: int)
    requires 0 <= i < |s|
    ensures s[..i + 1] == s[..i] + [s[i]]
  {
  }

  lemma ConcatAssoc<T>(a: seq<T>, b: seq<T>, c: seq<T>)
    ensures a + (b + c) == (a + b) + c
  {
  }

  /** Dropping keys from a concatenation drops them from each part. */
  lemma {:induction false} DropAppend<K, V>(a: Dict<K, V>, b: Dict<K, V>, ks: seq<K>)
    ensures Drop(a + b, ks) == Drop(a, ks) + Drop(b, ks)
  {
    if a == [] {
      assert a + b == b;
    } else {
      var ab := a + b;
      assert ab[0] == a[0] && ab[1..] == a[1..] + b;
      DropAppend(a[1..], b, ks);
      DropCons(ab, ks);
      DropCons(a, ks);
      var head := if a[0].0 in ks then [] else [a[0]];
      ConcatAssoc(head, Drop(a[1..], ks), Drop(b, ks));
    }
  }

  /** Dropping from a dict with one more pair, where the extra keys `more`
      are none of the earlier pairs' keys. */
  lemma DropSnoc<K, V>(init: Dict<K, V>, last: (K, V), ks: seq<K>, more: seq<K>)
    requires forall i :: 0 <= i < |init| ==> init[i].0 !in more
    ensures Drop(init + [last], ks + more) == Drop(init, ks) + (if last.0 in ks + more then [] else [last])
  {
    DropAppend(init, [last], ks + more);
    DropCons([last], ks + more);
    DropAgree(init, ks + more, ks);
  }

  /** Only the keys present matter: two key lists that agree on them drop
      the same pairs. */
  lemma {:induction false} DropAgree<K, V>(d: Dict<K, V>, ks: seq<K>, ks': seq<K>)
    requires forall i :: 0 <= i < |d| ==> (d[i].0 in ks <==> d[i].0 in ks')
    ensures Drop(d, ks) == Drop(d, ks')
  {
    if d != [] {
      assert forall i :: 1 <= i < |d| ==> d[1..][i - 1] == d[i];
      DropAgree(d[1..], ks, ks');
      DropCons(d, ks);
      DropCons(d, ks');
    }
  }

  /** Dropping keys none of the pairs has changes nothing. */
  lemma DropNone<K, V>(d: Dict<K, V>, ks: seq<K>)
    requires forall i :: 0 <= i < |d| ==> d[i].0 !in ks
    ensures Drop(d, ks) == d
  {
    DropAgree(d, ks, []);
    DropEmpty(d);
  }

  /** Dropping no key changes nothing. */
  lemma {:induction false} DropEmpty<K, V>(d: Dict<K, V>)
    ensures Drop(d, []) == d
  {
    if d != [] {
      DropEmpty(d[1..]);
      DropCons(d, []);
    }
  }

  /** Dropping in two rounds drops the union. */
  lemma {:induction false} DropDrop<K, V>(d: Dict<K, V>, ks: seq<K>, ks': seq<K>)
    ensures Drop(Drop(d, ks), ks') == Drop(d, ks + ks')
  {
    if d != [] {
      DropDrop(d[1..], ks, ks');
      DropCons(d, ks);
      DropCons(d, ks + ks');
      var rest := Drop(d[1..], ks);
      if d[0].0 !in ks {
        DropCons([d[0]] + rest, ks');
        assert ([d[0]] + rest)[1..] == rest;
      }
    }
  }

  /** Dropping keeps the value of every key it does not drop. */
  lemma {:induction false} DropGet<K, V>(d: Dict<K, V>, ks: seq<K>, k: K)
    requires k !in ks
    ensures Get(Drop(d, ks), k) == Get(d, k)
  {
    if d != [] {
      var rest := Drop(d[1..], ks);
      DropGet(d[1..], ks, k);
      GetCons(d, k);
      DropCons(d, ks);
      if d[0].0 !in ks {
        var r := [d[0]] + rest;
        assert r[1..] == rest;
        GetCons(r, k);
      }
    }
  }

  /** Looking up a key in a non-empty dict: its first pair, or the rest. */
  lemma GetCons<K, V>(d: Dict<K, V>, k: K)
    requires d != []
    ensures Get(d, k) == if d[0].0 == k then Some(d[0].1) else Get(d[1..], k)
  {
    var j := IndexOf(d[1..], k);
    assert IndexOf(d, k) == if d[0].0 == k then 0 else if j == -1 then -1 else j + 1;
  }

  /** Assigning in a non-empty dict: at its first pair, or in the rest. */
  lemma PutCons<K, V>(d: Dict<K, V>, k: K, v: V)
    requires d != []
    ensures Put(d, k, v) == if d[0].0 == k then [(k, v)] + d[1..] else [d[0]] + Put(d[1..], k, v)
  {
    PutShape(d, k, v);
    PutShape(d[1..], k, v);
    var j := IndexOf(d[1..], k);
    assert IndexOf(d, k) == if d[0].0 == k then 0 else if j == -1 then -1 else j + 1;
    if d[0].0 != k {
      if j == -1 {
        ConsSnoc(d, (k, v));
      } else {
        ConsUpdate(d, j, (k, v));
      }
    } else {
      UpdateHead(d, (k, v));
    }
  }

  lemma ConsSnoc<T>(s: seq<T>, x: T)
    requires s != []
    ensures [s[0]] + (s[1..] + [x]) == s + [x]
  {
    assert s == [s[0]] + s[1..];
  }

  lemma ConsUpdate<T>(s: seq<T>, j: int, x: T)
    requires 0 <= j < |s| - 1
    ensures [s[0]] + s[1..][j := x] == s[j + 1 := x]
  {
    var a, b := [s[0]] + s[1..][j := x], s[j + 1 := x];
    forall t | 0 <= t < |s| ensures a[t] == b[t] {
      if t > 0 {
        assert a[t] == s[1..][j := x][t - 1];
      }
    }
  }

  lemma UpdateHead<T>(s: seq<T>, x: T)
    requires s != []
    ensures s[0 := x] == [x] + s[1..]
  {
    var a, b := s[0 := x], [x] + s[1..];
    forall t | 0 <= t < |s| ensures a[t] == b[t] {
      if t > 0 {
        assert b[t] == s[1..][t - 1];
      }
    }
  }

  /** `del d[k]` (or `pop`): the pair with key `k` disappears. */
  function Remove<K(==), V>(d: Dict<K, V>, k: K): (r: Dict<K, V>)
    ensures |r| <= |d|
    ensures k !in Keys(r)
    ensures UniqueKeys(d) ==> UniqueKeys(r)
  {
    Drop(d, [k])
  }

  /** Removing one key leaves every other key's value alone. */
  lemma RemoveOther<K, V>(d: Dict<K, V>, k: K, k': K)
    requires k' != k
    ensures Get(Remove(d, k), k') == Get(d, k')
  {
    DropGet(d, [k], k');
  }

  /** `del` of a key that is not there changes nothing. */
  lemma RemoveAbsent<K, V>(d: Dict<K, V>, k: K)
    requires k !in Keys(d)
    ensures Remove(d, k) == d
  {
    DropNone(d, [k]);
  }

  /** Deleting the keys of `ks` one by one, in order, drops them all. */
  lemma RemoveAfterDrop<K, V>(d: Dict<K, V>, ks: seq<K>, k: K)
    ensures Remove(Drop(d, ks), k) == Drop(d, ks + [k])
  {
    DropDrop(d, ks, [k]);
  }

  /** `d[k] = v` when there is a key, else nothing. */
  function PutKey<K(==), V>(d: Dict<K, V>, k: Option<K>, v: V): (r: Dict<K, V>)
    ensures UniqueKeys(d) ==> UniqueKeys(r)
  {
    if k.None? then d else Put(d, k.value, v)
  }

  /** `d[key(x)] = x` for every `x` of `xs` that has a key, in order. */
  function PutEach<K(==), V>(d: Dict<K, V>, xs: seq<V>, key: V -> Option<K>): (r: Dict<K, V>)
    ensures UniqueKeys(d) ==> UniqueKeys(r)
  {
    if xs == [] then d
    else PutKey(PutEach(d, xs[..|xs| - 1], key), key(xs[|xs| - 1]), xs[|xs| - 1])
  }

  /** The position of the last element of `xs` whose key is `k`, or -1. */
  function LastKeyed<K(==), V>(xs: seq<V>, key: V -> Option<K>, k: K): (r: int)
    ensures -1 <= r < |xs|
    ensures r >= 0 ==> key(xs[r]) == Some(k)
    ensures forall j :: r < j < |xs| ==> key(xs[j]) != Some(k)
  {
    if xs == [] then -1
    else if key(xs[|xs| - 1]) == Some(k) then |xs| - 1
    else LastKeyed(xs[..|xs| - 1], key, k)
  }

  /** After putting every element, a key holds the last element carrying it,
      or its old value when no element carries it. */
  lemma {:induction false} PutEachGet<K, V>(d: Dict<K, V>, xs: seq<V>, key: V -> Option<K>, k: K)
    ensures var j := LastKeyed(xs, key, k);
            Get(PutEach(d, xs, key), k) == if j == -1 then Get(d, k) else Some(xs[j])
  {
    if xs != [] {
      var init := xs[..|xs| - 1];
      var last := xs[|xs| - 1];
      PutEachGet(d, init, key, k);
      var before := PutEach(d, init, key);
      if key(last).Some? && key(last).value != k {
        PutOther(before, key(last).value, last, k);
      }
    }
  }
}
