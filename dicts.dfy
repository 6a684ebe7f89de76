/**
 * JavaScript plain objects keyed by strings, as the source uses them for
 * `pairMarketName`, the coin registry and the price dictionaries: the entries
 * in insertion order. Assigning an existing key overwrites its value in place
 * (the key keeps its position); a new key is appended.
 */
module Dicts {
  import opened Wrappers

  datatype Entry<V> = Entry(key: string, value: V)
  type Dict<V> = seq<Entry<V>>

  ghost predicate DistinctKeys<V>(d: Dict<V>) {
    forall i, j :: 0 <= i < j < |d| ==> d[i].key != d[j].key
  }

  /** Index of the first entry with key `k`, or -1 (`Object.keys(d).indexOf(k)`). */
  function Find<V>(d: Dict<V>, k: string): (i: int)
    ensures -1 <= i < |d|
    ensures 0 <= i ==> d[i].key == k && forall j :: 0 <= j < i ==> d[j].key != k
    ensures i < 0 ==> forall j :: 0 <= j < |d| ==> d[j].key != k
  {
    if |d| == 0 then -1
    else if d[0].key == k then 0
    else
      var r := Find(d[1..], k);
      if r < 0 then -1 else r + 1
  }

  /** `d[k]`: the value stored under `k`, or `undefined`. */
  function Get<V>(d: Dict<V>, k: string): Option<V> {
    var i := Find(d, k);
    if i < 0 then None else Some(d[i].value)
  }

  /** `d[k] = v` on a copy (`{ ...d, [k]: v }`). */
  function Put<V>(d: Dict<V>, k: string, v: V): Dict<V> {
    var i := Find(d, k);
    if i < 0 then d + [Entry(k, v)] else d[i := Entry(k, v)]
  }

  /** `delete d[k]` on a copy. */
  function Remove<V>(d: Dict<V>, k: string): Dict<V> {
    var i := Find(d, k);
    if i < 0 then d else d[..i] + d[i + 1..]
  }

  /** `Object.keys(d)`. */
  function Keys<V>(d: Dict<V>): seq<string> {
    seq(|d|, i requires 0 <= i < |d| => d[i].key)
  }

  /** `Object.values(d)`. */
  function Values<V>(d: Dict<V>): seq<V> {
    seq(|d|, i requires 0 <= i < |d| => d[i].value)
  }

  /** The abstract content: a key maps to the value of its first entry. */
  function ToMap<V>(d: Dict<V>): map<string, V> {
    if |d| == 0 then map[] else ToMap(d[1..])[d[0].key := d[0].value]
  }

  /** `reduce((acc, e) => ({ ...acc, [e.key]: e.value }), {})`. */
  function FromEntries<V>(es: seq<Entry<V>>): Dict<V> {
    if |es| == 0 then [] else Put(FromEntries(es[..|es| - 1]), es[|es| - 1].key, es[|es| - 1].value)
  }

  // ---------------------------------------------------------------- lemmas

  lemma {:induction false} ToMapKeys<V>(d: Dict<V>)
    ensures ToMap(d).Keys == set e | e in d :: e.key
  {
    if |d| > 0 {
      ToMapKeys(d[1..]);
      assert d == [d[0]] + d[1..];
    }
  }

  /** `Get` reads the abstract content. */
  lemma {:induction false} GetIsToMap<V>(d: Dict<V>, k: string)
    ensures Get(d, k) == if k in ToMap(d) then Some(ToMap(d)[k]) else None
  {
    if |d| > 0 && d[0].key != k {
      GetIsToMap(d[1..], k);
    }
  }

  /** `Put` stores `v` under `k`, keeps every other key, and keeps keys distinct. */
  lemma {:induction false} PutSpec<V>(d: Dict<V>, k: string, v: V)
    requires DistinctKeys(d)
    ensures DistinctKeys(Put(d, k, v))
    ensures ToMap(Put(d, k, v)) == ToMap(d)[k := v]
  {
    var i := Find(d, k);
    if i < 0 {
      AppendToMap(d, Entry(k, v));
    } else {
      UpdateToMap(d, i, v);
    }
  }

  /** `Put` keeps the key order and appends a new key at the end. */
  lemma PutKeys<V>(d: Dict<V>, k: string, v: V)
    ensures Keys(Put(d, k, v)) == if k in Keys(d) then Keys(d) else Keys(d) + [k]
  {
    var i := Find(d, k);
    if 0 <= i {
      assert Keys(d)[i] == k;
    } else {
      assert forall j :: 0 <= j < |Keys(d)| ==> Keys(d)[j] != k;
    }
  }

  lemma {:induction false} AppendToMap<V>(d: Dict<V>, e: Entry<V>)
    requires forall j :: 0 <= j < |d| ==> d[j].key != e.key
    ensures ToMap(d + [e]) == ToMap(d)[e.key := e.value]
  {
    if |d| > 0 {
      assert (d + [e])[1..] == d[1..] + [e];
      AppendToMap(d[1..], e);
    }
  }

  lemma {:induction false} UpdateToMap<V>(d: Dict<V>, i: nat, v: V)
    requires i < |d| && forall j :: 0 <= j < i ==> d[j].key != d[i].key
    ensures ToMap(d[i := Entry(d[i].key, v)]) == ToMap(d)[d[i].key := v]
  {
    if i > 0 {
      assert d[i := Entry(d[i].key, v)][1..] == d[1..][i - 1 := Entry(d[i].key, v)];
      UpdateToMap(d[1..], i - 1, v);
    }
  }

  /** With distinct keys there is one entry, and one value, per key. */
  lemma {:induction false} DistinctCard<V>(d: Dict<V>)
    requires DistinctKeys(d)
    ensures |ToMap(d)| == |d| == |Values(d)| == |Keys(d)|
  {
    if |d| > 0 {
      DistinctCard(d[1..]);
      ToMapKeys(d[1..]);
      assert forall e | e in d[1..] :: e.key != d[0].key;
      assert d[0].key !in ToMap(d[1..]);
    }
  }

  /** Distinct keys: the value at position `i` is the one stored under its key. */
  lemma {:induction false} ToMapAt<V>(d: Dict<V>, i: nat)
    requires DistinctKeys(d) && i < |d|
    ensures d[i].key in ToMap(d) && ToMap(d)[d[i].key] == d[i].value
  {
    if i > 0 {
      ToMapAt(d[1..], i - 1);
    }
  }

  /** The fold of a list of entries keeps one entry per listed key, and only those. */
  lemma {:induction false} FromEntriesKeys<V>(es: seq<Entry<V>>)
    ensures DistinctKeys(FromEntries(es))
    ensures ToMap(FromEntries(es)).Keys == set e | e in es :: e.key
  {
    if |es| > 0 {
      var n := |es| - 1;
      FromEntriesKeys(es[..n]);
      PutSpec(FromEntries(es[..n]), es[n].key, es[n].value);
      assert es == es[..n] + [es[n]];
    }
  }

  /** A key repeated in the list holds the value of its LAST occurrence. */
  lemma {:induction false} FromEntriesLast<V>(es: seq<Entry<V>>, j: nat)
    requires j < |es| && forall j' :: j < j' < |es| ==> es[j'].key != es[j].key
    ensures es[j].key in ToMap(FromEntries(es))
    ensures ToMap(FromEntries(es))[es[j].key] == es[j].value
  {
    var n := |es| - 1;
    FromEntriesKeys(es[..n]);
    PutSpec(FromEntries(es[..n]), es[n].key, es[n].value);
    if j < n {
      FromEntriesLast(es[..n], j);
    }
  }

  lemma {:induction false} FromEntriesEmpty<V>(es: seq<Entry<V>>)
    ensures FromEntries(es) == [] <==> es == []
  {
    if es != [] {
      var n := |es| - 1;
      var d := FromEntries(es[..n]);
      var i := Find(d, es[n].key);
      assert |Put(d, es[n].key, es[n].value)| >= 1;
    }
  }

  /** Every entry of the fold is one of the listed entries. */
  lemma {:induction false} FromEntriesSubset<V>(es: seq<Entry<V>>)
    ensures forall e :: e in FromEntries(es) ==> e in es
  {
    if |es| > 0 {
      var n := |es| - 1;
      FromEntriesSubset(es[..n]);
      var d := FromEntries(es[..n]);
      var i := Find(d, es[n].key);
      forall e | e in Put(d, es[n].key, es[n].value) ensures e in es {
        if e != es[n] {
          assert e in d;
          assert e in es[..n];
        }
      }
    }
  }

  /** When every entry listed under `k` carries `v`, the fold maps `k` to `v`. */
  lemma {:induction false} FromEntriesUniform<V>(es: seq<Entry<V>>, k: string, v: V)
    requires exists e :: e in es && e.key == k
    requires forall e :: e in es && e.key == k ==> e.value == v
    ensures k in ToMap(FromEntries(es)) && ToMap(FromEntries(es))[k] == v
  {
    var n := |es| - 1;
    FromEntriesKeys(es[..n]);
    PutSpec(FromEntries(es[..n]), es[n].key, es[n].value);
    if es[n].key != k {
      var e :| e in es && e.key == k;
      assert e in es[..n];
      FromEntriesUniform(es[..n], k, v);
    }
  }

  /** `delete d[k]` removes exactly `k` and keeps keys distinct. */
  lemma {:induction false} RemoveSpec<V>(d: Dict<V>, k: string)
    requires DistinctKeys(d)
    ensures DistinctKeys(Remove(d, k))
    ensures ToMap(Remove(d, k)) == ToMap(d) - {k}
  {
    var i := Find(d, k);
    if i < 0 {
      ToMapKeys(d);
    } else {
      assert Remove(d, k) == d[..i] + d[i + 1..];
      SpliceDistinct(d, i);
      RemoveMap(d, k, i);
    }
  }

  lemma SpliceDistinct<V>(d: Dict<V>, i: nat)
    requires DistinctKeys(d) && i < |d|
    ensures DistinctKeys(d[..i] + d[i + 1..])
  {
    var r := d[..i] + d[i + 1..];
    forall x, y | 0 <= x < y < |r| ensures r[x].key != r[y].key {
      var x' := if x < i then x else x + 1;
      var y' := if y < i then y else y + 1;
      assert r[x] == d[x'] && r[y] == d[y'];
    }
  }

  lemma {:induction false} RemoveMap<V>(d: Dict<V>, k: string, i: nat)
    requires DistinctKeys(d) && i < |d| && d[i].key == k
    ensures ToMap(d[..i] + d[i + 1..]) == ToMap(d) - {k}
  {
    if i == 0 {
      assert d[..i] + d[i + 1..] == d[1..];
      ToMapKeys(d[1..]);
      assert forall e | e in d[1..] :: e.key != k;
      assert k !in ToMap(d[1..]);
    } else {
      var t := d[1..];
      assert DistinctKeys(t);
      RemoveMap(t, k, i - 1);
      assert d[..i] + d[i + 1..] == [d[0]] + (t[..i - 1] + t[i..]);
      assert (d[..i] + d[i + 1..])[1..] == t[..i - 1] + t[i..];
      assert d[0].key != k;
    }
  }

  /** Spreading one more entry is one more `Put`. */
  lemma FromEntriesSnoc<V>(es: seq<Entry<V>>, e: Entry<V>)
    ensures ToMap(FromEntries(es + [e])) == ToMap(FromEntries(es))[e.key := e.value]
  {
    assert (es + [e])[..|es|] == es;
    FromEntriesKeys(es);
    PutSpec(FromEntries(es), e.key, e.value);
  }

  /** Spreading one list of entries after another: later keys override, in map terms. */
  lemma {:induction false} FromEntriesAppend<V>(a: seq<Entry<V>>, b: seq<Entry<V>>)
    ensures ToMap(FromEntries(a + b)) == ToMap(FromEntries(a)) + ToMap(FromEntries(b))
  {
    if |b| == 0 {
      assert a + b == a;
    } else {
      var n := |b| - 1;
      var init := b[..n];
      assert b == init + [b[n]];
      assert a + b == (a + init) + [b[n]];
      var x := b[n];
      FromEntriesSnoc(a + init, x);
      FromEntriesSnoc(init, x);
      FromEntriesAppend(a, init);
      UnionUpdate(ToMap(FromEntries(a)), ToMap(FromEntries(init)), x.key, x.value);
    }
  }

  lemma UnionAssoc<K, V>(m1: map<K, V>, m2: map<K, V>, m3: map<K, V>)
    ensures (m1 + m2) + m3 == m1 + (m2 + m3)
  {
  }

  lemma UnionUpdate<K, V>(m1: map<K, V>, m2: map<K, V>, k: K, v: V)
    ensures (m1 + m2)[k := v] == m1 + m2[k := v]
  {
  }

  /** Folding entries with distinct keys gives back their content. */
  lemma {:induction false} FromEntriesDistinct<V>(es: seq<Entry<V>>)
    requires DistinctKeys(es)
    ensures ToMap(FromEntries(es)) == ToMap(es)
  {
    if |es| > 0 {
      var n := |es| - 1;
      FromEntriesDistinct(es[..n]);
      FromEntriesKeys(es[..n]);
      PutSpec(FromEntries(es[..n]), es[n].key, es[n].value);
      AppendToMap(es[..n], es[n]);
      assert es == es[..n] + [es[n]];
    }
  }
}
