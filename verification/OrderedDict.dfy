// A Python dict: insertion-ordered, one value per key, a repeated key keeps its
// place and takes the new value.
module OrderedDict {

  datatype Item<K, V> = Item(key: K, value: V)

  ghost predicate DistinctKeys<K, V>(d: seq<Item<K, V>>) {
    forall i, j :: 0 <= i < j < |d| ==> d[i].key != d[j].key
  }

  function Find<K(==), V>(d: seq<Item<K, V>>, n: nat, key: K): (i: nat)
    requires n <= |d|
    ensures i <= n && (i < n ==> d[i].key == key) && forall j :: i < j < n ==> d[j].key != key
    ensures i == n ==> forall j :: 0 <= j < n ==> d[j].key != key
  {
    if n == 0 then 0
    else if d[n - 1].key == key then n - 1
    else
      var i := Find(d, n - 1, key);
      if i == n - 1 then n else i
  }

  function Get<K(==), V>(d: seq<Item<K, V>>, key: K, default: V): V {
    var i := Find(d, |d|, key);
    if i < |d| then d[i].value else default
  }

  function Put<K(==), V>(d: seq<Item<K, V>>, key: K, value: V): seq<Item<K, V>> {
    var i := Find(d, |d|, key);
    if i < |d| then d[i := Item(key, value)] else d + [Item(key, value)]
  }

  lemma {:induction false} FindSameKeys<K, V>(a: seq<Item<K, V>>, b: seq<Item<K, V>>, n: nat, key: K)
    requires n <= |a| && n <= |b| && forall i :: 0 <= i < n ==> a[i].key == b[i].key
    ensures Find(a, n, key) == Find(b, n, key)
  {
    if n > 0 {
      FindSameKeys(a, b, n - 1, key);
    }
  }

  lemma {:induction false} PutDistinct<K, V>(d: seq<Item<K, V>>, key: K, value: V)
    requires DistinctKeys(d)
    ensures DistinctKeys(Put(d, key, value))
  {
  }
}
