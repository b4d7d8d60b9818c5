/**
 * The time-keyed sparse array the autosens table is kept in: entries in
 * increasing key order, looked up by binary search.  `InsertionPoint` is
 * where the search ends (the number of smaller keys); `Find`, `IndexOfKey`
 * and `Put` are the array's `get`, `indexOfKey` and `put`.
 */
module SparseTable {
  import opened Wrappers

  datatype Entry<T> = Entry(key: int, value: T)

  predicate Ordered<T>(t: seq<Entry<T>>)
  {
    forall i, j :: 0 <= i < j < |t| ==> t[i].key < t[j].key
  }

  /** The number of leading keys below `key`: where `key` is, or would be inserted. */
  function InsertionPoint<T>(t: seq<Entry<T>>, key: int): (p: nat)
    ensures p <= |t|
    decreases |t|
  {
    if t == [] || t[0].key >= key then 0 else 1 + InsertionPoint(t[1..], key)
  }

  lemma OrderedTail<T>(t: seq<Entry<T>>)
    requires Ordered(t) && t != []
    ensures Ordered(t[1..])
  {
    forall i, j | 0 <= i < j < |t[1..]| ensures t[1..][i].key < t[1..][j].key {
      assert t[1..][i] == t[i + 1] && t[1..][j] == t[j + 1];
    }
  }

  /** In an ordered table the insertion point splits the keys: smaller before it, not smaller from it on. */
  lemma {:induction false} InsertionPointSplits<T>(t: seq<Entry<T>>, key: int)
    requires Ordered(t)
    ensures forall i :: 0 <= i < InsertionPoint(t, key) ==> t[i].key < key
    ensures forall i :: InsertionPoint(t, key) <= i < |t| ==> t[i].key >= key
    decreases |t|
  {
    if t != [] {
      if t[0].key >= key {
        forall i | 0 < i < |t| ensures t[i].key >= key {
          assert t[0].key < t[i].key;
        }
      } else {
        OrderedTail(t);
        InsertionPointSplits(t[1..], key);
        forall i | 0 < i < |t| ensures t[i] == t[1..][i - 1] {
        }
      }
    }
  }

  /** `get(key)`: the value stored under `key`, if any. */
  function Find<T>(t: seq<Entry<T>>, key: int): Option<T>
  {
    var p := InsertionPoint(t, key);
    if p < |t| && t[p].key == key then Some(t[p].value) else None
  }

  /** `Find` sees every entry: it answers an entry's value, and nothing when no entry has the key. */
  lemma FindMeaning<T>(t: seq<Entry<T>>, key: int)
    requires Ordered(t)
    ensures forall i :: 0 <= i < |t| && t[i].key == key ==> Find(t, key) == Some(t[i].value)
    ensures Find(t, key).None? <==> forall i :: 0 <= i < |t| ==> t[i].key != key
  {
    InsertionPointSplits(t, key);
    var p := InsertionPoint(t, key);
    forall i | 0 <= i < |t| && t[i].key == key ensures Find(t, key) == Some(t[i].value) {
    }
  }

  /** `indexOfKey(key)`: its position, or `-(insertion point) - 1` when absent. */
  function IndexOfKey<T>(t: seq<Entry<T>>, key: int): int
  {
    var p := InsertionPoint(t, key);
    if p < |t| && t[p].key == key then p else -(p as int) - 1
  }

  /** A non-negative answer of `indexOfKey` is the key's position; a negative one means the key is absent. */
  lemma IndexOfKeyMeaning<T>(t: seq<Entry<T>>, key: int)
    requires Ordered(t)
    ensures IndexOfKey(t, key) < |t|
    ensures IndexOfKey(t, key) >= 0 ==> t[IndexOfKey(t, key)].key == key
    ensures IndexOfKey(t, key) < 0 <==> Find(t, key).None?
  {
    FindMeaning(t, key);
  }

  /** `put(key, value)`: replace the entry with that key, or insert one where the search ended. */
  function Put<T>(t: seq<Entry<T>>, key: int, value: T): seq<Entry<T>>
  {
    var p := InsertionPoint(t, key);
    if p < |t| && t[p].key == key then t[p := Entry(key, value)]
    else t[..p] + [Entry(key, value)] + t[p..]
  }

  /** Putting keeps the table ordered, stores the value under the key, and leaves every other key as it was. */
  lemma PutSemantics<T>(t: seq<Entry<T>>, key: int, value: T)
    requires Ordered(t)
    ensures Ordered(Put(t, key, value))
    ensures Find(Put(t, key, value), key) == Some(value)
    ensures forall k :: k != key ==> Find(Put(t, key, value), k) == Find(t, k)
    ensures forall e :: e in Put(t, key, value) ==> e == Entry(key, value) || e in t
  {
    InsertionPointSplits(t, key);
    var p := InsertionPoint(t, key);
    if p < |t| && t[p].key == key {
      var u := t[p := Entry(key, value)];
      assert Put(t, key, value) == u;
      ReplacedOrdered(t, p, value);
      FindMeaning(u, key);
      ReplacedKeepsOthers(t, p, value);
    } else {
      var u := t[..p] + [Entry(key, value)] + t[p..];
      assert Put(t, key, value) == u;
      InsertedOrdered(t, p, Entry(key, value));
      FindMeaning(u, key);
      InsertedKeepsOthers(t, p, Entry(key, value));
    }
  }

  lemma ReplacedOrdered<T>(t: seq<Entry<T>>, p: int, value: T)
    requires Ordered(t) && 0 <= p < |t|
    ensures Ordered(t[p := Entry(t[p].key, value)])
    ensures t[p := Entry(t[p].key, value)][p] == Entry(t[p].key, value)
  {
    var u := t[p := Entry(t[p].key, value)];
    forall i, j | 0 <= i < j < |u| ensures u[i].key < u[j].key {
      assert u[i].key == t[i].key && u[j].key == t[j].key;
    }
  }

  lemma ReplacedKeepsOthers<T>(t: seq<Entry<T>>, p: int, value: T)
    requires Ordered(t) && 0 <= p < |t| && Ordered(t[p := Entry(t[p].key, value)])
    ensures forall k :: k != t[p].key ==> Find(t[p := Entry(t[p].key, value)], k) == Find(t, k)
    ensures forall e :: e in t[p := Entry(t[p].key, value)] ==> e == Entry(t[p].key, value) || e in t
  {
    var u := t[p := Entry(t[p].key, value)];
    forall k | k != t[p].key ensures Find(u, k) == Find(t, k) {
      FindMeaning(t, k);
      FindMeaning(u, k);
      if Find(t, k).Some? {
        var i :| 0 <= i < |t| && t[i].key == k;
        assert u[i] == t[i];
      }
    }
    forall e | e in u ensures e == Entry(t[p].key, value) || e in t {
      var i :| 0 <= i < |u| && u[i] == e;
      if i != p {
        assert u[i] == t[i];
      }
    }
  }

  lemma InsertedOrdered<T>(t: seq<Entry<T>>, p: int, e: Entry<T>)
    requires Ordered(t) && 0 <= p <= |t|
    requires forall i :: 0 <= i < p ==> t[i].key < e.key
    requires forall i :: p <= i < |t| ==> t[i].key > e.key
    ensures Ordered(t[..p] + [e] + t[p..])
    ensures (t[..p] + [e] + t[p..])[p] == e
  {
    var u := t[..p] + [e] + t[p..];
    assert forall i :: 0 <= i < p ==> u[i] == t[i];
    assert forall i :: p < i < |u| ==> u[i] == t[i - 1];
    forall i, j | 0 <= i < j < |u| ensures u[i].key < u[j].key {
      if i < p && j > p {
        assert t[i].key < t[j - 1].key || i == j - 1;
      }
    }
  }

  lemma InsertedKeepsOthers<T>(t: seq<Entry<T>>, p: int, e: Entry<T>)
    requires Ordered(t) && 0 <= p <= |t| && Ordered(t[..p] + [e] + t[p..])
    ensures forall k :: k != e.key ==> Find(t[..p] + [e] + t[p..], k) == Find(t, k)
    ensures forall x :: x in t[..p] + [e] + t[p..] ==> x == e || x in t
  {
    var u := t[..p] + [e] + t[p..];
    assert forall i :: 0 <= i < p ==> u[i] == t[i];
    assert forall i :: p < i < |u| ==> u[i] == t[i - 1];
    forall k | k != e.key ensures Find(u, k) == Find(t, k) {
      FindMeaning(t, k);
      FindMeaning(u, k);
      if Find(t, k).Some? {
        var i :| 0 <= i < |t| && t[i].key == k;
        if i < p {
          assert u[i] == t[i];
        } else {
          assert u[i + 1] == t[i];
        }
      } else {
        forall i | 0 <= i < |u| ensures u[i].key != k {
          if i < p {
            assert u[i] == t[i];
          } else if i > p {
            assert u[i] == t[i - 1];
          }
        }
      }
    }
  }
}
