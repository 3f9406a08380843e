/** `LRUCache` of app/core/file_processor.py: a bounded map kept in recency
    order in an `OrderedDict`, oldest entry first. `get` moves a hit to the
    most-recent end; `put` first pops the oldest entry whenever the size has
    reached the capacity, then stores the key at the most-recent end. */
module Lru {
  import opened Wrappers

  ghost predicate Distinct<K(!new)>(s: seq<K>) {
    forall i, j :: 0 <= i < j < |s| ==> s[i] != s[j]
  }

  function Max0(n: int): nat {
    if n < 0 then 0 else n
  }

  /** `s` with every occurrence of `x` taken out, the rest in their order. */
  function Remove<K(==,!new)>(s: seq<K>, x: K): (r: seq<K>)
    ensures forall y :: y in r <==> y in s && y != x
    ensures |r| <= |s|
    decreases |s|
  {
    if s == [] then []
    else if s[0] == x then Remove(s[1..], x)
    else [s[0]] + Remove(s[1..], x)
  }

  /** `OrderedDict.move_to_end(x)` on the key order, and also the order after
      `d[x] = v` followed by `move_to_end(x)`, whether or not `x` was present. */
  function MoveToEnd<K(==,!new)>(s: seq<K>, x: K): (r: seq<K>)
    ensures |r| > 0 && r[|r| - 1] == x
    ensures forall y :: y in r <==> y in s || y == x
  {
    Remove(s, x) + [x]
  }

  lemma {:induction false} RemoveDistinct<K(!new)>(s: seq<K>, x: K)
    requires Distinct(s)
    ensures Distinct(Remove(s, x))
    ensures |Remove(s, x)| == if x in s then |s| - 1 else |s|
    decreases |s|
  {
    if s != [] {
      RemoveDistinct(s[1..], x);
      assert s == [s[0]] + s[1..];
      assert s[0] !in s[1..];
    }
  }

  lemma {:induction false} RemoveConcat<K(!new)>(a: seq<K>, b: seq<K>, x: K)
    ensures Remove(a + b, x) == Remove(a, x) + Remove(b, x)
    decreases |a|
  {
    if a != [] {
      assert (a + b)[1..] == a[1..] + b;
      RemoveConcat(a[1..], b, x);
    } else {
      assert a + b == b;
    }
  }

  lemma {:induction false} RemoveTwice<K(!new)>(s: seq<K>, x: K)
    ensures Remove(Remove(s, x), x) == Remove(s, x)
    decreases |s|
  {
    if s != [] {
      RemoveTwice(s[1..], x);
      if s[0] != x {
        assert ([s[0]] + Remove(s[1..], x))[1..] == Remove(s[1..], x);
      }
    }
  }

  /** Moving a key to the end leaves the other keys in their relative order:
      with the moved key filtered out, the order is what it was. */
  lemma MoveToEndKeepsOthersInOrder<K(!new)>(s: seq<K>, x: K)
    ensures Remove(MoveToEnd(s, x), x) == Remove(s, x)
  {
    RemoveConcat(Remove(s, x), [x], x);
    RemoveTwice(s, x);
    assert Remove([x], x) == [];
  }

  /** A distinct key order stays distinct when a key is moved to the end; it
      grows by one exactly when the key was absent. */
  lemma MoveToEndDistinct<K(!new)>(s: seq<K>, x: K)
    requires Distinct(s)
    ensures Distinct(MoveToEnd(s, x))
    ensures |MoveToEnd(s, x)| == if x in s then |s| else |s| + 1
  {
    RemoveDistinct(s, x);
  }

  // ------------------------------------------------------------ put, on values

  /** `popitem(last=False)` can run: it raises KeyError only on an empty dict. */
  predicate CanPut<K(!new)>(order: seq<K>, capacity: int) {
    |order| < capacity || |order| > 0
  }

  /** The key order left after `put`'s eviction step. */
  function Evicted<K(!new)>(order: seq<K>, capacity: int): seq<K>
    requires CanPut(order, capacity)
  {
    if |order| >= capacity then order[1..] else order
  }

  /** The key order after `put(key, _)`. */
  function PutOrder<K(==,!new)>(order: seq<K>, capacity: int, key: K): seq<K>
    requires CanPut(order, capacity)
  {
    MoveToEnd(Evicted(order, capacity), key)
  }

  /** The entries after `put(key, value)`. */
  function PutStore<K(==,!new), V>(order: seq<K>, store: map<K, V>, capacity: int, key: K, value: V): map<K, V>
    requires CanPut(order, capacity)
  {
    (if |order| >= capacity then store - {order[0]} else store)[key := value]
  }

  /** `put` keeps the keys distinct and the size within the capacity; it
      holds exactly the keys that survived the eviction step plus `key`. */
  lemma PutWithinCapacity<K(!new)>(order: seq<K>, capacity: int, key: K)
    requires Distinct(order) && |order| <= Max0(capacity) && CanPut(order, capacity)
    ensures Distinct(PutOrder(order, capacity, key))
    ensures |PutOrder(order, capacity, key)| <= capacity
    ensures forall y :: y in PutOrder(order, capacity, key) <==>
              y == key || (y in order && (|order| >= capacity ==> y != order[0]))
  {
    var e := Evicted(order, capacity);
    assert Distinct(e);
    MoveToEndDistinct(e, key);
    if |order| >= capacity {
      assert order == [order[0]] + e;
      forall y ensures y in e <==> y in order && y != order[0] {
        if y in e {
          var i :| 0 <= i < |e| && e[i] == y;
          assert order[i + 1] == y;
        }
      }
    }
  }

  /** In a full cache, an absent key takes the place of the oldest entry:
      the oldest key is gone and the size stays at the capacity. */
  lemma PutAbsentEvictsOldest<K(!new)>(order: seq<K>, capacity: int, key: K)
    requires Distinct(order) && |order| == capacity >= 1 && key !in order
    ensures order[0] !in PutOrder(order, capacity, key)
    ensures |PutOrder(order, capacity, key)| == capacity
    ensures PutOrder(order, capacity, key) == order[1..] + [key]
  {
    PutWithinCapacity(order, capacity, key);
    var e := order[1..];
    assert key !in e;
    RemoveDistinct(e, key);
    RemoveNothing(e, key);
  }

  lemma {:induction false} RemoveNothing<K(!new)>(s: seq<K>, x: K)
    requires x !in s
    ensures Remove(s, x) == s
    decreases |s|
  {
    if s != [] {
      RemoveNothing(s[1..], x);
      assert s == [s[0]] + s[1..];
    }
  }

  /** As written, `put` on a key that is already present in a full cache still
      pops the oldest entry: when that entry is another key, the cache shrinks
      to one below its capacity although nothing new was added. */
  lemma PutPresentInFullCacheShrinks<K(!new)>(order: seq<K>, capacity: int, key: K)
    requires Distinct(order) && |order| == capacity >= 1
    requires key in order && order[0] != key
    ensures order[0] !in PutOrder(order, capacity, key)
    ensures |PutOrder(order, capacity, key)| == capacity - 1
  {
    PutWithinCapacity(order, capacity, key);
    var e := order[1..];
    assert key in e by { var i :| 0 <= i < |order| && order[i] == key; assert e[i - 1] == key; }
    MoveToEndDistinct(e, key);
  }

  /** `put` of capacity + 1 distinct keys, one after another, into an empty
      cache evicts exactly the first one. */
  lemma FillingPastCapacityEvictsFirst<K(!new)>(keys: seq<K>, capacity: int)
    requires capacity >= 1 && |keys| == capacity + 1 && Distinct(keys)
    ensures PutAll([], capacity, keys) == keys[1..]
  {
    PutAllBelowCapacity(keys[..capacity], capacity);
    PutAllSnoc([], capacity, keys[..capacity], keys[capacity]);
    assert keys[..capacity] + [keys[capacity]] == keys;
    PutAbsentEvictsOldest(keys[..capacity], capacity, keys[capacity]);
    assert keys[..capacity][1..] + [keys[capacity]] == keys[1..];
  }

  /** The key order after a series of `put` calls, none of which raised. */
  function PutAll<K(==,!new)>(order: seq<K>, capacity: int, keys: seq<K>): seq<K>
    requires capacity >= 1
    decreases |keys|
  {
    if keys == [] then order
    else PutAll(PutOrder(order, capacity, keys[0]), capacity, keys[1..])
  }

  lemma {:induction false} PutAllSnoc<K(!new)>(order: seq<K>, capacity: int, keys: seq<K>, k: K)
    requires capacity >= 1
    ensures PutAll(order, capacity, keys + [k]) == PutAll(PutAll(order, capacity, keys), capacity, [k])
    decreases |keys|
  {
    if keys != [] {
      assert (keys + [k])[1..] == keys[1..] + [k];
      PutAllSnoc(PutOrder(order, capacity, keys[0]), capacity, keys[1..], k);
    } else {
      assert keys + [k] == [k];
    }
  }

  /** Up to the capacity, distinct keys are simply appended in order. */
  lemma {:induction false} PutAllBelowCapacity<K(!new)>(keys: seq<K>, capacity: int)
    requires capacity >= 1 && |keys| <= capacity && Distinct(keys)
    ensures PutAll([], capacity, keys) == keys
    decreases |keys|
  {
    if keys != [] {
      var init := keys[..|keys| - 1];
      var k := keys[|keys| - 1];
      assert Distinct(init);
      PutAllBelowCapacity(init, capacity);
      PutAllSnoc([], capacity, init, k);
      assert init + [k] == keys;
      assert k !in init;
      RemoveNothing(init, k);
    }
  }

  // ------------------------------------------------------------ the class

  class LruCache<K(==,!new), V> {
    /** The keys of the OrderedDict, least recently used first. */
    var order: seq<K>
    /** The entries of the OrderedDict. */
    var store: map<K, V>
    const capacity: int

    ghost predicate Valid()
      reads this
    {
      && Distinct(order)
      && (forall k :: k in order <==> k in store)
      && |order| <= Max0(capacity)
    }

    constructor (capacity: int)
      ensures Valid()
      ensures this.capacity == capacity && order == [] && store == map[]
    {
      this.capacity := capacity;
      order := [];
      store := map[];
    }

    /** `get(key)`: None on a miss, with nothing changed; on a hit the value,
        and the key becomes the most recently used. */
    method Get(key: K) returns (r: Option<V>)
      requires Valid()
      modifies this
      ensures Valid()
      ensures store == old(store)
      ensures key !in old(store) ==> r == None && order == old(order)
      ensures key in old(store) ==> r == Some(old(store)[key]) && order == MoveToEnd(old(order), key)
    {
      if key !in store {
        return None;
      }
      MoveToEndDistinct(order, key);
      order := MoveToEnd(order, key);
      r := Some(store[key]);
    }

    /** `put(key, value)`. `ok` is false when `popitem(last=False)` raises
        KeyError on an empty dict, which happens only when capacity <= 0;
        then nothing changes. */
    method Put(key: K, value: V) returns (ok: bool)
      requires Valid()
      modifies this
      ensures Valid()
      ensures ok <==> CanPut(old(order), capacity)
      ensures !ok ==> order == old(order) && store == old(store)
      ensures ok ==> order == PutOrder(old(order), capacity, key)
      ensures ok ==> store == PutStore(old(order), old(store), capacity, key, value)
    {
      if !CanPut(order, capacity) {
        return false;
      }
      PutWithinCapacity(order, capacity, key);
      if |order| >= capacity {
        store := store - {order[0]};
        order := order[1..];
      }
      store := store[key := value];
      order := MoveToEnd(order, key);
      ok := true;
    }
  }
}
