/**
 * Strict total orders and the ascending enumeration of a finite key set under one.
 * This is how a storage map's `range(.., Order::Ascending)` visits its keys.
 */
module Ordering {

  ghost predicate StrictTotalOrder<K(!new)>(less: (K, K) -> bool)
  {
    && (forall x :: !less(x, x))
    && (forall x, y, z :: less(x, y) && less(y, z) ==> less(x, z))
    && (forall x, y :: x != y ==> less(x, y) || less(y, x))
  }

  predicate StrictlyAscending<K>(s: seq<K>, less: (K, K) -> bool)
  {
    forall i, j :: 0 <= i < j < |s| ==> less(s[i], s[j])
  }

  /** `k` is the least element of `keys`. */
  predicate IsLeast<K(==)>(k: K, keys: set<K>, less: (K, K) -> bool)
  {
    k in keys && forall j | j in keys :: j == k || less(k, j)
  }

  lemma {:induction false} LeastExists<K(!new)>(keys: set<K>, less: (K, K) -> bool)
    requires StrictTotalOrder(less)
    requires keys != {}
    ensures exists k :: IsLeast(k, keys, less)
  {
    var x :| x in keys;
    if keys == {x} {
      assert IsLeast(x, keys, less);
    } else {
      LeastExists(keys - {x}, less);
      var m :| IsLeast(m, keys - {x}, less);
      if less(x, m) {
        forall j | j in keys && j != x && j != m ensures less(x, j) {
          assert less(m, j);
        }
        assert IsLeast(x, keys, less);
      } else {
        assert IsLeast(m, keys, less);
      }
    }
  }

  /** The keys of `keys`, each once, in ascending order. */
  function SortedKeys<K(!new)>(keys: set<K>, less: (K, K) -> bool): (r: seq<K>)
    requires StrictTotalOrder(less)
    ensures |r| == |keys|
    ensures forall k :: k in r <==> k in keys
    ensures StrictlyAscending(r, less)
    decreases keys
  {
    if keys == {} then []
    else
      LeastExists(keys, less);
      var k :| IsLeast(k, keys, less);
      [k] + SortedKeys(keys - {k}, less)
  }
}
