/** What a library sort of a set's elements may return under a given order, and when that is one listing only. */
module Sorting {
  type Order<!K> = (K, K) -> bool

  ghost predicate StrictOrder<K(!new)>(before: Order<K>) {
    && (forall a, b :: !(before(a, b) && before(b, a)))
    && (forall a, b, c :: before(a, b) && before(b, c) ==> before(a, c))
  }

  ghost predicate Holds<K(!new)>(ks: seq<K>, keys: set<K>) {
    |ks| == |keys| && forall k :: k in ks <==> k in keys
  }

  /** All keys once, none before an earlier one. */
  ghost predicate Sorted<K(!new)>(before: Order<K>, ks: seq<K>, keys: set<K>) {
    && Holds(ks, keys)
    && (forall i, j | 0 <= i < j < |ks| :: ks[i] != ks[j] && !before(ks[j], ks[i]))
  }

  function Insert<K>(before: Order<K>, ks: seq<K>, k: K): seq<K> {
    if ks == [] || before(k, ks[0]) then [k] + ks
    else [ks[0]] + Insert(before, ks[1..], k)
  }

  lemma {:induction false} InsertSorted<K(!new)>(before: Order<K>, ks: seq<K>, keys: set<K>, k: K)
    requires StrictOrder(before) && Sorted(before, ks, keys) && k !in keys
    ensures Sorted(before, Insert(before, ks, k), keys + {k})
    decreases |ks|
  {
    if ks == [] || before(k, ks[0]) {
      HeadSorted(before, k, ks, keys);
    } else {
      TailSorted(before, ks, keys);
      InsertSorted(before, ks[1..], keys - {ks[0]}, k);
      assert keys - {ks[0]} + {k} + {ks[0]} == keys + {k};
      HeadSorted(before, ks[0], Insert(before, ks[1..], k), keys - {ks[0]} + {k});
    }
  }

  lemma TailSorted<K(!new)>(before: Order<K>, ks: seq<K>, keys: set<K>)
    requires Sorted(before, ks, keys) && ks != []
    ensures Sorted(before, ks[1..], keys - {ks[0]})
    ensures forall k | k in keys :: !before(k, ks[0]) || k == ks[0]
  {
  }

  lemma HeadSorted<K(!new)>(before: Order<K>, h: K, ks: seq<K>, keys: set<K>)
    requires Sorted(before, ks, keys) && h !in keys
    requires forall k | k in keys :: !before(k, h)
    ensures Sorted(before, [h] + ks, keys + {h})
  {
  }

  /** One listing, for reference. */
  ghost function Ordered<K(!new)>(before: Order<K>, keys: set<K>): seq<K>
    decreases |keys|
  {
    if keys == {} then []
    else
      var k :| k in keys;
      Insert(before, Ordered(before, keys - {k}), k)
  }

  lemma {:induction false} OrderedSorted<K(!new)>(before: Order<K>, keys: set<K>)
    requires StrictOrder(before)
    ensures Sorted(before, Ordered(before, keys), keys)
    decreases |keys|
  {
    if keys != {} {
      var k :| k in keys && Ordered(before, keys) == Insert(before, Ordered(before, keys - {k}), k);
      OrderedSorted(before, keys - {k});
      InsertSorted(before, Ordered(before, keys - {k}), keys - {k}, k);
      assert keys - {k} + {k} == keys;
    }
  }

  /** Where different keys are always ordered, there is one listing only. */
  lemma {:induction false} OneListing<K(!new)>(before: Order<K>, ks: seq<K>, ls: seq<K>, keys: set<K>)
    requires Sorted(before, ks, keys) && Sorted(before, ls, keys)
    requires forall a, b | a in keys && b in keys && a != b :: before(a, b) || before(b, a)
    ensures ks == ls
    decreases |ks|
  {
    if ks != [] {
      TailSorted(before, ks, keys);
      TailSorted(before, ls, keys);
      assert ks[0] in keys && ls[0] in keys;
      OneListing(before, ks[1..], ls[1..], keys - {ks[0]});
      assert ks == [ks[0]] + ks[1..] && ls == [ls[0]] + ls[1..];
    }
  }

  /** Take the keys in any order, and sort them. */
  method SortKeys<K(==, !new)>(before: Order<K>, keys: set<K>) returns (ks: seq<K>)
    requires StrictOrder(before)
    ensures Sorted(before, ks, keys)
  {
    ks := [];
    var left := keys;
    while left != {}
      invariant left <= keys && Sorted(before, ks, keys - left)
      decreases |left|
    {
      var k :| k in left;
      InsertSorted(before, ks, keys - left, k);
      assert keys - (left - {k}) == keys - left + {k};
      ks, left := Insert(before, ks, k), left - {k};
    }
    assert keys - left == keys;
  }
}
