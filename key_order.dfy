/**
 * The ascending key order of a `BTreeMap<u32, _>`: what `keys().nth(i)` returns,
 * and why, on keys `0 .. n-1`, the `i`-th key is `i` itself.
 */
module KeyOrder {
  import opened Wrappers
  import opened LtIo

  /** The keys of `keys` that are smaller than `k`. */
  ghost function Below(keys: set<U32>, k: int): set<U32> {
    set x | x in keys && x < k
  }

  /** `m` is the least element of `s`. */
  predicate IsLeast(s: set<U32>, m: U32) {
    m in s && forall y :: y in s ==> m <= y
  }

  /** `k` is the `i`-th key (counting from 0) of `keys` in ascending order. */
  ghost predicate IsNthKey(keys: set<U32>, k: U32, i: nat) {
    k in keys && |Below(keys, k)| == i
  }

  /** Every non-empty set of keys has a least element. */
  lemma {:induction false} MinimumExists(s: set<U32>)
    requires s != {}
    ensures exists m :: IsLeast(s, m)
  {
    var x :| x in s;
    if s == {x} {
      assert IsLeast(s, x);
    } else {
      var rest := s - {x};
      MinimumExists(rest);
      var m :| IsLeast(rest, m);
      assert forall y :: y in s ==> y == x || y in rest;
      if x < m {
        assert IsLeast(s, x);
      } else {
        assert IsLeast(s, m);
      }
    }
  }

  lemma SubsetCard(a: set<U32>, b: set<U32>)
    requires a <= b
    ensures |a| <= |b|
  {
    assert b == a + (b - a);
    assert a * (b - a) == {};
  }

  /** At most one key holds each position: the ascending order is total. */
  lemma {:induction false} NthKeyUnique(keys: set<U32>, k1: U32, k2: U32, i: nat)
    requires IsNthKey(keys, k1, i) && IsNthKey(keys, k2, i)
    ensures k1 == k2
  {
    if k1 != k2 {
      var lo, hi := if k1 < k2 then k1 else k2, if k1 < k2 then k2 else k1;
      assert Below(keys, lo) + {lo} <= Below(keys, hi);
      assert lo !in Below(keys, lo);
      SubsetCard(Below(keys, lo) + {lo}, Below(keys, hi));
      assert false;
    }
  }

  /** When the keys are `0 .. n-1`, exactly `i` of them lie below `i <= n`. */
  lemma {:induction false} DenseBelow(keys: set<U32>, n: nat, i: nat)
    requires n <= U32_LIMIT
    requires forall k: U32 :: k in keys <==> k < n
    requires i <= n
    ensures |Below(keys, i)| == i
  {
    if i > 0 {
      DenseBelow(keys, n, i - 1);
      assert Below(keys, i) == Below(keys, i - 1) + {(i - 1) as U32};
    }
  }

  /** On the keys `0 .. n-1`, the `i`-th key in ascending order is `i`, and only `i`. */
  lemma DenseNthKey(keys: set<U32>, n: nat, i: nat)
    requires n <= U32_LIMIT
    requires forall k: U32 :: k in keys <==> k < n
    requires i < n
    ensures i < U32_LIMIT && IsNthKey(keys, i as U32, i)
    ensures forall k: U32 :: IsNthKey(keys, k, i) ==> k == i
  {
    DenseBelow(keys, n, i);
    forall k: U32 | IsNthKey(keys, k, i) ensures k == i {
      NthKeyUnique(keys, k, i as U32, i);
    }
  }

  /**
   * `keys().nth(index)`: walks the keys in ascending order, least first, and
   * returns the `index`-th one, or `None` when there are not that many keys.
   */
  method NthKey(keys: set<U32>, index: nat) returns (r: Option<U32>)
    ensures r.Some? <==> index < |keys|
    ensures r.Some? ==> IsNthKey(keys, r.value, index)
  {
    var rest := keys;
    ghost var passed: set<U32> := {};
    var i := 0;
    while rest != {}
      invariant rest == keys - passed && passed <= keys
      invariant |passed| == i && |rest| + i == |keys|
      invariant i <= index
      invariant forall a, b :: a in passed && b in rest ==> a < b
      decreases rest
    {
      MinimumExists(rest);
      var m :| IsLeast(rest, m);
      if i == index {
        forall x | x in Below(keys, m) ensures x in passed {
          assert x !in rest;
        }
        assert Below(keys, m) == passed;
        return Some(m);
      }
      rest, passed, i := rest - {m}, passed + {m}, i + 1;
    }
    return None;
  }
}
