/** Shared vocabulary: optional values, bytes, and sums over finite sets. */
module Basics {

  datatype Option<+T> = None | Some(value: T)

  type Byte = b: int | 0 <= b < 256

  /** The two directions a byte can travel, plus the wire's "unknown". */
  datatype Direction = Unknown | In | Out

  /** The value a map holds at a key, if any. */
  function Lookup<K, V>(m: map<K, V>, k: K): Option<V> {
    if k in m then Some(m[k]) else None
  }

  /** Sum of f over a finite set; the order in which elements are picked does not matter (SumOverSplit). */
  ghost function SumOver<K(!new)>(keys: set<K>, f: K -> int): int {
    if keys == {} then 0 else
      var k :| k in keys;
      f(k) + SumOver(keys - {k}, f)
  }

  lemma {:induction false} SumOverSplit<K(!new)>(keys: set<K>, f: K -> int, x: K)
    requires x in keys
    ensures SumOver(keys, f) == f(x) + SumOver(keys - {x}, f)
    decreases |keys|
  {
    var k :| k in keys && SumOver(keys, f) == f(k) + SumOver(keys - {k}, f);
    if k != x {
      SumOverSplit(keys - {k}, f, x);
      SumOverSplit(keys - {x}, f, k);
      assert keys - {k} - {x} == keys - {x} - {k};
    }
  }

  lemma {:induction false} SumOverSame<K(!new)>(keys: set<K>, f: K -> int, g: K -> int)
    requires forall k :: k in keys ==> f(k) == g(k)
    ensures SumOver(keys, f) == SumOver(keys, g)
    decreases |keys|
  {
    if keys != {} {
      var k :| k in keys && SumOver(keys, f) == f(k) + SumOver(keys - {k}, f);
      SumOverSame(keys - {k}, f, g);
      SumOverSplit(keys, g, k);
    }
  }

  /** Changing the summand at one element changes the sum by exactly that difference. */
  lemma {:induction false} SumOverChange<K(!new)>(keys: set<K>, f: K -> int, g: K -> int, x: K)
    requires x in keys
    requires forall k :: k in keys && k != x ==> f(k) == g(k)
    ensures SumOver(keys, g) == SumOver(keys, f) - f(x) + g(x)
  {
    SumOverSplit(keys, f, x);
    SumOverSplit(keys, g, x);
    SumOverSame(keys - {x}, f, g);
  }

  lemma {:induction false} SumOverZero<K(!new)>(keys: set<K>, f: K -> int)
    requires forall k :: k in keys ==> f(k) == 0
    ensures SumOver(keys, f) == 0
    decreases |keys|
  {
    if keys != {} {
      var k :| k in keys && SumOver(keys, f) == f(k) + SumOver(keys - {k}, f);
      SumOverZero(keys - {k}, f);
    }
  }

  lemma SubsetSize<T>(a: set<T>, b: set<T>)
    requires a <= b
    ensures |a| <= |b|
    ensures |a| == |b| ==> a == b
  {
    assert b == a + (b - a);
  }

  lemma Regroup<T>(a: seq<T>, b: seq<T>, c: seq<T>)
    ensures a + (b + c) == (a + b) + c
  {
  }
}
