/**
 * LINQ's OrderByDescending, as the core uses it: a stable sort that puts larger keys
 * first and keeps equal keys in their original order. The key order is a parameter;
 * the conversation store sorts chats by date and upload statuses by a string.
 */
module Ordering {

  /** A relation usable as the "less than or equal" of a sort key. */
  ghost predicate TotalPreorder<K(!new)>(leq: (K, K) -> bool)
  {
    && (forall a, b :: leq(a, b) || leq(b, a))
    && (forall a, b, c :: leq(a, b) && leq(b, c) ==> leq(a, c))
  }

  /** Every element's key is at least the key of every element after it. */
  ghost predicate SortedDesc<T, K>(s: seq<T>, key: T -> K, leq: (K, K) -> bool)
  {
    forall i, j :: 0 <= i < j < |s| ==> leq(key(s[j]), key(s[i]))
  }

  /** Inserts x in front of the first element whose key is not larger than x's. */
  function InsertDesc<T, K>(x: T, s: seq<T>, key: T -> K, leq: (K, K) -> bool): (r: seq<T>)
    ensures |r| == |s| + 1
    ensures multiset(r) == multiset(s) + multiset{x}
  {
    if s == [] || leq(key(s[0]), key(x)) then [x] + s
    else
      assert s == [s[0]] + s[1..];
      [s[0]] + InsertDesc(x, s[1..], key, leq)
  }

  /** Insertion sort, newest (largest key) first; equal keys keep their input order. */
  function SortDesc<T, K>(s: seq<T>, key: T -> K, leq: (K, K) -> bool): (r: seq<T>)
    ensures |r| == |s|
    ensures multiset(r) == multiset(s)
  {
    if s == [] then []
    else
      assert s == [s[0]] + s[1..];
      InsertDesc(s[0], SortDesc(s[1..], key, leq), key, leq)
  }

  lemma {:induction false} InsertDescSorted<T, K(!new)>(x: T, s: seq<T>, key: T -> K, leq: (K, K) -> bool)
    requires TotalPreorder(leq)
    requires SortedDesc(s, key, leq)
    ensures SortedDesc(InsertDesc(x, s, key, leq), key, leq)
  {
    if s == [] || leq(key(s[0]), key(x)) {
      var r := [x] + s;
      forall i, j | 0 <= i < j < |r| ensures leq(key(r[j]), key(r[i])) {
        if i == 0 {
          assert r[j] == s[j - 1];
          if j > 1 { assert leq(key(s[j - 1]), key(s[0])); }
        }
      }
    } else {
      var tail := InsertDesc(x, s[1..], key, leq);
      InsertDescSorted(x, s[1..], key, leq);
      var r := [s[0]] + tail;
      forall j | 0 <= j < |tail| ensures leq(key(tail[j]), key(s[0])) {
        assert tail[j] in multiset(tail);
        if tail[j] != x {
          assert tail[j] in multiset(s[1..]);
          var k :| 0 <= k < |s[1..]| && s[1..][k] == tail[j];
          assert s[k + 1] == tail[j];
        }
      }
      forall i, j | 0 <= i < j < |r| ensures leq(key(r[j]), key(r[i])) {
        if i == 0 { assert r[j] == tail[j - 1]; } else { assert r[i] == tail[i - 1] && r[j] == tail[j - 1]; }
      }
    }
  }

  /** The sort's output is ordered by descending key. */
  lemma {:induction false} SortDescSorted<T, K(!new)>(s: seq<T>, key: T -> K, leq: (K, K) -> bool)
    requires TotalPreorder(leq)
    ensures SortedDesc(SortDesc(s, key, leq), key, leq)
  {
    if s != [] {
      SortDescSorted(s[1..], key, leq);
      InsertDescSorted(s[0], SortDesc(s[1..], key, leq), key, leq);
    }
  }

  /** In a sequence sorted by descending key, the first k elements are the k largest. */
  lemma PrefixHoldsLargest<T, K>(s: seq<T>, k: nat, key: T -> K, leq: (K, K) -> bool)
    requires SortedDesc(s, key, leq)
    requires k <= |s|
    ensures forall y, i :: y in multiset(s[k..]) && 0 <= i < k ==> leq(key(y), key(s[i]))
  {
    forall y, i | y in multiset(s[k..]) && 0 <= i < k ensures leq(key(y), key(s[i])) {
      var j :| 0 <= j < |s[k..]| && s[k..][j] == y;
      assert s[k + j] == y;
    }
  }
}

/** Ordinal (code-point by code-point) comparison of strings. */
module StringOrder {
  import opened Ordering

  predicate StrLeq(a: string, b: string)
    decreases |a|
  {
    |a| == 0 || (|b| > 0 && (a[0] < b[0] || (a[0] == b[0] && StrLeq(a[1..], b[1..]))))
  }

  lemma {:induction false} StrLeqTotal(a: string, b: string)
    ensures StrLeq(a, b) || StrLeq(b, a)
    decreases |a|
  {
    if |a| > 0 && |b| > 0 && a[0] == b[0] {
      StrLeqTotal(a[1..], b[1..]);
    }
  }

  lemma {:induction false} StrLeqTrans(a: string, b: string, c: string)
    requires StrLeq(a, b) && StrLeq(b, c)
    ensures StrLeq(a, c)
    decreases |a|
  {
    if |a| > 0 && a[0] == b[0] && b[0] == c[0] {
      StrLeqTrans(a[1..], b[1..], c[1..]);
    }
  }

  /** Ordinal comparison is a total preorder, so it can key a sort. */
  lemma StrLeqTotalPreorder()
    ensures TotalPreorder(StrLeq)
  {
    forall a, b ensures StrLeq(a, b) || StrLeq(b, a) { StrLeqTotal(a, b); }
    forall a, b, c | StrLeq(a, b) && StrLeq(b, c) ensures StrLeq(a, c) { StrLeqTrans(a, b, c); }
  }
}
