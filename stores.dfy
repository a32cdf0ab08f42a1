/**
 * Helpers for the in-memory stores. Both stores are Python dicts, which iterate
 * in insertion order; the model keeps that order as a duplicate-free sequence of
 * keys beside the map.
 */
module Stores {
  import opened Base

  predicate NoDuplicates<K(==)>(s: seq<K>)
  {
    forall i, j :: 0 <= i < j < |s| ==> s[i] != s[j]
  }

  /** `a` is `b` with some elements dropped, the rest kept in their order. */
  predicate IsSubsequence<K(==)>(a: seq<K>, b: seq<K>)
  {
    a == [] ||
    (b != [] && ((a[0] == b[0] && IsSubsequence(a[1..], b[1..])) || IsSubsequence(a, b[1..])))
  }

  lemma {:induction false} SubsequenceMembers<K>(a: seq<K>, b: seq<K>)
    requires IsSubsequence(a, b)
    ensures forall x :: x in a ==> x in b
    ensures |a| <= |b|
  {
    if a != [] {
      if a[0] == b[0] && IsSubsequence(a[1..], b[1..]) {
        SubsequenceMembers(a[1..], b[1..]);
        assert a == [a[0]] + a[1..] && b == [b[0]] + b[1..];
      } else {
        SubsequenceMembers(a, b[1..]);
      }
    }
  }

  /** A subsequence of a duplicate-free sequence is duplicate-free. */
  lemma {:induction false} SubsequenceNoDuplicates<K>(a: seq<K>, b: seq<K>)
    requires IsSubsequence(a, b) && NoDuplicates(b)
    ensures NoDuplicates(a)
  {
    if a != [] {
      if a[0] == b[0] && IsSubsequence(a[1..], b[1..]) {
        SubsequenceNoDuplicates(a[1..], b[1..]);
        SubsequenceMembers(a[1..], b[1..]);
        assert a[0] !in b[1..];
      } else {
        SubsequenceNoDuplicates(a, b[1..]);
      }
    }
  }

  /** Python's `if class_id:` — an absent or empty filter keeps every record. */
  predicate PassesClassFilter(filter: Option<string>, classId: string)
  {
    filter.None? || filter.value == "" || classId == filter.value
  }

  /**
   * The keys of `order` whose record satisfies `keep`, in `order`'s order:
   * `[v for v in db.values() if keep(v)]`, read by key.
   */
  function KeysWhere<K(==,!new), V>(order: seq<K>, db: map<K, V>, keep: V -> bool): (r: seq<K>)
    requires forall k :: k in order ==> k in db
    ensures IsSubsequence(r, order)
    ensures forall k :: k in r <==> k in order && keep(db[k])
  {
    if order == [] then []
    else if keep(db[order[0]]) then [order[0]] + KeysWhere(order[1..], db, keep)
    else KeysWhere(order[1..], db, keep)
  }

  /** A filter that keeps every record returns the whole order. */
  lemma {:induction false} KeepAll<K(!new), V>(order: seq<K>, db: map<K, V>, keep: V -> bool)
    requires forall k :: k in order ==> k in db
    requires forall v :: keep(v)
    ensures KeysWhere(order, db, keep) == order
  {
    if order != [] {
      KeepAll(order[1..], db, keep);
    }
  }

  /** `order` with the key `k` taken out (the effect of `del db[k]` on iteration order). */
  function Remove<K(==,!new)>(order: seq<K>, k: K): (r: seq<K>)
    ensures IsSubsequence(r, order)
    ensures forall x :: x in r <==> x in order && x != k
  {
    if order == [] then []
    else if order[0] == k then Remove(order[1..], k)
    else [order[0]] + Remove(order[1..], k)
  }

  lemma RemoveKeepsNoDuplicates<K(!new)>(order: seq<K>, k: K)
    requires NoDuplicates(order)
    ensures NoDuplicates(Remove(order, k))
  {
    SubsequenceNoDuplicates(Remove(order, k), order);
  }

  /** A duplicate-free sequence holds each value at most once. */
  lemma {:induction false} NoDuplicatesCount<K>(s: seq<K>, x: K)
    requires NoDuplicates(s)
    ensures multiset(s)[x] <= 1
  {
    if s != [] {
      assert s == [s[0]] + s[1..];
      NoDuplicatesCount(s[1..], x);
      if s[0] == x {
        assert x !in s[1..];
      }
    }
  }

  /** Values taken from a duplicate-free sequence, each at most as often as it occurs there, are duplicate-free. */
  lemma SubMultisetNoDuplicates<K>(a: seq<K>, b: seq<K>)
    requires multiset(a) <= multiset(b) && NoDuplicates(b)
    ensures NoDuplicates(a)
  {
    forall i, j | 0 <= i < j < |a|
      ensures a[i] != a[j]
    {
      NoDuplicatesCount(b, a[i]);
      assert a == a[..j] + [a[j]] + a[j + 1..];
      assert a[i] in a[..j];
    }
  }

  /** Writing a key twice leaves only the second write. */
  lemma OverwriteTwice<K, V>(m: map<K, V>, k: K, v: V, w: V)
    ensures m[k := v][k := w] == m[k := w]
  {
  }
}
