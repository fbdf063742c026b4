/**
 * `Array.prototype.sort` with a "largest key first" comparator
 * `(a, b) => key(b) - key(a)`, as the history, transaction and leaderboard
 * queries use it. The sort is stable. A record whose key is missing makes
 * the comparator return NaN, which the sort reads as "equal"; such a
 * comparator is not consistent, so the order is only specified for
 * sequences in which every key is present.
 */
module Sorting {
  import opened Wrappers

  /** `a` goes strictly before `b`: the comparator is negative on `(a, b)`. */
  predicate Before<T>(key: T -> Option<real>, a: T, b: T) {
    key(a).Some? && key(b).Some? && key(a).value > key(b).value
  }

  predicate AllKeyed<T>(s: seq<T>, key: T -> Option<real>) {
    forall i :: 0 <= i < |s| ==> key(s[i]).Some?
  }

  /** No element has a strictly larger key than one placed before it. */
  predicate Descending<T>(s: seq<T>, key: T -> Option<real>) {
    forall i, j :: 0 <= i < j < |s| ==> !Before(key, s[j], s[i])
  }

  /** Places `x` in front of the first element that does not go strictly before it. */
  function Insert<T(==)>(x: T, s: seq<T>, key: T -> Option<real>): (r: seq<T>)
    ensures multiset(r) == multiset(s) + multiset{x}
  {
    if s == [] then [x]
    else
      assert s == [s[0]] + s[1..];
      if Before(key, s[0], x) then [s[0]] + Insert(x, s[1..], key)
    else [x] + s
  }

  /** The stable sort, largest key first. */
  function SortDesc<T(==)>(s: seq<T>, key: T -> Option<real>): (r: seq<T>)
    ensures multiset(r) == multiset(s)
    ensures |r| == |s|
  {
    if s == [] then [] else
      var t := SortDesc(s[1..], key);
      assert s == [s[0]] + s[1..];
      Insert(s[0], t, key)
  }

  lemma {:induction false} InsertDescending<T>(x: T, s: seq<T>, key: T -> Option<real>)
    requires AllKeyed(s, key) && key(x).Some? && Descending(s, key)
    ensures Descending(Insert(x, s, key), key)
  {
    var r := Insert(x, s, key);
    if s == [] {
    } else if Before(key, s[0], x) {
      var t := s[1..];
      assert AllKeyed(t, key);
      InsertDescending(x, t, key);
      var u := Insert(x, t, key);
      assert r == [s[0]] + u;
      forall j | 0 < j < |r|
        ensures !Before(key, r[j], r[0])
      {
        assert r[j] in multiset(u);
        assert r[j] in multiset(t) || r[j] == x;
        if r[j] in t {
          var k :| 0 <= k < |t| && t[k] == r[j];
          assert s[k + 1] == r[j];
        }
      }
    } else {
      assert r == [x] + s;
      forall i, j | 0 <= i < j < |r|
        ensures !Before(key, r[j], r[i])
      {
        if i == 0 {
          assert !Before(key, s[0], x);
          if j > 1 {
            assert !Before(key, s[j - 1], s[0]);
          }
        }
      }
    }
  }

  /** When every key is present, the sort yields largest key first. */
  lemma {:induction false} SortDescOrdered<T>(s: seq<T>, key: T -> Option<real>)
    requires AllKeyed(s, key)
    ensures Descending(SortDesc(s, key), key)
    ensures AllKeyed(SortDesc(s, key), key)
  {
    var r := SortDesc(s, key);
    if s != [] {
      assert AllKeyed(s[1..], key);
      SortDescOrdered(s[1..], key);
      InsertDescending(s[0], SortDesc(s[1..], key), key);
    }
    forall i | 0 <= i < |r|
      ensures key(r[i]).Some?
    {
      assert r[i] in multiset(s);
      var k :| 0 <= k < |s| && s[k] == r[i];
    }
  }

  /** Every element of the sorted sequence comes from the input. */
  lemma SortDescMembers<T>(s: seq<T>, key: T -> Option<real>, y: T)
    ensures y in SortDesc(s, key) <==> y in s
  {
    assert y in SortDesc(s, key) <==> y in multiset(SortDesc(s, key));
  }
}
