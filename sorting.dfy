/**
 * The stable sort the worker gets from `Array.prototype.sort` with a numeric comparator
 * `(a, b) => key(a) - key(b)`: every sort in the scoring engine is of that shape (picks by
 * position, bonus candidates by descending BPS, league rows by descending total, events by
 * deadline). It is modelled as a stable insertion sort on values.
 */
module Sorting {
  import opened Wrappers

  /** `s` is in non-decreasing order of `key`. */
  predicate SortedBy<T>(s: seq<T>, key: T -> int) {
    forall i, j :: 0 <= i < j < |s| ==> key(s[i]) <= key(s[j])
  }

  /** The elements of `s` whose key is `v`, in their order in `s`. */
  function WithKey<T>(s: seq<T>, key: T -> int, v: int): seq<T> {
    if s == [] then []
    else (if key(s[0]) == v then [s[0]] else []) + WithKey(s[1..], key, v)
  }

  /** The number of elements of `s` that satisfy `p`. */
  function Count<T>(s: seq<T>, p: T -> bool): nat {
    if s == [] then 0 else (if p(s[0]) then 1 else 0) + Count(s[1..], p)
  }

  /** No two elements of `s` have the same `id`. */
  predicate DistinctBy<T>(s: seq<T>, id: T -> int) {
    forall i, j :: 0 <= i < j < |s| ==> id(s[i]) != id(s[j])
  }

  /** `s.filter(p)`: the elements of `s` that satisfy `p`, in their order. */
  function Filter<T>(s: seq<T>, p: T -> bool): (r: seq<T>)
    ensures forall k :: 0 <= k < |r| ==> r[k] in s && p(r[k])
    ensures forall k :: 0 <= k < |s| && p(s[k]) ==> s[k] in r
    ensures |r| == Count(s, p)
  {
    if s == [] then [] else (if p(s[0]) then [s[0]] else []) + Filter(s[1..], p)
  }

  /** Filtering keeps the elements' ids apart. */
  lemma {:induction false} FilterDistinct<T>(s: seq<T>, p: T -> bool, id: T -> int)
    requires DistinctBy(s, id)
    ensures DistinctBy(Filter(s, p), id)
  {
    if s != [] {
      DistinctTail(s, id);
      FilterDistinct(s[1..], p, id);
      if p(s[0]) {
        forall z | z in Filter(s[1..], p) ensures id(z) != id(s[0]) {
          var k :| 0 <= k < |s[1..]| && s[1..][k] == z;
          assert s[k + 1] == z;
        }
        DistinctCons(s[0], Filter(s[1..], p), id);
      }
    }
  }

  /** Puts `x` in front of the first element whose key is not smaller than its own. */
  function Insert<T>(x: T, s: seq<T>, key: T -> int): seq<T> {
    if s == [] || key(x) <= key(s[0]) then [x] + s
    else [s[0]] + Insert(x, s[1..], key)
  }

  /** Stable sort of `s` by ascending `key`. */
  function SortBy<T>(s: seq<T>, key: T -> int): seq<T> {
    if s == [] then [] else Insert(s[0], SortBy(s[1..], key), key)
  }

  lemma {:induction false} InsertMultiset<T>(x: T, s: seq<T>, key: T -> int)
    ensures multiset(Insert(x, s, key)) == multiset(s) + multiset{x}
  {
    if s != [] && key(x) > key(s[0]) {
      InsertMultiset(x, s[1..], key);
      assert s == [s[0]] + s[1..];
    }
  }

  /** A sorted list stays sorted behind a head whose key is not above any of its keys. */
  lemma SortedCons<T>(h: T, t: seq<T>, key: T -> int)
    requires SortedBy(t, key)
    requires forall z :: z in t ==> key(h) <= key(z)
    ensures SortedBy([h] + t, key)
  {
    var r := [h] + t;
    forall i, j | 0 <= i < j < |r| ensures key(r[i]) <= key(r[j]) {
      assert r[j] == t[j - 1];
      if i > 0 { assert r[i] == t[i - 1]; } else { assert t[j - 1] in t; }
    }
  }

  lemma {:induction false} InsertSorted<T>(x: T, s: seq<T>, key: T -> int)
    requires SortedBy(s, key)
    ensures SortedBy(Insert(x, s, key), key)
  {
    if s == [] || key(x) <= key(s[0]) {
      forall z | z in s ensures key(x) <= key(z) {
        var k :| 0 <= k < |s| && s[k] == z;
        assert key(s[0]) <= key(s[k]) || k == 0;
      }
      SortedCons(x, s, key);
    } else {
      var rest := Insert(x, s[1..], key);
      assert SortedBy(s[1..], key) by {
        forall i, j | 0 <= i < j < |s[1..]| ensures key(s[1..][i]) <= key(s[1..][j]) {
          assert s[1..][i] == s[i + 1] && s[1..][j] == s[j + 1];
        }
      }
      InsertSorted(x, s[1..], key);
      InsertMultiset(x, s[1..], key);
      forall z | z in rest ensures key(s[0]) <= key(z) {
        assert z in multiset(rest);
        if z != x {
          assert z in multiset(s[1..]);
          var k :| 0 <= k < |s[1..]| && s[1..][k] == z;
          assert s[k + 1] == z;
        }
      }
      SortedCons(s[0], rest, key);
    }
  }

  lemma WithKeyCons<T>(h: T, t: seq<T>, key: T -> int, v: int)
    ensures WithKey([h] + t, key, v) == (if key(h) == v then [h] else []) + WithKey(t, key, v)
  {
    assert ([h] + t)[0] == h;
    assert ([h] + t)[1..] == t;
  }

  lemma {:induction false} InsertWithKey<T>(x: T, s: seq<T>, key: T -> int, v: int)
    ensures WithKey(Insert(x, s, key), key, v) == (if key(x) == v then [x] else []) + WithKey(s, key, v)
  {
    if s == [] || key(x) <= key(s[0]) {
      WithKeyCons(x, s, key, v);
    } else {
      var rest := Insert(x, s[1..], key);
      assert Insert(x, s, key) == [s[0]] + rest;
      InsertWithKey(x, s[1..], key, v);
      WithKeyCons(s[0], rest, key, v);
      assert s == [s[0]] + s[1..];
      WithKeyCons(s[0], s[1..], key, v);
      var hx: seq<T> := if key(x) == v then [x] else [];
      var h0: seq<T> := if key(s[0]) == v then [s[0]] else [];
      assert h0 == [] || hx == [];
      assert h0 + (hx + WithKey(s[1..], key, v)) == hx + (h0 + WithKey(s[1..], key, v));
    }
  }

  lemma {:induction false} InsertCount<T>(x: T, s: seq<T>, key: T -> int, p: T -> bool)
    ensures Count(Insert(x, s, key), p) == Count(s, p) + (if p(x) then 1 else 0)
  {
    if s == [] || key(x) <= key(s[0]) {
      assert ([x] + s)[1..] == s;
    } else {
      InsertCount(x, s[1..], key, p);
      assert ([s[0]] + Insert(x, s[1..], key))[1..] == Insert(x, s[1..], key);
    }
  }

  /** The sort only reorders: it keeps every element, with its multiplicity. */
  lemma {:induction false} SortByPermutes<T>(s: seq<T>, key: T -> int)
    ensures |SortBy(s, key)| == |s|
    ensures multiset(SortBy(s, key)) == multiset(s)
  {
    if s != [] {
      SortByPermutes(s[1..], key);
      InsertMultiset(s[0], SortBy(s[1..], key), key);
      assert s == [s[0]] + s[1..];
      assert |multiset(SortBy(s, key))| == |SortBy(s, key)|;
    }
  }

  /** The sort puts its result in non-decreasing key order. */
  lemma {:induction false} SortBySorted<T>(s: seq<T>, key: T -> int)
    ensures SortedBy(SortBy(s, key), key)
  {
    if s != [] {
      SortBySorted(s[1..], key);
      InsertSorted(s[0], SortBy(s[1..], key), key);
    }
  }

  /** The sort is stable: elements with equal keys keep their relative order. */
  lemma {:induction false} SortByStable<T>(s: seq<T>, key: T -> int, v: int)
    ensures WithKey(SortBy(s, key), key, v) == WithKey(s, key, v)
  {
    if s != [] {
      SortByStable(s[1..], key, v);
      InsertWithKey(s[0], SortBy(s[1..], key), key, v);
    }
  }

  /** How many elements satisfy a predicate does not depend on their order. */
  lemma {:induction false} SortByCount<T>(s: seq<T>, key: T -> int, p: T -> bool)
    ensures Count(SortBy(s, key), p) == Count(s, p)
  {
    if s != [] {
      SortByCount(s[1..], key, p);
      InsertCount(s[0], SortBy(s[1..], key), key, p);
    }
  }

  /** Sorting an already sorted sequence leaves it as it is. */
  lemma {:induction false} SortBySortedIdentity<T>(s: seq<T>, key: T -> int)
    requires SortedBy(s, key)
    ensures SortBy(s, key) == s
  {
    if s != [] {
      assert SortedBy(s[1..], key) by {
        forall i, j | 0 <= i < j < |s[1..]| ensures key(s[1..][i]) <= key(s[1..][j]) {
          assert s[1..][i] == s[i + 1] && s[1..][j] == s[j + 1];
        }
      }
      SortBySortedIdentity(s[1..], key);
      if |s| > 1 { assert key(s[0]) <= key(s[1]); assert s[1..][0] == s[1]; }
      assert [s[0]] + s[1..] == s;
    }
  }

  lemma DistinctTail<T>(s: seq<T>, id: T -> int)
    requires s != [] && DistinctBy(s, id)
    ensures DistinctBy(s[1..], id)
  {
    forall i, j | 0 <= i < j < |s[1..]| ensures id(s[1..][i]) != id(s[1..][j]) {
      assert s[1..][i] == s[i + 1] && s[1..][j] == s[j + 1];
    }
  }

  lemma DistinctCons<T>(y: T, r: seq<T>, id: T -> int)
    requires DistinctBy(r, id)
    requires forall z :: z in r ==> id(z) != id(y)
    ensures DistinctBy([y] + r, id)
  {
    var t := [y] + r;
    forall i, j | 0 <= i < j < |t| ensures id(t[i]) != id(t[j]) {
      assert t[j] == r[j - 1];
      if i > 0 { assert t[i] == r[i - 1]; } else { assert r[j - 1] in r; }
    }
  }

  lemma {:induction false} InsertDistinct<T>(x: T, s: seq<T>, key: T -> int, id: T -> int)
    requires DistinctBy(s, id)
    requires forall z :: z in s ==> id(z) != id(x)
    ensures DistinctBy(Insert(x, s, key), id)
  {
    if s != [] && key(x) > key(s[0]) {
      var rest := Insert(x, s[1..], key);
      DistinctTail(s, id);
      forall z | z in s[1..] ensures id(z) != id(x) { assert z in s; }
      InsertDistinct(x, s[1..], key, id);
      InsertMultiset(x, s[1..], key);
      forall z | z in rest ensures id(s[0]) != id(z) {
        assert z in multiset(rest);
        if z != x {
          assert z in multiset(s[1..]);
          var k :| 0 <= k < |s[1..]| && s[1..][k] == z;
          assert s[k + 1] == z;
        }
      }
      DistinctCons(s[0], rest, id);
    } else {
      DistinctCons(x, s, id);
    }
  }

  /** Sorting cannot make two elements share an `id`. */
  lemma {:induction false} SortByDistinct<T>(s: seq<T>, key: T -> int, id: T -> int)
    requires DistinctBy(s, id)
    ensures DistinctBy(SortBy(s, key), id)
  {
    if s != [] {
      DistinctTail(s, id);
      SortByDistinct(s[1..], key, id);
      SortByPermutes(s[1..], key);
      forall z | z in SortBy(s[1..], key) ensures id(z) != id(s[0]) {
        assert z in multiset(SortBy(s[1..], key));
        var k :| 0 <= k < |s[1..]| && s[1..][k] == z;
        assert s[k + 1] == z;
      }
      InsertDistinct(s[0], SortBy(s[1..], key), key, id);
    }
  }

  /** `s.find(p)`, as an index: the first element of `s` that satisfies `p`. */
  function FindFirst<T>(s: seq<T>, p: T -> bool): (r: Option<nat>)
    ensures r.Some? ==> (r.value < |s| && p(s[r.value]) && forall k :: 0 <= k < r.value ==> !p(s[k]))
    ensures r.None? ==> forall k :: 0 <= k < |s| ==> !p(s[k])
  {
    if s == [] then None
    else if p(s[0]) then Some(0)
    else
      match FindFirst(s[1..], p)
      case None => None
      case Some(k) => Some(k + 1)
  }

  /** `x` occurs in `s` somewhere before `y`. */
  ghost predicate Before<T>(s: seq<T>, x: T, y: T) {
    exists i, j :: 0 <= i < j < |s| && s[i] == x && s[j] == y
  }

  lemma BeforeCons<T>(h: T, t: seq<T>, x: T, y: T)
    ensures Before([h] + t, x, y) <==> (h == x && y in t) || Before(t, x, y)
  {
    var s := [h] + t;
    if Before(s, x, y) {
      var i, j :| 0 <= i < j < |s| && s[i] == x && s[j] == y;
      assert s[j] == t[j - 1];
      if i > 0 { assert s[i] == t[i - 1]; }
    }
    if h == x && y in t {
      var j :| 0 <= j < |t| && t[j] == y;
      assert s[0] == x && s[j + 1] == y;
    }
    if Before(t, x, y) {
      var i, j :| 0 <= i < j < |t| && t[i] == x && t[j] == y;
      assert s[i + 1] == x && s[j + 1] == y;
    }
  }

  lemma {:induction false} WithKeyMembers<T>(s: seq<T>, key: T -> int, v: int)
    ensures forall x :: x in WithKey(s, key, v) <==> x in s && key(x) == v
  {
    if s != [] {
      WithKeyMembers(s[1..], key, v);
      assert s == [s[0]] + s[1..];
    }
  }

  /** Two elements with the key `v` are in the same order in `s` and in `WithKey(s, key, v)`. */
  lemma {:induction false} WithKeyBefore<T>(s: seq<T>, key: T -> int, x: T, y: T)
    requires key(x) == key(y)
    ensures Before(s, x, y) <==> Before(WithKey(s, key, key(x)), x, y)
  {
    if s != [] {
      var v := key(x);
      WithKeyBefore(s[1..], key, x, y);
      WithKeyMembers(s[1..], key, v);
      assert s == [s[0]] + s[1..];
      BeforeCons(s[0], s[1..], x, y);
      if key(s[0]) == v {
        assert WithKey(s, key, v) == [s[0]] + WithKey(s[1..], key, v);
        BeforeCons(s[0], WithKey(s[1..], key, v), x, y);
      } else {
        assert WithKey(s, key, v) == WithKey(s[1..], key, v);
      }
    }
  }

  /** Stability in terms of order: two elements with equal keys keep their relative order. */
  lemma SortByKeepsTieOrder<T>(s: seq<T>, key: T -> int, x: T, y: T)
    requires key(x) == key(y)
    requires Before(s, x, y)
    ensures Before(SortBy(s, key), x, y)
  {
    WithKeyBefore(s, key, x, y);
    SortByStable(s, key, key(x));
    WithKeyBefore(SortBy(s, key), key, x, y);
  }
}
