/** `indexBy(arr, key)`: turns a list into a dictionary keyed by one of its fields, the last entry winning. */
module IndexBy {
  import opened Wrappers

  /** The dictionary after `out[key(x)] = x` has run for every `x` of `s`, in order. */
  function Indexed<T, K(==)>(s: seq<T>, key: T -> K): map<K, T> {
    if s == [] then map[] else Indexed(s[..|s| - 1], key)[key(s[|s| - 1]) := s[|s| - 1]]
  }

  /** `x` is the last element of `s` whose key is `k`. */
  ghost predicate LastWithKey<T, K>(s: seq<T>, key: T -> K, k: K, x: T) {
    exists i :: 0 <= i < |s| && s[i] == x && key(x) == k && forall j :: i < j < |s| ==> key(s[j]) != k
  }

  /**
   * The dictionary has exactly one entry per distinct key of the list, and that entry holds the
   * list's last element with that key (so every value is an element of the list).
   */
  lemma {:induction false} IndexedLastWins<T, K>(s: seq<T>, key: T -> K)
    ensures Indexed(s, key).Keys == set x | x in s :: key(x)
    ensures forall k :: k in Indexed(s, key) ==> LastWithKey(s, key, k, Indexed(s, key)[k])
  {
    if s != [] {
      var p, last := s[..|s| - 1], s[|s| - 1];
      IndexedLastWins(p, key);
      var m := Indexed(s, key);
      assert s == p + [last];
      forall k | k in m ensures LastWithKey(s, key, k, m[k]) {
        if k == key(last) {
          assert s[|s| - 1] == m[k];
        } else {
          assert LastWithKey(p, key, k, m[k]);
          var i :| 0 <= i < |p| && p[i] == m[k] && key(m[k]) == k && forall j :: i < j < |p| ==> key(p[j]) != k;
          assert s[i] == p[i];
          forall j | i < j < |s| ensures key(s[j]) != k {
            if j < |p| { assert s[j] == p[j]; }
          }
        }
      }
    }
  }

  /** `indexBy`: a missing list gives an empty dictionary. */
  method IndexBy<T, K(==)>(arr: Option<seq<T>>, key: T -> K) returns (out: map<K, T>)
    ensures out.Keys == set x | x in arr.GetOr([]) :: key(x)
    ensures forall k :: k in out ==> LastWithKey(arr.GetOr([]), key, k, out[k])
    ensures out == Indexed(arr.GetOr([]), key)
  {
    var s := arr.GetOr([]);
    out := map[];
    var i := 0;
    while i < |s|
      invariant 0 <= i <= |s|
      invariant out == Indexed(s[..i], key)
    {
      assert s[..i + 1][..i] == s[..i];
      out := out[key(s[i]) := s[i]];
      i := i + 1;
    }
    assert s[..i] == s;
    IndexedLastWins(s, key);
  }
}
