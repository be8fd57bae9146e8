/**
 * `ORDER BY ... LIMIT n` as the ledger's queries use it: a stable insertion sort
 * on a pair key compared lexicographically, and taking a prefix.
 */
module Ordering {

  /** Lexicographic order on pair keys; each `ORDER BY` column becomes one component. */
  predicate KeyLe(a: (int, int), b: (int, int)) {
    a.0 < b.0 || (a.0 == b.0 && a.1 <= b.1)
  }

  ghost predicate SortedBy<T>(s: seq<T>, key: T -> (int, int)) {
    forall i, j :: 0 <= i < j < |s| ==> KeyLe(key(s[i]), key(s[j]))
  }

  function Insert<T(==)>(x: T, s: seq<T>, key: T -> (int, int)): (r: seq<T>)
    requires SortedBy(s, key)
    ensures SortedBy(r, key)
    ensures multiset(r) == multiset(s) + multiset{x}
  {
    if s == [] then [x]
    else if KeyLe(key(x), key(s[0])) then
      SortedCons(x, s, key);
      [x] + s
    else
      assert s == [s[0]] + s[1..];
      var rest := Insert(x, s[1..], key);
      assert forall y :: y in rest ==> y in multiset(s[1..]) + multiset{x};
      assert forall y :: y in rest ==> KeyLe(key(s[0]), key(y));
      SortedCons(s[0], rest, key);
      [s[0]] + rest
  }

  /** Putting a row whose key is at most the first key in front of a sorted sequence keeps it sorted. */
  lemma SortedCons<T>(x: T, s: seq<T>, key: T -> (int, int))
    requires SortedBy(s, key)
    requires s != [] ==> KeyLe(key(x), key(s[0])) || forall y :: y in s ==> KeyLe(key(x), key(y))
    ensures SortedBy([x] + s, key)
  {
    var r := [x] + s;
    forall i, j | 0 <= i < j < |r|
      ensures KeyLe(key(r[i]), key(r[j]))
    {
      if i == 0 {
        assert r[j] == s[j - 1];
        if !(forall y :: y in s ==> KeyLe(key(x), key(y))) {
          assert KeyLe(key(x), key(s[0]));
          if j > 1 {
            assert KeyLe(key(s[0]), key(s[j - 1]));
          }
        }
      } else {
        assert r[i] == s[i - 1] && r[j] == s[j - 1];
      }
    }
  }

  /** The rows of `s` ordered by `key`. */
  function SortBy<T(==)>(s: seq<T>, key: T -> (int, int)): (r: seq<T>)
    ensures SortedBy(r, key)
    ensures multiset(r) == multiset(s)
    ensures |r| == |s|
  {
    if s == [] then []
    else
      assert s == [s[0]] + s[1..];
      Insert(s[0], SortBy(s[1..], key), key)
  }

  /** `LIMIT n`. */
  function Take<T>(s: seq<T>, n: nat): (r: seq<T>)
    ensures |r| == if n < |s| then n else |s|
    ensures r == s[..|r|]
    ensures multiset(r) <= multiset(s)
  {
    if n < |s| then
      assert s == s[..n] + s[n..];
      s[..n]
    else s
  }

  /** A prefix of a sorted sequence holds rows whose keys are at most those of every row left out. */
  lemma SortedPrefixIsSmallest<T>(s: seq<T>, key: T -> (int, int), n: nat, y: T)
    requires SortedBy(s, key)
    requires y in multiset(s) && y !in multiset(Take(s, n))
    ensures forall x :: x in Take(s, n) ==> KeyLe(key(x), key(y))
  {
    var t := Take(s, n);
    assert s == t + s[|t|..];
    assert y in s[|t|..] by {
      assert multiset(s) == multiset(t) + multiset(s[|t|..]);
    }
    var j :| |t| <= j < |s| && s[j] == y;
    forall x | x in t
      ensures KeyLe(key(x), key(y))
    {
      var i :| 0 <= i < |t| && t[i] == x;
      assert s[i] == x;
    }
  }

  /**
   * `LIMIT n` after `ORDER BY` over rows `s`: the rows kept come from `s`, and each
   * sorts no later than every row of `s` that was not kept.
   */
  lemma LimitKeepsSmallest<T>(s: seq<T>, key: T -> (int, int), n: nat)
    ensures forall x :: x in Take(SortBy(s, key), n) ==> x in s
    ensures forall x, y :: x in Take(SortBy(s, key), n) && y in s && y !in Take(SortBy(s, key), n) ==>
      KeyLe(key(x), key(y))
  {
    var sorted := SortBy(s, key);
    var t := Take(sorted, n);
    forall x | x in t
      ensures x in s
    {
      assert x in sorted;
      assert x in multiset(sorted);
    }
    forall x, y | x in t && y in s && y !in t
      ensures KeyLe(key(x), key(y))
    {
      assert y in multiset(s);
      SortedPrefixIsSmallest(sorted, key, n, y);
    }
  }
}
