/**
 * `ORDER BY key DESC`: an insertion sort on a key, with the two facts a query
 * relies on — the result is ordered and is a permutation of its input — and
 * what `LIMIT` keeps of an ordered result.
 */
module Sorting {

  ghost predicate SortedDesc<T>(s: seq<T>, key: T -> real)
  {
    forall i, j :: 0 <= i < j < |s| ==> key(s[i]) >= key(s[j])
  }

  /** Inserts `x` before the first element whose key is not above its own. */
  function InsertDesc<T>(x: T, s: seq<T>, key: T -> real): (r: seq<T>)
    ensures |r| == |s| + 1
  {
    if s == [] || key(x) >= key(s[0]) then [x] + s
    else [s[0]] + InsertDesc(x, s[1..], key)
  }

  /** `ORDER BY key DESC`: the rows ordered by the key, largest first, and no row gained or lost. */
  function SortDesc<T>(s: seq<T>, key: T -> real): (r: seq<T>)
    ensures |r| == |s|
    ensures SortedDesc(r, key)
    ensures multiset(r) == multiset(s)
  {
    if s == [] then []
    else
      var rest := SortDesc(s[1..], key);
      InsertDescSorted(s[0], rest, key);
      InsertDescPermutes(s[0], rest, key);
      assert s == [s[0]] + s[1..];
      InsertDesc(s[0], rest, key)
  }

  lemma {:induction false} InsertDescPermutes<T>(x: T, s: seq<T>, key: T -> real)
    ensures multiset(InsertDesc(x, s, key)) == multiset(s) + multiset{x}
  {
    if s != [] && key(x) < key(s[0]) {
      InsertDescPermutes(x, s[1..], key);
      assert s == [s[0]] + s[1..];
    }
  }

  lemma {:induction false} InsertDescSorted<T>(x: T, s: seq<T>, key: T -> real)
    requires SortedDesc(s, key)
    ensures SortedDesc(InsertDesc(x, s, key), key)
  {
    if s != [] && key(x) < key(s[0]) {
      InsertDescSorted(x, s[1..], key);
      var rest := InsertDesc(x, s[1..], key);
      InsertDescPermutes(x, s[1..], key);
      forall k | 0 <= k < |rest| ensures key(s[0]) >= key(rest[k]) {
        assert rest[k] in multiset(rest);
        assert rest[k] == x || rest[k] in multiset(s[1..]);
        if rest[k] != x {
          var m :| 0 <= m < |s[1..]| && s[1..][m] == rest[k];
          assert s[m + 1] == rest[k];
        }
      }
    }
  }

  /** `LIMIT n`: the first `n` rows; a negative `n` means no limit. */
  function Limit<T>(s: seq<T>, n: int): (r: seq<T>)
    ensures r <= s
    ensures |r| == if n < 0 || n >= |s| then |s| else n
  {
    if n < 0 || n >= |s| then s else s[..n]
  }

  /** In an ordered sequence, everything after position `k` ranks at most as high as everything before it. */
  lemma SortedSplit<T>(s: seq<T>, k: nat, key: T -> real)
    requires SortedDesc(s, key) && k <= |s|
    ensures forall x, y :: x in s[k..] && y in s[..k] ==> key(x) <= key(y)
  {
    forall x, y | x in s[k..] && y in s[..k] ensures key(x) <= key(y) {
      var i :| 0 <= i < |s[k..]| && s[k..][i] == x;
      var j :| 0 <= j < |s[..k]| && s[..k][j] == y;
      assert s[k + i] == x && s[j] == y;
    }
  }

  /** Every row that `LIMIT` cuts off an ordered result ranks at most as high as every row it keeps. */
  lemma LimitKeepsTop<T>(s: seq<T>, n: int, key: T -> real)
    requires SortedDesc(s, key)
    ensures SortedDesc(Limit(s, n), key)
    ensures forall x, y :: x in multiset(s) - multiset(Limit(s, n)) && y in Limit(s, n) ==> key(x) <= key(y)
  {
    var k := |Limit(s, n)|;
    assert Limit(s, n) == s[..k];
    assert s == s[..k] + s[k..];
    calc {
      multiset(s) - multiset(s[..k]);
    ==
      multiset(s[..k]) + multiset(s[k..]) - multiset(s[..k]);
    ==
      multiset(s[k..]);
    }
    SortedSplit(s, k, key);
  }
}
