/**
 * The two text operations the spot queries use, as SQLite defines them:
 * `lower()`, which folds only the ASCII letters A-Z, and `LIKE`, where `%`
 * matches any run of characters, `_` any one character, and ASCII letters
 * match regardless of case.
 */
module SqlText {

  function LowerChar(c: char): (l: char)
    ensures 'A' <= c <= 'Z' ==> l as int == c as int + 32
    ensures !('A' <= c <= 'Z') ==> l == c
  {
    if 'A' <= c <= 'Z' then (c as int + 32) as char else c
  }

  /** SQLite's `lower(s)`. */
  function Lower(s: string): (r: string)
    ensures |r| == |s|
    ensures forall i :: 0 <= i < |s| ==> r[i] == LowerChar(s[i])
  {
    if s == [] then [] else [LowerChar(s[0])] + Lower(s[1..])
  }

  /** Two strings equal up to ASCII case. */
  predicate FoldEq(a: string, b: string)
  {
    |a| == |b| && forall i :: 0 <= i < |a| ==> LowerChar(a[i]) == LowerChar(b[i])
  }

  lemma FoldEqIsLowerEq(a: string, b: string)
    ensures FoldEq(a, b) <==> Lower(a) == Lower(b)
  {
    if Lower(a) == Lower(b) {
      forall i | 0 <= i < |a| ensures LowerChar(a[i]) == LowerChar(b[i]) {
        assert Lower(a)[i] == Lower(b)[i];
      }
    }
  }

  predicate NoWildcards(s: string) { '%' !in s && '_' !in s }

  /** `s LIKE p` with SQLite's default case folding and no escape character. */
  function Like(s: string, p: string): (m: bool)
    ensures NoWildcards(p) ==> (m <==> FoldEq(s, p))
    decreases |s| + |p|
  {
    if p == [] then s == []
    else if p[0] == '%' then Like(s, p[1..]) || (s != [] && Like(s[1..], p))
    else if p[0] == '_' then s != [] && Like(s[1..], p[1..])
    else s != [] && LowerChar(s[0]) == LowerChar(p[0]) && Like(s[1..], p[1..])
  }

  /** `x` occurs in `s` at position `k`, up to ASCII case. */
  predicate OccursAt(s: string, x: string, k: int)
  {
    0 <= k <= |s| - |x| && FoldEq(s[k..k + |x|], x)
  }

  /** `s` contains `x` up to ASCII case. */
  ghost predicate ContainsFolded(s: string, x: string)
  {
    exists k :: OccursAt(s, x, k)
  }

  /** The suffix of `s` from position `k` is `LIKE q`. */
  predicate SuffixLike(s: string, q: string, k: int)
  {
    0 <= k <= |s| && Like(s[k..], q)
  }

  lemma {:induction false} PercentMatchesAll(s: string)
    ensures Like(s, "%")
  {
    if s != [] {
      PercentMatchesAll(s[1..]);
    }
  }

  /** `s LIKE x || '%'` holds exactly when `x` is a prefix of `s` up to case. */
  lemma {:induction false} LikePrefix(s: string, x: string)
    requires NoWildcards(x)
    ensures Like(s, x + "%") <==> |x| <= |s| && FoldEq(s[..|x|], x)
  {
    if x == [] {
      assert x + "%" == "%";
      PercentMatchesAll(s);
    } else {
      assert (x + "%")[0] == x[0] && (x + "%")[1..] == x[1..] + "%";
      if s != [] {
        LikePrefix(s[1..], x[1..]);
        if |x| <= |s| {
          assert s[..|x|] == [s[0]] + s[1..][..|x| - 1];
          if FoldEq(s[..|x|], x) {
            assert FoldEq(s[1..][..|x| - 1], x[1..]) by {
              forall i | 0 <= i < |x| - 1 ensures LowerChar(s[1..][..|x| - 1][i]) == LowerChar(x[1..][i]) {
                assert s[..|x|][i + 1] == s[1..][..|x| - 1][i];
              }
            }
          }
        }
      }
    }
  }

  /** `s LIKE '%' || q` holds exactly when some suffix of `s` is `LIKE q`. */
  lemma {:induction false} LikeSuffix(s: string, q: string)
    ensures Like(s, "%" + q) <==> exists k :: SuffixLike(s, q, k)
  {
    var p := "%" + q;
    assert p[0] == '%' && p[1..] == q;
    if s == [] {
      assert s[0..] == s;
      assert Like(s, p) == SuffixLike(s, q, 0);
      if exists k :: SuffixLike(s, q, k) {
        var k :| SuffixLike(s, q, k);
        assert k == 0;
      }
    } else {
      assert Like(s, p) == (Like(s, q) || Like(s[1..], p));
      LikeSuffix(s[1..], q);
      if Like(s[1..], p) {
        var k :| SuffixLike(s[1..], q, k);
        assert s[1..][k..] == s[k + 1..];
        assert SuffixLike(s, q, k + 1);
      }
      if exists k :: SuffixLike(s, q, k) {
        var k :| SuffixLike(s, q, k);
        if k == 0 {
          assert s[k..] == s;
          assert Like(s, p[1..]);
        } else {
          assert s[1..][k - 1..] == s[k..];
          assert SuffixLike(s[1..], q, k - 1);
          assert Like(s[1..], p);
        }
      }
      if Like(s, q) {
        assert s[0..] == s;
        assert SuffixLike(s, q, 0);
      }
    }
  }

  /**
   * With no wildcard in `x`, the pattern `'%' || x || '%'` matches exactly the
   * strings that contain `x`, ignoring ASCII case.
   */
  lemma LikeContains(s: string, x: string)
    requires NoWildcards(x)
    ensures Like(s, "%" + x + "%") <==> ContainsFolded(s, x)
  {
    assert "%" + x + "%" == "%" + (x + "%");
    LikeSuffix(s, x + "%");
    if Like(s, "%" + x + "%") {
      var k :| SuffixLike(s, x + "%", k);
      LikePrefix(s[k..], x);
      assert s[k..][..|x|] == s[k..k + |x|];
      assert OccursAt(s, x, k);
    }
    if ContainsFolded(s, x) {
      var k :| OccursAt(s, x, k);
      assert s[k..][..|x|] == s[k..k + |x|];
      LikePrefix(s[k..], x);
      assert SuffixLike(s, x + "%", k);
    }
  }

  /** SQLite's `lower()` leaves Cyrillic alone: "Москва" does not equal "москва" after it. */
  lemma LowerIsAsciiOnly()
    ensures Lower("Москва") != Lower("москва")
  {
    assert Lower("Москва")[0] == 'М';
    assert Lower("москва")[0] == 'м';
  }

  /** An underscore in the search text is a wildcard: `'%_%'` matches every non-empty text. */
  lemma UnderscoreMatchesAnything(s: string)
    requires s != []
    ensures Like(s, "%_%")
  {
    assert "%_%"[1..] == "_%" && "_%"[1..] == "%";
    PercentMatchesAll(s[1..]);
    assert Like(s, "_%");
  }
}
