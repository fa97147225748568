/**
 * `regions_kb`: one page of region buttons, one per row, followed by a row
 * with back and forward buttons when there is somewhere to go; and the parse
 * of a `reg_page_N` callback in the page handler, which turns the navigation
 * data back into the page number.
 */
module Keyboards {
  import opened Wrappers

  const BackText: string := "⬅ Назад"
  const ForwardText: string := "Вперёд ➡"
  const PagePrefix: string := "reg_page_"

  datatype Button = Button(text: string, callbackData: string)

  /** A region as listed in `REGIONS`: its name and its callback value. */
  datatype Region = Region(name: string, callback: string)

  /** `s[start:end]` in Python for `0 <= start <= end`: the bounds are cut to the length. */
  function PySlice<T>(s: seq<T>, start: int, end: int): (r: seq<T>)
    requires 0 <= start <= end
    ensures |r| <= end - start
    ensures start < |s| ==> |r| == (if end < |s| then end else |s|) - start
    ensures forall i :: 0 <= i < |r| ==> start + i < |s| && r[i] == s[start + i]
  {
    var hi := if end < |s| then end else |s|;
    var lo := if start < hi then start else hi;
    s[lo..hi]
  }

  // ---------------------------------------------------------------------------
  // Integers as text

  function Digit(d: nat): char
    requires d < 10
  {
    ('0' as int + d) as char
  }

  predicate IsDigit(c: char) { '0' <= c <= '9' }

  function DigitValue(c: char): (d: nat)
    requires IsDigit(c)
    ensures d < 10 && Digit(d) == c
  {
    c as int - '0' as int
  }

  /** Decimal digits of `n`, without leading zeros. */
  function NatToString(n: nat): (s: string)
    ensures |s| >= 1 && forall i :: 0 <= i < |s| ==> IsDigit(s[i])
    ensures s[0] == '0' <==> n == 0
  {
    if n < 10 then [Digit(n)] else NatToString(n / 10) + [Digit(n % 10)]
  }

  /** `str(n)`, as the f-string writes an int. */
  function IntToString(n: int): (s: string)
    ensures |s| >= 1 && '_' !in s
    ensures n >= 0 ==> s == NatToString(n)
    ensures n < 0 ==> s == "-" + NatToString(-n)
  {
    if n < 0 then "-" + NatToString(-n) else NatToString(n)
  }

  /** The value of a non-empty run of decimal digits. */
  function DigitsValue(s: string): nat
    requires |s| >= 1 && forall i :: 0 <= i < |s| ==> IsDigit(s[i])
  {
    if |s| == 1 then DigitValue(s[0])
    else DigitsValue(s[..|s| - 1]) * 10 + DigitValue(s[|s| - 1])
  }

  predicate AllDigits(s: string) { forall i :: 0 <= i < |s| ==> IsDigit(s[i]) }

  /** `int(s)` on an optional sign followed by decimal digits; anything else raises. */
  function ParseInt(s: string): (r: Option<int>)
    ensures r.Some? <==> (|s| >= 1 && AllDigits(s)) || (|s| >= 2 && (s[0] == '-' || s[0] == '+') && AllDigits(s[1..]))
    ensures AllDigits(s) && |s| >= 1 ==> r == Some(DigitsValue(s))
    ensures |s| >= 2 && s[0] == '-' && AllDigits(s[1..]) ==> r == Some(-(DigitsValue(s[1..]) as int))
    ensures |s| >= 2 && s[0] == '+' && AllDigits(s[1..]) ==> r == Some(DigitsValue(s[1..]))
  {
    if |s| >= 2 && (s[0] == '-' || s[0] == '+') && AllDigits(s[1..]) then
      var v: int := DigitsValue(s[1..]);
      Some(if s[0] == '-' then -v else v)
    else if |s| >= 1 && AllDigits(s) then Some(DigitsValue(s))
    else None
  }

  /** `s.split("_")[-1]`: what follows the last underscore, or all of `s`. */
  function LastSegment(s: string): (r: string)
    ensures |r| <= |s| && '_' !in r
    ensures '_' !in s ==> r == s
  {
    if s == [] then []
    else if s[|s| - 1] == '_' then []
    else LastSegment(s[..|s| - 1]) + [s[|s| - 1]]
  }

  /** The navigation callback for page `n`. */
  function PageCallback(n: int): (data: string)
    ensures |data| > |PagePrefix| && data[..|PagePrefix|] == PagePrefix
    ensures LastSegment(data) == IntToString(n)
  {
    LastSegmentAfterUnderscore(PagePrefix, IntToString(n));
    PagePrefix + IntToString(n)
  }

  /** The page number the `reg_page_` handler reads from callback data. */
  function ParsePage(data: string): (page: Option<int>)
    ensures page.Some? ==> |data| >= 1 && data[|data| - 1] != '_'
    ensures '_' !in data ==> page == ParseInt(data)
  {
    ParseInt(LastSegment(data))
  }

  lemma {:induction false} DigitsRoundTrip(n: nat)
    ensures DigitsValue(NatToString(n)) == n
  {
    if n >= 10 {
      DigitsRoundTrip(n / 10);
      var s := NatToString(n);
      assert s[..|s| - 1] == NatToString(n / 10);
    }
  }

  lemma {:induction false} LastSegmentAfterUnderscore(a: string, b: string)
    requires |a| >= 1 && a[|a| - 1] == '_' && '_' !in b
    ensures LastSegment(a + b) == b
  {
    if b != [] {
      assert (a + b)[..|a + b| - 1] == a + b[..|b| - 1];
      LastSegmentAfterUnderscore(a, b[..|b| - 1]);
      assert b == b[..|b| - 1] + [b[|b| - 1]];
    } else {
      assert a + b == a;
    }
  }

  /** Every page callback the keyboard produces parses back to its page number. */
  lemma PageCallbackRoundTrip(n: int)
    ensures ParsePage(PageCallback(n)) == Some(n)
  {
    var digits := NatToString(if n < 0 then -n else n);
    DigitsRoundTrip(if n < 0 then -n else n);
    if n < 0 {
      assert IntToString(n)[1..] == digits;
    }
  }

  // ---------------------------------------------------------------------------
  // The keyboard

  /** The navigation row: back to `page - 1` unless on the first page, forward when regions remain. */
  function NavRow(page: int, perPage: int, count: nat): (nav: seq<Button>)
    ensures |nav| == (if page > 0 then 1 else 0) + (if (page + 1) * perPage < count then 1 else 0)
    ensures page > 0 ==> nav[0] == Button(BackText, PageCallback(page - 1))
    ensures (page + 1) * perPage < count ==> nav[|nav| - 1] == Button(ForwardText, PageCallback(page + 1))
  {
    (if page > 0 then [Button(BackText, PageCallback(page - 1))] else [])
    + (if (page + 1) * perPage < count then [Button(ForwardText, PageCallback(page + 1))] else [])
  }

  /** `regions_kb(page, per_page)` over the regions in `REGIONS` order. */
  method RegionsKb(regions: seq<Region>, page: int := 0, perPage: int := 10) returns (rows: seq<seq<Button>>)
    requires page >= 0 && perPage >= 0
    ensures var window := PySlice(regions, page * perPage, (page + 1) * perPage);
      && |window| <= perPage
      && |rows| == |window| + (if page > 0 || (page + 1) * perPage < |regions| then 1 else 0)
      && (forall i :: 0 <= i < |window| ==> rows[i] == [Button(window[i].name, window[i].callback)])
      && (|rows| > |window| ==> rows[|window|] == NavRow(page, perPage, |regions|))
  {
    var start, end := page * perPage, (page + 1) * perPage;
    var window := PySlice(regions, start, end);
    rows := [];
    for i := 0 to |window|
      invariant |rows| == i
      invariant forall k :: 0 <= k < i ==> rows[k] == [Button(window[k].name, window[k].callback)]
    {
      rows := rows + [[Button(window[i].name, window[i].callback)]];
    }
    var nav := NavRow(page, perPage, |regions|);
    if nav != [] {
      rows := rows + [nav];
    }
  }

  /** The first page of 25 regions has 10 regions and only a forward button, to page 1. */
  method FirstPageScenario(regions: seq<Region>)
    requires |regions| == 25
  {
    var rows := RegionsKb(regions);
    assert |rows| == 11;
    assert rows[10] == [Button(ForwardText, PageCallback(1))];
    PageCallbackRoundTrip(1);
    assert ParsePage(rows[10][0].callbackData) == Some(1);
  }
}
