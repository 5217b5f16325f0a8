/** The tokenizer-free estimate of how many tokens a text costs. */
module Tokens {

  predicate IsCJK(c: char) {
    || 0x3400 <= c as int <= 0x9FFF
    || 0xF900 <= c as int <= 0xFAFF
    || 0x3000 <= c as int <= 0x303F
    || 0xFF00 <= c as int <= 0xFFEF
  }

  /** Which characters count as wide: three ranges of symbols, two of ideographs, nothing between or beyond. */
  lemma WideIs(c: char)
    ensures c as int < 0x3000 || 0x3040 <= c as int < 0x3400 || 0xA000 <= c as int < 0xF900 ==> !IsCJK(c)
    ensures 0xFB00 <= c as int < 0xFF00 || 0xFFF0 <= c as int ==> !IsCJK(c)
    ensures 0x3000 <= c as int < 0x3040 || 0x3400 <= c as int < 0xA000 ==> IsCJK(c)
    ensures 0xF900 <= c as int < 0xFB00 || 0xFF00 <= c as int < 0xFFF0 ==> IsCJK(c)
  {
  }

  function CountCJK(s: string): nat {
    if s == "" then 0 else CountCJK(s[..|s| - 1]) + if IsCJK(s[|s| - 1]) then 1 else 0
  }

  /** What `cjk` wide characters and `other` characters cost. */
  function Cost(cjk: nat, other: nat): nat { cjk + (other + 3) / 4 }

  lemma {:induction false} CJKBound(s: string)
    ensures CountCJK(s) <= |s|
  {
    if s != "" { CJKBound(s[..|s| - 1]); }
  }

  function Estimate(s: string): nat {
    CJKBound(s);
    Cost(CountCJK(s), |s| - CountCJK(s))
  }

  ghost function WidePositions(s: string): set<nat> { set i | 0 <= i < |s| && IsCJK(s[i]) }

  lemma {:induction false} CountIsSize(s: string)
    ensures CountCJK(s) == |WidePositions(s)|
  {
    if s != "" {
      var n := |s| - 1;
      CountIsSize(s[..n]);
      assert WidePositions(s) == WidePositions(s[..n]) + if IsCJK(s[n]) then {n} else {};
    }
  }

  /** A wide character is a token, and so are any four others; what is left of them is one more. */
  lemma EstimateIs(s: string)
    ensures
      var wide := |WidePositions(s)|;
      wide <= |s| && wide <= Estimate(s) && 4 * (Estimate(s) - wide) - 3 <= |s| - wide <= 4 * (Estimate(s) - wide)
  {
    CountIsSize(s);
    CJKBound(s);
  }

  method EstimateTokens(s: string) returns (n: nat)
    ensures n == Estimate(s)
  {
    var cjk, other := 0, 0;
    for i := 0 to |s|
      invariant cjk == CountCJK(s[..i]) && cjk + other == i
    {
      assert s[..i + 1][..i] == s[..i];
      if IsCJK(s[i]) { cjk := cjk + 1; } else { other := other + 1; }
    }
    assert s[..|s|] == s;
    n := cjk + (other + 3) / 4;
  }

  lemma {:induction false} CountCJKConcat(a: string, b: string)
    ensures CountCJK(a + b) == CountCJK(a) + CountCJK(b)
  {
    if b == "" {
      assert a + b == a;
    } else {
      assert (a + b)[..|a + b| - 1] == a + b[..|b| - 1];
      CountCJKConcat(a, b[..|b| - 1]);
    }
  }

  /** A part of a text never costs more than the text, and splitting a text never makes it cheaper. */
  lemma EstimateConcat(a: string, b: string)
    ensures Estimate(a) <= Estimate(a + b) <= Estimate(a) + Estimate(b)
    ensures Estimate(b) <= Estimate(a + b)
  {
    CountCJKConcat(a, b);
    CJKBound(a);
    CJKBound(b);
  }

  lemma PrefixMonotone(s: string, i: nat, j: nat)
    requires i <= j <= |s|
    ensures Estimate(s[..i]) <= Estimate(s[..j])
  {
    assert s[..j] == s[..i] + s[i..j];
    EstimateConcat(s[..i], s[i..j]);
  }

  /** The last `n` runes. */
  function Suffix(s: string, n: nat): string
    requires n <= |s|
  {
    s[|s| - n..]
  }

  lemma SuffixMonotone(s: string, i: nat, j: nat)
    requires i <= j <= |s|
    ensures Estimate(Suffix(s, i)) <= Estimate(Suffix(s, j))
  {
    assert Suffix(s, j) == s[|s| - j..|s| - i] + Suffix(s, i);
    EstimateConcat(s[|s| - j..|s| - i], Suffix(s, i));
  }

  /** `n` is the largest number of leading runes that cost at most `budget`. */
  ghost predicate LargestPrefix(s: string, budget: nat, n: nat) {
    n <= |s| && Estimate(s[..n]) <= budget && forall m :: n < m <= |s| ==> Estimate(s[..m]) > budget
  }

  ghost predicate LargestSuffix(s: string, budget: nat, n: nat) {
    n <= |s| && Estimate(Suffix(s, n)) <= budget && forall m :: n < m <= |s| ==> Estimate(Suffix(s, m)) > budget
  }

  /** The largest such number, by trying every length from `n` down. */
  function HeadFrom(s: string, budget: nat, n: nat): (r: nat)
    requires n <= |s|
    ensures r <= n
  {
    if n == 0 || Estimate(s[..n]) <= budget then n else HeadFrom(s, budget, n - 1)
  }

  function TailFrom(s: string, budget: nat, n: nat): (r: nat)
    requires n <= |s|
    ensures r <= n
  {
    if n == 0 || Estimate(Suffix(s, n)) <= budget then n else TailFrom(s, budget, n - 1)
  }

  function HeadLength(s: string, budget: nat): (r: nat)
    ensures r <= |s|
  {
    HeadFrom(s, budget, |s|)
  }

  function TailLength(s: string, budget: nat): (r: nat)
    ensures r <= |s|
  {
    TailFrom(s, budget, |s|)
  }

  lemma {:induction false} HeadFromIsLargest(s: string, budget: nat, n: nat)
    requires n <= |s|
    ensures var r := HeadFrom(s, budget, n);
            Estimate(s[..r]) <= budget && forall m :: r < m <= n ==> Estimate(s[..m]) > budget
  {
    if n > 0 && Estimate(s[..n]) > budget { HeadFromIsLargest(s, budget, n - 1); }
  }

  lemma {:induction false} TailFromIsLargest(s: string, budget: nat, n: nat)
    requires n <= |s|
    ensures var r := TailFrom(s, budget, n);
            Estimate(Suffix(s, r)) <= budget && forall m :: r < m <= n ==> Estimate(Suffix(s, m)) > budget
  {
    if n > 0 && Estimate(Suffix(s, n)) > budget { TailFromIsLargest(s, budget, n - 1); }
  }

  /** Binary search, sound because the estimate grows with the prefix. */
  method PrefixWithinTokens(s: string, budget: nat) returns (n: nat)
    ensures LargestPrefix(s, budget, n)
    ensures n == HeadLength(s, budget)
  {
    var lo, hi := 0, |s|;
    while lo < hi
      invariant 0 <= lo <= hi <= |s|
      invariant Estimate(s[..lo]) <= budget
      invariant forall m :: hi < m <= |s| ==> Estimate(s[..m]) > budget
    {
      var mid := (lo + hi + 1) / 2;
      var cost := EstimateTokens(s[..mid]);
      if cost <= budget {
        lo := mid;
      } else {
        forall m | mid <= m <= |s| ensures Estimate(s[..m]) > budget { PrefixMonotone(s, mid, m); }
        hi := mid - 1;
      }
    }
    n := lo;
    HeadFromIsLargest(s, budget, |s|);
  }

  method SuffixWithinTokens(s: string, budget: nat) returns (n: nat)
    ensures LargestSuffix(s, budget, n)
    ensures n == TailLength(s, budget)
  {
    var lo, hi := 0, |s|;
    while lo < hi
      invariant 0 <= lo <= hi <= |s|
      invariant Estimate(Suffix(s, lo)) <= budget
      invariant forall m :: hi < m <= |s| ==> Estimate(Suffix(s, m)) > budget
    {
      var mid := (lo + hi + 1) / 2;
      var cost := EstimateTokens(s[|s| - mid..]);
      if cost <= budget {
        lo := mid;
      } else {
        forall m | mid <= m <= |s| ensures Estimate(Suffix(s, m)) > budget { SuffixMonotone(s, mid, m); }
        hi := mid - 1;
      }
    }
    n := lo;
    TailFromIsLargest(s, budget, |s|);
  }

  /** Two budgets that together do not cover a text leave something between its head and its tail. */
  lemma HeadAndTailApart(s: string, head: nat, tail: nat, headBudget: nat, tailBudget: nat)
    requires head <= |s| && tail <= |s|
    requires Estimate(s[..head]) <= headBudget && Estimate(Suffix(s, tail)) <= tailBudget
    requires Estimate(s) > headBudget + tailBudget
    ensures head + tail < |s|
    ensures s == s[..head] + s[head..|s| - tail] + s[|s| - tail..]
  {
    if head + tail >= |s| {
      SuffixMonotone(s, |s| - head, tail);
      assert s == s[..head] + s[head..] && s[head..] == Suffix(s, |s| - head);
      EstimateConcat(s[..head], s[head..]);
    }
  }
}
