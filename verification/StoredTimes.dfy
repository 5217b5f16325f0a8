/**
 Times as the store keeps them: as text, with the zeros at the end of the fraction trimmed. Such texts are not
 always in the order of the times.
 */
module StoredTimes {
  import opened Decimals

  const SECOND: nat := 1_000_000_000

  function Pow10(k: nat): (p: nat)
    ensures p > 0
  {
    if k == 0 then 1 else 10 * Pow10(k - 1)
  }

  lemma SecondIsPow10()
    ensures Pow10(9) == SECOND
  {
    assert Pow10(5) == 100_000;
  }

  lemma QuotientBound(n: nat, p: nat)
    requires p > 0 && n < 10 * p
    ensures n / p < 10
  {
    var q := n / p;
    assert q * p <= n;
    assert (q - 10) * p < 0;
  }

  /** The first `k` decimal places of a fraction, without the zeros at its end. */
  function Places(n: nat, k: nat): (s: string)
    requires n < Pow10(k)
    ensures n == 0 <==> s == ""
  {
    if n == 0 then "" else [Digit(First(n, k))] + Places(Rest(n, k), k - 1)
  }

  /** The first of `k` places. */
  function First(n: nat, k: nat): (q: nat)
    requires 0 < n < Pow10(k)
    ensures k > 0 && q < 10
  {
    assert k > 0;
    QuotientBound(n, Pow10(k - 1));
    n / Pow10(k - 1)
  }

  function Rest(n: nat, k: nat): (r: nat)
    requires 0 < n < Pow10(k)
    ensures k > 0 && r < Pow10(k - 1)
  {
    n % Pow10(k - 1)
  }

  function Nanos(t: int): (n: nat)
    ensures n < Pow10(9)
  {
    SecondIsPow10();
    t % SECOND
  }

  /** What the text holds after the seconds: a point and the places if there are any, and a Z. */
  function Fraction(t: int): string { (if Nanos(t) == 0 then "" else "." + Places(Nanos(t), 9)) + "Z" }

  /** Texts are compared byte by byte. */
  predicate TextLess(a: string, b: string) {
    b != "" && (a == "" || a[0] < b[0] || (a[0] == b[0] && TextLess(a[1..], b[1..])))
  }

  /**
   Whether the text of time `s`, in nanoseconds, is less than that of `t`. Up to the seconds the text has a fixed
   width, so that part compares as the seconds do.
   */
  predicate StoredBefore(s: int, t: int) {
    s / SECOND < t / SECOND || (s / SECOND == t / SECOND && TextLess(Fraction(s), Fraction(t)))
  }

  predicate ProperPrefix(a: string, b: string) { a <= b && a != b }

  /** The places of `s` go on in `t`: the Z that ends the shorter text is greater than the digit the longer one has there. */
  predicate Sinks(s: int, t: int) {
    s / SECOND == t / SECOND && ProperPrefix(Places(Nanos(s), 9), Places(Nanos(t), 9))
  }

  lemma DigitOrder(x: nat, y: nat)
    requires x < 10 && y < 10
    ensures Digit(x) < Digit(y) <==> x < y
    ensures '.' < Digit(x) < 'Z'
  {
    assert forall d: nat :: d < 10 ==> "0123456789"[d] as int == '0' as int + d;
  }

  lemma HeadsDiffer(x: string, y: string)
    requires x != "" && y != "" && x[0] != y[0]
    ensures TextLess(x + "Z", y + "Z") <==> x[0] < y[0]
    ensures !(x <= y) && !(y <= x)
  {
  }

  lemma HeadsAgree(x: string, y: string)
    requires x != "" && y != "" && x[0] == y[0]
    ensures TextLess(x + "Z", y + "Z") <==> TextLess(x[1..] + "Z", y[1..] + "Z")
    ensures ProperPrefix(x, y) <==> ProperPrefix(x[1..], y[1..])
    ensures x == y <==> x[1..] == y[1..]
  {
    assert (x + "Z")[1..] == x[1..] + "Z" && (y + "Z")[1..] == y[1..] + "Z";
    assert x == [x[0]] + x[1..] && y == [y[0]] + y[1..];
    assert x <= y ==> x[1..] == y[1..][..|x| - 1];
  }

  lemma QuotientOrders(a: nat, b: nat, p: nat)
    requires p > 0
    ensures a / p < b / p ==> a < b
    ensures a / p == b / p ==> (a < b <==> a % p < b % p) && (a == b <==> a % p == b % p)
  {
    assert a == a / p * p + a % p && b == b / p * p + b % p;
    if a / p < b / p { assert (a / p + 1) * p <= b / p * p; }
  }

  lemma FirstOrders(a: nat, b: nat, k: nat)
    requires 0 < a < Pow10(k) && 0 < b < Pow10(k)
    ensures First(a, k) < First(b, k) ==> a < b
    ensures First(a, k) == First(b, k) ==> (a < b <==> Rest(a, k) < Rest(b, k)) && (a == b <==> Rest(a, k) == Rest(b, k))
  {
    QuotientOrders(a, b, Pow10(k - 1));
  }

  /** What two lists of places say about the order of their texts, given the order of the fractions. */
  predicate Verdict(x: string, y: string, less: bool) {
    if ProperPrefix(y, x) then true else if ProperPrefix(x, y) then false else less
  }

  lemma OneIsWhole(y: string)
    requires y != "" ==> y[0] < 'Z'
    ensures !TextLess("Z", y + "Z")
    ensures y != "" ==> TextLess(y + "Z", "Z")
  {
  }

  lemma BothGoOn(x: string, y: string, qa: nat, qb: nat, less: bool, lessTail: bool)
    requires x != "" && y != "" && qa < 10 && qb < 10 && x[0] == Digit(qa) && y[0] == Digit(qb)
    requires if qa == qb then less == lessTail else less == (qa < qb)
    requires qa == qb ==> (TextLess(x[1..] + "Z", y[1..] + "Z") <==> Verdict(x[1..], y[1..], lessTail))
    ensures TextLess(x + "Z", y + "Z") <==> Verdict(x, y, less)
    ensures x == y ==> qa == qb && x[1..] == y[1..]
  {
    DigitOrder(qa, qb);
    DigitOrder(qb, qa);
    if qa == qb {
      HeadsAgree(x, y);
      HeadsAgree(y, x);
    } else {
      HeadsDiffer(x, y);
    }
  }

  lemma FirstPlace(n: nat, k: nat)
    requires n < Pow10(k)
    ensures n != 0 ==> '.' < Places(n, k)[0] < 'Z'
  {
    if n != 0 { DigitOrder(First(n, k), 0); }
  }

  lemma {:induction false} PlacesCompare(a: nat, b: nat, k: nat)
    requires a < Pow10(k) && b < Pow10(k)
    ensures TextLess(Places(a, k) + "Z", Places(b, k) + "Z") <==> Verdict(Places(a, k), Places(b, k), a < b)
    ensures Places(a, k) == Places(b, k) ==> a == b
    decreases k
  {
    var x, y := Places(a, k), Places(b, k);
    FirstPlace(a, k);
    FirstPlace(b, k);
    if a == 0 {
      assert x + "Z" == "Z";
      OneIsWhole(y);
    } else if b == 0 {
      assert y + "Z" == "Z";
      OneIsWhole(x);
    } else {
      FirstOrders(a, b, k);
      FirstOrders(b, a, k);
      PlacesCompare(Rest(a, k), Rest(b, k), k - 1);
      BothGoOn(x, y, First(a, k), First(b, k), a < b, Rest(a, k) < Rest(b, k));
    }
  }

  lemma FractionAsPlaces(s: int, t: int)
    ensures TextLess(Fraction(s), Fraction(t)) <==> TextLess(Places(Nanos(s), 9) + "Z", Places(Nanos(t), 9) + "Z")
  {
    var a, b := Places(Nanos(s), 9), Places(Nanos(t), 9);
    FirstPlace(Nanos(s), 9);
    FirstPlace(Nanos(t), 9);
    assert Nanos(s) != 0 ==> Fraction(s)[1..] == a + "Z";
    assert Nanos(t) != 0 ==> Fraction(t)[1..] == b + "Z";
  }

  /** The texts of two times are in the order of the times exactly when the earlier one does not sink. */
  lemma StoredInOrderIff(s: int, t: int)
    requires s < t
    ensures StoredBefore(s, t) <==> !Sinks(s, t)
    ensures StoredBefore(t, s) <==> Sinks(s, t)
  {
    if s / SECOND == t / SECOND {
      SecondIsPow10();
      FractionAsPlaces(s, t);
      FractionAsPlaces(t, s);
      PlacesCompare(Nanos(s), Nanos(t), 9);
      PlacesCompare(Nanos(t), Nanos(s), 9);
    }
  }

  lemma {:induction false} TextOrder(a: string, b: string, c: string)
    ensures !TextLess(a, a)
    ensures TextLess(a, b) && TextLess(b, c) ==> TextLess(a, c)
  {
    if a != "" && b != "" && c != "" {
      TextOrder(a[1..], b[1..], c[1..]);
    } else if a != "" {
      TextOrder(a[1..], [], []);
    }
  }

  /** The order of the texts is a total one all the same. */
  lemma StoredOrder(s: int, t: int, u: int)
    ensures !StoredBefore(s, s)
    ensures StoredBefore(s, t) && StoredBefore(t, u) ==> StoredBefore(s, u)
    ensures s != t ==> (StoredBefore(s, t) <==> !StoredBefore(t, s))
  {
    TextOrder(Fraction(s), Fraction(t), Fraction(u));
    if s < t { StoredInOrderIff(s, t); }
    if t < s { StoredInOrderIff(t, s); }
  }
}
