/** The order of run ids that are compared as decimal text, digit by digit from the left. */
module RunOrder {
  function DigitChar(d: nat): char
    requires d < 10
  {
    ('0' as int + d) as char
  }

  function Decimal(n: nat): (s: string)
    ensures s != "" && (|s| == 1 <==> n < 10)
  {
    if n < 10 then [DigitChar(n)] else Decimal(n / 10) + [DigitChar(n % 10)]
  }

  /** Text order: a proper prefix comes first. */
  predicate AtMost(a: string, b: string) {
    a == "" || (b != "" && (a[0] < b[0] || (a[0] == b[0] && AtMost(a[1..], b[1..]))))
  }

  lemma {:induction false} AtMostBothWays(a: string, b: string)
    requires AtMost(a, b) && AtMost(b, a)
    ensures a == b
  {
    if a != "" {
      AtMostBothWays(a[1..], b[1..]);
    }
  }

  lemma {:induction false} AtMostSnoc(a: string, x: char, b: string, y: char)
    requires |a| == |b|
    ensures AtMost(a + [x], b + [y]) <==> if a == b then x <= y else AtMost(a, b)
  {
    if a != "" {
      AtMostSnoc(a[1..], x, b[1..], y);
      assert (a + [x])[1..] == a[1..] + [x] && (b + [y])[1..] == b[1..] + [y];
      assert a == b <==> a[0] == b[0] && a[1..] == b[1..];
    }
  }

  lemma {:induction false} AtMostPrefix(a: string, b: string)
    requires |a| <= |b|
    ensures AtMost(a, b) <==> AtMost(a, b[..|a|])
  {
    if a != "" {
      AtMostPrefix(a[1..], b[1..]);
      assert b[..|a|][1..] == b[1..][..|a| - 1];
    }
  }

  /** Between numbers with equally many digits the text order is the numeric order. */
  lemma {:induction false} SameLengthSameOrder(a: nat, b: nat)
    requires |Decimal(a)| == |Decimal(b)|
    ensures TextAtMost(a, b) <==> a <= b
    ensures Decimal(a) == Decimal(b) <==> a == b
  {
    if a < 10 {
      AtMostSnoc("", DigitChar(a), "", DigitChar(b));
      assert "" + [DigitChar(a)] == Decimal(a) && "" + [DigitChar(b)] == Decimal(b);
    } else {
      SameLengthSameOrder(a / 10, b / 10);
      AtMostSnoc(Decimal(a / 10), DigitChar(a % 10), Decimal(b / 10), DigitChar(b % 10));
      SplitEqual(Decimal(a / 10), DigitChar(a % 10), Decimal(b / 10), DigitChar(b % 10));
    }
  }

  lemma SplitEqual(a: string, x: char, b: string, y: char)
    requires |a| == |b|
    ensures a + [x] == b + [y] <==> a == b && x == y
  {
    if a + [x] == b + [y] {
      assert a == (a + [x])[..|a|] && b == (b + [y])[..|b|];
      assert x == (a + [x])[|a|] && y == (b + [y])[|b|];
    }
  }

  lemma {:induction false} MoreDigitsIsLarger(a: nat, b: nat)
    requires |Decimal(a)| < |Decimal(b)|
    ensures a < b
  {
    if a >= 10 {
      MoreDigitsIsLarger(a / 10, b / 10);
    }
  }

  /** How the database orders two numbers it reads as text. */
  predicate TextAtMost(a: nat, b: nat) {
    AtMost(Decimal(a), Decimal(b))
  }

  lemma {:induction false} AtMostItself(a: string)
    ensures AtMost(a, a)
  {
    if a != "" {
      AtMostItself(a[1..]);
    }
  }

  /** The number the first `k` digits spell. */
  function Leading(n: nat, k: nat): nat
    requires k > 0
  {
    if |Decimal(n)| <= k then n else Leading(n / 10, k)
  }

  lemma {:induction false} LeadingDigits(n: nat, k: nat)
    requires 0 < k <= |Decimal(n)|
    ensures Decimal(Leading(n, k)) == Decimal(n)[..k]
  {
    if k < |Decimal(n)| {
      LeadingDigits(n / 10, k);
    }
  }

  /** Text order ranks a smaller number first exactly when it does not exceed the number
      that equally many leading digits of the larger one spell. */
  predicate RanksFirst(a: nat, b: nat) {
    a <= Leading(b, |Decimal(a)|)
  }

  lemma TextOrderAgrees(a: nat, b: nat)
    requires a < b
    ensures TextAtMost(a, b) <==> RanksFirst(a, b)
  {
    var k := |Decimal(a)|;
    if k > |Decimal(b)| {
      MoreDigitsIsLarger(b, a);
    }
    AtMostPrefix(Decimal(a), Decimal(b));
    LeadingDigits(b, k);
    SameLengthSameOrder(a, Leading(b, k));
  }

  lemma TextBothWays(a: nat, b: nat)
    requires TextAtMost(a, b) && TextAtMost(b, a)
    ensures a == b
  {
    AtMostBothWays(Decimal(a), Decimal(b));
    SameLengthSameOrder(a, b);
  }

  lemma NineTen()
    ensures TextAtMost(10, 9) && !TextAtMost(9, 10)
  {
    assert Decimal(9) == ['9'] && Decimal(1) == ['1'];
    assert Decimal(10) == ['1', '0'];
  }
}
