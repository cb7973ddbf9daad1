/**
  `Number(text)` for a text of decimal digits: the value, rounded to the nearest double, ties to
  even. Doubles hold 53 significant bits, so small values are exact and larger ones may merge.
*/
module Doubles {
  import opened Text

  predicate IsNumeric(s: string) {
    s != "" && forall i :: 0 <= i < |s| ==> '0' <= s[i] <= '9'
  }

  /** The number the digits write. */
  function Value(digits: string): nat
    requires forall i :: 0 <= i < |digits| ==> '0' <= digits[i] <= '9'
  {
    if digits == "" then 0 else 10 * Value(Init(digits)) + (Last(digits) as int - '0' as int)
  }

  function Pow2(k: nat): (p: nat)
    ensures p > 0
  {
    if k == 0 then 1 else 2 * Pow2(k - 1)
  }

  const EXACT := 0x20_0000_0000_0000

  /** How many low bits a double drops. */
  function Dropped(n: nat): nat {
    if n < EXACT then 0 else 1 + Dropped(n / 2)
  }

  /** `n / p` rounded to the nearest whole number, ties to even. */
  function RoundEven(n: nat, p: nat): nat
    requires p > 0
  {
    var q, r := n / p, n % p;
    if 2 * r > p || (2 * r == p && q % 2 == 1) then q + 1 else q
  }

  function Nearest(n: nat): nat {
    var p := Pow2(Dropped(n));
    RoundEven(n, p) * p
  }

  /** The double, or none when it is infinite. */
  function Number(digits: string): Option<nat>
    requires IsNumeric(digits)
  {
    var n := Nearest(Value(digits));
    if n < Pow2(1024) then Some(n) else None
  }

  // ----- Rounding keeps order --------------------------------------------------------

  lemma DivBounds(n: nat, p: nat, k: nat)
    requires p > 0
    ensures n < k * p ==> n / p < k
    ensures k * p <= n ==> k <= n / p
  {
    assert n == (n / p) * p + n % p && n % p < p;
    if n < k * p && n / p >= k {
      assert (n / p) * p >= k * p by {
        Times(k, n / p, p);
      }
    }
    if k * p <= n && n / p < k {
      assert (n / p + 1) * p <= k * p by {
        Times(n / p + 1, k, p);
      }
    }
  }

  lemma Times(a: int, b: int, p: nat)
    requires a <= b
    ensures a * p <= b * p
  {
  }

  /** A value drops just enough bits to keep 53 of them. */
  lemma {:induction false} DroppedBounds(n: nat)
    ensures n < EXACT * Pow2(Dropped(n))
    ensures n >= EXACT ==> 2 * n >= EXACT * Pow2(Dropped(n))
    decreases n
  {
    if n >= EXACT {
      DroppedBounds(n / 2);
      assert Pow2(Dropped(n)) == 2 * Pow2(Dropped(n / 2));
      if n / 2 < EXACT {
        assert Dropped(n / 2) == 0;
      }
    }
  }

  lemma {:induction false} DroppedKeepsOrder(n: nat, m: nat)
    requires n <= m
    ensures Dropped(n) <= Dropped(m)
    decreases m
  {
    if n >= EXACT {
      DroppedKeepsOrder(n / 2, m / 2);
    }
  }

  lemma RoundEvenBounds(n: nat, p: nat, k: nat)
    requires p > 0
    ensures n < k * p ==> RoundEven(n, p) <= k
    ensures k * p <= n ==> k <= RoundEven(n, p)
  {
    DivBounds(n, p, k);
  }

  lemma RoundEvenKeepsOrder(n: nat, m: nat, p: nat)
    requires p > 0 && n <= m
    ensures RoundEven(n, p) <= RoundEven(m, p)
  {
    assert m == (m / p) * p + m % p && n == (n / p) * p + n % p;
    DivBounds(m, p, n / p);
  }

  lemma {:induction false} Pow2KeepsOrder(j: nat, k: nat)
    requires j <= k
    ensures Pow2(j) <= Pow2(k)
    ensures j < k ==> 2 * Pow2(j) <= Pow2(k)
    decreases k
  {
    if j < k {
      Pow2KeepsOrder(j, k - 1);
    }
  }

  /** Rounding stays within the bits that are kept. */
  lemma NearestAtMost(n: nat)
    ensures Nearest(n) <= EXACT * Pow2(Dropped(n))
  {
    var p := Pow2(Dropped(n));
    DroppedBounds(n);
    RoundEvenBounds(n, p, EXACT);
    hide RoundEven, Pow2, Dropped;
    Times(RoundEven(n, p), EXACT, p);
  }

  lemma NearestAtLeast(m: nat)
    requires m >= EXACT
    ensures Nearest(m) >= EXACT / 2 * Pow2(Dropped(m))
  {
    var q := Pow2(Dropped(m));
    DroppedBounds(m);
    HalfBelow(m, q);
    RoundEvenBounds(m, q, EXACT / 2);
    hide RoundEven, Pow2, Dropped;
    Times(EXACT / 2, RoundEven(m, q), q);
  }

  lemma HalfBelow(m: nat, q: nat)
    requires 2 * m >= EXACT * q
    ensures EXACT / 2 * q <= m
  {
  }

  lemma DropsOnlyLarge(m: nat)
    ensures Dropped(m) > 0 ==> m >= EXACT
  {
  }

  lemma DoubledTimes(p: nat, q: nat)
    requires 2 * p <= q
    ensures EXACT * p <= EXACT / 2 * q
  {
  }

  /** Dropping more bits means standing above everything that drops fewer. */
  lemma NearestAcross(n: nat, m: nat)
    requires Dropped(n) < Dropped(m)
    ensures Nearest(n) <= Nearest(m)
  {
    hide *;
    DropsOnlyLarge(m);
    NearestAtMost(n);
    NearestAtLeast(m);
    Pow2KeepsOrder(Dropped(n), Dropped(m));
    DoubledTimes(Pow2(Dropped(n)), Pow2(Dropped(m)));
  }

  /** A larger value is never rounded to a smaller double. */
  lemma NearestKeepsOrder(n: nat, m: nat)
    requires n <= m
    ensures Nearest(n) <= Nearest(m)
  {
    DroppedKeepsOrder(n, m);
    if Dropped(n) == Dropped(m) {
      var p := Pow2(Dropped(n));
      RoundEvenKeepsOrder(n, m, p);
      Times(RoundEven(n, p), RoundEven(m, p), p);
    } else {
      NearestAcross(n, m);
    }
  }

  lemma NearestExact(n: nat)
    requires n < EXACT
    ensures Nearest(n) == n
  {
  }

  // ----- Digits ------------------------------------------------------------------

  predicate NoLeadingZero(s: string) {
    s == "0" || (s != "" && s[0] != '0')
  }

  lemma {:induction false} ValuePositive(s: string)
    requires IsNumeric(s) && s[0] != '0'
    ensures Value(s) > 0
  {
    if |s| > 1 {
      ValuePositive(Init(s));
    }
  }

  /** Numerals without leading zeros are written in one way. */
  lemma {:induction false} ValueInjective(x: string, y: string)
    requires IsNumeric(x) && IsNumeric(y) && NoLeadingZero(x) && NoLeadingZero(y)
    requires Value(x) == Value(y)
    ensures x == y
    decreases |x|
  {
    if |x| > 1 {
      ValuePositive(Init(x));
    }
    if |y| > 1 {
      ValuePositive(Init(y));
    }
    assert Last(x) == Last(y) && Value(Init(x)) == Value(Init(y));
    if |x| > 1 && |y| > 1 {
      ValueInjective(Init(x), Init(y));
    }
    assert x == Init(x) + [Last(x)] && y == Init(y) + [Last(y)];
  }
}
