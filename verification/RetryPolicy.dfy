/** Exponential retry, computed in wrapping 64-bit arithmetic. */
module RetryPolicy {
  const TWO_63: int := 0x8000_0000_0000_0000
  const TWO_64: int := 0x1_0000_0000_0000_0000
  const SECOND: int := 1_000_000_000

  function Pow2(n: nat): (r: nat)
    ensures r >= 1
  {
    if n == 0 then 1 else 2 * Pow2(n - 1)
  }

  /** What a 64-bit signed integer holds of `x`. */
  function Wrap(x: int): int {
    (x + TWO_63) % TWO_64 - TWO_63
  }

  function Min(a: int, b: int): int {
    if a <= b then a else b
  }

  datatype Policy = Policy(base: int, max: int)
  {
    predicate Valid() {
      0 < base <= max < TWO_63
    }
  }

  /** `NewExponentialRetryPolicy`. */
  function NewPolicy(base: int, maximum: int): (p: Policy)
    requires base < TWO_63 && maximum < TWO_63
    ensures p.Valid()
    ensures 0 < base <= maximum ==> p == Policy(base, maximum)
    ensures base <= 0 ==> p.base == 2 * SECOND
    ensures maximum <= 0 ==> p.max == (if p.base > 5 * 60 * SECOND then p.base else 5 * 60 * SECOND)
    ensures 0 < maximum < p.base ==> p.max == p.base
  {
    var b := if base <= 0 then 2 * SECOND else base;
    var m := if maximum <= 0 then 300 * SECOND else maximum;
    Policy(b, if m < b then b else m)
  }

  function Shift(attempt: int): nat {
    if attempt < 1 then 0 else Min(attempt - 1, 30)
  }

  /** The delay `NextRetry` adds to the current time. */
  function Delay(p: Policy, attempt: int): int {
    var delay := Wrap(p.base * Pow2(Shift(attempt)));
    if delay > p.max || delay < 0 then p.max else delay
  }

  /** What it is meant to be. */
  function Intended(p: Policy, attempt: int): int {
    Min(p.base * Pow2(Shift(attempt)), p.max)
  }

  /** The first attempt waits for the base, each of the next thirty for twice the one before, and the later ones for as
      long as the 31st; never for more than the maximum. */
  lemma DelayDoubles(p: Policy, attempt: int)
    requires p.Valid()
    ensures attempt <= 1 ==> Intended(p, attempt) == p.base
    ensures 1 <= attempt <= 30 ==>
              Intended(p, attempt + 1) == if 2 * Intended(p, attempt) <= p.max then 2 * Intended(p, attempt) else p.max
    ensures attempt >= 31 ==> Intended(p, attempt) == Intended(p, 31)
  {
    if 1 <= attempt <= 30 {
      assert Shift(attempt) == attempt - 1 && Shift(attempt + 1) == attempt;
      assert p.base * Pow2(attempt) == 2 * (p.base * Pow2(attempt - 1));
    }
  }

  // ---- Powers of two ----------------------------------------------------------------------------

  lemma {:induction false} PowersAdd(a: nat, b: nat)
    ensures Pow2(a + b) == Pow2(a) * Pow2(b)
  {
    if a > 0 {
      PowersAdd(a - 1, b);
      assert Pow2(a + b) == 2 * Pow2(a - 1 + b);
      assert 2 * (Pow2(a - 1) * Pow2(b)) == Pow2(a) * Pow2(b);
    } else {
      assert Pow2(0) * Pow2(b) == Pow2(b);
    }
  }

  lemma Pow2Of33()
    ensures Pow2(33) == 0x2_0000_0000
  {
    assert Pow2(8) == 0x100;
    PowersAdd(8, 8);
    PowersAdd(16, 16);
    assert Pow2(33) == 2 * Pow2(32);
  }

  lemma Pow2Of30()
    ensures Pow2(30) == 0x4000_0000
  {
    Pow2Of33();
    assert Pow2(33) == 2 * Pow2(32) && Pow2(32) == 2 * Pow2(31) && Pow2(31) == 2 * Pow2(30);
  }

  lemma Pow2Of63()
    ensures Pow2(63) == TWO_63
  {
    Pow2Of33();
    Pow2Of30();
    PowersAdd(33, 30);
  }

  lemma {:induction false} PowersGrow(a: nat, b: nat)
    requires a <= b
    ensures Pow2(a) <= Pow2(b)
  {
    if a < b { PowersGrow(a, b - 1); }
  }

  // ---- When the wrap does no harm -----------------------------------------------------------------

  function Quotient(n: nat, d: nat): nat
    requires d > 0
  {
    n / d
  }

  function Remainder(n: nat, d: nat): (r: nat)
    requires d > 0
    ensures r < d && n == Quotient(n, d) * d + r
  {
    n % d
  }

  /** The part of the shifted base that a signed 64-bit word has room for, and the part above. */
  function Low(base: nat, shift: nat): nat
    requires shift <= 30
  {
    Remainder(base, Pow2(63 - shift)) * Pow2(shift)
  }

  function Top(base: nat, shift: nat): nat
    requires shift <= 30
  {
    Quotient(base, Pow2(63 - shift))
  }

  lemma MulLess(a: nat, b: nat, c: nat)
    requires a < b && c > 0
    ensures a * c < b * c
  {
  }

  lemma SplitProduct(n: nat, d: nat, q: nat, r: nat, m: nat)
    requires n == q * d + r && r < d && m > 0
    ensures n * m == q * (d * m) + r * m && r * m < d * m
  {
    assert (q * d + r) * m == q * (d * m) + r * m;
    MulLess(r, d, m);
  }

  lemma Split(base: nat, shift: nat)
    requires shift <= 30
    ensures base * Pow2(shift) == Top(base, shift) * TWO_63 + Low(base, shift)
    ensures Low(base, shift) < TWO_63
  {
    var d := Pow2(63 - shift);
    PowersAdd(63 - shift, shift);
    Pow2Of63();
    SplitProduct(base, d, Quotient(base, d), Remainder(base, d), Pow2(shift));
  }

  lemma WrapOfSplit(top: nat, low: nat)
    requires low < TWO_63
    ensures Wrap(top * TWO_63 + low) == if top % 2 == 0 then low else low - TWO_63
  {
    var h := top / 2;
    if top % 2 == 0 {
      assert top * TWO_63 + low + TWO_63 == h * TWO_64 + (low + TWO_63);
    } else {
      assert top * TWO_63 + low + TWO_63 == (h + 1) * TWO_64 + low;
    }
  }

  /** The delay is the intended one exactly when the shifted base fits, or overflows into a negative
      number, or leaves a low part of at least the maximum; otherwise it is that low part. */
  lemma ExactIff(p: Policy, attempt: int)
    requires p.Valid()
    ensures var shift := Shift(attempt);
            Delay(p, attempt) == Intended(p, attempt) <==>
            Top(p.base, shift) == 0 || Top(p.base, shift) % 2 == 1 || Low(p.base, shift) >= p.max
    ensures Delay(p, attempt) != Intended(p, attempt) ==> Delay(p, attempt) == Low(p.base, Shift(attempt)) < p.max
  {
    var shift := Shift(attempt);
    Split(p.base, shift);
    WrapOfSplit(Top(p.base, shift), Low(p.base, shift));
  }

  /** With a base below 2^34 ns (17 seconds) every delay is the intended one. */
  lemma SmallBaseIsExact(p: Policy, attempt: int)
    requires p.Valid() && p.base < 0x4_0000_0000
    ensures Delay(p, attempt) == Intended(p, attempt)
  {
    var shift := Shift(attempt);
    ExactIff(p, attempt);
    Pow2Of33();
    PowersGrow(33, 63 - shift);
    AtMostOne(p.base, Pow2(63 - shift));
  }

  lemma AtMostOne(n: nat, d: nat)
    requires n < 2 * d
    ensures Quotient(n, d) <= 1
  {
    var r := Remainder(n, d);
  }

  /** So it never shrinks from one attempt to the next, and stays between the base and the maximum. */
  lemma SmallBaseIsMonotone(p: Policy, attempt: int, next: int)
    requires p.Valid() && p.base < 0x4_0000_0000 && attempt <= next
    ensures p.base <= Delay(p, attempt) <= Delay(p, next) <= p.max
  {
    SmallBaseIsExact(p, attempt);
    SmallBaseIsExact(p, next);
    PowersGrow(Shift(attempt), Shift(next));
    MulAtMost(Pow2(Shift(attempt)), Pow2(Shift(next)), p.base);
    MulAtMost(1, Pow2(Shift(attempt)), p.base);
  }

  lemma MulAtMost(a: nat, b: nat, c: nat)
    requires a <= b
    ensures c * a <= c * b
  {
  }

  /** At 2^34 ns the 31st attempt, and every later one, is retried at once. */
  lemma LargeBaseRetriesAtOnce(p: Policy, attempt: int)
    requires p.Valid() && p.base == 0x4_0000_0000 && attempt >= 31
    ensures Delay(p, attempt) == 0 && Intended(p, attempt) == p.max
  {
    Pow2Of30();
  }
}
