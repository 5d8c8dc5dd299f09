/** 64-bit integers: what fits, what overflow makes of what does not, and powers. */
module Int64 {
  const TWO_63: int := 0x8000_0000_0000_0000
  const TWO_64: int := 0x1_0000_0000_0000_0000

  predicate IsInt64(x: int) {
    -TWO_63 <= x < TWO_63
  }

  /** What 64-bit arithmetic makes of a result. */
  function Wrap(x: int): (y: int)
    ensures IsInt64(y)
    ensures IsInt64(x) ==> y == x
  {
    (x + TWO_63) % TWO_64 - TWO_63
  }

  /** A duration that does not fit becomes the longest of its sign. */
  function Saturated(exact: int): (d: int)
    ensures IsInt64(d)
  {
    if exact < -TWO_63 then -TWO_63 else if exact >= TWO_63 then TWO_63 - 1 else exact
  }

  /** absDuration, where the most negative duration has no counterpart and stays negative. */
  function AbsDuration(d: int): int
    requires IsInt64(d)
  {
    if d < 0 then Wrap(-d) else d
  }

  function Pow(b: int, n: nat): int {
    if n == 0 then 1 else b * Pow(b, n - 1)
  }

  lemma Periods(x: int) returns (k: int)
    ensures Wrap(x) == x + k * TWO_64
  {
    k := -((x + TWO_63) / TWO_64);
  }

  lemma {:induction false} ModIsPeriodic(x: int, k: int)
    ensures (x + k * TWO_64) % TWO_64 == x % TWO_64
    decreases if k < 0 then -k else k
  {
  }

  /** Wrapping early or late makes no difference. */
  lemma WrapOfProduct(x: int, y: int)
    ensures Wrap(Wrap(x) * y) == Wrap(x * y)
  {
    var k := Periods(x);
    assert Wrap(x) * y == x * y + (k * y) * TWO_64 by {
      calc {
        Wrap(x) * y;
        (x + k * TWO_64) * y;
        x * y + k * TWO_64 * y;
        x * y + (k * y) * TWO_64;
      }
    }
    ModIsPeriodic(x * y + TWO_63, k * y);
    assert Wrap(x) * y + TWO_63 == (x * y + TWO_63) + (k * y) * TWO_64;
  }

  lemma {:induction false} PowIsPositive(b: int, n: nat)
    requires b >= 1
    ensures Pow(b, n) >= 1
  {
    if n > 0 {
      PowIsPositive(b, n - 1);
    }
  }

  lemma {:induction false} PowIsMonotone(b: int, m: nat, n: nat)
    requires b >= 1 && m <= n
    ensures Pow(b, m) <= Pow(b, n)
  {
    PowIsPositive(b, n);
    if m < n {
      PowIsMonotone(b, m, n - 1);
      PowIsPositive(b, n - 1);
      assert Pow(b, n - 1) <= b * Pow(b, n - 1);
    }
  }

  lemma ScalingIsMonotone(x: int, y: int, factor: int)
    requires x <= y && factor >= 0
    ensures x * factor <= y * factor
  {
  }

  lemma {:induction false} PowAdds(b: int, m: nat, n: nat)
    ensures Pow(b, m + n) == Pow(b, m) * Pow(b, n)
  {
    if n > 0 {
      PowAdds(b, m, n - 1);
      calc {
        Pow(b, m + n);
        b * Pow(b, m + (n - 1));
        b * (Pow(b, m) * Pow(b, n - 1));
        Pow(b, m) * (b * Pow(b, n - 1));
      }
    }
  }

  lemma PowOfTwo63()
    ensures Pow(2, 63) == TWO_63
  {
    assert Pow(2, 8) == 256;
    PowAdds(2, 8, 8);
    PowAdds(2, 16, 16);
    PowAdds(2, 32, 16);
    PowAdds(2, 48, 8);
    assert Pow(2, 7) == 128;
    PowAdds(2, 56, 7);
  }
}
