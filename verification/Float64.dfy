/** Whole numbers as IEEE 754 double precision sees them: rounded to 53 significant bits, ties to even. */
module Float64 {
  /** 2^53: up to here every whole number is a float64. */
  const EXACT: int := 0x20_0000_0000_0000

  function Pow2(n: nat): (p: nat)
    ensures p >= 1
  {
    if n == 0 then 1 else 2 * Pow2(n - 1)
  }

  /** The power of two that separates float64 values at n. */
  function Exponent(n: nat): nat {
    if n < EXACT then 0 else 1 + Exponent(n / 2)
  }

  /** The float64 nearest to n. */
  function Round(n: nat): nat {
    var u := Pow2(Exponent(n));
    var q, r := n / u, n % u;
    if 2 * r < u || (2 * r == u && q % 2 == 0) then q * u else (q + 1) * u
  }

  function RoundInt(n: int): int {
    if n >= 0 then Round(n) else 0 - Round(-n)
  }

  lemma {:induction false} ExponentBounds(n: nat)
    requires n >= EXACT
    ensures Exponent(n) >= 1
    ensures Pow2(Exponent(n)) * (EXACT / 2) <= n < Pow2(Exponent(n)) * EXACT
  {
    if n / 2 >= EXACT {
      ExponentBounds(n / 2);
    } else {
      assert Exponent(n / 2) == 0;
    }
  }

  lemma Scale(a: nat, b: nat, u: nat)
    ensures a <= b ==> a * u <= b * u
    ensures (a + 1) * u == a * u + u
  {
  }

  /** From 2^53 on n is a 53-bit multiple of the spacing and a rest. */
  lemma Quotient(n: nat)
    requires n >= EXACT
    ensures EXACT / 2 <= n / Pow2(Exponent(n)) < EXACT
  {
    var u := Pow2(Exponent(n));
    var q := n / u;
    ExponentBounds(n);
    Scale(q + 1, EXACT / 2, u);
    Scale(q, EXACT, u);
    Scale(EXACT, q, u);
    assert n == q * u + n % u;
  }

  lemma AtLeastExact(q: nat, u: nat)
    requires q >= EXACT / 2 && u >= 2
    ensures q * u >= EXACT
  {
    Scale(EXACT / 2, q, u);
    Scale(2, u, EXACT / 2);
  }

  /** Rounding never crosses 2^53. */
  lemma RoundLarge(n: nat)
    ensures n < EXACT ==> Round(n) == n
    ensures n >= EXACT ==> Round(n) >= EXACT
  {
    if n >= EXACT {
      var u := Pow2(Exponent(n));
      ExponentBounds(n);
      Quotient(n);
      assert u == 2 * Pow2(Exponent(n) - 1);
      AtLeastExact(n / u, u);
      AtLeastExact(n / u + 1, u);
      hide Pow2, Exponent;
    }
  }

  /** A 53-bit multiple of a power of two has that spacing. */
  lemma {:induction false} ExponentOf(q: nat, k: nat)
    requires EXACT / 2 <= q < EXACT
    ensures Exponent(q * Pow2(k)) == k
  {
    if k > 0 {
      ExponentOf(q, k - 1);
      var m := q * Pow2(k - 1);
      assert q * Pow2(k) == 2 * m;
      Scale(1, Pow2(k - 1), q);
      assert 2 * m >= EXACT && 2 * m / 2 == m;
    }
  }

  lemma Exact(q: nat, k: nat)
    requires EXACT / 2 <= q < EXACT
    ensures Round(q * Pow2(k)) == q * Pow2(k)
  {
    ExponentOf(q, k);
    Divides(q, Pow2(k));
    hide Pow2, Exponent;
  }

  lemma Divides(q: nat, u: nat)
    requires u >= 1
    ensures (q * u) / u == q && (q * u) % u == 0
  {
    var m := q * u;
    assert m == (m / u) * u + m % u;
    Scale(m / u + 1, q, u);
    Scale(q + 1, m / u, u);
    Scale(m / u, m / u, u);
    Scale(q, q, u);
  }

  /** A float64 rounds to itself. */
  lemma RoundIdempotent(n: nat)
    ensures Round(Round(n)) == Round(n)
  {
    if n >= EXACT {
      var k := Exponent(n);
      var q := n / Pow2(k);
      Quotient(n);
      Exact(q, k);
      if q + 1 < EXACT {
        Exact(q + 1, k);
      } else {
        Exact(EXACT / 2, k + 1);
        assert EXACT / 2 * Pow2(k + 1) == EXACT * Pow2(k);
      }
    }
  }

  lemma RoundIntIdempotent(n: int)
    ensures RoundInt(RoundInt(n)) == RoundInt(n)
  {
    if n >= 0 {
      RoundIdempotent(n);
    } else {
      RoundIdempotent(-n);
    }
    hide Round;
  }

  lemma {:induction false} Pow2Sum(a: nat, b: nat)
    ensures Pow2(a + b) == Pow2(a) * Pow2(b)
  {
    if a > 0 {
      Pow2Sum(a - 1, b);
      assert Pow2(a) * Pow2(b) == 2 * (Pow2(a - 1) * Pow2(b));
    }
  }

  lemma {:induction false} Pow2Grows(a: nat, b: nat)
    requires a < b
    ensures 2 * Pow2(a) <= Pow2(b)
  {
    if a + 1 < b {
      Pow2Grows(a, b - 1);
    }
  }

  /** A 53-bit number times a power of two is a float64. */
  lemma Representable(m: nat, k: nat)
    requires m < EXACT
    ensures Round(m * Pow2(k)) == m * Pow2(k)
  {
    var n := m * Pow2(k);
    if n >= EXACT {
      var e := Exponent(n);
      ExponentBounds(n);
      ExponentAtMost(m, k, e);
      Pow2Sum(k - e, e);
      Regroup(m, Pow2(k - e), Pow2(e));
      Divides(m * Pow2(k - e), Pow2(e));
    }
    hide Exponent, Pow2;
  }

  lemma Regroup(a: nat, b: nat, d: nat)
    ensures a * (b * d) == (a * b) * d
  {
  }

  lemma ExponentAtMost(m: nat, k: nat, e: nat)
    requires m < EXACT && Pow2(e) * (EXACT / 2) <= m * Pow2(k)
    ensures e <= k
  {
    if e > k {
      Pow2Grows(k, e);
      Scale(2 * Pow2(k), Pow2(e), EXACT / 2);
      Scale(m + 1, EXACT, Pow2(k));
    }
  }

  /** Rounding moves n by no more than one part in 2^53. */
  lemma RoundError(n: nat)
    ensures (Round(n) - n) * EXACT <= n && (n - Round(n)) * EXACT <= n
  {
    RoundLarge(n);
    if n >= EXACT {
      var u := Pow2(Exponent(n));
      ExponentBounds(n);
      hide Exponent, Pow2;
      HalfSpacing(n, u);
    }
  }

  lemma HalfSpacing(n: nat, u: nat)
    requires u >= 1 && u * (EXACT / 2) <= n
    ensures var q, r := n / u, n % u;
            && (0 - r) * EXACT <= n && (2 * r <= u ==> r * EXACT <= n)
            && ((q + 1) * u - n == u - r) && (2 * r >= u ==> (u - r) * EXACT <= n) && n - q * u == r
  {
    var q, r := n / u, n % u;
    assert n == q * u + r;
    Scale(q, q, u);
    if 2 * r <= u {
      Scale(2 * r, u, EXACT / 2);
    }
    if 2 * r >= u {
      Scale(2 * (u - r), u, EXACT / 2);
    }
  }

  lemma {:induction false} ExponentMonotone(a: nat, b: nat)
    requires a <= b
    ensures Exponent(a) <= Exponent(b)
  {
    if a >= EXACT {
      ExponentMonotone(a / 2, b / 2);
    }
  }

  lemma RoundMonotone(a: nat, b: nat)
    requires a <= b
    ensures Round(a) <= Round(b)
  {
    RoundLarge(a);
    RoundLarge(b);
    if a >= EXACT {
      ExponentMonotone(a, b);
      var u, w := Pow2(Exponent(a)), Pow2(Exponent(b));
      if Exponent(a) == Exponent(b) {
        hide Exponent, Pow2;
        SameSpacing(a, b, u);
      } else {
        Pow2Grows(Exponent(a), Exponent(b));
        Quotient(a);
        Quotient(b);
        hide Exponent, Pow2;
        OtherSpacing(a / u, b / w, u, w);
      }
    }
  }

  lemma SameSpacing(a: nat, b: nat, u: nat)
    requires a <= b && u >= 1
    ensures a / u <= b / u && (a / u == b / u ==> a % u <= b % u)
    ensures a / u < b / u ==> (a / u + 1) * u <= (b / u) * u
    ensures (a / u) * u <= (b / u) * u && (a / u + 1) * u <= (b / u + 1) * u && (b / u) * u <= (b / u + 1) * u
  {
    QuotientsInOrder(a / u, a % u, b / u, b % u, u);
  }

  lemma QuotientsInOrder(q: nat, r: nat, p: nat, t: nat, u: nat)
    requires r < u && t < u && q * u + r <= p * u + t
    ensures q <= p && (q == p ==> r <= t) && (q < p ==> (q + 1) * u <= p * u)
    ensures q * u <= p * u && (q + 1) * u <= (p + 1) * u && p * u <= (p + 1) * u
  {
    Scale(p + 1, q, u);
    Scale(p, p, u);
    Scale(q + 1, p, u);
    Scale(q, p, u);
    Scale(q, q, u);
  }

  lemma OtherSpacing(q: nat, p: nat, u: nat, w: nat)
    requires q < EXACT && EXACT / 2 <= p && 2 * u <= w
    ensures q * u <= (q + 1) * u <= p * w <= (p + 1) * w
  {
    Scale(q, q + 1, u);
    Scale(q + 1, EXACT, u);
    Scale(2 * u, w, EXACT / 2);
    Scale(EXACT / 2, p, w);
    Scale(p, p + 1, w);
  }
}
