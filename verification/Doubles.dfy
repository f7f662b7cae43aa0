// Whole numbers as double-precision floats: round to nearest, ties to even.

module Doubles {
  // Every whole number up to here has its own double.
  const EXACT: nat := 0x20_0000_0000_0000

  // The distance between neighbouring doubles at this magnitude.
  function Ulp(m: nat): (u: nat)
    ensures u >= 1
  {
    if m < EXACT then 1 else 2 * Ulp(m / 2)
  }

  // `q` whole spacings and a rest: down below the half, up above it, to the even one at it.
  function Nearest(q: nat, rest: nat, u: nat): nat {
    if 2 * rest < u || (2 * rest == u && q % 2 == 0) then q * u else (q + 1) * u
  }

  function Round(m: nat): nat {
    Nearest(m / Ulp(m), m % Ulp(m), Ulp(m))
  }

  function ToDouble(i: int): int {
    if i >= 0 then Round(i) else 0 - Round(0 - i)
  }

  lemma {:induction false} UlpScale(m: nat)
    ensures m < EXACT * Ulp(m)
    ensures Ulp(m) > 1 ==> EXACT / 2 * Ulp(m) <= m
  {
    if m >= EXACT {
      UlpScale(m / 2);
    }
  }

  lemma {:induction false} UlpGrows(m: nat, n: nat)
    requires m <= n
    ensures Ulp(m) == Ulp(n) || 2 * Ulp(m) <= Ulp(n)
  {
    if m >= EXACT {
      UlpGrows(m / 2, n / 2);
    }
  }

  lemma DivMod(m: nat, u: nat)
    requires u > 0
    ensures m / u * u + m % u == m && 0 <= m % u < u && 0 <= m / u
  {
  }

  lemma Times(a: int, b: int, u: nat)
    requires a <= b
    ensures a * u <= b * u
  {
  }

  // The quotient stays within one binade.
  lemma QuotientBounds(m: nat)
    ensures m / Ulp(m) + 1 <= EXACT
    ensures Ulp(m) > 1 ==> EXACT / 2 <= m / Ulp(m)
  {
    var u := Ulp(m);
    var q := m / u;
    UlpScale(m);
    DivMod(m, u);
    if q >= EXACT {
      Times(EXACT, q, u);
      assert false;
    }
    if u > 1 {
      BelowQuotient(m, u, q, EXACT / 2);
    }
  }

  lemma BelowQuotient(m: nat, u: nat, q: nat, k: nat)
    requires u > 0 && m < q * u + u && k * u <= m
    ensures k <= q
  {
    if q + 1 <= k {
      Times(q + 1, k, u);
      assert false;
    }
  }

  // A double is at most half a spacing away.
  lemma RoundNearest(m: nat)
    ensures 2 * Round(m) <= 2 * m + Ulp(m) && 2 * m <= 2 * Round(m) + Ulp(m)
  {
    var u := Ulp(m);
    DivMod(m, u);
    assert (m / u + 1) * u == m / u * u + u;
  }

  lemma RoundExact(m: nat)
    requires m <= EXACT
    ensures Round(m) == m
  {
    if m == EXACT {
      assert Ulp(m / 2) == 1;
      assert Ulp(m) == 2;
    }
  }

  // Rounding never swaps two numbers.
  lemma RoundMonotone(m: nat, n: nat)
    requires m <= n
    ensures Round(m) <= Round(n)
  {
    UlpGrows(m, n);
    if Ulp(m) == Ulp(n) {
      SameBinade(m, n);
    } else {
      NextBinade(m, n);
    }
  }

  lemma SameBinade(m: nat, n: nat)
    requires m <= n && Ulp(m) == Ulp(n)
    ensures Round(m) <= Round(n)
  {
    hide Ulp, Nearest;
    var u := Ulp(m);
    DivMod(m, u);
    DivMod(n, u);
    var p, q := m / u, n / u;
    BelowQuotient(n, u, q, p);
    NearestMonotone(p, m % u, q, n % u, u);
  }

  lemma NearestMonotone(p: nat, r: nat, q: nat, s: nat, u: nat)
    requires p < q || (p == q && r <= s)
    ensures Nearest(p, r, u) <= Nearest(q, s, u)
  {
    Times(p, p + 1, u);
    Times(q, q + 1, u);
    if p < q {
      Times(p + 1, q, u);
    }
  }

  lemma NextBinade(m: nat, n: nat)
    requires m <= n && 2 * Ulp(m) <= Ulp(n)
    ensures Round(m) <= Round(n)
  {
    hide Ulp;
    var u, v := Ulp(m), Ulp(n);
    QuotientBounds(m);
    QuotientBounds(n);
    Times(m / u, EXACT, u);
    Times(m / u + 1, EXACT, u);
    Times(EXACT / 2, n / v, v);
    Times(n / v, n / v + 1, v);
    assert EXACT * u == EXACT / 2 * (2 * u);
    assert EXACT / 2 * (2 * u) <= EXACT / 2 * v;
  }

  lemma ToDoubleMonotone(i: int, j: int)
    requires i <= j
    ensures ToDouble(i) <= ToDouble(j)
  {
    hide Round;
    if i >= 0 {
      RoundMonotone(i, j);
    } else if j < 0 {
      RoundMonotone(-j, -i);
    }
  }

  lemma ToDoubleExact(i: int)
    requires i <= EXACT && -i <= EXACT
    ensures ToDouble(i) == i
  {
    hide Round;
    RoundExact(if i >= 0 then i else -i);
  }

  // The first whole number without a double of its own.
  lemma FirstCollision()
    ensures ToDouble(EXACT) == EXACT == ToDouble(EXACT + 1)
  {
    var m := EXACT + 1;
    ToDoubleExact(EXACT);
    assert Ulp(m / 2) == 1;
    assert Ulp(m) == 2;
    assert m / 2 == EXACT / 2 && m % 2 == 1;
  }
}
