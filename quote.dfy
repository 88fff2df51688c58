/** The loan-quote arithmetic of the `POST /api/solicitudes` handler
    (server.js:237-242), over exact reals.

    The monthly rate is `i = tasa / 100 / 12`; the monthly payment is the
    annuity formula `monto * i * (1 + i)^n / ((1 + i)^n - 1)` and the total is
    `payment * n`. The code has no interest-free branch: when
    `(1 + i)^n == 1` (a zero rate, a zero term, or an even term at -2400 %) it
    divides by zero, so the quote is only defined under `Defined`; what the
    handler then stores is given in the Server module.
 */
module Quote {

  /** `x` raised to the natural power `n` (the code's `Math.pow` on a term). */
  function Pow(x: real, n: nat): real
    decreases n
  {
    if n == 0 then 1.0 else x * Pow(x, n - 1)
  }

  /** Monthly rate from an annual percentage: `tasa / 100 / 12`. */
  function MonthlyRate(tasa: real): real
  {
    tasa / 100.0 / 12.0
  }

  /** The quote's denominator `(1 + i)^n - 1` is not zero. */
  predicate Defined(tasa: real, plazo: nat)
  {
    Pow(1.0 + MonthlyRate(tasa), plazo) != 1.0
  }

  /** The computed loan terms: `pago_mensual` and `monto_total`. */
  datatype Cotizacion = Cotizacion(pagoMensual: real, montoTotal: real)

  /** The quote for principal `monto`, annual rate `tasa` (percent) and a
      term of `plazo` months. The total is the payment times the term, by
      construction. */
  function Compute(monto: real, tasa: real, plazo: nat): (q: Cotizacion)
    requires Defined(tasa, plazo)
    ensures q.montoTotal == q.pagoMensual * plazo as real
  {
    var i := MonthlyRate(tasa);
    var f := Pow(1.0 + i, plazo);
    var pago := (monto * i * f) / (f - 1.0);
    Cotizacion(pago, pago * plazo as real)
  }

  // ---------------------------------------------------------------------
  // Real-arithmetic steps, stated on plain variables

  lemma MulStrict(a: real, b: real, c: real)
    requires a < b && c > 0.0
    ensures a * c < b * c
  {
  }

  lemma MulMonotone(a: real, b: real, c: real)
    requires a <= b && c >= 0.0
    ensures a * c <= b * c
  {
  }

  lemma ZeroFactor(a: real, b: real)
    requires b != 0.0
    ensures a * b == 0.0 <==> a == 0.0
  {
  }

  lemma DivCancel(a: real, b: real)
    requires b != 0.0
    ensures (a * b) / b == a
  {
  }

  lemma MulEqual(a: real, b: real, c: real)
    requires a == b
    ensures c * a == c * b
  {
  }

  lemma MulCancel(a: real, b: real, c: real)
    requires c != 0.0 && a * c == b * c
    ensures a == b
  {
    ZeroFactor(a - b, c);
  }

  lemma MulOne(a: real, g: real)
    requires g == 1.0
    ensures a * g == a
  {
  }

  // ---------------------------------------------------------------------
  // Powers

  /** One to any power is one. */
  lemma {:induction false} PowOfOne(n: nat)
    ensures Pow(1.0, n) == 1.0
  {
    if n > 0 { PowOfOne(n - 1); }
  }

  /** A positive base has positive powers. */
  lemma {:induction false} PowPositive(x: real, n: nat)
    requires x > 0.0
    ensures Pow(x, n) > 0.0
  {
    if n > 0 { PowPositive(x, n - 1); }
  }

  lemma {:induction false} PowAtLeastOne(x: real, n: nat)
    requires x >= 1.0
    ensures Pow(x, n) >= 1.0
  {
    if n > 0 {
      PowAtLeastOne(x, n - 1);
      MulMonotone(1.0, x, Pow(x, n - 1));
    }
  }

  /** Above one, powers of a positive exponent are at least the base. */
  lemma {:induction false} PowAboveOne(x: real, n: nat)
    requires x > 1.0 && n >= 1
    ensures Pow(x, n) >= x
  {
    if n > 1 {
      PowAboveOne(x, n - 1);
      assert x * Pow(x, n - 1) >= x * x;
    }
  }

  /** Between zero and one, powers of a positive exponent stay in (0, 1). */
  lemma {:induction false} PowBelowOne(x: real, n: nat)
    requires 0.0 < x < 1.0 && n >= 1
    ensures 0.0 < Pow(x, n) < 1.0
  {
    if n > 1 {
      PowBelowOne(x, n - 1);
      assert x * Pow(x, n - 1) < x;
    }
  }

  lemma {:induction false} PowAdd(x: real, a: nat, b: nat)
    ensures Pow(x, a + b) == Pow(x, a) * Pow(x, b)
  {
    if a > 0 {
      PowAdd(x, a - 1, b);
      assert Pow(x, a + b) == x * Pow(x, (a - 1) + b);
    }
  }

  lemma {:induction false} PowMonotone(x: real, y: real, n: nat)
    requires 0.0 < x <= y
    ensures Pow(x, n) <= Pow(y, n)
  {
    if n > 0 {
      PowMonotone(x, y, n - 1);
      PowPositive(x, n - 1);
      assert x * Pow(x, n - 1) <= y * Pow(x, n - 1);
      assert y * Pow(x, n - 1) <= y * Pow(y, n - 1);
    }
  }

  lemma PowStrictlyMonotone(x: real, y: real, n: nat)
    requires 0.0 < x < y && n >= 1
    ensures Pow(x, n) < Pow(y, n)
  {
    PowMonotone(x, y, n - 1);
    PowPositive(x, n - 1);
    assert x * Pow(x, n - 1) < y * Pow(x, n - 1);
    assert y * Pow(x, n - 1) <= y * Pow(y, n - 1);
  }

  // ---------------------------------------------------------------------
  // When the quote is defined

  /** For any rate above -1200 % (so that `1 + i > 0`), the quote is defined
      exactly when the rate is non-zero and the term is at least one month.
      In particular a zero rate, for which the code has no special case,
      always divides by zero. */
  lemma DefinedIff(tasa: real, plazo: nat)
    requires tasa > -1200.0
    ensures Defined(tasa, plazo) <==> tasa != 0.0 && plazo >= 1
  {
    var x := 1.0 + MonthlyRate(tasa);
    if tasa == 0.0 {
      PowOfOne(plazo);
    } else if plazo >= 1 {
      if tasa > 0.0 { PowAboveOne(x, plazo); } else { PowBelowOne(x, plazo); }
    }
  }

  /** At a zero rate no term gives a quote. */
  lemma ZeroRateUndefined(plazo: nat)
    ensures !Defined(0.0, plazo)
  {
    PowOfOne(plazo);
  }

  /** A defined quote has a non-zero monthly rate. */
  lemma DefinedNonZeroRate(tasa: real, plazo: nat)
    requires Defined(tasa, plazo)
    ensures MonthlyRate(tasa) != 0.0 && plazo >= 1
  {
    if MonthlyRate(tasa) == 0.0 { PowOfOne(plazo); }
  }

  /** The payment solves the annuity equation
      `pago * ((1 + i)^n - 1) == monto * i * (1 + i)^n`. */
  lemma PaymentEquation(monto: real, tasa: real, plazo: nat)
    requires Defined(tasa, plazo)
    ensures var i := MonthlyRate(tasa); var f := Pow(1.0 + i, plazo);
            Compute(monto, tasa, plazo).pagoMensual * (f - 1.0) == monto * i * f
  {
  }

  // ---------------------------------------------------------------------
  // The payment fully amortizes the loan

  /** Outstanding balance after `k` monthly payments of `pago`: each month the
      balance accrues interest at rate `i`, then one payment is made. */
  function Balance(monto: real, i: real, pago: real, k: nat): real
    decreases k
  {
    if k == 0 then monto else Balance(monto, i, pago, k - 1) * (1.0 + i) - pago
  }

  /** Closed form of the balance, multiplied through by `i`. */
  lemma {:induction false} BalanceClosedForm(monto: real, i: real, pago: real, k: nat)
    ensures Balance(monto, i, pago, k) * i
         == monto * i * Pow(1.0 + i, k) - pago * (Pow(1.0 + i, k) - 1.0)
  {
    if k == 0 {
      BalanceBase(Balance(monto, i, pago, k), Pow(1.0 + i, k), monto, i, pago);
    } else {
      BalanceClosedForm(monto, i, pago, k - 1);
      BalanceStep(Balance(monto, i, pago, k), Pow(1.0 + i, k),
                  Balance(monto, i, pago, k - 1), Pow(1.0 + i, k - 1), i, pago, monto);
    }
  }

  lemma BalanceBase(b: real, f: real, monto: real, i: real, pago: real)
    requires b == monto && f == 1.0
    ensures b * i == monto * i * f - pago * (f - 1.0)
  {
  }

  /** One month of the closed form: from the balance `b` after `k - 1`
      payments (with `f = (1 + i)^(k-1)`) to the balance `b'` after `k` (with
      `f' = (1 + i)^k`). */
  lemma BalanceStep(b': real, f': real, b: real, f: real, i: real, pago: real, monto: real)
    requires b' == b * (1.0 + i) - pago && f' == (1.0 + i) * f
    requires b * i == monto * i * f - pago * (f - 1.0)
    ensures b' * i == monto * i * f' - pago * (f' - 1.0)
  {
    calc {
      b' * i;
      (b * (1.0 + i) - pago) * i;
      (b * i) * (1.0 + i) - pago * i;
      (monto * i * f - pago * (f - 1.0)) * (1.0 + i) - pago * i;
      monto * i * ((1.0 + i) * f) - pago * ((1.0 + i) * f - 1.0);
      monto * i * f' - pago * (f' - 1.0);
    }
  }

  /** Paying the quoted amount every month for the whole term leaves nothing
      owing, and it is the only fixed payment that does so. */
  lemma Amortizes(monto: real, tasa: real, plazo: nat, pago: real)
    requires Defined(tasa, plazo)
    ensures Balance(monto, MonthlyRate(tasa), pago, plazo) == 0.0
        <==> pago == Compute(monto, tasa, plazo).pagoMensual
  {
    DefinedNonZeroRate(tasa, plazo);
    BalanceClosedForm(monto, MonthlyRate(tasa), pago, plazo);
    PaymentEquation(monto, tasa, plazo);
    AmortizeArith(Balance(monto, MonthlyRate(tasa), pago, plazo), MonthlyRate(tasa),
                  Pow(1.0 + MonthlyRate(tasa), plazo) - 1.0, Compute(monto, tasa, plazo).pagoMensual,
                  pago, monto * MonthlyRate(tasa) * Pow(1.0 + MonthlyRate(tasa), plazo));
  }

  /** The closed form and the payment equation combined: with `b * i` the
      balance equation and `q * g` the payment equation, the balance `b` is
      zero exactly when the payment is `q`. */
  lemma AmortizeArith(b: real, i: real, g: real, q: real, pago: real, mif: real)
    requires b * i == mif - pago * g && q * g == mif
    requires i != 0.0 && g != 0.0
    ensures b == 0.0 <==> pago == q
  {
    assert b * i == (q - pago) * g;
    ZeroFactor(b, i);
    ZeroFactor(q - pago, g);
  }

  // ---------------------------------------------------------------------
  // Special cases and bounds

  /** With a one-month term the payment is the principal plus one month of
      interest, and the total equals that payment. */
  lemma OneMonth(monto: real, tasa: real)
    requires tasa != 0.0
    ensures Defined(tasa, 1)
    ensures Compute(monto, tasa, 1).pagoMensual == monto * (1.0 + MonthlyRate(tasa))
    ensures Compute(monto, tasa, 1).montoTotal == Compute(monto, tasa, 1).pagoMensual
  {
    assert Pow(1.0 + MonthlyRate(tasa), 1) == 1.0 + MonthlyRate(tasa);
    OneMonthArith(Compute(monto, tasa, 1).pagoMensual, monto, MonthlyRate(tasa),
                  Pow(1.0 + MonthlyRate(tasa), 1));
    assert (1 as real) == 1.0;
  }

  /** The one-month payment formula with `f = 1 + i` reduces to `monto * f`. */
  lemma OneMonthArith(q: real, monto: real, i: real, f: real)
    requires f == 1.0 + i && i != 0.0
    requires q == (monto * i * f) / (f - 1.0)
    ensures q == monto * (1.0 + i)
  {
    assert f - 1.0 == i;
    assert monto * i * f == (monto * f) * i;
    DivCancel(monto * f, i);
  }

  /** `((1 + i)^n - 1) <= n * i * (1 + i)^n` for `i >= 0`: the interest
      growth bound behind "the total is at least the principal". */
  lemma {:induction false} GrowthBound(i: real, n: nat)
    requires i >= 0.0
    ensures Pow(1.0 + i, n) - 1.0 <= (n as real) * i * Pow(1.0 + i, n)
  {
    if n == 0 {
      GrowthBase(n as real, i, Pow(1.0 + i, n));
    } else {
      GrowthBound(i, n - 1);
      PowAtLeastOne(1.0 + i, n - 1);
      GrowthStep(i, Pow(1.0 + i, n - 1), Pow(1.0 + i, n), (n - 1) as real, n as real);
    }
  }

  lemma GrowthBase(n: real, i: real, f: real)
    requires n == 0.0 && f == 1.0
    ensures f - 1.0 <= n * i * f
  {
  }

  /** One step of `GrowthBound`, with `p = (1 + i)^(n-1)`, `p' = (1 + i)^n`,
      `m = n - 1` and `m' = n`. */
  lemma GrowthStep(i: real, p: real, p': real, m: real, m': real)
    requires i >= 0.0 && p >= 1.0 && p - 1.0 <= m * i * p
    requires p' == (1.0 + i) * p && m' == m + 1.0
    ensures p' - 1.0 <= m' * i * p'
  {
    MulMonotone(p - 1.0, m * i * p, 1.0 + i);
    MulMonotone(1.0, 1.0 + i, p);
    MulMonotone(1.0, (1.0 + i) * p, i);
    calc {
      p' - 1.0;
      (p - 1.0) * (1.0 + i) + i;
    <=
      (m * i * p) * (1.0 + i) + i;
    <=
      (m * i * p) * (1.0 + i) + ((1.0 + i) * p) * i;
      (m + 1.0) * i * ((1.0 + i) * p);
      m' * i * p';
    }
  }

  /** For a positive principal, a positive rate and a term of at least one
      month, the payment is positive and the total repaid is at least
      the principal. */
  lemma PositiveRate(monto: real, tasa: real, plazo: nat)
    requires monto > 0.0 && tasa > 0.0 && plazo >= 1
    ensures Defined(tasa, plazo)
    ensures Compute(monto, tasa, plazo).pagoMensual > 0.0
    ensures Compute(monto, tasa, plazo).montoTotal >= monto
  {
    DefinedIff(tasa, plazo);
    PowAboveOne(1.0 + MonthlyRate(tasa), plazo);
    GrowthBound(MonthlyRate(tasa), plazo);
    PaymentEquation(monto, tasa, plazo);
    ExceedsPrincipal(monto, MonthlyRate(tasa), Pow(1.0 + MonthlyRate(tasa), plazo), plazo as real,
                     Compute(monto, tasa, plazo).pagoMensual);
  }

  /** The arithmetic of `PositiveRate`, with `f = (1 + i)^n`. */
  lemma ExceedsPrincipal(monto: real, i: real, f: real, n: real, pago: real)
    requires monto > 0.0 && i > 0.0 && f > 1.0
    requires f - 1.0 <= n * i * f
    requires pago * (f - 1.0) == monto * i * f
    ensures pago > 0.0 && pago * n >= monto
  {
    MulStrict(0.0, monto, i);
    MulStrict(0.0, monto * i, f);
    if pago <= 0.0 {
      MulMonotone(pago, 0.0, f - 1.0);
      assert false;
    }
    MulStrict(0.0, i, f);
    assert n * i * f == n * (i * f) && monto * i * f == monto * (i * f);
    AtLeastPrincipal(pago, n, i * f, f - 1.0, monto);
  }

  /** `pago * n >= monto` from `pago * d == monto * w` and `d <= n * w`. */
  lemma AtLeastPrincipal(pago: real, n: real, w: real, d: real, monto: real)
    requires pago > 0.0 && w > 0.0 && d <= n * w && pago * d == monto * w
    ensures pago * n >= monto
  {
    MulMonotone(d, n * w, pago);
    if pago * n < monto {
      MulStrict(pago * n, monto, w);
      assert false;
    }
  }

  // ---------------------------------------------------------------------
  // Monotonicity in the rate

  /** `1 + x + ... + x^(k-1)`. */
  function GeometricSum(x: real, k: nat): real
    decreases k
  {
    if k == 0 then 0.0 else GeometricSum(x, k - 1) + Pow(x, k - 1)
  }

  lemma {:induction false} GeometricSumClosedForm(x: real, k: nat)
    ensures GeometricSum(x, k) * (x - 1.0) == Pow(x, k) - 1.0
  {
    if k > 0 {
      GeometricSumClosedForm(x, k - 1);
      GeometricStep(GeometricSum(x, k), GeometricSum(x, k - 1), Pow(x, k), Pow(x, k - 1), x);
    }
  }

  lemma GeometricStep(g': real, g: real, p': real, p: real, x: real)
    requires g' == g + p && p' == x * p && g * (x - 1.0) == p - 1.0
    ensures g' * (x - 1.0) == p' - 1.0
  {
    MulEqual(g', g + p, x - 1.0);
  }

  lemma {:induction false} GeometricSumPositive(x: real, k: nat)
    requires x > 0.0 && k >= 1
    ensures GeometricSum(x, k) > 0.0
  {
    PowPositive(x, k - 1);
    if k > 1 { GeometricSumPositive(x, k - 1); }
  }

  /** The payment times the geometric sum is the principal grown over the
      whole term: `pago * (1 + ... + (1+i)^(n-1)) == monto * (1+i)^n`. */
  lemma PaymentGeometric(monto: real, tasa: real, plazo: nat)
    requires Defined(tasa, plazo)
    ensures var x := 1.0 + MonthlyRate(tasa);
            Compute(monto, tasa, plazo).pagoMensual * GeometricSum(x, plazo) == monto * Pow(x, plazo)
  {
    DefinedNonZeroRate(tasa, plazo);
    PaymentEquation(monto, tasa, plazo);
    GeometricSumClosedForm(1.0 + MonthlyRate(tasa), plazo);
    GeometricArith(Compute(monto, tasa, plazo).pagoMensual, GeometricSum(1.0 + MonthlyRate(tasa), plazo),
                   MonthlyRate(tasa), Pow(1.0 + MonthlyRate(tasa), plazo), monto);
  }

  /** The arithmetic of `PaymentGeometric`, with `G` the geometric sum and
      `f = (1 + i)^n`. */
  lemma GeometricArith(q: real, G: real, i: real, f: real, monto: real)
    requires q * (f - 1.0) == monto * i * f && G * ((1.0 + i) - 1.0) == f - 1.0 && i != 0.0
    ensures q * G == monto * f
  {
    MulEqual((1.0 + i) - 1.0, i, G);
    MulEqual(f - 1.0, G * i, q);
    MulCancel(q * G, monto * f, i);
  }

  /** `x^n * G(y, k) < y^n * G(x, k)` for `0 < x < y` and `1 <= k <= n`. */
  lemma {:induction false} CrossBound(x: real, y: real, n: nat, k: nat)
    requires 0.0 < x < y && 1 <= k <= n
    ensures Pow(x, n) * GeometricSum(y, k) < Pow(y, n) * GeometricSum(x, k)
  {
    if k == 1 {
      PowStrictlyMonotone(x, y, n);
      MulOne(Pow(x, n), GeometricSum(y, 1));
      MulOne(Pow(y, n), GeometricSum(x, 1));
    } else {
      CrossBound(x, y, n, k - 1);
      TermBound(x, y, n, k - 1);
      CrossStep(Pow(x, n), Pow(y, n), GeometricSum(x, k - 1), GeometricSum(y, k - 1),
                Pow(x, k - 1), Pow(y, k - 1), GeometricSum(x, k), GeometricSum(y, k));
    }
  }

  /** `x^n * y^j <= y^n * x^j` for `0 < x < y` and `j < n`. */
  lemma TermBound(x: real, y: real, n: nat, j: nat)
    requires 0.0 < x < y && j < n
    ensures Pow(x, n) * Pow(y, j) <= Pow(y, n) * Pow(x, j)
  {
    PowSplit(x, n, j);
    PowSplit(y, n, j);
    PowMonotone(x, y, n - j);
    PowPositive(x, j);
    PowPositive(y, j);
    TermArith(Pow(x, n), Pow(y, n), Pow(x, j), Pow(y, j), Pow(x, n - j), Pow(y, n - j));
  }

  lemma PowSplit(x: real, n: nat, j: nat)
    requires j <= n
    ensures Pow(x, n) == Pow(x, j) * Pow(x, n - j)
  {
    PowAdd(x, j, n - j);
    assert j + (n - j) == n;
  }

  /** The arithmetic of `TermBound`: `xn = a * xm`, `yn = b * ym`. */
  lemma TermArith(xn: real, yn: real, a: real, b: real, xm: real, ym: real)
    requires xn == a * xm && yn == b * ym && xm <= ym && a > 0.0 && b > 0.0
    ensures xn * b <= yn * a
  {
    MulMonotone(xm, ym, a * b);
  }

  /** Adding the `k`-th terms to both sides of `CrossBound`. */
  lemma CrossStep(px: real, py: real, gx: real, gy: real, a: real, b: real, gx': real, gy': real)
    requires px * gy < py * gx && px * b <= py * a
    requires gx' == gx + a && gy' == gy + b
    ensures px * gy' < py * gx'
  {
    MulEqual(gy', gy + b, px);
    MulEqual(gx', gx + a, py);
    assert px * (gy + b) == px * gy + px * b;
    assert py * (gx + a) == py * gx + py * a;
  }

  /** Holding principal and term fixed, the monthly payment strictly
      increases with the annual rate (over rates above -1200 % where the
      quote is defined). */
  lemma PaymentIncreasesWithRate(monto: real, tasa1: real, tasa2: real, plazo: nat)
    requires monto > 0.0 && -1200.0 < tasa1 < tasa2
    requires Defined(tasa1, plazo) && Defined(tasa2, plazo)
    ensures Compute(monto, tasa1, plazo).pagoMensual < Compute(monto, tasa2, plazo).pagoMensual
  {
    DefinedNonZeroRate(tasa1, plazo);
    PaymentGeometric(monto, tasa1, plazo);
    PaymentGeometric(monto, tasa2, plazo);
    GeometricSumPositive(1.0 + MonthlyRate(tasa1), plazo);
    GeometricSumPositive(1.0 + MonthlyRate(tasa2), plazo);
    CrossBound(1.0 + MonthlyRate(tasa1), 1.0 + MonthlyRate(tasa2), plazo, plazo);
    IncreaseArith(Compute(monto, tasa1, plazo).pagoMensual, Compute(monto, tasa2, plazo).pagoMensual,
                  GeometricSum(1.0 + MonthlyRate(tasa1), plazo), GeometricSum(1.0 + MonthlyRate(tasa2), plazo),
                  Pow(1.0 + MonthlyRate(tasa1), plazo), Pow(1.0 + MonthlyRate(tasa2), plazo), monto);
  }

  /** The arithmetic of `PaymentIncreasesWithRate`: payments `p1`, `p2`,
      geometric sums `g1`, `g2` and growth factors `f1`, `f2`. */
  lemma IncreaseArith(p1: real, p2: real, g1: real, g2: real, f1: real, f2: real, monto: real)
    requires p1 * g1 == monto * f1 && p2 * g2 == monto * f2
    requires f1 * g2 < f2 * g1 && monto > 0.0 && g1 > 0.0 && g2 > 0.0
    ensures p1 < p2
  {
    MulStrict(f1 * g2, f2 * g1, monto);
    MulEqual(p1 * g1, monto * f1, g2);
    MulEqual(p2 * g2, monto * f2, g1);
    MulStrict(0.0, g1, g2);
    if p1 >= p2 {
      MulMonotone(p2, p1, g1 * g2);
      assert false;
    }
  }

  // ---------------------------------------------------------------------
  // Worked figures at the seeded 18 % rate

  /** 10,000 over 12 months at 18 %: about 916.80 a month, 11,001.60 in all. */
  lemma TwelveMonthsAt18()
    ensures Defined(18.0, 12)
    ensures 916.79 < Compute(10000.0, 18.0, 12).pagoMensual < 916.81
    ensures 11001.59 < Compute(10000.0, 18.0, 12).montoTotal < 11001.61
  {
    var x := 1.015;
    assert MonthlyRate(18.0) == 0.015;
    var x2 := x * x;
    var x4 := x2 * x2;
    var x8 := x4 * x4;
    assert Pow(x, 12) == x8 * x4 by {
      PowAdd(x, 8, 4);
      PowAdd(x, 4, 4);
      PowAdd(x, 2, 2);
      PowAdd(x, 1, 1);
    }
  }

  /** 50,000 over 24 months at 18 %: about 2,496.21 a month, 59,908.92 in all. */
  lemma TwentyFourMonthsAt18()
    ensures Defined(18.0, 24)
    ensures 2496.20 < Compute(50000.0, 18.0, 24).pagoMensual < 2496.21
    ensures 59908.92 < Compute(50000.0, 18.0, 24).montoTotal < 59908.93
  {
    var x := 1.015;
    assert MonthlyRate(18.0) == 0.015;
    var x2 := x * x;
    var x4 := x2 * x2;
    var x8 := x4 * x4;
    assert Pow(x, 24) == x8 * x8 * x8 by {
      PowAdd(x, 16, 8);
      PowAdd(x, 8, 8);
      PowAdd(x, 4, 4);
      PowAdd(x, 2, 2);
      PowAdd(x, 1, 1);
    }
  }
}
