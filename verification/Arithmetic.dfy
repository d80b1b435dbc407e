/** Division and multiples of natural numbers. */
module Arithmetic {
  function CeilingQuotient(a: nat, b: nat): nat
    requires b > 0
  {
    (a + b - 1) / b
  }

  lemma MulMonotone(a: nat, b: nat, d: nat)
    requires a <= b
    ensures a * d <= b * d
  {
  }

  lemma NextMultiple(n: nat, d: nat)
    ensures (n + 1) * d == n * d + d
  {
  }

  lemma DivBounds(x: nat, d: nat)
    requires d > 0
    ensures x / d * d <= x < x / d * d + d
  {
  }

  lemma QuotientUnique(x: nat, d: nat, q: nat)
    requires d > 0 && q * d <= x < q * d + d
    ensures x / d == q
  {
    var r := x / d;
    assert x == r * d + x % d;
    if r < q {
      MulMonotone(r + 1, q, d);
      NextMultiple(r, d);
    } else if r > q {
      MulMonotone(q + 1, r, d);
      NextMultiple(q, d);
    }
  }

  lemma QuotientBelow(x: nat, n: nat, d: nat)
    requires n > 0 && x < d * n
    ensures x / n < d
  {
    var q := x / n;
    assert q * n <= x by {
      DivBounds(x, n);
    }
    if d <= q {
      MulMonotone(d, q, n);
    }
  }

  lemma DivMonotone(x: nat, y: nat, d: nat)
    requires d > 0 && x <= y
    ensures x / d <= y / d
  {
    var q := y / d;
    assert y < q * d + d by {
      DivBounds(y, d);
    }
    NextMultiple(q, d);
    QuotientBelow(x, d, q + 1);
  }

  lemma QuotientShift(x: nat, n: nat)
    requires n > 0
    ensures (x + n) / n == x / n + 1
  {
    var q := x / n;
    assert q * n <= x < q * n + n by {
      DivBounds(x, n);
    }
    NextMultiple(q, n);
    QuotientUnique(x + n, n, q + 1);
  }

  /** Exactly the multiples below the ceiling quotient are smaller than the whole. */
  lemma StartsInside(whole: nat, step: nat, i: nat)
    requires step > 0
    ensures i * step < whole <==> i < CeilingQuotient(whole, step)
  {
    var x := whole + step - 1;
    var q := x / step;
    assert x == q * step + x % step;
    if i < q {
      MulMonotone(i + 1, q, step);
      NextMultiple(i, step);
    } else {
      MulMonotone(q, i, step);
    }
  }
}
