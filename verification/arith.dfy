/** Products and quotients of natural numbers used in buffer-size arithmetic.
    They are defined by recursion, so that proofs about layouts see them as
    symbols and reach for the few facts below instead of general nonlinear
    reasoning; `MulIsProduct` and `DivIsQuotient` show they are the ordinary
    operations. */
module Arith {

  /** `a * b`. */
  function Mul(a: nat, b: nat): nat {
    if a == 0 then 0 else Mul(a - 1, b) + b
  }

  /** `a / b`, rounding down. */
  function Div(a: nat, b: nat): nat
    requires b > 0
    decreases a
  {
    if a < b then 0 else Div(a - b, b) + 1
  }

  lemma {:induction false} MulIsProduct(a: nat, b: nat)
    ensures Mul(a, b) == a * b
  {
    if a > 0 {
      MulIsProduct(a - 1, b);
      assert (a - 1) * b + b == a * b;
    }
  }

  /** `Div` rounds down: `b * Div(a, b) <= a < b * (Div(a, b) + 1)`. */
  lemma {:induction false} DivBounds(a: nat, b: nat)
    requires b > 0
    ensures Mul(Div(a, b), b) <= a < Mul(Div(a, b), b) + b
  {
    if a >= b {
      DivBounds(a - b, b);
    }
  }

  lemma MulLe(x: int, y: int, b: nat)
    requires x <= y
    ensures x * b <= y * b
  {
  }

  /** The quotient is the only `q` with `a == q * b + r` and `0 <= r < b`. */
  lemma DivUnique(a: nat, b: nat, q: nat, r: nat)
    requires b > 0 && r < b && a == q * b + r
    ensures a / b == q
  {
    var q' := a / b;
    assert a == q' * b + a % b;
    if q' < q {
      MulLe(q' + 1, q, b);
    } else if q < q' {
      MulLe(q + 1, q', b);
    }
  }

  lemma DivIsQuotient(a: nat, b: nat)
    requires b > 0
    ensures Div(a, b) == a / b
  {
    DivBounds(a, b);
    MulIsProduct(Div(a, b), b);
    DivUnique(a, b, Div(a, b), a - Mul(Div(a, b), b));
  }

  /** `x` is a multiple of `h` exactly when rounding down loses nothing. */
  lemma MultipleIff(x: nat, h: nat)
    requires h > 0
    ensures x % h == 0 <==> Mul(Div(x, h), h) == x
  {
    DivIsQuotient(x, h);
    MulIsProduct(Div(x, h), h);
    assert x == (x / h) * h + x % h;
  }

  lemma {:induction false} MulMonotone(a: nat, b: nat, c: nat)
    requires a <= b
    ensures Mul(a, c) <= Mul(b, c)
  {
    if a < b {
      MulMonotone(a, b - 1, c);
    }
  }

  /** `(a + 1) * c == a * c + c`. */
  lemma MulSucc(a: nat, c: nat)
    ensures Mul(a + 1, c) == Mul(a, c) + c
  {
  }

  /** A product is zero exactly when a factor is. */
  lemma {:induction false} MulZero(a: nat, b: nat)
    ensures Mul(a, b) == 0 <==> a == 0 || b == 0
  {
    if a > 0 {
      MulZero(a - 1, b);
    }
  }

  /** `Div` is monotone in its dividend. */
  lemma {:induction false} DivMonotone(a: nat, w: nat, h: nat)
    requires h > 0 && a <= w
    ensures Div(a, h) <= Div(w, h)
    decreases w
  {
    if a >= h {
      DivMonotone(a - h, w - h, h);
    }
  }

  /** Rounding down is superadditive: two quotients never sum to more than
      the quotient of the sum, hence of any bound on it. */
  lemma {:induction false} DivAddBound(a: nat, b: nat, w: nat, h: nat)
    requires h > 0 && a + b <= w
    ensures Div(a, h) + Div(b, h) <= Div(w, h)
    decreases a
  {
    if a >= h {
      DivAddBound(a - h, b, w - h, h);
    } else {
      DivMonotone(b, w, h);
    }
  }
}
