// Floors of quotients of natural numbers.
module Floors {

  // A quotient of natural numbers is the one number that fits.
  lemma Floor(a: nat, d: nat, q: nat)
    requires d > 0
    ensures a / d == q <==> q * d <= a < (q + 1) * d
  {
    var p := a / d;
    assert p * d <= a < p * d + d;
    assert (p + 1) * d == p * d + d;
    if p < q {
      MulMonotone(p + 1, q, d);
    } else if q < p {
      MulMonotone(q + 1, p, d);
    }
  }

  lemma MulMonotone(a: nat, b: nat, d: nat)
    requires a <= b
    ensures a * d <= b * d
  {
  }

  lemma AtMost(a: nat, d: nat, q: nat)
    requires d > 0
    ensures q <= a / d <==> q * d <= a
  {
    Floor(a, d, a / d);
    if q <= a / d {
      MulMonotone(q, a / d, d);
    } else {
      MulMonotone(a / d + 1, q, d);
    }
  }

  lemma Scale(x: nat, y: nat, d: nat)
    requires d > 0
    ensures x * d <= y * d <==> x <= y
  {
    if x > y {
      MulMonotone(y + 1, x, d);
      assert (y + 1) * d == y * d + d;
    } else {
      MulMonotone(x, y, d);
    }
  }

  // Two orders get at most what one order of their sum gets, and at most one
  // unit less.
  lemma FloorsOfASum(a: nat, b: nat, d: nat)
    requires d > 0
    ensures a / d + b / d <= (a + b) / d <= a / d + b / d + 1
  {
    var p, q := a / d, b / d;
    Floor(a, d, p);
    Floor(b, d, q);
    AtMost(a + b, d, p + q);
    AtMost(a + b, d, p + q + 2);
    assert (p + q) * d == p * d + q * d;
    assert (p + q + 2) * d == (p + 1) * d + (q + 1) * d;
  }
}
