/** The few facts about products, quotients and remainders that the fairness and interval theorems rest on. */
module Arithmetic {

  lemma MulLe(a: nat, x: int, y: int)
    ensures x <= y ==> a * x <= a * y
  {
    if x <= y {
      assert a * (y - x) >= 0;
      assert a * (y - x) == a * y - a * x;
    }
  }

  lemma MulCancel(b: nat, x: int, y: int, r: int)
    requires b * x <= b * y + r && r < b
    ensures x <= y
  {
    MulLe(b, y + 1, x);
    assert b * (y + 1) == b * y + b;
  }

  lemma DivUnique(x: int, b: nat, q: int, r: nat)
    requires r < b && x == b * q + r
    ensures x / b == q && x % b == r
  {
    assert x == b * (x / b) + x % b;
    MulCancel(b, q, x / b, x % b - r);
    MulCancel(b, x / b, q, r - x % b);
  }

  lemma DivMonotone(i: nat, j: nat, b: nat)
    requires b > 0 && i <= j
    ensures i / b <= j / b
  {
    assert b * (i / b) + i % b == i && b * (j / b) + j % b == j;
    MulCancel(b, i / b, j / b, j % b);
  }

  /** Stepping a dividend by one either steps the remainder or wraps it and steps the quotient. */
  lemma DivSucc(x: nat, b: nat)
    requires b > 0
    ensures x % b + 1 < b ==> (x + 1) / b == x / b && (x + 1) % b == x % b + 1
    ensures x % b + 1 == b ==> (x + 1) / b == x / b + 1 && (x + 1) % b == 0
  {
    var q, r := x / b, x % b;
    assert x == b * q + r;
    if r + 1 < b {
      DivUnique(x + 1, b, q, r + 1);
    } else {
      assert b * (q + 1) == b * q + b;
      DivUnique(x + 1, b, q + 1, 0);
    }
  }

  function CeilDiv(a: nat, b: nat): nat
    requires b > 0
  {
    (a + b - 1) / b
  }

  lemma CeilDivMonotone(a: nat, a': nat, b: nat)
    requires b > 0 && a <= a'
    ensures CeilDiv(a, b) <= CeilDiv(a', b)
  {
    DivMonotone(a + b - 1, a' + b - 1, b);
  }

  lemma CeilDivZero(b: nat)
    requires b > 0
    ensures CeilDiv(0, b) == 0
  {
    DivUnique(b - 1, b, 0, b - 1);
  }

  lemma CeilDivRoundsUp(a: nat, b: nat)
    requires b > 0 && a > 0
    ensures CeilDiv(a, b) >= 1
  {
    DivUnique(b, b, 1, 0);
    DivMonotone(b, a + b - 1, b);
  }

  lemma CeilDivStep(a: nat, b: nat)
    requires b > 0
    ensures CeilDiv(a + b, b) == CeilDiv(a, b) + 1
  {
    var x := a + b - 1;
    assert x == b * (x / b) + x % b;
    assert b * (x / b + 1) == b * (x / b) + b;
    DivUnique(x + b, b, x / b + 1, x % b);
  }

  lemma CeilDivMultiple(b: nat, k: nat)
    requires b > 0
    ensures CeilDiv(b * k, b) == k
  {
    DivUnique(b * k + b - 1, b, k, b - 1);
  }

  lemma DivAdd(s: nat, m: nat, b: nat)
    requires b > 0
    ensures s % b + m % b < b ==> (s + m) / b == s / b + m / b && (s + m) % b == s % b + m % b
    ensures s % b + m % b >= b ==> (s + m) / b == s / b + m / b + 1 && (s + m) % b == s % b + m % b - b
  {
    var q, q', r := s / b, m / b, s % b + m % b;
    assert s == b * q + s % b && m == b * q' + m % b;
    assert b * (q + q') == b * q + b * q';
    assert b * (q + q' + 1) == b * (q + q') + b;
    if r < b {
      DivUnique(s + m, b, q + q', r);
    } else {
      DivUnique(s + m, b, q + q' + 1, r - b);
    }
  }

  lemma CeilDivFloor(m: nat, b: nat)
    requires b > 0
    ensures CeilDiv(m, b) == m / b + (if m % b == 0 then 0 else 1)
  {
    var q := m / b;
    assert m == b * q + m % b;
    assert b * (q + 1) == b * q + b;
    if m % b == 0 {
      DivUnique(m + b - 1, b, q, b - 1);
    } else {
      DivUnique(m + b - 1, b, q + 1, m % b - 1);
    }
  }
}
