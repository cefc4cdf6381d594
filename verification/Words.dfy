// Machine words and the few arithmetic facts every clocked device needs.
module Words {
  type u8 = x: int | 0 <= x < 0x100
  type u16 = x: int | 0 <= x < 0x1_0000

  datatype Option<+T> = None | Some(value: T)

  // `value & weight != 0`, for a weight that is a power of two.
  predicate Bit(value: nat, weight: nat)
    requires 0 < weight
  {
    (value / weight) % 2 == 1
  }

  // Quotient and remainder are determined by the division identity.
  lemma {:induction false} DivModUnique(x: int, m: int, q: int, r: int)
    requires 0 < m
    requires x == m * q + r && 0 <= r < m
    ensures x / m == q && x % m == r
  {
    var d := x / m - q;
    assert x == m * (x / m) + x % m;
    assert m * d == r - x % m by {
      assert m * (x / m - q) == m * (x / m) - m * q;
    }
    assert d >= 1 ==> m * d >= m;
    assert d <= -1 ==> m * d <= -m;
  }

  // One more unit either stays in the same block of m or enters the next.
  lemma {:induction false} DivModStep(x: nat, m: nat)
    requires 0 < m
    ensures x % m == m - 1 ==> (x + 1) / m == x / m + 1 && (x + 1) % m == 0
    ensures x % m != m - 1 ==> (x + 1) / m == x / m && (x + 1) % m == x % m + 1
  {
    if x % m == m - 1 {
      assert m * (x / m + 1) == m * (x / m) + m;
      DivModUnique(x + 1, m, x / m + 1, 0);
    } else {
      DivModUnique(x + 1, m, x / m, x % m + 1);
    }
  }

  // A block of 2m is two blocks of m.
  lemma {:induction false} DivModDouble(x: nat, m: nat)
    requires 0 < m
    ensures x / m == 2 * (x / (2 * m)) + x / m % 2
    ensures x % (2 * m) == m * (x / m % 2) + x % m
  {
    var half, bit := x / m / 2, x / m % 2;
    assert m * (x / m) == (2 * m) * half + m * bit by {
      assert m * (2 * half + bit) == (2 * m) * half + m * bit;
    }
    assert m * bit == if bit == 0 then 0 else m;
    DivModUnique(x, 2 * m, half, m * bit + x % m);
  }

  // Reducing a summand first does not change the sum modulo m, and accounts for the quotient.
  lemma {:induction false} DivModSplit(x: nat, y: nat, m: nat)
    requires 0 < m
    ensures (x % m + y) % m == (x + y) % m
    ensures x / m + (x % m + y) / m == (x + y) / m
  {
    var q := (x % m + y) / m;
    var r := (x % m + y) % m;
    assert m * (x / m + q) == m * (x / m) + m * q;
    DivModUnique(x + y, m, x / m + q, r);
  }
}
