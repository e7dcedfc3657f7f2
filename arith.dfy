/**
  Integer facts about multiples that the grouping loop needs. `MultipleOf`
  states divisibility by repeated subtraction, so that the loop's proof does
  not carry `%` and `*` over variables; `MultipleOfMod` ties it to `%`.
 */
module Arith {

  /** x is a non-negative multiple of size. */
  ghost predicate MultipleOf(x: int, size: int)
    requires size >= 1
    decreases if x < 0 then 0 else x
  {
    x == 0 || (x >= size && MultipleOf(x - size, size))
  }

  lemma MulNonneg(x: int, y: int)
    requires x >= 0 && y >= 0
    ensures x * y >= 0
  {}

  lemma Distribute(m: int, x: int, y: int)
    ensures m * x - m * y == m * (x - y)
  {}

  /** Quotient and remainder are determined by a == m * q + r with 0 <= r < m. */
  lemma DivModUnique(a: int, m: int, q: int, r: int)
    requires m >= 1 && 0 <= r < m && a == m * q + r
    ensures a % m == r && a / m == q
  {
    var q', r' := a / m, a % m;
    assert a == m * q' + r';
    var d := q - q';
    Distribute(m, q, q');
    assert m * d == r' - r;
    if d >= 1 {
      MulNonneg(m, d - 1);
      Distribute(m, d, 1);
      assert false;
    } else if d <= -1 {
      MulNonneg(m, -d - 1);
      Distribute(m, -d, 1);
      Distribute(m, 0, d);
      assert false;
    }
  }

  /** Dafny's `%` is Euclidean: a negative divisor gives the same remainder as its absolute value. */
  lemma ModNegDivisor(a: int, m: int)
    requires m >= 1
    ensures a % (-m) == a % m
  {
    var q := a / (-m);
    assert a == (-m) * q + a % (-m);
    assert (-m) * q == m * (-q);
    DivModUnique(a, m, -q, a % (-m));
  }

  lemma {:induction false} MultipleOfMod(x: int, size: int)
    requires size >= 1 && x >= 0
    ensures MultipleOf(x, size) <==> x % size == 0
    decreases x
  {
    if x > 0 {
      if x >= size {
        MultipleOfMod(x - size, size);
        var q := (x - size) / size;
        DivModUnique(x, size, q + 1, (x - size) % size);
      } else {
        DivModUnique(x, size, 0, x);
      }
    }
  }

  /** From a multiple of size, the next multiple is exactly size further on. */
  lemma {:induction false} NextMultiple(start: int, j: int, size: int)
    requires size >= 1 && start >= 0 && MultipleOf(start, size) && start < j <= start + size
    ensures MultipleOf(j, size) <==> j == start + size
    decreases start
  {
    if start > 0 {
      NextMultiple(start - size, j - size, size);
    }
  }

  /** Two multiples of size less than size apart are equal. */
  lemma {:induction false} CloseMultiples(start: int, i: int, size: int)
    requires size >= 1 && start >= 0 && MultipleOf(start, size) && MultipleOf(i, size)
    requires start <= i < start + size
    ensures i == start
    decreases start
  {
    if start > 0 {
      CloseMultiples(start - size, i - size, size);
    }
  }

  /** count * size is a multiple of size. */
  lemma {:induction false} ProductMultiple(count: nat, size: int)
    requires size >= 1
    ensures MultipleOf(count * size, size)
    decreases count
  {
    if count > 0 {
      ProductMultiple(count - 1, size);
      assert count * size - size == (count - 1) * size;
    }
  }

  /** Cancelling a positive factor. */
  lemma CancelFactor(a: int, b: int, m: int)
    requires m >= 1 && a * m == b * m
    ensures a == b
  {
    DivModUnique(a * m, m, a, 0);
    DivModUnique(b * m, m, b, 0);
  }
}
