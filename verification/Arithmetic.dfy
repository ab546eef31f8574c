// Division, remainders and products of natural numbers.
module Arithmetic {

  // The number of values of a 32-bit word.
  const WORD: nat := 0x1_0000_0000

  lemma ModOfMultiple(q: nat, r: nat, m: nat)
    requires r < m
    ensures (q * m + r) % m == r && (q * m + r) / m == q
  {
    var x := q * m + r;
    assert x == m * (x / m) + x % m;
    assert (x / m - q) * m == r - x % m;
    SmallMultipleIsZero(x / m - q, m);
  }

  lemma SmallMultipleIsZero(d: int, m: int)
    requires m > 0 && -m < d * m && d * m < m
    ensures d == 0
  {
  }

  lemma ModOfSum(a: nat, b: nat, m: nat)
    requires m > 0
    ensures (a + b) % m == (a % m + b) % m
  {
    var q, x := a / m, a % m + b;
    DivisionSplits(a, m);
    DivisionSplits(x, m);
    Distributes(q, x / m, m);
    ModOfMultiple(q + x / m, x % m, m);
  }

  lemma DivisionSplits(a: nat, m: nat)
    requires m > 0
    ensures a == (a / m) * m + a % m
  {
  }

  lemma Distributes(a: nat, b: nat, m: nat)
    ensures (a + b) * m == a * m + b * m
  {
  }

  lemma StepMod(k: nat, m: nat)
    requires m > 0
    ensures if k % m == m - 1 then (k + 1) % m == 0 && (k + 1) / m == k / m + 1
            else (k + 1) % m == k % m + 1 && (k + 1) / m == k / m
  {
    var q, x := k / m, k % m;
    DivisionSplits(k, m);
    if x == m - 1 {
      Distributes(q, 1, m);
      ModOfMultiple(q + 1, 0, m);
    } else {
      ModOfMultiple(q, x + 1, m);
    }
  }

  lemma MultipleHasNoRest(q: nat, m: nat)
    requires m > 0
    ensures (q * m) % m == 0
  {
    ModOfMultiple(q, 0, m);
  }

  lemma ProductsGrow(a: int, b: int, m: nat)
    requires a <= b
    ensures a * m <= b * m
  {
  }

  lemma FactorsCompare(a: int, b: int, m: nat)
    requires a * m < b * m
    ensures a < b
  {
    if b <= a {
      ProductsGrow(b, a, m);
      assert false;
    }
  }

  lemma ProductsAssociate(a: nat, b: nat, c: nat)
    ensures (a * b) * c == a * (b * c)
  {
  }

  lemma RestIsNotMore(a: nat, m: nat)
    requires m > 0
    ensures a % m <= a && a % m < m
  {
    if a < m {
      ModOfMultiple(0, a, m);
    }
  }

  // The largest multiple of m that is at most a.
  function RoundedDown(a: nat, m: nat): (r: nat)
    requires m > 0
    ensures r == a / m * m && r <= a < r + m
  {
    DivisionSplits(a, m);
    RestIsNotMore(a, m);
    a / m * m
  }

  lemma RoundingDown(a: nat, m: nat, k: nat)
    requires m > 0 && a < k * m
    ensures RoundedDown(a, m) % m == 0 && RoundedDown(a, m) + m <= k * m
  {
    var q := a / m;
    DivisionSplits(a, m);
    MultipleHasNoRest(q, m);
    FactorsCompare(q, k, m);
    ProductsGrow(q + 1, k, m);
    Distributes(q, 1, m);
  }

  lemma MultiplesAreRound(a: nat, m: nat)
    requires m > 0 && a % m == 0
    ensures RoundedDown(a, m) == a
  {
    DivisionSplits(a, m);
  }
}
