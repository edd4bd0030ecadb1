/**
 * Three-digit mixed-radix numbers, digit d0 varying fastest.  The plane
 * numbering of the wrappers and the bucket and slot numbers of the split
 * router are all such numbers; the lemmas here say that the encoding is a
 * bijection onto [0, r0 * r1 * r2) that orders numbers lexicographically.
 */
module MixedRadix {

  /** d0 + r0 * (d1 + r1 * d2). */
  function Encode(d0: int, d1: int, d2: int, r0: int, r1: int): int
  {
    d0 + r0 * (d1 + r1 * d2)
  }

  predicate Digits(d0: int, d1: int, d2: int, r0: int, r1: int, r2: int)
  {
    0 <= d0 < r0 && 0 <= d1 < r1 && 0 <= d2 < r2
  }

  /** Lexicographic order on digit triples, d2 most significant. */
  predicate LexLess(a0: int, a1: int, a2: int, b0: int, b1: int, b2: int)
  {
    a2 < b2 || (a2 == b2 && (a1 < b1 || (a1 == b1 && a0 < b0)))
  }

  lemma MulMonotone(r: int, x: int, y: int)
    requires r >= 0 && x <= y
    ensures r * x <= r * y
  {
  }

  /** Two digits: a0 + r * a1 compares as the pair (a1, a0). */
  lemma Order2(a0: int, a1: int, b0: int, b1: int, r: int)
    requires 0 <= a0 < r && 0 <= b0 < r
    ensures a0 + r * a1 < b0 + r * b1 <==> (a1 < b1 || (a1 == b1 && a0 < b0))
    ensures a0 + r * a1 == b0 + r * b1 <==> (a1 == b1 && a0 == b0)
  {
    if a1 < b1 {
      MulMonotone(r, a1 + 1, b1);
    } else if b1 < a1 {
      MulMonotone(r, b1 + 1, a1);
    }
  }

  /** Encoding is strictly monotone in the lexicographic order, and injective. */
  lemma {:induction false} Order(a0: int, a1: int, a2: int, b0: int, b1: int, b2: int, r0: int, r1: int, r2: int)
    requires Digits(a0, a1, a2, r0, r1, r2) && Digits(b0, b1, b2, r0, r1, r2)
    ensures Encode(a0, a1, a2, r0, r1) < Encode(b0, b1, b2, r0, r1) <==> LexLess(a0, a1, a2, b0, b1, b2)
    ensures Encode(a0, a1, a2, r0, r1) == Encode(b0, b1, b2, r0, r1) <==> (a0 == b0 && a1 == b1 && a2 == b2)
  {
    Order2(a1, a2, b1, b2, r1);
    Order2(a0, a1 + r1 * a2, b0, b1 + r1 * b2, r0);
  }

  /** Two digits in range encode to a number in [0, r0 * r1). */
  lemma Bounds2(a0: int, a1: int, r0: int, r1: int)
    requires 0 <= a0 < r0 && 0 <= a1 < r1
    ensures 0 <= a0 + r0 * a1 < r0 * r1
  {
    MulMonotone(r0, 0, a1);
    MulMonotone(r0, a1, r1 - 1);
    assert r0 * (r1 - 1) == r0 * r1 - r0;
  }

  /** Digits in range encode to a number in [0, r0 * r1 * r2). */
  lemma Bounds(d0: int, d1: int, d2: int, r0: int, r1: int, r2: int)
    requires Digits(d0, d1, d2, r0, r1, r2)
    ensures 0 <= Encode(d0, d1, d2, r0, r1) < r0 * r1 * r2
  {
    Bounds2(d1, d2, r1, r2);
    Bounds2(d0, d1 + r1 * d2, r0, r1 * r2);
    assert r0 * (r1 * r2) == r0 * r1 * r2;
  }

  /** Counting carries: a full lowest digit is one more of the middle digit ... */
  lemma CarryLow(d1: int, d2: int, r0: int, r1: int)
    ensures Encode(r0, d1, d2, r0, r1) == Encode(0, d1 + 1, d2, r0, r1)
  {
    assert r0 + r0 * (d1 + r1 * d2) == r0 * ((d1 + 1) + r1 * d2);
  }

  /** ... a full middle digit is one more of the top digit ... */
  lemma CarryMiddle(d2: int, r0: int, r1: int)
    ensures Encode(0, r1, d2, r0, r1) == Encode(0, 0, d2 + 1, r0, r1)
  {
    assert r1 + r1 * d2 == r1 * (d2 + 1);
  }

  /** ... and a full top digit is the total count. */
  lemma CarryTop(r0: int, r1: int, r2: int)
    ensures Encode(0, 0, r2, r0, r1) == r0 * r1 * r2
  {
    assert r0 * (r1 * r2) == r0 * r1 * r2;
  }

  /** A positive product of three naturals has positive factors. */
  lemma PositiveFactors(r0: nat, r1: nat, r2: nat)
    requires r0 * r1 * r2 > 0
    ensures r0 > 0 && r1 > 0 && r2 > 0
  {
  }

  /** Euclidean division by a positive radix. */
  lemma DivMod(n: int, r: int)
    requires r > 0
    ensures n == r * (n / r) + n % r && 0 <= n % r < r
  {
  }

  /** A non-negative q with r * q <= n < r * m is below m. */
  lemma QuotientBound(n: int, q: int, r: int, m: int)
    requires r > 0 && r * q <= n < r * m
    ensures q < m
  {
    if q >= m {
      MulMonotone(r, m, q);
    }
  }

  /** Every number in [0, r0 * r1 * r2) has digits in range. */
  lemma Decode(n: int, r0: int, r1: int, r2: int) returns (d0: int, d1: int, d2: int)
    requires r0 > 0 && r1 > 0 && 0 <= n < r0 * r1 * r2
    ensures Digits(d0, d1, d2, r0, r1, r2) && Encode(d0, d1, d2, r0, r1) == n
  {
    DivMod(n, r0);
    d0 := n % r0;
    var q := n / r0;
    DivMod(q, r1);
    d1 := q % r1;
    d2 := q / r1;
    assert q >= 0;
    assert r0 * (r1 * r2) == r0 * r1 * r2;
    QuotientBound(n, q, r0, r1 * r2);
    QuotientBound(q, d2, r1, r2);
    assert d2 >= 0;
  }
}
