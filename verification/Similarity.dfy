/** Cosine similarity over exact reals. Square roots enter as numbers whose square is known. */
module Similarity {
  import opened Domain

  function Dot(a: seq<real>, b: seq<real>): real
    requires |a| == |b|
  {
    if a == [] then 0.0 else a[0] * b[0] + Dot(a[1..], b[1..])
  }

  /** n is what np.linalg.norm returns for a. */
  ghost predicate IsNorm(n: real, a: seq<real>) {
    n >= 0.0 && n * n == Dot(a, a)
  }

  function Quotient(d: real, m: real, n: real): real
    requires m != 0.0 && n != 0.0
  {
    d / (m * n)
  }

  /** EmbeddingClient.cosine_similarity; None is the ValueError of np.dot on unequal lengths. */
  function Cosine(a: seq<real>, b: seq<real>, normA: real, normB: real): Option<real> {
    if normA == 0.0 || normB == 0.0 then Some(0.0)
    else if |a| != |b| then None
    else Some(Quotient(Dot(a, b), normA, normB))
  }

  function Scale(c: real, a: seq<real>): (r: seq<real>)
    ensures |r| == |a|
    ensures forall i :: 0 <= i < |a| ==> r[i] == c * a[i]
  {
    if a == [] then [] else [c * a[0]] + Scale(c, a[1..])
  }

  lemma {:induction false} DotSymmetric(a: seq<real>, b: seq<real>)
    requires |a| == |b|
    ensures Dot(a, b) == Dot(b, a)
  {
    if a != [] {
      DotSymmetric(a[1..], b[1..]);
    }
  }

  lemma {:induction false} DotScale(c: real, a: seq<real>, b: seq<real>)
    requires |a| == |b|
    ensures Dot(Scale(c, a), b) == c * Dot(a, b)
  {
    if a != [] {
      DotScale(c, a[1..], b[1..]);
      var s := Scale(c, a);
      assert s[1..] == Scale(c, a[1..]);
      assert (c * a[0]) * b[0] == c * (a[0] * b[0]);
    }
  }

  lemma {:induction false} SquareNonNegative(a: seq<real>)
    ensures Dot(a, a) >= 0.0
  {
    if a != [] {
      SquareNonNegative(a[1..]);
      assert a[0] * a[0] >= 0.0;
    }
  }

  lemma TimesOrder(x: real, y: real, n: real)
    requires n > 0.0
    ensures x >= y <==> x * n >= y * n
  {
    assert x * n - y * n == (x - y) * n;
  }

  lemma SquareOrder(x: real, y: real)
    requires x >= 0.0 && y >= 0.0
    ensures x >= y <==> x * x >= y * y
  {
    assert x * x - y * y == (x - y) * (x + y);
    if x + y > 0.0 {
      TimesOrder(x, y, x + y);
    }
  }

  lemma RootOrder(x: real, n: real)
    requires n >= 0.0 && x * x <= n * n
    ensures -n <= x <= n
  {
    if x >= 0.0 {
      SquareOrder(n, x);
    } else {
      SquareOrder(n, -x);
    }
  }

  lemma QuotientInUnit(d: real, n: real)
    requires n > 0.0 && -n <= d <= n
    ensures -1.0 <= d / n <= 1.0
  {
    var x := d / n;
    assert x * n == d;
    TimesOrder(x, -1.0, n);
    TimesOrder(1.0, x, n);
  }

  /** One more coordinate, with the sums so far abbreviated. */
  lemma CauchyStep(p: real, q: real, d: real, x: real, y: real)
    requires p >= 0.0 && q >= 0.0 && d * d <= p * q
    ensures (x * y + d) * (x * y + d) <= (x * x + p) * (y * y + q)
  {
    var cross := p * (y * y) + q * (x * x) - 2.0 * (d * (x * y));
    assert cross >= 0.0 by {
      if q == 0.0 {
        RootOrder(d, 0.0);
        assert d == 0.0;
        assert d * (x * y) == 0.0 && q * (x * x) == 0.0;
        assert y * y >= 0.0;
        assert p * (y * y) >= 0.0;
      } else {
        CrossTimes(p, q, d, x, y);
        TimesOrder(cross, 0.0, q);
      }
    }
    assert (x * y + d) * (x * y + d) == (x * y) * (x * y) + 2.0 * (d * (x * y)) + d * d;
    assert (x * x + p) * (y * y + q) == (x * x) * (y * y) + q * (x * x) + p * (y * y) + p * q;
    assert (x * y) * (x * y) == (x * x) * (y * y);
  }

  lemma CrossTimes(p: real, q: real, d: real, x: real, y: real)
    requires d * d <= p * q
    ensures (p * (y * y) + q * (x * x) - 2.0 * (d * (x * y))) * q >= 0.0
  {
    var z := d * y - q * x;
    assert z * z == (d * d) * (y * y) - 2.0 * (q * (d * (x * y))) + q * (q * (x * x));
    assert (p * q - d * d) * (y * y) >= 0.0;
    assert z * z >= 0.0;
  }

  lemma {:induction false} CauchySchwarz(a: seq<real>, b: seq<real>)
    requires |a| == |b|
    ensures Dot(a, b) * Dot(a, b) <= Dot(a, a) * Dot(b, b)
  {
    if a != [] {
      CauchySchwarz(a[1..], b[1..]);
      SquareNonNegative(a[1..]);
      SquareNonNegative(b[1..]);
      CauchyStep(Dot(a[1..], a[1..]), Dot(b[1..], b[1..]), Dot(a[1..], b[1..]), a[0], b[0]);
    }
  }

  /** One more pair of coordinates adds its product: with the empty sum, this is the dot product. */
  lemma {:induction false} DotOneMore(a: seq<real>, b: seq<real>, x: real, y: real)
    requires |a| == |b|
    ensures Dot(a + [x], b + [y]) == Dot(a, b) + x * y
    ensures Dot([], []) == 0.0
  {
    if a == [] {
      assert a + [x] == [x] && b + [y] == [y];
      assert [x][1..] == [] && [y][1..] == [];
    } else {
      DotOneMore(a[1..], b[1..], x, y);
      assert (a + [x])[1..] == a[1..] + [x] && (b + [y])[1..] == b[1..] + [y];
    }
  }

  /** The score is 0 for a zero vector, raises for vectors of different lengths, and else is the dot product over both norms. */
  lemma CosineExactly(a: seq<real>, b: seq<real>, normA: real, normB: real)
    requires IsNorm(normA, a) && IsNorm(normB, b)
    ensures Dot(a, a) == 0.0 || Dot(b, b) == 0.0 ==> Cosine(a, b, normA, normB) == Some(0.0)
    ensures Dot(a, a) > 0.0 && Dot(b, b) > 0.0 && |a| != |b| ==> Cosine(a, b, normA, normB) == None
    ensures Dot(a, a) > 0.0 && Dot(b, b) > 0.0 && |a| == |b| ==>
      Cosine(a, b, normA, normB).Some? && Cosine(a, b, normA, normB).value * (normA * normB) == Dot(a, b)
  {
    ZeroNorm(a, normA);
    ZeroNorm(b, normB);
    if normA > 0.0 && normB > 0.0 {
      assert normA * normB > 0.0;
    }
  }

  lemma ZeroNorm(a: seq<real>, n: real)
    requires IsNorm(n, a)
    ensures n == 0.0 <==> Dot(a, a) == 0.0
    ensures n > 0.0 <==> Dot(a, a) > 0.0
  {
    SquareNonNegative(a);
    if Dot(a, a) == 0.0 {
      RootOrder(n, 0.0);
    } else {
      assert n != 0.0;
    }
  }

  /** The score of two vectors of the same length exists and lies between -1 and 1. */
  lemma CosineBounded(a: seq<real>, b: seq<real>, normA: real, normB: real)
    requires |a| == |b| && IsNorm(normA, a) && IsNorm(normB, b)
    ensures Cosine(a, b, normA, normB).Some?
    ensures -1.0 <= Cosine(a, b, normA, normB).value <= 1.0
  {
    if normA > 0.0 && normB > 0.0 {
      CauchySchwarz(a, b);
      var n := normA * normB;
      assert n > 0.0;
      assert n * n == (normA * normA) * (normB * normB);
      RootOrder(Dot(a, b), n);
      QuotientInUnit(Dot(a, b), n);
    }
  }

  lemma CosineSymmetric(a: seq<real>, b: seq<real>, normA: real, normB: real)
    ensures Cosine(a, b, normA, normB) == Cosine(b, a, normB, normA)
  {
    if |a| == |b| {
      DotSymmetric(a, b);
      assert normA * normB == normB * normA;
    }
  }

  lemma NormOfScaled(c: real, n: real, a: seq<real>, m: real)
    requires c > 0.0 && IsNorm(n, a) && IsNorm(m, Scale(c, a))
    ensures m == c * n
    ensures m == 0.0 <==> n == 0.0
  {
    var s := Scale(c, a);
    DotScale(c, a, s);
    DotSymmetric(a, s);
    DotScale(c, a, a);
    assert (c * n) * (c * n) == c * (c * (n * n));
    assert c * n >= 0.0;
    RootOrder(m, c * n);
    RootOrder(c * n, m);
    TimesOrder(0.0, n, c);
  }

  lemma CancelFactor(c: real, d: real, m: real, n: real, cd: real, cm: real)
    requires c > 0.0 && m > 0.0 && n > 0.0 && cd == c * d && cm == c * m && cm != 0.0
    ensures Quotient(cd, cm, n) == Quotient(d, m, n)
  {
    var x := d / (m * n);
    assert m * n > 0.0;
    assert x * (m * n) == d;
    assert cm * n == c * (m * n);
    assert x * (cm * n) == cd;
    assert cm * n > 0.0;
  }

  /** Stretching either vector leaves the score as it is. */
  lemma CosineScaleInvariant(c: real, a: seq<real>, b: seq<real>, normA: real, normB: real, normCA: real)
    requires c > 0.0 && IsNorm(normA, a) && IsNorm(normB, b) && IsNorm(normCA, Scale(c, a))
    ensures Cosine(Scale(c, a), b, normCA, normB) == Cosine(a, b, normA, normB)
    ensures Cosine(b, Scale(c, a), normB, normCA) == Cosine(b, a, normB, normA)
  {
    NormOfScaled(c, normA, a, normCA);
    if normA > 0.0 && normB > 0.0 && |a| == |b| {
      DotScale(c, a, b);
      CancelFactor(c, Dot(a, b), normA, normB, Dot(Scale(c, a), b), normCA);
    }
    CosineSymmetric(Scale(c, a), b, normCA, normB);
    CosineSymmetric(a, b, normA, normB);
  }

  /** For vectors that the embedding service has already normalised the score is the dot product. */
  lemma CosineOfUnitVectors(a: seq<real>, b: seq<real>, normA: real, normB: real)
    requires |a| == |b| && IsNorm(normA, a) && IsNorm(normB, b)
    requires Dot(a, a) == 1.0 && Dot(b, b) == 1.0
    ensures Cosine(a, b, normA, normB) == Some(Dot(a, b))
  {
    RootOrder(normA, 1.0);
    RootOrder(1.0, normA);
    RootOrder(normB, 1.0);
    RootOrder(1.0, normB);
  }

  lemma QuotientOrder(d: real, n: real, t: real)
    requires n > 0.0
    ensures d / n >= t <==> d >= t * n
  {
    TimesOrder(d / n, t, n);
  }

  /** The pass decision without any root: for a positive threshold, compare squares. A zero vector never passes. */
  lemma PassWithoutRoots(a: seq<real>, b: seq<real>, normA: real, normB: real, threshold: real)
    requires |a| == |b| && IsNorm(normA, a) && IsNorm(normB, b) && threshold > 0.0
    ensures Cosine(a, b, normA, normB).Some?
    ensures Cosine(a, b, normA, normB).value >= threshold <==>
      && Dot(a, a) > 0.0 && Dot(b, b) > 0.0 && Dot(a, b) > 0.0
      && Dot(a, b) * Dot(a, b) >= (threshold * threshold) * (Dot(a, a) * Dot(b, b))
  {
    if normA == 0.0 {
      assert Dot(a, a) == 0.0;
    } else if normB == 0.0 {
      assert Dot(b, b) == 0.0;
    } else {
      var d, n := Dot(a, b), normA * normB;
      assert normA * normA > 0.0 && normB * normB > 0.0 && n > 0.0;
      QuotientOrder(d, n, threshold);
      assert threshold * n > 0.0;
      assert (threshold * n) * (threshold * n) == (threshold * threshold) * ((normA * normA) * (normB * normB));
      if d > 0.0 {
        SquareOrder(d, threshold * n);
      }
    }
  }
}
