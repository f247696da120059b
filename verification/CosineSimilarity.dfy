/** Cosine similarity of two embeddings, clamped to [0, 1], over exact real arithmetic. The square
    root is a parameter that is only assumed to be one. */
module CosineSimilarity {
  import opened RealArithmetic

  type Vector = seq<real>

  ghost predicate IsSqrt(sqrt: real -> real) {
    forall x: real {:trigger sqrt(x)} :: x >= 0.0 ==> sqrt(x) >= 0.0 && sqrt(x) * sqrt(x) == x
  }

  function Dot(a: Vector, b: Vector): real
    requires |a| == |b|
  {
    if |a| == 0 then 0.0 else Dot(a[..|a| - 1], b[..|b| - 1]) + a[|a| - 1] * b[|b| - 1]
  }

  function Scale(k: real, a: Vector): (r: Vector)
    ensures |r| == |a|
  {
    if |a| == 0 then [] else Scale(k, a[..|a| - 1]) + [k * a[|a| - 1]]
  }

  function Clamp(x: real): real {
    if x < 0.0 then 0.0 else if x > 1.0 then 1.0 else x
  }

  /** The quotient of the three sums; zero when either vector has no direction. */
  function Quotient(sqrt: real -> real, dot: real, normA: real, normB: real): real {
    var scale := sqrt(normA) * sqrt(normB);
    if normA == 0.0 || normB == 0.0 || scale == 0.0 then 0.0 else dot / scale
  }

  function Similarity(sqrt: real -> real, a: Vector, b: Vector): real {
    if |a| == 0 || |a| != |b| then 0.0 else Clamp(Quotient(sqrt, Dot(a, b), Dot(a, a), Dot(b, b)))
  }

  lemma SquareStrict(t: real, w: real, tt: real, ww: real)
    requires w >= 0.0 && t > w && tt == t * t && ww == w * w
    ensures tt > ww
  {
    assert (t - w) * (t + w) == tt - ww;
    ProductPositive(t - w, t + w, tt - ww);
  }

  lemma SquareOrder(t: real, w: real)
    requires w >= 0.0 && t * t <= w * w
    ensures -w <= t <= w
  {
    if t > w {
      SquareStrict(t, w, t * t, w * w);
    } else if -t > w {
      SquareStrict(-t, w, t * t, w * w);
    }
  }

  lemma ArithmeticGeometric(u: real, v: real)
    ensures 4.0 * (u * v) <= (u + v) * (u + v)
  {
    SquareSign(u - v, (u - v) * (u - v));
    assert (u + v) * (u + v) - 4.0 * (u * v) == (u - v) * (u - v);
  }

  lemma CrossTerm(d: real, p: real, q: real, x: real, y: real)
    requires p >= 0.0 && q >= 0.0 && d * d <= p * q
    ensures 2.0 * (d * (x * y)) <= p * (y * y) + q * (x * x)
  {
    var w, xx, yy := x * y, x * x, y * y;
    var u, v, t, z := p * yy, q * xx, d * w, w * w;
    SquareSign(w, z);
    SquareSign(x, xx);
    SquareSign(y, yy);
    Regroup(d, p, q, x, y);
    var dd, pq := d * d, p * q;
    assert t * t == dd * z && u * v == pq * z;
    assert dd * z <= pq * z by { assert (pq - dd) * z >= 0.0; }
    ArithmeticGeometric(u, v);
    assert (2.0 * t) * (2.0 * t) == 4.0 * (t * t);
    assert u >= 0.0 && v >= 0.0;
    SquareOrder(2.0 * t, u + v);
  }

  lemma Regroup(d: real, p: real, q: real, x: real, y: real)
    ensures var w, xx, yy := x * y, x * x, y * y;
            && (d * w) * (d * w) == (d * d) * (w * w)
            && (p * yy) * (q * xx) == (p * q) * (w * w)
  {
    var w, xx, yy := x * y, x * x, y * y;
    assert w * w == yy * xx;
    assert (p * yy) * (q * xx) == (p * q) * (yy * xx);
  }

  lemma CauchySchwarzStep(d: real, p: real, q: real, x: real, y: real)
    requires p >= 0.0 && q >= 0.0 && d * d <= p * q
    ensures (d + x * y) * (d + x * y) <= (p + x * x) * (q + y * y)
  {
    CrossTerm(d, p, q, x, y);
    var w, xx, yy := x * y, x * x, y * y;
    assert (d + w) * (d + w) == d * d + 2.0 * (d * w) + w * w;
    assert (p + xx) * (q + yy) == p * q + p * yy + q * xx + xx * yy;
    assert w * w == xx * yy;
  }

  /** Cauchy-Schwarz for the loop's accumulators. */
  lemma {:induction false} CauchySchwarz(a: Vector, b: Vector)
    requires |a| == |b|
    ensures Dot(a, a) >= 0.0 && Dot(b, b) >= 0.0
    ensures Dot(a, b) * Dot(a, b) <= Dot(a, a) * Dot(b, b)
  {
    if |a| > 0 {
      var n := |a| - 1;
      CauchySchwarz(a[..n], b[..n]);
      SquareSign(a[n], a[n] * a[n]);
      SquareSign(b[n], b[n] * b[n]);
      CauchySchwarzStep(Dot(a[..n], b[..n]), Dot(a[..n], a[..n]), Dot(b[..n], b[..n]), a[n], b[n]);
    }
  }

  lemma SqrtPositive(sqrt: real -> real, x: real)
    requires IsSqrt(sqrt) && x > 0.0
    ensures sqrt(x) > 0.0
  {
    SquareSign(sqrt(x), x);
  }

  lemma RootProduct(sqrt: real -> real, p: real, q: real) returns (r: real)
    requires IsSqrt(sqrt) && p > 0.0 && q > 0.0
    ensures r == sqrt(p) * sqrt(q) && r > 0.0
  {
    SqrtPositive(sqrt, p);
    SqrtPositive(sqrt, q);
    r := sqrt(p) * sqrt(q);
    ProductPositive(sqrt(p), sqrt(q), r);
  }

  lemma QuotientBounded(d: real, r: real)
    requires r > 0.0 && -r <= d <= r
    ensures -1.0 <= d / r <= 1.0
  {
    var q := d / r;
    assert q * r == d;
    if q > 1.0 { ProductPositive(q - 1.0, r, d - r); }
    if q < -1.0 { ProductPositive(-q - 1.0, r, -d - r); }
  }

  lemma ProductOfRoots(s: real, t: real, p: real, q: real)
    requires s * s == p && t * t == q
    ensures (s * t) * (s * t) == p * q
  {
    assert (s * t) * (s * t) == (s * s) * (t * t);
  }

  lemma SignOfQuotient(d: real, r: real)
    requires r > 0.0
    ensures d / r > 0.0 <==> d > 0.0
  {
    var q := d / r;
    assert q * r == d;
    if q > 0.0 { ProductPositive(q, r, d); } else if q < 0.0 { ProductPositive(-q, r, -d); }
  }

  lemma SquaredQuotient(d: real, r: real, pq: real)
    requires r > 0.0 && r * r == pq
    ensures var s := d / r; (s * s) * pq == d * d
  {
    var s := d / r;
    assert s * r == d;
    assert (s * s) * (r * r) == (s * r) * (s * r);
  }

  lemma NoDirection(d: real, p: real, q: real)
    requires d * d <= p * q && (p == 0.0 || q == 0.0)
    ensures d == 0.0 && p * q == 0.0
  {
    SquareSign(d, d * d);
  }

  /** The square of `s` is d² / (p q). */
  predicate SquareRatio(s: real, d: real, p: real, q: real) {
    (s * s) * (p * q) == d * d
  }

  /** The scalar heart of the function: what the quotient of three sums is when they obey
      Cauchy-Schwarz. */
  lemma QuotientOfSums(sqrt: real -> real, d: real, p: real, q: real)
    requires IsSqrt(sqrt) && p >= 0.0 && q >= 0.0 && d * d <= p * q
    ensures var s := Quotient(sqrt, d, p, q);
            && -1.0 <= s <= 1.0
            && (s > 0.0 <==> d > 0.0)
            && SquareRatio(s, d, p, q)
  {
    if p == 0.0 || q == 0.0 {
      NoDirection(d, p, q);
    } else {
      var r := RootProduct(sqrt, p, q);
      ProductOfRoots(sqrt(p), sqrt(q), p, q);
      SquareOrder(d, r);
      QuotientBounded(d, r);
      SignOfQuotient(d, r);
      SquaredQuotient(d, r, p * q);
    }
  }

  /** The quotient never exceeds 1, so the upper clamp changes nothing: the result is the quotient
      when the dot product is positive, and 0 otherwise. Free of square roots, it is the number in
      [0, 1] that is positive exactly when the dot product is, and whose square is then
      dot² / (|a|² |b|²). */
  lemma UpperClampIsIdle(sqrt: real -> real, a: Vector, b: Vector)
    requires IsSqrt(sqrt) && |a| == |b|
    ensures var s, d := Similarity(sqrt, a, b), Dot(a, b);
            && 0.0 <= s <= 1.0
            && (s > 0.0 <==> d > 0.0)
            && (d > 0.0 ==> s == Quotient(sqrt, d, Dot(a, a), Dot(b, b)) && SquareRatio(s, d, Dot(a, a), Dot(b, b)))
  {
    CauchySchwarz(a, b);
    QuotientOfSums(sqrt, Dot(a, b), Dot(a, a), Dot(b, b));
  }

  lemma {:induction false} DotSymmetric(a: Vector, b: Vector)
    requires |a| == |b|
    ensures Dot(a, b) == Dot(b, a)
  {
    if |a| > 0 {
      DotSymmetric(a[..|a| - 1], b[..|b| - 1]);
    }
  }

  /** The vector with a 1 at `i` and zeros elsewhere. */
  function Unit(n: nat, i: nat): (r: Vector)
    ensures |r| == n && forall k | 0 <= k < n :: r[k] == if k == i then 1.0 else 0.0
  {
    if n == 0 then [] else Unit(n - 1, i) + [if n - 1 == i then 1.0 else 0.0]
  }

  function Sum(a: Vector, b: Vector): (r: Vector)
    requires |a| == |b|
    ensures |r| == |a| && forall k | 0 <= k < |a| :: r[k] == a[k] + b[k]
  {
    if |a| == 0 then [] else Sum(a[..|a| - 1], b[..|b| - 1]) + [a[|a| - 1] + b[|b| - 1]]
  }

  lemma {:induction false} DotOutside(a: Vector, i: nat)
    requires i >= |a|
    ensures Dot(a, Unit(|a|, i)) == 0.0
  {
    if |a| > 0 {
      assert Unit(|a|, i)[..|a| - 1] == Unit(|a| - 1, i);
      DotOutside(a[..|a| - 1], i);
    }
  }

  /** The products picked out and added up are those of the components: every component counts once. */
  lemma {:induction false} DotWithUnit(a: Vector, i: nat)
    requires i < |a|
    ensures Dot(a, Unit(|a|, i)) == a[i]
  {
    var n := |a| - 1;
    assert Unit(|a|, i)[..n] == Unit(n, i);
    if i == n { DotOutside(a[..n], i); } else { DotWithUnit(a[..n], i); }
  }

  lemma {:induction false} DotAdds(a: Vector, b: Vector, c: Vector)
    requires |a| == |b| == |c|
    ensures Dot(a, Sum(b, c)) == Dot(a, b) + Dot(a, c)
  {
    if |a| > 0 {
      var n := |a| - 1;
      assert Sum(b, c)[..n] == Sum(b[..n], c[..n]);
      DotAdds(a[..n], b[..n], c[..n]);
    }
  }

  lemma {:induction false} DotScaled(k: real, a: Vector, b: Vector)
    requires |a| == |b|
    ensures Dot(Scale(k, a), b) == k * Dot(a, b)
  {
    if |a| > 0 {
      var n := |a| - 1;
      assert Scale(k, a)[..n] == Scale(k, a[..n]);
      DotScaled(k, a[..n], b[..n]);
      assert (k * a[n]) * b[n] == k * (a[n] * b[n]);
    }
  }

  lemma Symmetric(sqrt: real -> real, a: Vector, b: Vector)
    ensures Similarity(sqrt, a, b) == Similarity(sqrt, b, a)
  {
    if |a| == |b| {
      DotSymmetric(a, b);
      assert sqrt(Dot(a, a)) * sqrt(Dot(b, b)) == sqrt(Dot(b, b)) * sqrt(Dot(a, a));
    }
  }

  lemma SqrtOfScaled(sqrt: real -> real, k: real, x: real)
    requires IsSqrt(sqrt) && k > 0.0 && x >= 0.0
    ensures sqrt(k * k * x) == k * sqrt(x)
  {
    var s, t := sqrt(k * k * x), k * sqrt(x);
    assert k * k * x >= 0.0;
    ProductOfRoots(k, sqrt(x), k * k, x);
    SquareOrder(s, t);
    SquareOrder(t, s);
  }

  lemma CommonFactor(k: real, d: real, r: real)
    requires k > 0.0 && r > 0.0
    ensures k * r > 0.0 && (k * d) / (k * r) == d / r
  {
    ProductPositive(k, r, k * r);
    var q := d / r;
    assert q * r == d;
    assert k * d == q * (k * r);
  }

  /** A name for a product, so that it can be passed on as it is. */
  predicate IsProduct(x: real, y: real, z: real) { x == y * z }

  lemma QuotientScaled(sqrt: real -> real, k: real, d: real, p: real, q: real, dot: real, scaled: real)
    requires IsSqrt(sqrt) && k > 0.0 && p >= 0.0 && q >= 0.0 && IsProduct(dot, k, d) && IsProduct(scaled, k * k, p)
    ensures Quotient(sqrt, dot, scaled, q) == Quotient(sqrt, d, p, q)
  {
    if p == 0.0 {
      assert scaled == 0.0;
    } else if q != 0.0 {
      SqrtOfScaled(sqrt, k, p);
      var r := RootProduct(sqrt, p, q);
      CommonFactor(k, d, r);
      var kk := k * k;
      ProductPositive(k, k, kk);
      ProductPositive(kk, p, scaled);
      assert sqrt(scaled) * sqrt(q) == k * r;
    }
  }

  lemma SimilarityOfSums(sqrt: real -> real, a: Vector, b: Vector)
    requires |a| == |b|
    ensures Similarity(sqrt, a, b) == Clamp(Quotient(sqrt, Dot(a, b), Dot(a, a), Dot(b, b)))
  {
  }

  lemma NormScaled(k: real, a: Vector)
    ensures IsProduct(Dot(Scale(k, a), Scale(k, a)), k * k, Dot(a, a))
  {
    DotScaled(k, a, Scale(k, a));
    DotSymmetric(a, Scale(k, a));
    DotScaled(k, a, a);
    assert k * (k * Dot(a, a)) == k * k * Dot(a, a);
  }

  lemma FirstScaled(sqrt: real -> real, k: real, a: Vector, b: Vector)
    requires IsSqrt(sqrt) && k > 0.0 && |a| == |b|
    ensures Quotient(sqrt, Dot(Scale(k, a), b), Dot(Scale(k, a), Scale(k, a)), Dot(b, b))
         == Quotient(sqrt, Dot(a, b), Dot(a, a), Dot(b, b))
  {
    assert IsProduct(Dot(Scale(k, a), b), k, Dot(a, b)) by { DotScaled(k, a, b); }
    NormScaled(k, a);
    assert Dot(a, a) >= 0.0 && Dot(b, b) >= 0.0 by { CauchySchwarz(a, b); }
    QuotientScaled(sqrt, k, Dot(a, b), Dot(a, a), Dot(b, b), Dot(Scale(k, a), b), Dot(Scale(k, a), Scale(k, a)));
  }

  /** Positive scaling of either embedding leaves the similarity unchanged. */
  lemma ScaleInvariant(sqrt: real -> real, k: real, a: Vector, b: Vector)
    requires IsSqrt(sqrt) && k > 0.0
    ensures Similarity(sqrt, Scale(k, a), b) == Similarity(sqrt, a, b)
    ensures Similarity(sqrt, b, Scale(k, a)) == Similarity(sqrt, b, a)
  {
    if |a| == |b| {
      SimilarityOfSums(sqrt, a, b);
      SimilarityOfSums(sqrt, Scale(k, a), b);
      FirstScaled(sqrt, k, a, b);
    }
    Symmetric(sqrt, Scale(k, a), b);
    Symmetric(sqrt, a, b);
  }

  /** A vector that is not all zeros has similarity 1 with itself. */
  lemma SelfSimilarity(sqrt: real -> real, a: Vector)
    requires IsSqrt(sqrt) && exists i | 0 <= i < |a| :: a[i] != 0.0
    ensures Similarity(sqrt, a, a) == 1.0
  {
    var i :| 0 <= i < |a| && a[i] != 0.0;
    NormPositive(a, i);
    SelfQuotient(sqrt, Dot(a, a));
  }

  lemma SelfQuotient(sqrt: real -> real, p: real)
    requires IsSqrt(sqrt) && p > 0.0
    ensures Quotient(sqrt, p, p, p) == 1.0
  {
    assert sqrt(p) * sqrt(p) == p;
    OverItself(p);
  }

  lemma OverItself(p: real)
    requires p > 0.0
    ensures p / p == 1.0
  {
  }

  lemma {:induction false} NormPositive(a: Vector, i: nat)
    requires i < |a| && a[i] != 0.0
    ensures Dot(a, a) > 0.0
  {
    var n := |a| - 1;
    CauchySchwarz(a[..n], a[..n]);
    SquareSign(a[n], a[n] * a[n]);
    if i < n {
      assert a[..n][i] == a[i];
      NormPositive(a[..n], i);
    } else {
      assert a[n] != 0.0;
    }
  }

  /** The loop over both vectors. */
  method Cosine(sqrt: real -> real, a: Vector, b: Vector) returns (r: real)
    requires IsSqrt(sqrt)
    ensures r == Similarity(sqrt, a, b)
    ensures 0.0 <= r <= 1.0
  {
    if |a| == 0 || |a| != |b| {
      return 0.0;
    }
    var dotProduct, normA, normB := 0.0, 0.0, 0.0;
    for i := 0 to |a|
      invariant dotProduct == Dot(a[..i], b[..i])
      invariant normA == Dot(a[..i], a[..i])
      invariant normB == Dot(b[..i], b[..i])
    {
      assert a[..i + 1][..i] == a[..i] && b[..i + 1][..i] == b[..i];
      dotProduct := dotProduct + a[i] * b[i];
      normA := normA + a[i] * a[i];
      normB := normB + b[i] * b[i];
    }
    assert a[..|a|] == a && b[..|b|] == b;
    if normA == 0.0 || normB == 0.0 {
      return 0.0;
    }
    CauchySchwarz(a, b);
    ghost var scale := RootProduct(sqrt, normA, normB);
    var similarity := dotProduct / (sqrt(normA) * sqrt(normB));
    r := Clamp(similarity);
  }
}
