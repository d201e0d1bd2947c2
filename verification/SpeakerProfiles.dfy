/** Speaker profiles over ideal real vectors: cosine similarity, matching, and folding a new
    reference into a stored centroid. Square roots are given by any function that computes them. */
module SpeakerProfiles {
  import opened Models
  import opened Manifests

  type Vec = seq<real>

  datatype ProfileError = BadThreshold | BadDimensions | ZeroVector | BlankName

  datatype Profile = Profile(id: string, displayName: string, centroid: Vec, referenceCount: int)

  datatype Match = Match(profileId: string, displayName: string, similarity: real, threshold: real)

  ghost predicate IsRoot(root: real -> real) {
    forall x :: x >= 0.0 ==> root(x) >= 0.0 && root(x) * root(x) == x
  }

  function Dot(a: Vec, b: Vec): real
    requires |a| == |b|
  {
    if a == [] then 0.0 else a[0] * b[0] + Dot(a[1..], b[1..])
  }

  function Add(a: Vec, b: Vec): (r: Vec)
    requires |a| == |b|
    ensures |r| == |a|
  {
    seq(|a|, i requires 0 <= i < |a| => a[i] + b[i])
  }

  function Scale(k: real, a: Vec): (r: Vec)
    ensures |r| == |a|
  {
    seq(|a|, i requires 0 <= i < |a| => k * a[i])
  }

  function Norm(a: Vec, root: real -> real): real { root(Dot(a, a)) }

  /** `cosine_similarity` */
  function Cosine(left: Vec, right: Vec, root: real -> real): Result<real, ProfileError> {
    if |left| != |right| || left == [] then Err(BadDimensions)
    else if Norm(left, root) == 0.0 || Norm(right, root) == 0.0 then Ok(-1.0)
    else Ok(CosineOf(left, right, root))
  }

  function CosineOf(left: Vec, right: Vec, root: real -> real): real
    requires |left| == |right| && Norm(left, root) != 0.0 && Norm(right, root) != 0.0
  {
    NonZeroProduct(Norm(left, root), Norm(right, root));
    Dot(left, right) / (Norm(left, root) * Norm(right, root))
  }

  function Normalize(v: Vec, root: real -> real): Result<Vec, ProfileError> {
    var magnitude := Norm(v, root);
    if magnitude == 0.0 then Err(ZeroVector)
    else Ok(seq(|v|, i requires 0 <= i < |v| => v[i] / magnitude))
  }

  function UpdatedCentroid(current: Vec, count: int, incoming: Vec, root: real -> real): Result<Vec, ProfileError> {
    if |current| != |incoming| || current == [] then Err(BadDimensions)
    else if count < 1 then Normalize(incoming, root)
    else Normalize(Weighted(current, count, incoming), root)
  }

  function Weighted(current: Vec, count: int, incoming: Vec): (r: Vec)
    requires |current| == |incoming| && count >= 1
    ensures |r| == |current|
  {
    seq(|current|, i requires 0 <= i < |current| => (current[i] * count as real + incoming[i]) / (count as real + 1.0))
  }

  // ----- real arithmetic -----

  lemma NonZeroProduct(x: real, y: real)
    requires x != 0.0 && y != 0.0
    ensures x * y != 0.0
  {
    if x < 0.0 {
      if y < 0.0 { NegativeProduct(x, y); } else { MixedProduct(x, y); }
    } else {
      if y < 0.0 { MixedProduct(y, x); } else { PositiveProduct(x, y); }
    }
  }

  lemma MixedProduct(x: real, y: real)
    requires x < 0.0 && y > 0.0
    ensures x * y < 0.0 && y * x < 0.0
  {
  }

  lemma PositiveProduct(x: real, y: real)
    requires x > 0.0 && y > 0.0
    ensures x * y > 0.0
  {
  }

  lemma NonNegativeProduct(x: real, y: real)
    requires x >= 0.0 && y >= 0.0
    ensures x * y >= 0.0
  {
  }

  lemma NegativeProduct(x: real, y: real)
    requires x < 0.0 && y < 0.0
    ensures x * y > 0.0
  {
  }

  lemma Squares(x: real)
    ensures x * x >= 0.0 && (x != 0.0 ==> x * x > 0.0)
  {
    if x > 0.0 {
      PositiveProduct(x, x);
    } else if x < 0.0 {
      NegativeProduct(x, x);
    }
  }

  /** A product with the sign it has. */
  function Product(x: real, y: real): (r: real)
    ensures x > 0.0 && y > 0.0 ==> r > 0.0
    ensures x < 0.0 && y < 0.0 ==> r > 0.0
    ensures x == 0.0 || y == 0.0 ==> r == 0.0
  {
    x * y
  }

  /** Comparing two non-negative numbers by their squares. */
  lemma SquaresOrder(x: real, y: real)
    requires x >= 0.0 && y >= 0.0 && x * x <= y * y
    ensures x <= y
  {
    if x > y { LargerSquare(x, y); }
  }

  lemma LargerSquare(x: real, y: real)
    requires x > y >= 0.0
    ensures x * x > y * y
  {
    PositiveProduct(x - y, x + y);
    assert (x - y) * (x + y) == x * x - y * y;
  }

  lemma RootUnique(root: real -> real, x: real, y: real)
    requires IsRoot(root) && y >= 0.0 && y * y == x
    ensures root(x) == y
  {
    Squares(y);
    SquaresOrder(root(x), y);
    SquaresOrder(y, root(x));
  }

  lemma DivideAtLeast(a: real, b: real, c: real)
    requires b > 0.0 && a >= c * b
    ensures a / b >= c
  {
    assert (a / b) * b == a;
  }

  // ----- the inner product -----

  lemma {:induction false} DotSymmetric(a: Vec, b: Vec)
    requires |a| == |b|
    ensures Dot(a, b) == Dot(b, a)
  {
    if a != [] { DotSymmetric(a[1..], b[1..]); }
  }

  lemma {:induction false} DotSelf(a: Vec)
    ensures Dot(a, a) >= 0.0
    ensures Dot(a, a) == 0.0 ==> forall i :: 0 <= i < |a| ==> a[i] == 0.0
  {
    if a != [] {
      var x, rest := a[0], Dot(a[1..], a[1..]);
      DotSelf(a[1..]);
      var square := Product(x, x);
      assert Dot(a, a) == square + rest;
      if square + rest == 0.0 {
        assert x == 0.0 && rest == 0.0;
        forall i | 0 < i < |a| ensures a[i] == 0.0 { assert a[1..][i - 1] == a[i]; }
      }
    }
  }

  lemma {:induction false} DotAdd(a: Vec, b: Vec, c: Vec)
    requires |a| == |b| == |c|
    ensures Dot(Add(a, b), c) == Dot(a, c) + Dot(b, c)
  {
    if a != [] {
      DotAdd(a[1..], b[1..], c[1..]);
      assert Add(a, b)[1..] == Add(a[1..], b[1..]);
      assert (a[0] + b[0]) * c[0] == a[0] * c[0] + b[0] * c[0];
    }
  }

  lemma {:induction false} DotScale(k: real, a: Vec, c: Vec)
    requires |a| == |c|
    ensures Dot(Scale(k, a), c) == Product(k, Dot(a, c))
  {
    if a != [] {
      DotScale(k, a[1..], c[1..]);
      var rest := Scale(k, a)[1..];
      assert rest == Scale(k, a[1..]) by {
        forall i | 0 <= i < |rest| ensures rest[i] == Scale(k, a[1..])[i] { assert a[1..][i] == a[i + 1]; }
      }
      assert k * (a[0] * c[0] + Dot(a[1..], c[1..])) == k * a[0] * c[0] + k * Dot(a[1..], c[1..]);
    }
  }

  /** |a + b|² */
  lemma AddSquare(a: Vec, b: Vec)
    requires |a| == |b|
    ensures Dot(Add(a, b), Add(a, b)) == Dot(a, a) + 2.0 * Dot(a, b) + Dot(b, b)
  {
    var c := Add(a, b);
    DotAdd(a, b, c);
    DotSymmetric(a, c);
    DotSymmetric(b, c);
    DotAdd(a, b, a);
    DotAdd(a, b, b);
    DotSymmetric(a, b);
  }

  lemma DotScaleRight(a: Vec, l: real, b: Vec)
    requires |a| == |b|
    ensures Dot(a, Scale(l, b)) == Product(l, Dot(a, b))
  {
    DotSymmetric(a, Scale(l, b));
    DotSymmetric(a, b);
    DotScale(l, b, a);
  }

  lemma DotScaleBoth(k: real, a: Vec, l: real, b: Vec)
    requires |a| == |b|
    ensures Dot(Scale(k, a), Scale(l, b)) == Product(k, Product(l, Dot(a, b)))
  {
    DotScaleRight(a, l, b);
    DotScale(k, a, Scale(l, b));
  }

  predicate Unit(a: Vec) { Dot(a, a) == 1.0 }

  /** Cauchy-Schwarz for unit vectors: |a + b|² and |a - b|² are not negative. */
  lemma UnitBounds(a: Vec, b: Vec)
    requires |a| == |b| && Unit(a) && Unit(b)
    ensures -1.0 <= Dot(a, b) <= 1.0
  {
    AddSquare(a, b);
    DotSelf(Add(a, b));
    var c := Scale(-1.0, b);
    DotScaleBoth(-1.0, b, -1.0, b);
    DotScaleBoth(1.0, a, -1.0, b);
    assert Scale(1.0, a) == a;
    AddSquare(a, c);
    DotSelf(Add(a, c));
  }

  // ----- norms -----

  lemma NormFacts(v: Vec, root: real -> real)
    requires IsRoot(root)
    ensures Norm(v, root) >= 0.0 && Norm(v, root) * Norm(v, root) == Dot(v, v)
    ensures Norm(v, root) == 0.0 <==> Dot(v, v) == 0.0
  {
    DotSelf(v);
    var m := Norm(v, root);
    assert root(Dot(v, v)) == m;
    assert m == 0.0 ==> Product(m, m) == 0.0;
    assert m > 0.0 ==> Product(m, m) > 0.0;
  }

  lemma InverseSquares(k: real, m: real, a: real)
    requires m > 0.0 && k == 1.0 / m && a == m * m
    ensures Product(k, Product(k, a)) == 1.0
  {
    assert k * m == 1.0;
    assert k * a == (k * m) * m;
    assert k * (k * a) == k * m;
  }

  lemma DivideIsScale(x: real, m: real)
    requires m != 0.0
    ensures x / m == Product(1.0 / m, x)
  {
  }

  /** Normalising fails for the zero vector alone, and otherwise gives a unit vector. */
  lemma NormalizeUnit(v: Vec, root: real -> real)
    requires IsRoot(root)
    ensures var m, r := Norm(v, root), Normalize(v, root);
      && (r.Err? <==> Dot(v, v) == 0.0)
      && (r.Ok? ==> m > 0.0 && r.value == Scale(1.0 / m, v) && Unit(r.value))
  {
    NormFacts(v, root);
    var m := Norm(v, root);
    if m != 0.0 {
      NormalizeIsScale(v, root);
      DirectionIsUnit(v, root);
    }
  }

  lemma DirectionIsUnit(v: Vec, root: real -> real)
    requires IsRoot(root) && Norm(v, root) != 0.0
    ensures Norm(v, root) > 0.0 && Unit(Scale(1.0 / Norm(v, root), v))
  {
    NormFacts(v, root);
    InverseLength(v, Norm(v, root));
  }

  lemma NormalizeIsScale(v: Vec, root: real -> real)
    requires Norm(v, root) != 0.0
    ensures Normalize(v, root) == Ok(Scale(1.0 / Norm(v, root), v))
  {
    DividedIsScaled(v, Norm(v, root), Normalize(v, root).value);
  }

  lemma DividedIsScaled(v: Vec, m: real, r: Vec)
    requires m != 0.0 && |r| == |v| && forall i :: 0 <= i < |v| ==> r[i] == v[i] / m
    ensures r == Scale(1.0 / m, v)
  {
    forall i | 0 <= i < |v| ensures r[i] == Scale(1.0 / m, v)[i] { DivideIsScale(v[i], m); }
  }

  lemma InverseLength(v: Vec, m: real)
    requires m > 0.0 && m * m == Dot(v, v)
    ensures Unit(Scale(1.0 / m, v))
  {
    DotScaleBoth(1.0 / m, v, 1.0 / m, v);
    InverseSquares(1.0 / m, m, Dot(v, v));
  }

  lemma QuotientOfProducts(x: real, m: real, n: real)
    requires m > 0.0 && n > 0.0
    ensures m * n != 0.0 && x / (m * n) == Product(1.0 / m, Product(1.0 / n, x))
  {
    PositiveProduct(m, n);
    var y := (1.0 / n) * x;
    assert y * n == x;
    var z := (1.0 / m) * y;
    assert z * m == y;
    assert z * (m * n) == (z * m) * n;
  }

  /** The cosine is the inner product of the two directions. */
  lemma CosineOfDirections(a: Vec, b: Vec, root: real -> real)
    requires IsRoot(root) && |a| == |b| && Norm(a, root) != 0.0 && Norm(b, root) != 0.0
    ensures Normalize(a, root).Ok? && Normalize(b, root).Ok?
    ensures CosineOf(a, b, root) == Dot(Normalize(a, root).value, Normalize(b, root).value)
  {
    NormalizeUnit(a, root);
    NormalizeUnit(b, root);
    NormFacts(a, root);
    NormFacts(b, root);
    DirectionDot(a, Norm(a, root), b, Norm(b, root));
  }

  lemma DirectionDot(a: Vec, m: real, b: Vec, n: real)
    requires |a| == |b| && m > 0.0 && n > 0.0
    ensures m * n != 0.0 && Dot(Scale(1.0 / m, a), Scale(1.0 / n, b)) == Dot(a, b) / (m * n)
  {
    DotScaleBoth(1.0 / m, a, 1.0 / n, b);
    QuotientOfProducts(Dot(a, b), m, n);
  }

  /** Similarity is always between -1 and 1. */
  lemma CosineBounds(a: Vec, b: Vec, root: real -> real)
    requires IsRoot(root)
    ensures Cosine(a, b, root).Ok? <==> |a| == |b| > 0
    ensures Cosine(a, b, root).Ok? ==> -1.0 <= Cosine(a, b, root).value <= 1.0
    ensures Cosine(a, b, root).Ok? && (Norm(a, root) == 0.0 || Norm(b, root) == 0.0) ==> Cosine(a, b, root).value == -1.0
  {
    if |a| == |b| > 0 && Norm(a, root) != 0.0 && Norm(b, root) != 0.0 {
      CosineOfDirections(a, b, root);
      NormalizeUnit(a, root);
      NormalizeUnit(b, root);
      UnitBounds(Normalize(a, root).value, Normalize(b, root).value);
    }
  }

  lemma UnitCosine(a: Vec, b: Vec, root: real -> real)
    requires IsRoot(root) && |a| == |b| > 0 && Unit(a) && Unit(b)
    ensures Cosine(a, b, root) == Ok(Dot(a, b))
  {
    RootUnique(root, 1.0, 1.0);
  }

  // ----- folding a reference into a centroid -----

  lemma FoldIdentity(n: real, d: real)
    ensures (n * d + 1.0) * (n * d + 1.0) - d * d * (n * n + 2.0 * n * d + 1.0) 
         == ((1.0 - d) * (1.0 + d)) * (1.0 + 2.0 * n * d)
  {
  }

  lemma FoldScalars(n: real, d: real, m: real)
    requires n >= 1.0 && -1.0 <= d <= 1.0 && m > 0.0 && m * m == n * n + 2.0 * n * d + 1.0
    ensures n * d + 1.0 >= d * m
  {
    var s, t := n * d + 1.0, d * m;
    assert t * t == d * d * (m * m);
    FoldIdentity(n, d);
    NonNegativeProduct(1.0 - d, 1.0 + d);
    var u, w := (1.0 - d) * (1.0 + d), 1.0 + 2.0 * n * d;
    if d >= 0.0 {
      NonNegativeProduct(n, d);
      NonNegativeProduct(u, w);
      SquaresOrder(t, s);
    } else if s >= 0.0 {
      assert t < 0.0;
    } else {
      NonNegativeProduct(u, -w);
      SquaresOrder(-s, -t);
    }
  }

  lemma NormScaled(k: real, v: Vec, root: real -> real)
    requires IsRoot(root) && k > 0.0
    ensures Norm(Scale(k, v), root) == k * Norm(v, root)
  {
    var m := Norm(v, root);
    NormFacts(v, root);
    DotScaleBoth(k, v, k, v);
    NonNegativeProduct(k, m);
    RegroupSquare(k, m, Dot(v, v));
    RootUnique(root, Dot(Scale(k, v), Scale(k, v)), k * m);
  }

  lemma RegroupSquare(k: real, m: real, a: real)
    requires m * m == a
    ensures (k * m) * (k * m) == Product(k, Product(k, a))
  {
    assert (k * m) * (k * m) == k * (k * (m * m));
  }

  lemma CancelFactor(k: real, x: real, m: real)
    requires k > 0.0 && m > 0.0
    ensures k * m != 0.0 && (k * x) / (k * m) == x / m
  {
    PositiveProduct(k, m);
    var q := x / m;
    assert q * m == x;
    assert q * (k * m) == k * x;
  }

  /** Normalising forgets the length. */
  lemma NormalizeScaled(k: real, v: Vec, root: real -> real)
    requires IsRoot(root) && k > 0.0
    ensures Normalize(Scale(k, v), root) == Normalize(v, root)
  {
    var m, w := Norm(v, root), Scale(k, v);
    NormScaled(k, v, root);
    NormFacts(v, root);
    if m > 0.0 {
      PositiveProduct(k, m);
      var a, b := Normalize(w, root).value, Normalize(v, root).value;
      forall i | 0 <= i < |v| ensures a[i] == b[i] { CancelFactor(k, v[i], m); }
      assert a == b;
    }
  }

  lemma WeightedIsScaled(current: Vec, count: int, incoming: Vec)
    requires |current| == |incoming| && count >= 1
    ensures Weighted(current, count, incoming)
         == Scale(1.0 / (count as real + 1.0), Add(Scale(count as real, current), incoming))
  {
    var n := count as real;
    forall i | 0 <= i < |current|
      ensures Weighted(current, count, incoming)[i] == Scale(1.0 / (n + 1.0), Add(Scale(n, current), incoming))[i] {
      DivideIsScale(current[i] * n + incoming[i], n + 1.0);
      assert current[i] * n == n * current[i];
    }
  }

  /** n·c + e for unit vectors with inner product d. */
  lemma FoldedDots(n: real, c: Vec, e: Vec)
    requires |c| == |e| && Unit(c) && Unit(e)
    ensures var v := Add(Scale(n, c), e);
      Dot(v, v) == n * n + 2.0 * n * Dot(c, e) + 1.0 && Dot(v, e) == n * Dot(c, e) + 1.0
  {
    DotScaleBoth(n, c, n, c);
    DotScale(n, c, e);
    AddSquare(Scale(n, c), e);
    DotAdd(Scale(n, c), e, e);
    FoldedSquare(n, Dot(c, e));
  }

  lemma FoldedSquare(n: real, d: real)
    ensures Product(n, Product(n, 1.0)) + 2.0 * Product(n, d) + 1.0 == n * n + 2.0 * n * d + 1.0
    ensures Product(n, d) == n * d
  {
  }

  lemma FoldVanishes(n: real, d: real, square: real)
    requires n >= 1.0 && -1.0 <= d <= 1.0 && square == n * n + 2.0 * n * d + 1.0
    ensures square == 0.0 <==> n == 1.0 && d == -1.0
  {
    var x, y := Product(n - 1.0, n - 1.0), Product(n, 1.0 + d);
    assert square == x + 2.0 * y;
  }

  function Folded(current: Vec, count: int, incoming: Vec): Vec
    requires |current| == |incoming|
  {
    Add(Scale(count as real, current), incoming)
  }

  lemma UpdateIsNormalized(current: Vec, count: int, incoming: Vec, root: real -> real)
    requires IsRoot(root) && |current| == |incoming| > 0 && count >= 1
    ensures UpdatedCentroid(current, count, incoming, root) == Normalize(Folded(current, count, incoming), root)
  {
    WeightedIsScaled(current, count, incoming);
    assert 1.0 / (count as real + 1.0) > 0.0;
    NormalizeScaled(1.0 / (count as real + 1.0), Folded(current, count, incoming), root);
  }

  /** Folding a reference keeps the centroid a unit vector and never takes it further from the
      reference just added; it fails only when the two cancel. */
  lemma FoldReference(current: Vec, count: int, incoming: Vec, root: real -> real)
    requires IsRoot(root) && |current| == |incoming| > 0 && count >= 1 && Unit(current) && Unit(incoming)
    ensures var r := UpdatedCentroid(current, count, incoming, root);
      && r == Normalize(Folded(current, count, incoming), root)
      && (r.Err? <==> count == 1 && Dot(current, incoming) == -1.0)
      && (r.Ok? ==>
           && |r.value| == |current| && Unit(r.value)
           && Cosine(r.value, incoming, root).Ok? && Cosine(current, incoming, root).Ok?
           && Cosine(r.value, incoming, root).value >= Cosine(current, incoming, root).value)
  {
    UpdateIsNormalized(current, count, incoming, root);
    FoldFails(current, count, incoming, root);
    var r := Normalize(Folded(current, count, incoming), root);
    if r.Ok? {
      FoldCloser(current, count, incoming, root);
      UnitCosine(r.value, incoming, root);
      UnitCosine(current, incoming, root);
    }
  }

  lemma FoldFails(current: Vec, count: int, incoming: Vec, root: real -> real)
    requires IsRoot(root) && |current| == |incoming| && count >= 1 && Unit(current) && Unit(incoming)
    ensures Normalize(Folded(current, count, incoming), root).Err? <==> count == 1 && Dot(current, incoming) == -1.0
  {
    var v, n, d := Folded(current, count, incoming), count as real, Dot(current, incoming);
    assert Dot(v, v) == 0.0 <==> n == 1.0 && d == -1.0 by {
      FoldedDots(n, current, incoming);
      UnitBounds(current, incoming);
      FoldVanishes(n, d, Dot(v, v));
    }
    NormalizeUnit(v, root);
  }

  lemma FoldCloser(current: Vec, count: int, incoming: Vec, root: real -> real)
    requires IsRoot(root) && |current| == |incoming| && count >= 1 && Unit(current) && Unit(incoming)
    requires Normalize(Folded(current, count, incoming), root).Ok?
    ensures var r := Normalize(Folded(current, count, incoming), root).value;
      |r| == |current| && Unit(r) && Dot(r, incoming) >= Dot(current, incoming)
  {
    var v := Folded(current, count, incoming);
    FoldedDots(count as real, current, incoming);
    UnitBounds(current, incoming);
    NormalizeUnit(v, root);
    NormFacts(v, root);
    CloserToReference(count as real, Dot(current, incoming), Norm(v, root), v, incoming);
  }

  lemma CloserToReference(n: real, d: real, m: real, v: Vec, e: Vec)
    requires n >= 1.0 && -1.0 <= d <= 1.0 && m > 0.0 && m * m == n * n + 2.0 * n * d + 1.0
    requires |v| == |e| && Dot(v, e) == n * d + 1.0
    ensures Dot(Scale(1.0 / m, v), e) >= d
  {
    FoldScalars(n, d, m);
    DotScale(1.0 / m, v, e);
    DivideIsScale(Dot(v, e), m);
    DivideAtLeast(Dot(v, e), m, d);
  }

  // ----- the profile table -----

  predicate GoodProfile(p: Profile) { p.referenceCount >= 1 && p.centroid != [] && Unit(p.centroid) }

  function LowerChar(c: char): char {
    if 'A' <= c <= 'Z' then (c as int + 32) as char else c
  }

  /** Names are compared without regard to ASCII case. */
  function NameKey(name: string): string {
    seq(|name|, i requires 0 <= i < |name| => LowerChar(name[i]))
  }

  /** Two names have one key exactly when they differ at most in the case of ASCII letters. */
  lemma KeysIgnoreCase(a: string, b: string)
    ensures NameKey(a) == NameKey(b) <==>
      |a| == |b| && forall i :: 0 <= i < |a| ==> a[i] == b[i] || CaseOf(a[i], b[i]) || CaseOf(b[i], a[i])
  {
    if |a| == |b| {
      forall i | 0 <= i < |a|
        ensures NameKey(a)[i] == NameKey(b)[i] <==> a[i] == b[i] || CaseOf(a[i], b[i]) || CaseOf(b[i], a[i]) {}
    } else {
      assert |NameKey(a)| != |NameKey(b)|;
    }
  }

  /** The lower-case and the upper-case form of one letter. */
  predicate CaseOf(lower: char, upper: char) { 'a' <= lower <= 'z' && 'A' <= upper <= 'Z' && lower - 'a' == upper - 'A' }

  /** The `speaker_profiles` table, by name. */
  class ProfileTable {
    const root: real -> real
    var rows: map<string, Profile>

    ghost predicate Valid()
      reads this
    {
      IsRoot(root) && forall k | k in rows :: GoodProfile(rows[k])
    }

    constructor (root: real -> real)
      requires IsRoot(root)
      ensures Valid() && rows == map[] && this.root == root
    {
      this.root, rows := root, map[];
    }

    /** `save_speaker_profile`: every stored centroid stays a unit vector, and a known speaker's
        centroid does not move away from the reference. An error changes nothing. */
    method Save(displayName: string, embedding: Vec, newId: string) returns (r: Result<Profile, ProfileError>)
      requires Valid()
      modifies this
      ensures Valid()
      ensures var key := NameKey(Strip(displayName));
        match r
        case Err(e) => rows == old(rows)
        case Ok(p) =>
          && rows.Keys == old(rows).Keys + {key} && (forall k | k in old(rows) && k != key :: rows[k] == old(rows)[k])
          && rows[key].centroid == p.centroid && rows[key].referenceCount == p.referenceCount && rows[key].id == p.id
          && p.displayName == Strip(displayName)
          && (key !in old(rows) ==> p.id == newId && rows[key].displayName == Strip(displayName))
          && (key in old(rows) ==> p.id == old(rows)[key].id && rows[key].displayName == old(rows)[key].displayName)
          && Normalize(embedding, root).Ok?
          && (key !in old(rows) ==> p.referenceCount == 1 && p.centroid == Normalize(embedding, root).value)
          && (key in old(rows) ==>
                && p.referenceCount == old(rows)[key].referenceCount + 1 && |p.centroid| == |embedding|
                && |old(rows)[key].centroid| == |embedding|
                && Ok(p.centroid) == Normalize(Folded(old(rows)[key].centroid, old(rows)[key].referenceCount,
                                                      Normalize(embedding, root).value), root)
                && Closer(p.centroid, old(rows)[key].centroid, Normalize(embedding, root).value, root))
      ensures r == Err(BlankName) <==> Blank(displayName)
      ensures Normalize(embedding, root).Err? <==> Dot(embedding, embedding) == 0.0
      ensures r == Err(ZeroVector)
        <==> !Blank(displayName) && NoDirection(old(rows), NameKey(Strip(displayName)), Normalize(embedding, root))
    {
      var name := Strip(displayName);
      StripBlank(displayName);
      NormalizeUnit(embedding, root);
      if name == "" { return Err(BlankName); }
      var normalized := Normalize(embedding, root);
      if normalized.Err? { return Err(normalized.error); }
      var key := NameKey(name);
      if key !in rows {
        r := Ok(Profile(newId, name, normalized.value, 1));
        rows := rows[key := r.value];
      } else {
        var row := rows[key];
        var centroid := UpdatedCentroid(row.centroid, row.referenceCount, normalized.value, root);
        if |row.centroid| == |normalized.value| {
          FoldReference(row.centroid, row.referenceCount, normalized.value, root);
        }
        if centroid.Err? { return Err(centroid.error); }
        rows := rows[key := row.(centroid := centroid.value, referenceCount := row.referenceCount + 1)];
        r := Ok(Profile(row.id, name, centroid.value, row.referenceCount + 1));
      }
    }
  }

  /** The new centroid is at least as similar to the reference as the old one. */
  ghost predicate Closer(after: Vec, before: Vec, reference: Vec, root: real -> real) {
    && Cosine(after, reference, root).Ok? && Cosine(before, reference, root).Ok?
    && Cosine(after, reference, root).value >= Cosine(before, reference, root).value
  }

  /** The zero vector has no direction, nor has a first reference with its exact opposite. */
  predicate NoDirection(rows: map<string, Profile>, key: string, reference: Result<Vec, ProfileError>) {
    reference.Err? || (key in rows && rows[key].referenceCount == 1 && |rows[key].centroid| == |reference.value|
                       && Dot(rows[key].centroid, reference.value) == -1.0)
  }
}
