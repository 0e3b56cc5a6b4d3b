/**
 * The value-level algebra behind engine/affine_transform.go: a 2x3 matrix
 *
 *     | a  c  tx |
 *     | b  d  ty |
 *
 * with implicit bottom row [0 0 1], applied to a point as
 * (a*x + c*y + tx, b*x + d*y + ty). Coefficients are reals; float64 rounding
 * is not modelled, so every identity below is exact.
 */
module AffineAlgebra {
  import opened Engine

  datatype Affine = Affine(a: real, b: real, c: real, d: real, tx: real, ty: real)

  /** ToIdentity / NewAffineTransform. */
  const Identity := Affine(1.0, 0.0, 0.0, 1.0, 0.0, 0.0)

  /**
   * The sum of two products, the shape of every coefficient the transform
   * operations compute (p*x + q*y).
   */
  function Dot(p: real, x: real, q: real, y: real): real {
    p * x + q * y
  }

  /** ApplyTo with the output written over the input point. */
  function Apply(m: Affine, p: Vector3): Vector3 {
    Set2Components(p, Dot(m.a, p.x, m.c, p.y) + m.tx, Dot(m.b, p.x, m.d, p.y) + m.ty)
  }

  /** ApplyToVector with the output written over the input: the linear part only. */
  function ApplyLinear(m: Affine, p: Vector3): Vector3 {
    Set2Components(p, Dot(m.a, p.x, m.c, p.y), Dot(m.b, p.x, m.d, p.y))
  }

  /**
   * The product t1 . t2 that Multiply, PreMultiply, AffineTransformMultiply,
   * AffineTransformMultiplyTo and AffineTransformMultiplyFrom compute:
   * "apply t1 first, then t2" (lemma ApplyMul).
   */
  function Mul(t1: Affine, t2: Affine): Affine {
    Affine(Dot(t1.a, t2.a, t1.b, t2.c),
           Dot(t1.a, t2.b, t1.b, t2.d),
           Dot(t1.c, t2.a, t1.d, t2.c),
           Dot(t1.c, t2.b, t1.d, t2.d),
           Dot(t1.tx, t2.a, t1.ty, t2.c) + t2.tx,
           Dot(t1.tx, t2.b, t1.ty, t2.d) + t2.ty)
  }

  /** SetToTranslate. */
  function Translation(x: real, y: real): Affine {
    Affine(1.0, 0.0, 0.0, 1.0, x, y)
  }

  /** SetToScale. */
  function Scaling(sx: real, sy: real): Affine {
    Affine(sx, 0.0, 0.0, sy, 0.0, 0.0)
  }

  /** SetToRotate, given s = sin(angle) and c = cos(angle). */
  function Rotation(s: real, c: real): Affine {
    Affine(c, -s, s, c, 0.0, 0.0)
  }

  /** Translate / AffineTransformTranslate: concatenate a translation. */
  function Translated(m: Affine, x: real, y: real): Affine {
    m.(tx := m.tx + Dot(m.a, x, m.c, y), ty := m.ty + Dot(m.b, x, m.d, y))
  }

  /** Scale / AffineTransformScale: concatenate a scale. */
  function Scaled(m: Affine, sx: real, sy: real): Affine {
    m.(a := Times(m.a, sx), b := Times(m.b, sx), c := Times(m.c, sy), d := Times(m.d, sy))
  }

  /** Rotate / AffineTransformRotate, given s = sin(angle) and c = cos(angle). */
  function Rotated(m: Affine, s: real, c: real): Affine {
    m.(a := Dot(m.a, c, m.c, s), b := Dot(m.b, c, m.d, s),
       c := Dot(m.c, c, -m.a, s), d := Dot(m.d, c, -m.b, s))
  }

  /** Skew, given the tangents of the two skew angles. */
  function Skewed(m: Affine, tanX: real, tanY: real): Affine {
    m.(c := m.c + tanY, b := m.b + tanX)
  }

  /** The difference of two products (p*x - q*y), as the inversion computes it. */
  function Cross(p: real, x: real, q: real, y: real): real {
    p * x - q * y
  }

  function Determinant(m: Affine): real {
    Cross(m.a, m.d, m.b, m.c)
  }

  /** The scalar product k * x, the shape of every coefficient of the inverse. */
  function Times(k: real, x: real): real {
    k * x
  }

  /** Invert / AffineTransformInvert / AffineTransformInvertTo (distinct output). */
  function Inverse(m: Affine): Affine
    requires Determinant(m) != 0.0
  {
    InverseBy(m, 1.0 / Determinant(m))
  }

  /** The inverse's coefficients, given k = 1 / determinant as the code computes it. */
  function InverseBy(m: Affine, k: real): Affine {
    Affine(Times(k, m.d), Times(-k, m.b), Times(-k, m.c), Times(k, m.a),
           Times(k, Cross(m.c, m.ty, m.d, m.tx)), Times(k, Cross(m.b, m.tx, m.a, m.ty)))
  }

  /** Transpose: swap b and c; the translation is left alone. */
  function Transposed(m: Affine): Affine {
    m.(b := m.c, c := m.b)
  }

  // ---------------------------------------------------------------------
  // Composition
  // ---------------------------------------------------------------------

  /** Multiply(t1, t2) means "apply t1, then t2". */
  lemma ApplyMul(t1: Affine, t2: Affine, p: Vector3)
    ensures Apply(Mul(t1, t2), p) == Apply(t2, Apply(t1, p))
  {
    ComposeCoordinate(t1, t2.a, t2.c, t2.tx, p.x, p.y);
    ComposeCoordinate(t1, t2.b, t2.d, t2.ty, p.x, p.y);
  }

  /**
   * One output coordinate of ApplyMul: the row (u, v, w) of t2 applied after
   * t1 equals the row t1 . (u, v, w) applied directly.
   */
  lemma ComposeCoordinate(t1: Affine, u: real, v: real, w: real, x: real, y: real)
    ensures Dot(Dot(t1.a, u, t1.b, v), x, Dot(t1.c, u, t1.d, v), y) + (Dot(t1.tx, u, t1.ty, v) + w)
         == Dot(u, Dot(t1.a, x, t1.c, y) + t1.tx, v, Dot(t1.b, x, t1.d, y) + t1.ty) + w
  {
  }

  /** The linear part composes the same way and ignores both translations. */
  lemma ApplyLinearMul(t1: Affine, t2: Affine, p: Vector3)
    ensures ApplyLinear(Mul(t1, t2), p) == ApplyLinear(t2, ApplyLinear(t1, p))
  {
  }

  lemma IdentityIsUnit(m: Affine)
    ensures Mul(Identity, m) == m && Mul(m, Identity) == m
  {
  }

  lemma ApplyIdentity(p: Vector3)
    ensures Apply(Identity, p) == p && ApplyLinear(Identity, p) == p
  {
  }

  lemma MulAssociative(t1: Affine, t2: Affine, t3: Affine)
    ensures Mul(Mul(t1, t2), t3) == Mul(t1, Mul(t2, t3))
  {
    DotAssociative(t1.a, t2.a, t1.b, t2.c, t2.b, t2.d, t3.a, t3.c);
    DotAssociative(t1.a, t2.a, t1.b, t2.c, t2.b, t2.d, t3.b, t3.d);
    DotAssociative(t1.c, t2.a, t1.d, t2.c, t2.b, t2.d, t3.a, t3.c);
    DotAssociative(t1.c, t2.a, t1.d, t2.c, t2.b, t2.d, t3.b, t3.d);
    TranslationAssociative(t1.tx, t2.a, t1.ty, t2.c, t2.b, t2.d, t3.a, t3.c, t2.tx, t2.ty);
    TranslationAssociative(t1.tx, t2.a, t1.ty, t2.c, t2.b, t2.d, t3.b, t3.d, t2.tx, t2.ty);
  }

  /**
   * The ring identity behind associativity, one linear coefficient at a time:
   * (p*q + r*s)*t + (p*u + r*v)*w == p*(q*t + u*w) + r*(s*t + v*w).
   */
  lemma DotAssociative(p: real, q: real, r: real, s: real, u: real, v: real, t: real, w: real)
    ensures Dot(Dot(p, q, r, s), t, Dot(p, u, r, v), w) == Dot(p, Dot(q, t, u, w), r, Dot(s, t, v, w))
  {
    assert Dot(p, q, r, s) * t == p * (q * t) + r * (s * t);
    assert Dot(p, u, r, v) * w == p * (u * w) + r * (v * w);
  }

  /** The same identity for a translation coefficient, which carries t2's offset (e, f) along. */
  lemma TranslationAssociative(p: real, q: real, r: real, s: real, u: real, v: real, t: real, w: real,
                               e: real, f: real)
    ensures Dot(Dot(p, q, r, s) + e, t, Dot(p, u, r, v) + f, w)
         == Dot(p, Dot(q, t, u, w), r, Dot(s, t, v, w)) + Dot(e, t, f, w)
  {
    DotAssociative(p, q, r, s, u, v, t, w);
    assert (Dot(p, q, r, s) + e) * t == Dot(p, q, r, s) * t + e * t;
    assert (Dot(p, u, r, v) + f) * w == Dot(p, u, r, v) * w + f * w;
  }

  /** ApplyTo adds the translation that ApplyToVector leaves out. */
  lemma ApplyIsLinearPlusTranslation(m: Affine, p: Vector3)
    ensures Apply(m, p) == Set2Components(p, ApplyLinear(m, p).x + m.tx, ApplyLinear(m, p).y + m.ty)
    ensures ApplyLinear(m, p) == Apply(m.(tx := 0.0, ty := 0.0), p)
  {
  }

  // ---------------------------------------------------------------------
  // Concatenation is pre-multiplication by the elementary matrix
  // ---------------------------------------------------------------------

  lemma TranslatedIsMul(m: Affine, x: real, y: real)
    ensures Translated(m, x, y) == Mul(Translation(x, y), m)
    ensures Translated(m, x, y).(tx := m.tx, ty := m.ty) == m
  {
    assert x * m.a + y * m.c == m.a * x + m.c * y;
    assert x * m.b + y * m.d == m.b * x + m.d * y;
  }

  lemma ScaledIsMul(m: Affine, sx: real, sy: real)
    ensures Scaled(m, sx, sy) == Mul(Scaling(sx, sy), m)
    ensures Scaled(m, sx, sy).tx == m.tx && Scaled(m, sx, sy).ty == m.ty
  {
  }

  /**
   * Rotate concatenates the matrix (c, s, -s, c), which is what Rotate gives
   * on the identity. SetToRotate builds its transpose (c, -s, s, c): the two
   * operations use opposite sign conventions.
   */
  lemma RotatedIsMul(m: Affine, s: real, c: real)
    ensures Rotated(m, s, c) == Mul(Rotated(Identity, s, c), m)
    ensures Rotated(Identity, s, c) == Affine(c, s, -s, c, 0.0, 0.0)
    ensures Rotated(Identity, s, c) == Transposed(Rotation(s, c))
    ensures Rotated(m, s, c).tx == m.tx && Rotated(m, s, c).ty == m.ty
  {
  }

  /** With sin odd and cos even, SetToRotate(angle) is Rotate(-angle) on the identity. */
  lemma RotationIsRotatedByNegatedAngle(s: real, c: real)
    ensures Rotation(s, c) == Rotated(Identity, -s, c)
  {
  }

  lemma TransposeInvolution(m: Affine)
    ensures Transposed(Transposed(m)) == m
    ensures Transposed(m).tx == m.tx && Transposed(m).ty == m.ty
  {
  }

  // ---------------------------------------------------------------------
  // Inversion
  // ---------------------------------------------------------------------

  /** For a non-singular matrix, t . inv(t) = inv(t) . t = identity. */
  lemma InverseRoundTrip(m: Affine)
    requires Determinant(m) != 0.0
    ensures Mul(m, Inverse(m)) == Identity
    ensures Mul(Inverse(m), m) == Identity
  {
    var k := 1.0 / Determinant(m);
    assert k * Determinant(m) == 1.0;
    InverseByRoundTrip(m, k);
  }

  lemma InverseByRoundTrip(m: Affine, k: real)
    requires k * Determinant(m) == 1.0
    ensures Mul(m, InverseBy(m, k)) == Identity
    ensures Mul(InverseBy(m, k), m) == Identity
  {
    RightInverseBy(m, k);
    LeftInverseBy(m, k);
    UnitScale(Mul(m, InverseBy(m, k)), k * Determinant(m), 0.0, 0.0);
    UnitScale(Mul(InverseBy(m, k), m), k * Determinant(m), m.tx, m.ty);
  }

  /** The scaling by e that moves (e - 1) * (tx, ty) back is the identity when e is 1. */
  lemma UnitScale(r: Affine, e: real, tx: real, ty: real)
    requires e == 1.0
    requires r == Affine(e, 0.0, 0.0, e, tx - e * tx, ty - e * ty)
    ensures r == Identity
  {
  }

  /** m . InverseBy(m, k) is the scaling by k * det(m), for every k. */
  lemma RightInverseBy(m: Affine, k: real)
    ensures Mul(m, InverseBy(m, k)) == Affine(k * Determinant(m), 0.0, 0.0, k * Determinant(m), 0.0, 0.0)
  {
    RightA(m, k); RightB(m, k); RightC(m, k); RightD(m, k); RightTx(m, k); RightTy(m, k);
    RightCoefficients(Mul(m, InverseBy(m, k)), m, k);
  }

  /**
   * InverseBy(m, k) . m is the scaling by e = k * det(m) followed by the
   * translation that moves (e - 1) * (tx, ty) back, for every k.
   */
  lemma LeftInverseBy(m: Affine, k: real)
    ensures Mul(InverseBy(m, k), m) == Affine(k * Determinant(m), 0.0, 0.0, k * Determinant(m),
                                             m.tx - k * Determinant(m) * m.tx,
                                             m.ty - k * Determinant(m) * m.ty)
  {
    LeftA(m, k); LeftB(m, k); LeftC(m, k); LeftD(m, k); LeftTx(m, k); LeftTy(m, k);
    LeftCoefficients(Mul(InverseBy(m, k), m), m, k);
  }

  // Each coefficient of m . InverseBy(m, k) and of InverseBy(m, k) . m, in
  // its own lemma; the arithmetic on them is done apart, on r, below.

  lemma RightA(m: Affine, k: real)
    ensures Mul(m, InverseBy(m, k)).a == Dot(m.a, k * m.d, m.b, -k * m.c)
  {
  }

  lemma RightB(m: Affine, k: real)
    ensures Mul(m, InverseBy(m, k)).b == Dot(m.a, -k * m.b, m.b, k * m.a)
  {
  }

  lemma RightC(m: Affine, k: real)
    ensures Mul(m, InverseBy(m, k)).c == Dot(m.c, k * m.d, m.d, -k * m.c)
  {
  }

  lemma RightD(m: Affine, k: real)
    ensures Mul(m, InverseBy(m, k)).d == Dot(m.c, -k * m.b, m.d, k * m.a)
  {
  }

  lemma RightTx(m: Affine, k: real)
    ensures Mul(m, InverseBy(m, k)).tx == Dot(m.tx, k * m.d, m.ty, -k * m.c) + k * Cross(m.c, m.ty, m.d, m.tx)
  {
  }

  lemma RightTy(m: Affine, k: real)
    ensures Mul(m, InverseBy(m, k)).ty == Dot(m.tx, -k * m.b, m.ty, k * m.a) + k * Cross(m.b, m.tx, m.a, m.ty)
  {
  }

  lemma LeftA(m: Affine, k: real)
    ensures Mul(InverseBy(m, k), m).a == Dot(k * m.d, m.a, -k * m.b, m.c)
  {
  }

  lemma LeftB(m: Affine, k: real)
    ensures Mul(InverseBy(m, k), m).b == Dot(k * m.d, m.b, -k * m.b, m.d)
  {
  }

  lemma LeftC(m: Affine, k: real)
    ensures Mul(InverseBy(m, k), m).c == Dot(-k * m.c, m.a, k * m.a, m.c)
  {
  }

  lemma LeftD(m: Affine, k: real)
    ensures Mul(InverseBy(m, k), m).d == Dot(-k * m.c, m.b, k * m.a, m.d)
  {
  }

  lemma LeftTx(m: Affine, k: real)
    ensures Mul(InverseBy(m, k), m).tx == Dot(k * Cross(m.c, m.ty, m.d, m.tx), m.a, k * Cross(m.b, m.tx, m.a, m.ty), m.c) + m.tx
  {
  }

  lemma LeftTy(m: Affine, k: real)
    ensures Mul(InverseBy(m, k), m).ty == Dot(k * Cross(m.c, m.ty, m.d, m.tx), m.b, k * Cross(m.b, m.tx, m.a, m.ty), m.d) + m.ty
  {
  }

  /** A matrix whose coefficients are those of m . InverseBy(m, k) is the scaling by k * det(m). */
  lemma RightCoefficients(r: Affine, m: Affine, k: real)
    requires r.a == Dot(m.a, k * m.d, m.b, -k * m.c)
    requires r.b == Dot(m.a, -k * m.b, m.b, k * m.a)
    requires r.c == Dot(m.c, k * m.d, m.d, -k * m.c)
    requires r.d == Dot(m.c, -k * m.b, m.d, k * m.a)
    requires r.tx == Dot(m.tx, k * m.d, m.ty, -k * m.c) + k * Cross(m.c, m.ty, m.d, m.tx)
    requires r.ty == Dot(m.tx, -k * m.b, m.ty, k * m.a) + k * Cross(m.b, m.tx, m.a, m.ty)
    ensures r == Affine(k * Determinant(m), 0.0, 0.0, k * Determinant(m), 0.0, 0.0)
  {
    InverseCoefficients(m.a, m.b, m.c, m.d, m.tx, m.ty, k);
  }

  /** A matrix whose coefficients are those of InverseBy(m, k) . m, in closed form. */
  lemma LeftCoefficients(r: Affine, m: Affine, k: real)
    requires r.a == Dot(k * m.d, m.a, -k * m.b, m.c)
    requires r.b == Dot(k * m.d, m.b, -k * m.b, m.d)
    requires r.c == Dot(-k * m.c, m.a, k * m.a, m.c)
    requires r.d == Dot(-k * m.c, m.b, k * m.a, m.d)
    requires r.tx == Dot(k * Cross(m.c, m.ty, m.d, m.tx), m.a, k * Cross(m.b, m.tx, m.a, m.ty), m.c) + m.tx
    requires r.ty == Dot(k * Cross(m.c, m.ty, m.d, m.tx), m.b, k * Cross(m.b, m.tx, m.a, m.ty), m.d) + m.ty
    ensures r == Affine(k * Determinant(m), 0.0, 0.0, k * Determinant(m),
                        m.tx - k * Determinant(m) * m.tx, m.ty - k * Determinant(m) * m.ty)
  {
    InverseCoefficients(m.a, m.b, m.c, m.d, m.tx, m.ty, k);
  }

  /**
   * The ring identities behind the inverse, on plain reals: every
   * coefficient of the two products is k * (a*d - b*c) on the diagonal and
   * zero or a multiple of it elsewhere.
   */
  lemma InverseCoefficients(a: real, b: real, c: real, d: real, tx: real, ty: real, k: real)
    ensures Dot(a, k * d, b, -k * c) == k * Cross(a, d, b, c)
    ensures Dot(a, -k * b, b, k * a) == 0.0
    ensures Dot(c, k * d, d, -k * c) == 0.0
    ensures Dot(c, -k * b, d, k * a) == k * Cross(a, d, b, c)
    ensures Dot(tx, k * d, ty, -k * c) + k * Cross(c, ty, d, tx) == 0.0
    ensures Dot(tx, -k * b, ty, k * a) + k * Cross(b, tx, a, ty) == 0.0
    ensures Dot(k * d, a, -k * b, c) == k * Cross(a, d, b, c)
    ensures Dot(k * d, b, -k * b, d) == 0.0
    ensures Dot(-k * c, a, k * a, c) == 0.0
    ensures Dot(-k * c, b, k * a, d) == k * Cross(a, d, b, c)
    ensures Dot(k * Cross(c, ty, d, tx), a, k * Cross(b, tx, a, ty), c) == -((k * Cross(a, d, b, c)) * tx)
    ensures Dot(k * Cross(c, ty, d, tx), b, k * Cross(b, tx, a, ty), d) == -((k * Cross(a, d, b, c)) * ty)
  {
  }

  /** Applying the inverse undoes the transform on every point. */
  lemma InverseUndoesApply(m: Affine, p: Vector3)
    requires Determinant(m) != 0.0
    ensures Apply(Inverse(m), Apply(m, p)) == p
    ensures Apply(m, Apply(Inverse(m), p)) == p
  {
    InverseRoundTrip(m);
    ApplyMul(m, Inverse(m), p);
    ApplyMul(Inverse(m), m, p);
    ApplyIdentity(p);
  }

  // ---------------------------------------------------------------------
  // The two unit tests of engine/tests/affine_test.go
  // ---------------------------------------------------------------------

  /** SetToTranslate(2, 0) applied with ApplyTo to the origin gives (2, 0). */
  lemma TranslateTest()
    ensures Apply(Translation(2.0, 0.0), Zero) == Vector3(2.0, 0.0, 0.0)
  {
  }

  /**
   * Test_Translate calls ApplyToVector with the one point v, while the method
   * takes a point and an out vector, so the test does not compile as written.
   * Read as the in-place call ApplyToVector(v, v), it applies the linear part
   * only, which drops the translation: the point stays at the origin and the
   * test's x == 2 fails.
   */
  lemma TranslateTestAsWritten()
    ensures ApplyLinear(Translation(2.0, 0.0), Zero) == Zero
    ensures ApplyLinear(Translation(2.0, 0.0), Zero).x != 2.0
  {
  }

  /**
   * SetToRotate(angle) applied linearly to (1, 0) gives (cos, -sin): what
   * Test_Rotate expects of its one-argument ApplyToVector(v), read as the
   * in-place call ApplyToVector(v, v).
   */
  lemma RotateTest(s: real, c: real)
    ensures ApplyLinear(Rotation(s, c), Vector3(1.0, 0.0, 0.0)) == Vector3(c, -s, 0.0)
  {
  }
}
