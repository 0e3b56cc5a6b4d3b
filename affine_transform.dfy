/**
 * engine/affine_transform.go: the AffineTransform object, whose methods
 * overwrite its six coefficients in place, and the package functions that
 * read one transform and write another.
 *
 * Every operation is tied to the value-level algebra of module AffineAlgebra.
 * Where an operation writes a coefficient before it has read all of its
 * inputs, the result when the output is also an input is stated as well:
 * those cases do not compute the product (or the inverse).
 */
module AffineTransforms {
  import opened Engine
  import opened AffineAlgebra

  // ---------------------------------------------------------------------
  // What the aliased writes compute
  // ---------------------------------------------------------------------

  /** Multiply(t1, t2) with the receiver being t1: b, d and ty read the new a, c, tx. */
  function MulIntoFirst(m: Affine, t2: Affine): Affine {
    var a := Dot(m.a, t2.a, m.b, t2.c);
    var c := Dot(m.c, t2.a, m.d, t2.c);
    var tx := Dot(m.tx, t2.a, m.ty, t2.c) + t2.tx;
    Affine(a, Dot(a, t2.b, m.b, t2.d), c, Dot(c, t2.b, m.d, t2.d), tx, Dot(tx, t2.b, m.ty, t2.d) + t2.ty)
  }

  /**
   * Multiply(t1, t2) with the receiver being t2, and PreMultiply(t) with t
   * being the receiver: c, d, tx and ty read the new a and b (and c, d).
   */
  function MulIntoSecond(t1: Affine, m: Affine): Affine {
    var a := Dot(t1.a, m.a, t1.b, m.c);
    var b := Dot(t1.a, m.b, t1.b, m.d);
    var c := Dot(t1.c, a, t1.d, m.c);
    var d := Dot(t1.c, b, t1.d, m.d);
    Affine(a, b, c, d, Dot(t1.tx, a, t1.ty, c) + m.tx, Dot(t1.tx, b, t1.ty, d) + m.ty)
  }

  /** Multiply(t, t) into t itself. */
  function MulIntoBoth(m: Affine): Affine {
    var a := Dot(m.a, m.a, m.b, m.c);
    var b := Dot(a, m.b, m.b, m.d);
    var c := Dot(m.c, a, m.d, m.c);
    var d := Dot(c, b, m.d, m.d);
    var tx := Dot(m.tx, a, m.ty, c) + m.tx;
    Affine(a, b, c, d, tx, Dot(tx, b, m.ty, d) + m.ty)
  }

  /** The aliased Multiply into its first operand is not the product. */
  lemma MulIntoFirstIsNotProduct()
    ensures MulIntoFirst(Identity, Affine(0.0, 1.0, 1.0, 0.0, 0.0, 0.0))
         != Mul(Identity, Affine(0.0, 1.0, 1.0, 0.0, 0.0, 0.0))
  {
  }

  /** The aliased Multiply into its second operand, and PreMultiply by itself, are not the product. */
  lemma MulIntoSecondIsNotProduct()
    ensures MulIntoSecond(Affine(0.0, 1.0, 1.0, 0.0, 0.0, 0.0), Affine(0.0, 1.0, 1.0, 0.0, 0.0, 0.0))
         != Mul(Affine(0.0, 1.0, 1.0, 0.0, 0.0, 0.0), Affine(0.0, 1.0, 1.0, 0.0, 0.0, 0.0))
  {
  }

  /** Squaring in place is not the square. */
  lemma MulIntoBothIsNotProduct()
    ensures MulIntoBoth(Affine(0.0, 1.0, 1.0, 0.0, 0.0, 0.0))
         != Mul(Affine(0.0, 1.0, 1.0, 0.0, 0.0, 0.0), Affine(0.0, 1.0, 1.0, 0.0, 0.0, 0.0))
  {
  }

  /**
   * AffineTransformInvertTo(t, t): d reads the new a, tx the new c and d,
   * ty the new b, tx and a; k is one over the original determinant.
   */
  function InvertedInPlace(m: Affine, k: real): Affine {
    var a := Times(k, m.d);
    var b := Times(-k, m.b);
    var c := Times(-k, m.c);
    var d := Times(k, a);
    var tx := Times(k, Cross(c, m.ty, d, m.tx));
    Affine(a, b, c, d, tx, Times(k, Cross(b, tx, a, m.ty)))
  }

  /** Inverting a uniform scaling by 2 into itself does not give its inverse, the scaling by 1/2. */
  lemma InvertedInPlaceIsNotInverse()
    ensures InvertedInPlace(Scaling(2.0, 2.0), 1.0 / Determinant(Scaling(2.0, 2.0))) != Inverse(Scaling(2.0, 2.0))
  {
    InverseOfUniformTwo();
    InvertedInPlaceOfUniformTwo();
  }

  lemma InvertedInPlaceOfUniformTwo()
    ensures InvertedInPlace(Scaling(2.0, 2.0), 0.25) == Scaling(0.5, 0.125)
  {
  }

  lemma InverseOfUniformTwo()
    ensures 1.0 / Determinant(Scaling(2.0, 2.0)) == 0.25
    ensures Inverse(Scaling(2.0, 2.0)) == Scaling(0.5, 0.5)
  {
    assert Determinant(Scaling(2.0, 2.0)) == 4.0;
  }

  // ---------------------------------------------------------------------
  // The object
  // ---------------------------------------------------------------------

  class AffineTransform {
    var a: real
    var b: real
    var c: real
    var d: real
    var tx: real
    var ty: real

    /** The six coefficients as a value. */
    function Value(): Affine
      reads this
    {
      Affine(a, b, c, d, tx, ty)
    }

    /** NewAffineTransform. */
    constructor ()
      ensures Value() == Identity
    {
      a, b, c, d, tx, ty := 1.0, 0.0, 0.0, 1.0, 0.0, 0.0;
    }

    /** AsTranslate: a new transform; the receiver is not used. */
    method AsTranslate(x: real, y: real) returns (t: AffineTransform)
      ensures fresh(t) && t.Value() == Translation(x, y)
    {
      t := new AffineTransform();
      t.SetToTranslate(x, y);
    }

    /** AsScale: a new transform; the receiver is not used. */
    method AsScale(sx: real, sy: real) returns (t: AffineTransform)
      ensures fresh(t) && t.Value() == Scaling(sx, sy)
    {
      t := new AffineTransform();
      t.SetToScale(sx, sy);
    }

    method ToIdentity()
      modifies this
      ensures Value() == Identity
    {
      a := 1.0;
      d := 1.0;
      b := 0.0;
      c := 0.0;
      tx := 0.0;
      ty := 0.0;
    }

    /** ApplyToVector(point, out): the linear part written into out's x and y. */
    function ApplyToVector(point: Vector3, out: Vector3): (r: Vector3)
      reads this
      ensures r == ApplyLinear(Value(), point).(z := out.z)
    {
      Set2Components(out, a * point.x + c * point.y, b * point.x + d * point.y)
    }

    /** ApplyTo(point, out): the full transform written into out's x and y. */
    function ApplyTo(point: Vector3, out: Vector3): (r: Vector3)
      reads this
      ensures r == Apply(Value(), point).(z := out.z)
    {
      Set2Components(out, a * point.x + c * point.y + tx, b * point.x + d * point.y + ty)
    }

    method Set(a: real, b: real, c: real, d: real, tx: real, ty: real)
      modifies this
      ensures Value() == Affine(a, b, c, d, tx, ty)
    {
      this.a := a;
      this.b := b;
      this.c := c;
      this.d := d;
      this.tx := tx;
      this.ty := ty;
    }

    /** SetWithAT: copy all six coefficients (a no-op when t is the receiver). */
    method SetWithAT(t: AffineTransform)
      modifies this
      ensures Value() == old(t.Value())
      ensures t != this ==> t.Value() == old(t.Value())
    {
      a := t.a;
      b := t.b;
      c := t.c;
      d := t.d;
      tx := t.tx;
      ty := t.ty;
    }

    /** Translate: concatenate a translation; the linear part is unchanged. */
    method Translate(x: real, y: real)
      modifies this
      ensures Value() == Translated(old(Value()), x, y)
    {
      tx := tx + ((a * x) + (c * y));
      ty := ty + ((b * x) + (d * y));
    }

    method SetToTranslate(x: real, y: real)
      modifies this
      ensures Value() == Translation(x, y)
    {
      Set(1.0, 0.0, 0.0, 1.0, x, y);
    }

    method SetToScale(sx: real, sy: real)
      modifies this
      ensures Value() == Scaling(sx, sy)
    {
      Set(sx, 0.0, 0.0, sy, 0.0, 0.0);
    }

    /** Scale: concatenate a scale; the translation is unchanged. */
    method Scale(sx: real, sy: real)
      modifies this
      ensures Value() == Scaled(old(Value()), sx, sy)
    {
      a := a * sx;
      b := b * sx;
      c := c * sy;
      d := d * sy;
    }

    /** SetToRotate(angle), given sin and cos of the angle. */
    method SetToRotate(sin: real, cos: real)
      modifies this
      ensures Value() == Rotation(sin, cos)
    {
      a := cos;
      b := -sin;
      c := sin;
      d := cos;
      tx := 0.0;
      ty := 0.0;
    }

    /** Rotate(angle), given sin and cos of the angle; reads buffered copies. */
    method Rotate(sin: real, cos: real)
      modifies this
      ensures Value() == Rotated(old(Value()), sin, cos)
    {
      var a0, b0, c0, d0 := a, b, c, d;
      a := a0 * cos + c0 * sin;
      b := b0 * cos + d0 * sin;
      c := c0 * cos - a0 * sin;
      d := d0 * cos - b0 * sin;
    }

    /** Skew(x, y), given tan(x) and tan(y). */
    method Skew(tanX: real, tanY: real)
      modifies this
      ensures Value() == Skewed(old(Value()), tanX, tanY)
    {
      c := c + tanY;
      b := b + tanX;
    }

    /**
     * PreMultiply(t): receiver := receiver . t. Only the receiver is
     * buffered, so t being the receiver itself does not give its square.
     */
    method PreMultiply(t: AffineTransform)
      modifies this
      ensures t != this ==> Value() == Mul(old(Value()), old(t.Value()))
      ensures t != this ==> t.Value() == old(t.Value())
      ensures t == this ==> Value() == MulIntoSecond(old(Value()), old(Value()))
    {
      var a0, b0, c0, d0, tx0, ty0 := a, b, c, d, tx, ty;
      a := Dot(a0, t.a, b0, t.c);
      b := Dot(a0, t.b, b0, t.d);
      c := Dot(c0, t.a, d0, t.c);
      d := Dot(c0, t.b, d0, t.d);
      tx := Dot(tx0, t.a, ty0, t.c) + t.tx;
      ty := Dot(tx0, t.b, ty0, t.d) + t.ty;
    }

    /**
     * Multiply(t1, t2): receiver := t1 . t2, written coefficient by
     * coefficient with no buffering; correct only when the receiver is
     * neither operand.
     */
    method Multiply(t1: AffineTransform, t2: AffineTransform)
      modifies this
      ensures this != t1 && this != t2 ==> Value() == Mul(old(t1.Value()), old(t2.Value()))
      ensures this == t1 && this != t2 ==> Value() == MulIntoFirst(old(Value()), old(t2.Value()))
      ensures this != t1 && this == t2 ==> Value() == MulIntoSecond(old(t1.Value()), old(Value()))
      ensures this == t1 && this == t2 ==> Value() == MulIntoBoth(old(Value()))
      ensures this != t1 ==> t1.Value() == old(t1.Value())
      ensures this != t2 ==> t2.Value() == old(t2.Value())
    {
      a := Dot(t1.a, t2.a, t1.b, t2.c);
      b := Dot(t1.a, t2.b, t1.b, t2.d);
      c := Dot(t1.c, t2.a, t1.d, t2.c);
      d := Dot(t1.c, t2.b, t1.d, t2.d);
      tx := Dot(t1.tx, t2.a, t1.ty, t2.c) + t2.tx;
      ty := Dot(t1.tx, t2.b, t1.ty, t2.d) + t2.ty;
    }

    /** Invert in place; the determinant must not be zero. */
    method Invert()
      requires Determinant(Value()) != 0.0
      modifies this
      ensures Value() == Inverse(old(Value()))
    {
      var k := 1.0 / Determinant(Value());
      var a0, b0, c0, d0, tx0, ty0 := a, b, c, d, tx, ty;
      a := Times(k, d0);
      b := Times(-k, b0);
      c := Times(-k, c0);
      d := Times(k, a0);
      tx := Times(k, Cross(c0, ty0, d0, tx0));
      ty := Times(k, Cross(b0, tx0, a0, ty0));
    }

    /** Transpose: swap b and c. */
    method Transpose()
      modifies this
      ensures Value() == Transposed(old(Value()))
    {
      var c0 := c;
      c := b;
      b := c0;
    }
  }

  // ---------------------------------------------------------------------
  // Package functions
  // ---------------------------------------------------------------------

  /** CompApplyAffineTransform: a new point (x', y', 0). */
  function CompApplyAffineTransform(x: real, y: real, t: AffineTransform): (r: Vector3)
    reads t
    ensures r == Apply(t.Value(), Vector3(x, y, 0.0))
  {
    With2Components((t.a * x) + (t.c * y) + t.tx, (t.b * x) + (t.d * y) + t.ty)
  }

  /** PointApplyAffineTransform: as CompApplyAffineTransform on the point's x and y. */
  function PointApplyAffineTransform(point: Vector3, t: AffineTransform): (r: Vector3)
    reads t
    ensures r == Apply(t.Value(), point).(z := 0.0)
  {
    CompApplyAffineTransform(point.x, point.y, t)
  }

  /** CompApplyAffineTransformTo: written into out's x and y. */
  function CompApplyAffineTransformTo(x: real, y: real, out: Vector3, t: AffineTransform): (r: Vector3)
    reads t
    ensures r == Apply(t.Value(), Vector3(x, y, out.z))
  {
    Set2Components(out, (t.a * x) + (t.c * y) + t.tx, (t.b * x) + (t.d * y) + t.ty)
  }

  /** AffineTransformTranslate: out := t with a translation concatenated (alias safe). */
  method AffineTransformTranslate(t: AffineTransform, out: AffineTransform, x: real, y: real)
    modifies out
    ensures out.Value() == Translated(old(t.Value()), x, y)
    ensures out != t ==> t.Value() == old(t.Value())
  {
    out.Set(t.a, t.b, t.c, t.d, t.tx + t.a * x + t.c * y, t.ty + t.b * x + t.d * y);
  }

  /** AffineTransformScale: out := t with a scale concatenated (alias safe). */
  method AffineTransformScale(t: AffineTransform, out: AffineTransform, sx: real, sy: real)
    modifies out
    ensures out.Value() == Scaled(old(t.Value()), sx, sy)
    ensures out != t ==> t.Value() == old(t.Value())
  {
    out.Set(t.a * sx, t.b * sx, t.c * sy, t.d * sy, t.tx, t.ty);
  }

  /** AffineTransformRotate, given sin and cos of the angle (alias safe). */
  method AffineTransformRotate(t: AffineTransform, out: AffineTransform, sin: real, cos: real)
    modifies out
    ensures out.Value() == Rotated(old(t.Value()), sin, cos)
    ensures out != t ==> t.Value() == old(t.Value())
  {
    out.Set(t.a * cos + t.c * sin, t.b * cos + t.d * sin,
            t.c * cos - t.a * sin, t.d * cos - t.b * sin, t.tx, t.ty);
  }

  /** AffineTransformMultiply: out := t1 . t2; all six are computed before out is written. */
  method AffineTransformMultiply(t1: AffineTransform, t2: AffineTransform, out: AffineTransform)
    modifies out
    ensures out.Value() == Mul(old(t1.Value()), old(t2.Value()))
  {
    out.Set(t1.a * t2.a + t1.b * t2.c, t1.a * t2.b + t1.b * t2.d,
            t1.c * t2.a + t1.d * t2.c, t1.c * t2.b + t1.d * t2.d,
            t1.tx * t2.a + t1.ty * t2.c + t2.tx, t1.tx * t2.b + t1.ty * t2.d + t2.ty);
  }

  /** AffineTransformMultiplyTo: tB := tA . tB, buffered, so tA may be tB. */
  method AffineTransformMultiplyTo(tA: AffineTransform, tB: AffineTransform)
    modifies tB
    ensures tB.Value() == Mul(old(tA.Value()), old(tB.Value()))
    ensures tA != tB ==> tA.Value() == old(tA.Value())
  {
    var a := Dot(tA.a, tB.a, tA.b, tB.c);
    var b := Dot(tA.a, tB.b, tA.b, tB.d);
    var c := Dot(tA.c, tB.a, tA.d, tB.c);
    var d := Dot(tA.c, tB.b, tA.d, tB.d);
    var tx := Dot(tA.tx, tB.a, tA.ty, tB.c) + tB.tx;
    var ty := Dot(tA.tx, tB.b, tA.ty, tB.d) + tB.ty;
    tB.a := a;
    tB.b := b;
    tB.c := c;
    tB.d := d;
    tB.tx := tx;
    tB.ty := ty;
  }

  /** AffineTransformMultiplyFrom: tA := tA . tB, buffered, so tB may be tA. */
  method AffineTransformMultiplyFrom(tA: AffineTransform, tB: AffineTransform)
    modifies tA
    ensures tA.Value() == Mul(old(tA.Value()), old(tB.Value()))
    ensures tA != tB ==> tB.Value() == old(tB.Value())
  {
    var a := Dot(tA.a, tB.a, tA.b, tB.c);
    var b := Dot(tA.a, tB.b, tA.b, tB.d);
    var c := Dot(tA.c, tB.a, tA.d, tB.c);
    var d := Dot(tA.c, tB.b, tA.d, tB.d);
    var tx := Dot(tA.tx, tB.a, tA.ty, tB.c) + tB.tx;
    var ty := Dot(tA.tx, tB.b, tA.ty, tB.d) + tB.ty;
    tA.a := a;
    tA.b := b;
    tA.c := c;
    tA.d := d;
    tA.tx := tx;
    tA.ty := ty;
  }

  /** AffineTransformEqualToTransform: exact equality of all six coefficients. */
  function AffineTransformEqualToTransform(t1: AffineTransform, t2: AffineTransform): (r: bool)
    reads t1, t2
    ensures r <==> t1.Value() == t2.Value()
  {
    t1.a == t2.a && t1.b == t2.b && t1.c == t2.c && t1.d == t2.d && t1.tx == t2.tx && t1.ty == t2.ty
  }

  /** AffineTransformInvert: out := inverse of t; computed before out is written. */
  method AffineTransformInvert(t: AffineTransform, out: AffineTransform)
    requires Determinant(t.Value()) != 0.0
    modifies out
    ensures out.Value() == Inverse(old(t.Value()))
  {
    var k := 1.0 / Determinant(t.Value());
    out.Set(Times(k, t.d), Times(-k, t.b), Times(-k, t.c), Times(k, t.a),
            Times(k, Cross(t.c, t.ty, t.d, t.tx)), Times(k, Cross(t.b, t.tx, t.a, t.ty)));
  }

  /**
   * AffineTransformInvertTo: writes `to` coefficient by coefficient, reading
   * t as it goes, so that inverting t into itself is not the inverse.
   */
  method AffineTransformInvertTo(t: AffineTransform, to: AffineTransform)
    requires Determinant(t.Value()) != 0.0
    modifies to
    ensures to != t ==> to.Value() == Inverse(old(t.Value()))
    ensures to != t ==> t.Value() == old(t.Value())
    ensures to == t ==> to.Value() == InvertedInPlace(old(t.Value()), 1.0 / Determinant(old(t.Value())))
  {
    var k := 1.0 / Determinant(t.Value());
    to.a := Times(k, t.d);
    to.b := Times(-k, t.b);
    to.c := Times(-k, t.c);
    to.d := Times(k, t.a);
    to.tx := Times(k, Cross(t.c, t.ty, t.d, t.tx));
    to.ty := Times(k, Cross(t.b, t.tx, t.a, t.ty));
  }
}
