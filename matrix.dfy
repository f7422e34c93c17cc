/** The engine's 2x3 affine matrix (`me.Matrix2d`, src/math/shape.js).

    Six numbers `a..f` stand for the map `(x, y) -> (a*x + c*y + e, b*x + d*y + f)`.
    `Mat` is the value of a matrix; each mutator of the class `Matrix2d` is
    specified by a function from the old value to the new one.

    The source relies on JavaScript's `||` for defaults, in which `0` is falsy:
    `set` keeps the current `e`/`f` when handed `0` (so `identity()` keeps a
    non-zero translation), and `init` turns an `a` or `d` of `0` into `1`. */
module Affine {
  import opened Numeric
  import opened Vector

  datatype Mat = Mat(a: real, b: real, c: real, d: real, e: real, f: real)

  const IDENTITY := Mat(1.0, 0.0, 0.0, 1.0, 0.0, 0.0)

  /** A point of the plane, as a value. */
  datatype Point = Point(x: real, y: real)

  /** Where the matrix sends the point `(x, y)`. */
  function Apply(m: Mat, x: real, y: real): Point {
    Point(m.a * x + m.c * y + m.e, m.b * x + m.d * y + m.f)
  }

  /** Determinant of the linear part. */
  function Det(m: Mat): real {
    m.a * m.d - m.b * m.c
  }

  /** `set(a, b, c, d, e, f)`: `e || this.e`, `f || this.f`; an omitted `e`/`f`
      is passed as `0`, which JavaScript treats alike. */
  function SetMat(m: Mat, a: real, b: real, c: real, d: real, e: real, f: real): Mat {
    Mat(a, b, c, d, Or(e, m.e), Or(f, m.f))
  }

  /** `init(a, b, c, d, e, f)` on a new matrix, whose fields start at the
      identity: `set(a || 1, b || 0, c || 0, d || 1, e || 0, f || 0)`. An omitted
      argument is passed as `0`. */
  function InitMat(a: real, b: real, c: real, d: real, e: real, f: real): Mat {
    SetMat(IDENTITY, Or(a, 1.0), Or(b, 0.0), Or(c, 0.0), Or(d, 1.0), Or(e, 0.0), Or(f, 0.0))
  }

  /** `identity()`: `set(1, 0, 0, 1, 0, 0)`. */
  function IdentityOf(m: Mat): Mat {
    SetMat(m, 1.0, 0.0, 0.0, 1.0, 0.0, 0.0)
  }

  /** `multiply(a, b, c, d, e, f)`; `a1..d1` are the matrix's own old values. */
  function MultiplyMat(m: Mat, a: real, b: real, c: real, d: real, e: real, f: real): Mat {
    Mat(a * m.a + b * m.c,
        a * m.b + b * m.d,
        c * m.a + d * m.c,
        c * m.b + d * m.d,
        e * m.a + f * m.c + m.e,
        e * m.b + f * m.d + m.f)
  }

  /** `scale(sx, sy)`: scales `a`, `d`, `e`, `f` only. */
  function ScaleMat(m: Mat, sx: real, sy: real): Mat {
    m.(a := m.a * sx, d := m.d * sy, e := m.e * sx, f := m.f * sy)
  }

  /** `rotate(angle)`, given `cos` and `sin` of the angle: nothing when the angle
      is 0, otherwise all six fields from their values before the rotation. */
  function RotateMat(m: Mat, angle: real, cos: real, sin: real): Mat {
    if angle != 0.0 then
      Mat(m.a * cos - m.b * sin,
          m.a * sin + m.b * cos,
          m.c * cos - m.d * sin,
          m.c * sin + m.d * cos,
          m.e * cos - m.f * sin,
          m.e * sin + m.f * cos)
    else m
  }

  /** `translate(x, y)`: adds to `e` and `f` directly. */
  function TranslateMat(m: Mat, x: real, y: real): Mat {
    m.(e := m.e + x, f := m.f + y)
  }

  /** `clone()`: `new me.Matrix2d(a, b, c, d, e, f)`, which runs `init`. */
  function CloneMat(m: Mat): Mat {
    InitMat(m.a, m.b, m.c, m.d, m.e, m.f)
  }

  class Matrix2d {
    var a: real
    var b: real
    var c: real
    var d: real
    var e: real
    var f: real

    function Value(): Mat
      reads this
    {
      Mat(a, b, c, d, e, f)
    }

    /** `new me.Matrix2d(a, b, c, d, e, f)`; `new me.Matrix2d()` is this with
        every argument 0, which gives the identity. */
    constructor (a: real, b: real, c: real, d: real, e: real, f: real)
      ensures Value() == InitMat(a, b, c, d, e, f)
    {
      this.a, this.b, this.c, this.d, this.e, this.f := 1.0, 0.0, 0.0, 1.0, 0.0, 0.0;
      new;
      Set(Or(a, 1.0), Or(b, 0.0), Or(c, 0.0), Or(d, 1.0), Or(e, 0.0), Or(f, 0.0));
    }

    /** `identity()` */
    method Identity()
      modifies this
      ensures Value() == IdentityOf(old(Value()))
    {
      Set(1.0, 0.0, 0.0, 1.0, 0.0, 0.0);
    }

    /** `set(a, b, c, d, e, f)` */
    method Set(a: real, b: real, c: real, d: real, e: real, f: real)
      modifies this
      ensures Value() == SetMat(old(Value()), a, b, c, d, e, f)
    {
      this.a := a;
      this.b := b;
      this.c := c;
      this.d := d;
      this.e := Or(e, this.e);
      this.f := Or(f, this.f);
    }

    /** `multiply(a, b, c, d, e, f)` */
    method Multiply(a: real, b: real, c: real, d: real, e: real, f: real)
      modifies this
      ensures Value() == MultiplyMat(old(Value()), a, b, c, d, e, f)
    {
      var a1, b1, c1, d1 := this.a, this.b, this.c, this.d;
      var a2, b2 := a * a1 + b * c1, a * b1 + b * d1;
      var c2, d2 := c * a1 + d * c1, c * b1 + d * d1;
      var e2, f2 := e * a1 + f * c1 + this.e, e * b1 + f * d1 + this.f;
      assert Mat(a2, b2, c2, d2, e2, f2) == MultiplyMat(Value(), a, b, c, d, e, f);
      this.a, this.b, this.c, this.d, this.e, this.f := a2, b2, c2, d2, e2, f2;
    }

    /** `scale(sx, sy)` */
    method Scale(sx: real, sy: real)
      modifies this
      ensures Value() == ScaleMat(old(Value()), sx, sy)
    {
      a := a * sx;
      d := d * sy;
      e := e * sx;
      f := f * sy;
    }

    /** `rotate(angle)`; `Math.cos` and `Math.sin` are passed in. */
    method Rotate(angle: real, cos: real -> real, sin: real -> real)
      modifies this
      ensures Value() == RotateMat(old(Value()), angle, cos(angle), sin(angle))
    {
      if angle != 0.0 {
        // every field is computed from the values before the rotation
        var r := RotateMat(Value(), angle, cos(angle), sin(angle));
        a, b, c, d, e, f := r.a, r.b, r.c, r.d, r.e, r.f;
      }
    }

    /** `translate(x, y)` */
    method Translate(x: real, y: real)
      modifies this
      ensures Value() == TranslateMat(old(Value()), x, y)
    {
      e := e + x;
      f := f + y;
    }

    /** `translateV(v)`: `translate(v.x, v.y)`. */
    method TranslateV(v: Vec)
      modifies this
      ensures Value() == TranslateMat(old(Value()), v.x, v.y)
    {
      Translate(v.x, v.y);
    }

    /** `isIdentity()`: exact comparison of all six fields. */
    method IsIdentity() returns (r: bool)
      ensures r <==> Value() == IDENTITY
    {
      r := a == 1.0 && b == 0.0 && c == 0.0 && d == 1.0 && e == 0.0 && f == 0.0;
    }

    /** `clone()`: a new, independent matrix built through `init`. */
    method Clone() returns (m: Matrix2d)
      ensures fresh(m) && m.Value() == CloneMat(Value())
    {
      m := new Matrix2d(a, b, c, d, e, f);
    }
  }
}
