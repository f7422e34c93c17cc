/** Properties of the matrix model: the falsy-zero quirks of `set`, `identity`
    and `clone`, and what `multiply`, `scale`, `rotate` and `translate` do to the
    map a matrix stands for. */
module AffineProperties {
  import opened Affine

  /** `set` overwrites `a..d`; `e` and `f` are overwritten unless given as 0. */
  lemma SetKeepsTranslationOnZero(m: Mat, a: real, b: real, c: real, d: real, e: real, f: real)
    ensures var n := SetMat(m, a, b, c, d, e, f);
      && n.a == a && n.b == b && n.c == c && n.d == d
      && n.e == (if e == 0.0 then m.e else e)
      && n.f == (if f == 0.0 then m.f else f)
  {
  }

  /** `identity()` yields the identity exactly when there was no translation. */
  lemma IdentityKeepsTranslation(m: Mat)
    ensures IdentityOf(m) == m.(a := 1.0, b := 0.0, c := 0.0, d := 1.0)
    ensures IdentityOf(m) == IDENTITY <==> m.e == 0.0 && m.f == 0.0
  {
  }

  /** `new me.Matrix2d()` (every argument left out) is the identity. */
  lemma DefaultIsIdentity()
    ensures InitMat(0.0, 0.0, 0.0, 0.0, 0.0, 0.0) == IDENTITY
  {
  }

  /** `clone()` copies `b, c, e, f`, and `a`/`d` only when non-zero (a zero
      becomes 1); so a clone equals the original iff `a` and `d` are non-zero. */
  lemma CloneExactIff(m: Mat)
    ensures var n := CloneMat(m);
      && n.b == m.b && n.c == m.c && n.e == m.e && n.f == m.f
      && n.a == (if m.a == 0.0 then 1.0 else m.a)
      && n.d == (if m.d == 0.0 then 1.0 else m.d)
    ensures CloneMat(m) == m <==> m.a != 0.0 && m.d != 0.0
  {
  }

  /** A matrix that fixes the origin and both unit points is the identity. */
  lemma PinnedByThreePoints(m: Mat)
    requires Apply(m, 0.0, 0.0) == Point(0.0, 0.0)
    requires Apply(m, 1.0, 0.0) == Point(1.0, 0.0)
    requires Apply(m, 0.0, 1.0) == Point(0.0, 1.0)
    ensures m == IDENTITY
  {
  }

  /** The identity leaves one given point (x, y) where it is. */
  lemma IdentityFixes(x: real, y: real)
    ensures Apply(IDENTITY, x, y) == Point(x, y)
  {
  }

  /** The same fact for all points at once, about a matrix equal to the
      identity: the quantified form the converse below is paired with. */
  lemma IdentityFixesEveryPoint(m: Mat)
    requires m == IDENTITY
    ensures forall x, y :: Apply(m, x, y) == Point(x, y)
  {
    forall x, y ensures Apply(m, x, y) == Point(x, y) {
      IdentityFixes(x, y);
    }
  }

  /** A matrix that fixes every point is the identity. */
  lemma FixingEveryPointIsIdentity(m: Mat)
    requires forall x, y :: Apply(m, x, y) == Point(x, y)
    ensures m == IDENTITY
  {
    assert Apply(m, 0.0, 0.0) == Point(0.0, 0.0);
    assert Apply(m, 1.0, 0.0) == Point(1.0, 0.0);
    assert Apply(m, 0.0, 1.0) == Point(0.0, 1.0);
    PinnedByThreePoints(m);
  }

  /** The matrix leaves every point where it is. */
  ghost predicate FixesEveryPoint(m: Mat) {
    forall x, y :: Apply(m, x, y) == Point(x, y)
  }

  /** `isIdentity()` holds exactly when the matrix fixes every point. */
  lemma IdentityIffFixesEveryPoint(m: Mat)
    ensures m == IDENTITY <==> FixesEveryPoint(m)
  {
    if m == IDENTITY {
      IdentityFixesEveryPoint(m);
    }
    if FixesEveryPoint(m) {
      FixingEveryPointIsIdentity(m);
    }
  }

  /** Multiplying a sum term by term. */
  lemma MulSum(t: real, u: real, v: real, w: real, k: real)
    requires t == u + v + w
    ensures t * k == u * k + v * k + w * k
  {
  }

  /** `multiply(n)` makes the matrix apply `n` first and then the old matrix. */
  lemma MultiplyComposes(m: Mat, n: Mat, x: real, y: real)
    ensures var p := Apply(n, x, y);
      Apply(MultiplyMat(m, n.a, n.b, n.c, n.d, n.e, n.f), x, y) == Apply(m, p.x, p.y)
  {
    ComposedX(m, n, x, y);
    ComposedY(m, n, x, y);
  }

  /** The x coordinate of the composition, on its own. */
  lemma ComposedX(m: Mat, n: Mat, x: real, y: real)
    ensures var p := Apply(n, x, y);
      Apply(MultiplyMat(m, n.a, n.b, n.c, n.d, n.e, n.f), x, y).x == Apply(m, p.x, p.y).x
  {
  }

  /** The y coordinate of the composition, on its own. */
  lemma ComposedY(m: Mat, n: Mat, x: real, y: real)
    ensures var p := Apply(n, x, y);
      Apply(MultiplyMat(m, n.a, n.b, n.c, n.d, n.e, n.f), x, y).y == Apply(m, p.x, p.y).y
  {
  }

  /** Multiplying the identity (with zero translation) by `n` gives `n`. */
  lemma MultiplyIdentity(n: Mat)
    ensures MultiplyMat(IDENTITY, n.a, n.b, n.c, n.d, n.e, n.f) == n
  {
  }

  /** The determinant of a product is the product of the determinants. */
  lemma MultiplyDet(m: Mat, n: Mat)
    ensures Det(MultiplyMat(m, n.a, n.b, n.c, n.d, n.e, n.f)) == Det(n) * Det(m)
  {
    var p := MultiplyMat(m, n.a, n.b, n.c, n.d, n.e, n.f);
    calc {
      p.a * p.d - p.b * p.c;
      (n.a * m.a + n.b * m.c) * (n.c * m.b + n.d * m.d) - (n.a * m.b + n.b * m.d) * (n.c * m.a + n.d * m.c);
      n.a * n.d * (m.a * m.d - m.b * m.c) - n.b * n.c * (m.a * m.d - m.b * m.c);
      (n.a * n.d - n.b * n.c) * (m.a * m.d - m.b * m.c);
    }
  }

  /** `translate` changes only `e`/`f`, two translations add up, and the result
      moves every image point by the offset. */
  lemma TranslateAccumulates(m: Mat, x1: real, y1: real, x2: real, y2: real, x: real, y: real)
    ensures TranslateMat(m, x1, y1).(e := m.e, f := m.f) == m
    ensures TranslateMat(TranslateMat(m, x1, y1), x2, y2) == TranslateMat(m, x1 + x2, y1 + y2)
    ensures var p := Apply(m, x, y); Apply(TranslateMat(m, x1, y1), x, y) == Point(p.x + x1, p.y + y1)
  {
    var p := Apply(m, x, y);
    var q := Apply(TranslateMat(m, x1, y1), x, y);
    assert q.x == p.x + x1 && q.y == p.y + y1;
  }

  /** On a matrix without rotation or shear, `scale` scales every image point. */
  lemma ScaleDiagonal(a: real, d: real, e: real, f: real, sx: real, sy: real, x: real, y: real)
    ensures var m := Mat(a, 0.0, 0.0, d, e, f); var p := Apply(m, x, y);
      Apply(ScaleMat(m, sx, sy), x, y) == Point(p.x * sx, p.y * sy)
  {
    var m := Mat(a, 0.0, 0.0, d, e, f);
    var p := Apply(m, x, y);
    assert p == Point(a * x + e, d * y + f);
    MulSum(p.x, a * x, 0.0, e, sx);
    MulSum(p.y, 0.0, d * y, f, sy);
  }

  /** `scale` changes only `a, d, e, f`. When `b` and `c` are zero it scales
      every image point; otherwise it does not (see ScaleMissesShear). */
  lemma ScaleTouchesDiagonalAndTranslation(m: Mat, sx: real, sy: real, x: real, y: real)
    ensures ScaleMat(m, sx, sy).(a := m.a, d := m.d, e := m.e, f := m.f) == m
    ensures var p := Apply(m, x, y);
      m.b == 0.0 && m.c == 0.0 ==> Apply(ScaleMat(m, sx, sy), x, y) == Point(p.x * sx, p.y * sy)
  {
    if m.b == 0.0 && m.c == 0.0 {
      assert m == Mat(m.a, 0.0, 0.0, m.d, m.e, m.f);
      ScaleDiagonal(m.a, m.d, m.e, m.f, sx, sy, x, y);
    }
  }

  /** With a non-zero `c` (a rotated or sheared matrix), `scale(s, s)` for any
      `s != 1` does not scale the image of any point off the x axis: `c` is left
      alone, so the `c * y` part of the image keeps its size. */
  lemma ScaleMissesShear(m: Mat, s: real, x: real, y: real)
    requires m.c != 0.0 && s != 1.0 && y != 0.0
    ensures Apply(ScaleMat(m, s, s), x, y).x != s * Apply(m, x, y).x
  {
    var u := Apply(ScaleMat(m, s, s), x, y).x;
    var v := s * Apply(m, x, y).x;
    var k := m.c * y;
    assert k != 0.0;
    assert u == m.a * s * x + k + m.e * s;
    assert v == s * (m.a * x) + s * k + s * m.e;
    assert u - v == (1.0 - s) * k;
    assert (1.0 - s) * k != 0.0;
  }

  /** `scale(2, 3)` on the identity gives (2,0,0,3,0,0); `translate(5, 7)` then
      gives (2,0,0,3,5,7). */
  lemma ScaleThenTranslateExample()
    ensures ScaleMat(IDENTITY, 2.0, 3.0) == Mat(2.0, 0.0, 0.0, 3.0, 0.0, 0.0)
    ensures TranslateMat(ScaleMat(IDENTITY, 2.0, 3.0), 5.0, 7.0) == Mat(2.0, 0.0, 0.0, 3.0, 5.0, 7.0)
  {
  }

  /** The point `(x, y)` turned by the angle whose cosine and sine are given. */
  function RotatePoint(x: real, y: real, cos: real, sin: real): Point {
    Point(x * cos - y * sin, x * sin + y * cos)
  }

  /** `rotate(0)` changes nothing; any other angle makes the matrix apply the
      old matrix and then the rotation. */
  lemma RotateComposes(m: Mat, angle: real, cos: real, sin: real, x: real, y: real)
    ensures RotateMat(m, 0.0, cos, sin) == m
    ensures var p := Apply(m, x, y);
      angle != 0.0 ==> Apply(RotateMat(m, angle, cos, sin), x, y) == RotatePoint(p.x, p.y, cos, sin)
  {
    if angle != 0.0 {
      var p := Apply(m, x, y);
      var q := Apply(RotateMat(m, angle, cos, sin), x, y);
      var r := RotatePoint(p.x, p.y, cos, sin);
      MulSum(p.x, m.a * x, m.c * y, m.e, cos);
      MulSum(p.x, m.a * x, m.c * y, m.e, sin);
      MulSum(p.y, m.b * x, m.d * y, m.f, cos);
      MulSum(p.y, m.b * x, m.d * y, m.f, sin);
      assert r.x == q.x && r.y == q.y;
    }
  }

  /** A true rotation (`cos^2 + sin^2 == 1`) keeps the determinant. */
  lemma RotateKeepsDet(m: Mat, angle: real, cos: real, sin: real)
    requires cos * cos + sin * sin == 1.0
    ensures Det(RotateMat(m, angle, cos, sin)) == Det(m)
  {
    if angle != 0.0 {
      var n := RotateMat(m, angle, cos, sin);
      calc {
        n.a * n.d - n.b * n.c;
        (m.a * cos - m.b * sin) * (m.c * sin + m.d * cos) - (m.a * sin + m.b * cos) * (m.c * cos - m.d * sin);
        (m.a * m.d - m.b * m.c) * (cos * cos + sin * sin);
      }
    }
  }
}
