/** Properties of the renderable transform model: what `rotate` and `scale`
    store and apply, how `transform` and `setTransform` act on the matrix, and
    what re-running `init` leaves behind. */
module RenderableProperties {
  import opened Numeric
  import opened Affine
  import opened AffineProperties
  import opened Renderables

  /** `rotate` to the stored angle changes nothing; to any other angle it
      stores the difference, keeps the scale, and makes the matrix send each
      point where the old matrix sent it, turned by the difference. */
  lemma RotateStoresDifference(t: Transform, angle: real, cos: real -> real, sin: real -> real, x: real, y: real)
    ensures angle == t.angle ==> RotateTransform(t, angle, cos, sin) == t
    ensures angle != t.angle ==>
      var r, delta, p := RotateTransform(t, angle, cos, sin), angle - t.angle, Apply(t.m, x, y);
      && r.angle == delta
      && r.scaleX == t.scaleX && r.scaleY == t.scaleY
      && Apply(r.m, x, y) == RotatePoint(p.x, p.y, cos(delta), sin(delta))
  {
    if angle != t.angle {
      var delta := angle - t.angle;
      RotateComposes(t.m, delta, cos(delta), sin(delta), x, y);
    }
  }

  /** The stored angle is not the absolute angle: from angle 0, `rotate(1)`,
      `rotate(3)`, `rotate(3)` store 1, 2 and 1, and the second `rotate(3)`
      turns the matrix once more, by 1. */
  lemma RepeatedRotateTurnsAgain(t: Transform, cos: real -> real, sin: real -> real)
    requires t.angle == 0.0
    ensures var t1 := RotateTransform(t, 1.0, cos, sin);
      var t2 := RotateTransform(t1, 3.0, cos, sin);
      var t3 := RotateTransform(t2, 3.0, cos, sin);
      && t1.angle == 1.0 && t2.angle == 2.0 && t3.angle == 1.0
      && t3.m == RotateMat(t2.m, 1.0, cos(1.0), sin(1.0))
      && t3 != t2
  {
  }

  /** `scale(s)` with the y factor left out is `scale(s, s)`. */
  lemma ScaleOmittedYIsUniform(t: Transform, sx: real)
    requires ScaleDefined(t, sx, None)
    ensures ScaleDefined(t, sx, Some(sx))
    ensures ScaleTransform(t, sx, None) == ScaleTransform(t, sx, Some(sx))
  {
  }

  /** Each axis on its own: asking for the stored factor applies 1 and keeps it;
      asking for another applies `requested / stored` and stores that; the
      angle is kept, and only `a, d, e, f` of the matrix change. */
  lemma ScalePerAxis(t: Transform, sx: real, sy: Option<real>)
    requires ScaleDefined(t, sx, sy)
    ensures var r, y := ScaleTransform(t, sx, sy), ScaleYArg(sx, sy);
      && r.angle == t.angle
      && (sx == t.scaleX ==> r.scaleX == t.scaleX && r.m.a == t.m.a && r.m.e == t.m.e)
      && (sx != t.scaleX ==> r.scaleX * t.scaleX == sx && r.m.a == t.m.a * r.scaleX && r.m.e == t.m.e * r.scaleX)
      && (y == t.scaleY ==> r.scaleY == t.scaleY && r.m.d == t.m.d && r.m.f == t.m.f)
      && (y != t.scaleY ==> r.scaleY * t.scaleY == y && r.m.d == t.m.d * r.scaleY && r.m.f == t.m.f * r.scaleY)
      && r.m.b == t.m.b && r.m.c == t.m.c
  {
    var y := ScaleYArg(sx, sy);
    if sx != t.scaleX {
      assert (1.0 / t.scaleX) * sx * t.scaleX == sx;
    }
    if y != t.scaleY {
      assert (1.0 / t.scaleY) * y * t.scaleY == y;
    }
  }

  /** From unit scale (a new or re-initialised renderable) the stored factors
      are the requested ones and the matrix is scaled by them. */
  lemma ScaleFromUnit(t: Transform, sx: real, sy: real)
    requires t.scaleX == 1.0 && t.scaleY == 1.0
    ensures ScaleDefined(t, sx, Some(sy))
    ensures ScaleTransform(t, sx, Some(sy)) == t.(scaleX := sx, scaleY := sy, m := ScaleMat(t.m, sx, sy))
  {
  }

  /** Asking again for the stored factors changes nothing. */
  lemma ScaleToStoredIsNoOp(t: Transform)
    ensures ScaleDefined(t, t.scaleX, Some(t.scaleY))
    ensures ScaleTransform(t, t.scaleX, Some(t.scaleY)) == t
  {
  }

  /** `scale(k)` then `scale(1)` from unit scale gives the matrix back, but the
      stored factor is then `1 / k`, not 1. */
  lemma ScaleUndoRestoresMatrix(t: Transform, k: real)
    requires t.scaleX == 1.0 && t.scaleY == 1.0 && k != 0.0 && k != 1.0
    ensures ScaleDefined(ScaleTransform(t, k, None), 1.0, None)
    ensures var t2 := ScaleTransform(ScaleTransform(t, k, None), 1.0, None);
      && t2.m == t.m
      && t2.scaleX == 1.0 / k && t2.scaleY == 1.0 / k
  {
    var t1 := ScaleTransform(t, k, None);
    assert t1.scaleX == k && t1.scaleY == k;
    var t2 := ScaleTransform(t1, 1.0, None);
    assert t2.m == ScaleMat(ScaleMat(t.m, k, k), 1.0 / k, 1.0 / k);
    assert k * (1.0 / k) == 1.0;
    assert t.m.a * k * (1.0 / k) == t.m.a;
    assert t.m.d * k * (1.0 / k) == t.m.d;
    assert t.m.e * k * (1.0 / k) == t.m.e;
    assert t.m.f * k * (1.0 / k) == t.m.f;
  }

  /** The stored factor is not the absolute one either: from unit scale,
      `scale(2)`, `scale(4)`, `scale(4)` each apply a factor of 2, so the
      matrix ends up scaled by 8. */
  lemma RepeatedScaleScalesAgain(t: Transform)
    requires t.scaleX == 1.0 && t.scaleY == 1.0
    ensures ScaleDefined(t, 2.0, None)
    ensures ScaleDefined(ScaleTransform(t, 2.0, None), 4.0, None)
    ensures ScaleDefined(ScaleTransform(ScaleTransform(t, 2.0, None), 4.0, None), 4.0, None)
    ensures var t3 := ScaleTransform(ScaleTransform(ScaleTransform(t, 2.0, None), 4.0, None), 4.0, None);
      && t3.scaleX == 2.0 && t3.scaleY == 2.0
      && t3.m == ScaleMat(t.m, 8.0, 8.0)
  {
    var t1 := ScaleTransform(t, 2.0, None);
    assert t1.scaleX == 2.0 && t1.m == ScaleMat(t.m, 2.0, 2.0);
    var t2 := ScaleTransform(t1, 4.0, None);
    assert t2.scaleX == 2.0 && t2.m == ScaleMat(t1.m, 2.0, 2.0);
  }

  /** `transform(n)` keeps the angle and the scale, and makes the matrix apply
      `n` first and then the old matrix. */
  lemma TransformComposes(t: Transform, n: Mat, x: real, y: real)
    ensures var r, p := MultiplyTransform(t, n.a, n.b, n.c, n.d, n.e, n.f), Apply(n, x, y);
      && r.angle == t.angle && r.scaleX == t.scaleX && r.scaleY == t.scaleY
      && Apply(r.m, x, y) == Apply(t.m, p.x, p.y)
  {
    MultiplyComposes(t.m, n, x, y);
  }

  /** `setTransform` replaces the linear part and keeps the angle and scale;
      a translation of 0 keeps the old translation. */
  lemma SetTransformReplaces(t: Transform, a: real, b: real, c: real, d: real, e: real, f: real)
    ensures var r := SetTransformTo(t, a, b, c, d, e, f);
      && r.angle == t.angle && r.scaleX == t.scaleX && r.scaleY == t.scaleY
      && r.m.a == a && r.m.b == b && r.m.c == c && r.m.d == d
      && r.m.e == (if e == 0.0 then t.m.e else e)
      && r.m.f == (if f == 0.0 then t.m.f else f)
  {
    SetKeepsTranslationOnZero(t.m, a, b, c, d, e, f);
  }

  /** Re-running `init` gives the transform of a new renderable exactly when
      the matrix had no translation: `identity()` keeps a non-zero one. */
  lemma ReinitKeepsTranslation(t: Transform)
    ensures ReinitTransform(t).m.e == t.m.e && ReinitTransform(t).m.f == t.m.f
    ensures ReinitTransform(t) == INITIAL <==> t.m.e == 0.0 && t.m.f == 0.0
  {
    IdentityKeepsTranslation(t.m);
  }
}
