/** The transform state of a drawable object (`me.Renderable`,
    src/renderable/base.js).

    A renderable is a rectangle (its position and size, `me.Rect`) plus a
    rotation angle, a stored scale factor per axis and a transformation matrix.
    `Transform` is the value of the angle, scale and matrix; each transform
    mutator of the class `Renderable` is specified by a function from the old
    value to the new one.

    What `rotate` and `scale` store is relative, not absolute: `rotate(angle)`
    stores the difference between the requested angle and the stored one, and
    `scale(s)` stores the requested factor divided by the stored one. */
module Renderables {
  import opened Numeric
  import opened Vector
  import opened Aabb
  import opened Affine

  datatype Transform = Transform(angle: real, scaleX: real, scaleY: real, m: Mat)

  /** The transform of a new renderable: no angle, unit scale, identity matrix. */
  const INITIAL := Transform(0.0, 1.0, 1.0, IDENTITY)

  /** `init` run again on an existing renderable: the angle and the stored
      scale are reset, and the existing matrix gets `identity()`. */
  function ReinitTransform(t: Transform): Transform {
    Transform(0.0, 1.0, 1.0, IdentityOf(t.m))
  }

  /** `transform(a, b, c, d, e, f)`: `matrix.multiply(...)`. */
  function MultiplyTransform(t: Transform, a: real, b: real, c: real, d: real, e: real, f: real): Transform {
    t.(m := MultiplyMat(t.m, a, b, c, d, e, f))
  }

  /** `setTransform(a, b, c, d, e, f)`: `matrix.set(...)`. */
  function SetTransformTo(t: Transform, a: real, b: real, c: real, d: real, e: real, f: real): Transform {
    t.(m := SetMat(t.m, a, b, c, d, e, f))
  }

  /** `rotate(angle)`: when the angle differs from the stored one, the stored
      angle becomes the difference and the matrix turns by that difference. */
  function RotateTransform(t: Transform, angle: real, cos: real -> real, sin: real -> real): Transform {
    if angle != t.angle then
      var delta := angle - t.angle;
      t.(angle := delta, m := RotateMat(t.m, delta, cos(delta), sin(delta)))
    else t
  }

  /** The y factor `scale` uses: the x factor when the y factor is left out. */
  function ScaleYArg(sx: real, sy: Option<real>): real {
    if sy.None? then sx else sy.value
  }

  /** The factor `scale` applies on one axis: `(1 / stored) * requested` when
      the request differs from the stored factor, and 1 otherwise. */
  function Factor(stored: real, requested: real): real
    requires stored != requested ==> stored != 0.0
  {
    if stored != requested then (1.0 / stored) * requested else 1.0
  }

  /** No division by a zero stored factor. */
  predicate ScaleDefined(t: Transform, sx: real, sy: Option<real>) {
    && (t.scaleX != sx ==> t.scaleX != 0.0)
    && (t.scaleY != ScaleYArg(sx, sy) ==> t.scaleY != 0.0)
  }

  /** `scale(sx, sy)`: on each axis whose request differs from the stored
      factor, the stored factor becomes the applied factor; the matrix is
      scaled by the two applied factors. */
  function ScaleTransform(t: Transform, sx: real, sy: Option<real>): Transform
    requires ScaleDefined(t, sx, sy)
  {
    var y := ScaleYArg(sx, sy);
    var fx, fy := Factor(t.scaleX, sx), Factor(t.scaleY, y);
    Transform(t.angle,
              if t.scaleX != sx then fx else t.scaleX,
              if t.scaleY != y then fy else t.scaleY,
              ScaleMat(t.m, fx, fy))
  }

  class Renderable {
    /** The rectangle the renderable extends (`me.Rect` part). */
    const rect: Rect
    const matrix: Matrix2d
    var angle: real
    /** `_scale.x` and `_scale.y` */
    var scaleX: real
    var scaleY: real

    function Value(): Transform
      reads this, matrix
    {
      Transform(angle, scaleX, scaleY, matrix.Value())
    }

    /** `new me.Renderable(pos, w, h)`: the rectangle keeps `pos` itself; a
        new unit scale and a new identity matrix. */
    constructor (pos: Vec, w: real, h: real)
      ensures fresh(rect) && fresh(matrix)
      ensures rect.pos == pos && rect.State() == InitState(pos.x, pos.y, w, h)
      ensures Value() == INITIAL
    {
      rect := new Rect(pos, w, h);
      matrix := new Matrix2d(0.0, 0.0, 0.0, 0.0, 0.0, 0.0);
      scaleX, scaleY := 1.0, 1.0;
      angle := 0.0;
    }

    /** `init(pos, w, h)` run again on an existing renderable. */
    method Init(pos: Vec, w: real, h: real)
      modifies this, rect, matrix
      ensures rect.pos == pos && rect.State() == InitState(pos.x, pos.y, w, h)
      ensures Value() == ReinitTransform(old(Value()))
    {
      rect.Init(pos, w, h);
      scaleX, scaleY := 1.0, 1.0;
      angle := 0.0;
      matrix.Identity();
    }

    /** `transform(a, b, c, d, e, f)` */
    method TransformBy(a: real, b: real, c: real, d: real, e: real, f: real)
      modifies matrix
      ensures Value() == MultiplyTransform(old(Value()), a, b, c, d, e, f)
    {
      matrix.Multiply(a, b, c, d, e, f);
    }

    /** `setTransform(a, b, c, d, e, f)` */
    method SetTransform(a: real, b: real, c: real, d: real, e: real, f: real)
      modifies matrix
      ensures Value() == SetTransformTo(old(Value()), a, b, c, d, e, f)
    {
      matrix.Set(a, b, c, d, e, f);
    }

    /** `rotate(angle)`; `Math.cos` and `Math.sin` are passed in. */
    method Rotate(angle: real, cos: real -> real, sin: real -> real)
      modifies this, matrix
      ensures Value() == RotateTransform(old(Value()), angle, cos, sin)
    {
      if angle != this.angle {
        this.angle := angle - this.angle;
        matrix.Rotate(this.angle, cos, sin);
      }
    }

    /** `scale(scaleX, scaleY)`; `None` is a left-out `scaleY`. */
    method Scale(sx: real, sy: Option<real>)
      requires ScaleDefined(Value(), sx, sy)
      modifies this, matrix
      ensures Value() == ScaleTransform(old(Value()), sx, sy)
    {
      var y := if sy.None? then sx else sy.value;
      var fx, fy := 1.0, 1.0;
      if scaleX != sx {
        scaleX := (1.0 / scaleX) * sx;
        fx := scaleX;
      }
      if scaleY != y {
        scaleY := (1.0 / scaleY) * y;
        fy := scaleY;
      }
      matrix.Scale(fx, fy);
    }

    /** `update()`: a plain renderable never asks to be redrawn. */
    method Update() returns (r: bool)
      ensures !r
    {
      r := false;
    }
  }
}
