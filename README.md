# melonJS rectangles, affine matrices and renderable transforms, in Dafny

This project models the geometric core of the melonJS 2D game engine (version
of 2013):

- `me.Rect` (src/math/shape.js), the axis-aligned box every game object is
  built on. The model covers:
  - its borrowed position vector;
  - its hit-box offset (`colPos`) and the edge getters (`left`, `right`, `top`,
    `bottom`) that `adjustSize` redefines at run time;
  - the mutators `init`, `set`, `getRect`, `translate`, `translateV`, `union`,
    `adjustSize`, `flipX` and `flipY`;
  - the queries `equals`, `overlaps`, `within`, `contains` and `containsPoint`;
  - the collision response `collideVsAABB`.
- `me.Matrix2d` (src/math/shape.js), a 2x3 affine matrix. The model covers
  `init`, `identity`, `set`, `multiply`, `scale`, `rotate`, `translate`,
  `translateV`, `isIdentity` and `clone`, including the JavaScript `||`
  defaults in which `0` counts as "not given".
- The transform state of `me.Renderable` (src/renderable/base.js): the angle,
  the stored scale and the matrix, with `init`, `transform`, `setTransform`,
  `rotate`, `scale` and `update`.

Objects whose fields the engine updates in place are classes: `Aabb.Rect`,
`Affine.Matrix2d`, `Renderables.Renderable` and the position vector
`Vector.Vec`. Each class except `Vec` has a value snapshot: `RectState`, `Mat` or
`Transform`. Each mutator is proved to turn the old snapshot into a function of
it (`State() == UnionState(old(State()), ...)`). The lemmas in the `...Properties`
modules state what those functions promise.

Numbers are exact reals. `~~x` (truncation toward zero) is `Numeric.Trunc`.
`Math.ceil` is `Numeric.Ceil`. The number-valued `v || d` is `Numeric.Or`.
`Math.cos` and `Math.sin` are passed in as functions.

`union` truncates its origin toward zero (`~~`), which differs from a floor
for negative fractions. `UnionTruncationDropsNegativeFraction` shows the
effect: a box at x = -0.5 is not inside its union with itself.

## Model

| member | source | states |
|---|---|---|
| Numeric.Trunc | src/math/shape.js:244-258 | `~~r` is the integer next to `r` toward zero: within 1 below a non-negative `r`, within 1 above a negative one |
| Numeric.Ceil | src/math/shape.js:244-258 | `Math.ceil(r)` is the least integer not below `r` |
| Aabb.Rect.constructor | src/math/shape.js:127-176 | keeps the given vector itself as `pos`; zero hit-box offset, given size, half sizes `~~(size / 2)`, plain edge getters |
| Aabb.Rect.Init | src/math/shape.js:127-176 | running `init` again resets the offset, size, half sizes and getters the same way |
| Aabb.Rect.Set | src/math/shape.js:187-195 | replaces `pos`, size and half sizes; keeps the hit-box offset and the getters in force |
| Aabb.Rect.GetRect | src/math/shape.js:204-206 | returns a new box on a new copy of `pos` with the same size, fresh offset and plain getters |
| Aabb.Rect.Translate | src/math/shape.js:217-221 | adds the offset to the borrowed position vector and changes nothing else |
| Aabb.Rect.TranslateV | src/math/shape.js:231-234 | the same as `translate` by the vector's coordinates, read before the move |
| Aabb.Rect.Union | src/math/shape.js:244-258 | size becomes `ceil(max far edge - min origin)`, origin `~~(min origin)`; the vector object stays the same |
| Aabb.Rect.AdjustSize | src/math/shape.js:272-321 | per axis not given -1: new offset, size and half size, and the offset getters switched on when they change an edge |
| Aabb.Rect.FlipX | src/math/shape.js:330-333 | `colPos.x` becomes `sw - width - colPos.x`; half width refreshed |
| Aabb.Rect.FlipY | src/math/shape.js:342-345 | `colPos.y` becomes `sh - height - colPos.y`; half height refreshed |
| Aabb.RectState.CollideVsAabb | src/math/shape.js:434-486 | (0, 0) without overlap. Otherwise only the axis of strictly smaller penetration (Y on a tie) can be non-zero; it holds that penetration, negated when the centre offset on that axis is negative. Truncated half sizes can make the penetration zero or negative, so the push can vanish or point toward the other box |
| Aabb.SharedPositionMovesBoth | src/math/shape.js:127-130 | two boxes built on the same vector share it: translating one moves both, and a box on a copy stays put |
| Aabb.RectState.Left | src/math/shape.js:148-153 | `left` is `pos.x` until `adjustSize` switches the x getters, and `pos.x` plus the hit-box offset after |
| Aabb.RectState.Right | src/math/shape.js:155-160 | whatever getters are in force, `right` lies `width` after `left` |
| Aabb.RectState.Top | src/math/shape.js:162-167 | `top` is `pos.y` until the y getters are switched, and `pos.y` plus the hit-box offset after |
| Aabb.RectState.Bottom | src/math/shape.js:169-174 | whatever getters are in force, `bottom` lies `height` below `top` |
| Aabb.RectState.Equals | src/math/shape.js:355-360 | `equals` holds exactly when each box is within the other |
| Aabb.RectState.Overlaps | src/math/shape.js:370-375 | boxes sharing only an edge do not overlap; a box overlaps itself exactly when its width and height are positive |
| Aabb.RectState.Within | src/math/shape.js:385-390 | `a.within(b)` is `b.contains(a)` |
| Aabb.RectState.Contains | src/math/shape.js:400-405 | `contains(r)` holds when both corners of `r` are points of this box, and for `r` of non-negative size only then |
| Aabb.RectState.ContainsPoint | src/math/shape.js:415-431 | a box of negative size contains no point; a box of non-negative size contains its four corners |
| AabbProperties.GettersSwitchTogether | src/math/shape.js:272-321 | `adjustSize` redefines `left` exactly when it redefines `right`, and `top` exactly when `bottom` |
| AabbProperties.AdjustSizeAxes | src/math/shape.js:272-321 | an axis given -1 keeps everything; any other takes offset, size and half size, and is active iff it was already or the offset is non-zero |
| AabbProperties.AdjustSizeSkipBoth | src/math/shape.js:272-321 | `adjustSize(-1, w, -1, h)` changes nothing |
| AabbProperties.PlainXUntilAdjusted | src/math/shape.js:148-159 | along any run of operations without a non-zero X `adjustSize`, `left` stays `pos.x` and `right` stays `pos.x + width` |
| AabbProperties.PlainYUntilAdjusted | src/math/shape.js:162-173 | the same on the Y axis for `top` and `bottom` |
| AabbProperties.ActivationIsPermanent | src/math/shape.js:272-321 | once active, the offset getters stay active along any run of operations |
| AabbProperties.HalvesStayFreshWithoutUnion | src/math/shape.js:140-142 | along any run of operations without `union`, the half sizes stay `~~(size / 2)` |
| AabbProperties.UnionLeavesHalvesStale | src/math/shape.js:244-258 | `union` grows the box without refreshing the half sizes |
| AabbProperties.SetKeepsHitbox | src/math/shape.js:187-195 | after `set` the offset and getters are kept and the half sizes are fresh |
| AabbProperties.TranslateShiftsEdges | src/math/shape.js:217-221 | every edge moves by the offset, and translating back restores the box |
| AabbProperties.TranslateComposes | src/math/shape.js:217-221 | two translations equal one by the summed offset |
| AabbProperties.FlipTwiceRestores | src/math/shape.js:330-345 | flipping twice with the same sprite size restores the offset; the size never changes |
| AabbProperties.FlipXMirrorsActiveHitbox | src/math/shape.js:330-333 | with active getters the hit box is mirrored inside `[pos.x, pos.x + sw]`; otherwise no edge moves |
| AabbProperties.FlipYMirrorsActiveHitbox | src/math/shape.js:342-345 | the same on the Y axis inside `[pos.y, pos.y + sh]` |
| AabbProperties.FlipBeforeAdjustIsInvisible | src/math/shape.js:330-333 | example: on a fresh 10-wide box, `flipX(16)` sets `colPos.x` to 6 and leaves `left` at 0 |
| AabbProperties.EqualsIsEquivalence | src/math/shape.js:355-360 | `equals` is reflexive, symmetric and transitive |
| AabbProperties.OverlapsIsSymmetric | src/math/shape.js:370-375 | `a.overlaps(b) == b.overlaps(a)` |
| AabbProperties.OverlapsIffCommonInterior | src/math/shape.js:370-375 | a common interior point implies overlap; for boxes of positive size, overlap implies one |
| AabbProperties.ZeroWidthBoxOverlaps | src/math/shape.js:370-375 | a zero-width box still overlaps a box around it: sizes are not validated |
| AabbProperties.ContainsPointIncludesEdges | src/math/shape.js:428-431 | for a box of non-negative size, `containsPoint` holds on all four edges, corners included |
| AabbProperties.WithinIffPointsContained | src/math/shape.js:385-390 | for a non-empty box, `within` holds iff every point it contains is contained by the other |
| AabbProperties.UnionKeepsHitbox | src/math/shape.js:244-258 | `union` never touches the offset, the getters or the half sizes |
| AabbProperties.UnionOfWholeBoxes | src/math/shape.js:244-258 | on whole-number boxes the union spans from the smaller origin to the larger far edge |
| AabbProperties.UnionCoversWholeBoxes | src/math/shape.js:244-258 | on whole-number boxes both boxes lie inside their union |
| AabbProperties.UnionIdempotentOnWholeBoxes | src/math/shape.js:244-258 | on whole-number boxes, uniting again with the same box changes nothing |
| AabbProperties.UnionTruncationDropsNegativeFraction | src/math/shape.js:254-255 | the origin is truncated, not floored: a box at x = -0.5 is not inside its union with itself |
| AabbProperties.SignWhenPenetrating | src/math/shape.js:434-486 | for overlapping boxes whose chosen penetration is positive, the response on that axis is non-zero and negative exactly when the centre offset is negative (the documented left/top side) |
| AabbProperties.CollisionTieGoesToY | src/math/shape.js:461-486 | equal penetrations resolve on the Y axis, signed by the centre offset |
| AabbProperties.CollisionResponseSeparates | src/math/shape.js:461-486 | with exact half sizes the response is non-zero, points away from the other box, and moving by it ends the overlap |
| AabbProperties.CollisionExample | src/math/shape.js:461-486 | 10x10 boxes at (0, 0) and (5, 5) get the response (0, -5) |
| AabbProperties.OddSizePushesTowardOther | src/math/shape.js:461-486 | with truncated half widths, 3x10 boxes at x = 0 and x = 2.5 get (0.5, 0): the left box is pushed toward the other |
| AabbProperties.CoincidentUnitBoxesGetNoPush | src/math/shape.js:461-486 | two 1x1 boxes on the same spot overlap but get (0, 0), since their half sizes truncate to 0 |
| Affine.Matrix2d.constructor | src/math/shape.js:579-581 | `init` on the identity: an `a` or `d` of 0 becomes 1, other zero arguments become 0 |
| Affine.Matrix2d.Identity | src/math/shape.js:592-595 | `set(1, 0, 0, 1, 0, 0)`, which keeps a non-zero translation |
| Affine.Matrix2d.Set | src/math/shape.js:610-618 | sets `a..d`; sets `e` and `f` unless they are 0 |
| Affine.Matrix2d.Multiply | src/math/shape.js:633-646 | the new matrix is the given one followed by the old one |
| Affine.Matrix2d.Scale | src/math/shape.js:657-666 | multiplies `a`, `e` by `sx` and `d`, `f` by `sy` |
| Affine.Matrix2d.Rotate | src/math/shape.js:676-694 | no change for angle 0; otherwise every column turned by the angle |
| Affine.Matrix2d.Translate | src/math/shape.js:706-711 | adds the offset to `e` and `f` |
| Affine.Matrix2d.TranslateV | src/math/shape.js:721-723 | `translate` by the vector's coordinates |
| Affine.Matrix2d.IsIdentity | src/math/shape.js:732-734 | true iff all six fields equal the identity's |
| Affine.Matrix2d.Clone | src/math/shape.js:742-744 | a new matrix built by `init` from the six fields |
| AffineProperties.SetKeepsTranslationOnZero | src/math/shape.js:610-618 | `set` overwrites `a..d`, and `e`, `f` unless given as 0 |
| AffineProperties.IdentityKeepsTranslation | src/math/shape.js:592-595 | `identity()` resets the linear part only; the result is the identity iff there was no translation |
| AffineProperties.DefaultIsIdentity | src/math/shape.js:579-581 | a matrix built with every argument left out is the identity |
| AffineProperties.CloneExactIff | src/math/shape.js:742-744 | a clone copies `b, c, e, f`, turns a zero `a` or `d` into 1, and equals the original iff `a` and `d` are non-zero |
| AffineProperties.IdentityIffFixesEveryPoint | src/math/shape.js:732-734 | `isIdentity` holds iff the matrix leaves every point where it is |
| AffineProperties.MultiplyComposes | src/math/shape.js:633-646 | after `multiply(n)` every point goes through `n` first, then the old matrix |
| AffineProperties.MultiplyIdentity | src/math/shape.js:633-646 | multiplying the identity by `n` gives `n` |
| AffineProperties.MultiplyDet | src/math/shape.js:633-646 | the determinant of the product is the product of the determinants |
| AffineProperties.TranslateAccumulates | src/math/shape.js:706-711 | `translate` changes only `e` and `f`, two translations add up, and every image point moves by the offset |
| AffineProperties.ScaleTouchesDiagonalAndTranslation | src/math/shape.js:657-666 | `scale` keeps `b` and `c`; without shear it scales every image point |
| AffineProperties.ScaleMissesShear | src/math/shape.js:657-666 | with a non-zero `c`, `scale(s, s)` for `s != 1` does not scale the image of any point (x, y) with y != 0 |
| AffineProperties.ScaleThenTranslateExample | src/math/shape.js:657-711 | `scale(2, 3)` then `translate(5, 7)` on the identity gives (2, 0, 0, 3, 5, 7) |
| AffineProperties.RotateComposes | src/math/shape.js:676-694 | `rotate(0)` changes nothing; any other angle sends each point where the old matrix sent it, turned by the angle |
| AffineProperties.RotateKeepsDet | src/math/shape.js:676-694 | with `cos^2 + sin^2 == 1`, rotation keeps the determinant |
| Renderables.Renderable.constructor | src/renderable/base.js:129-148 | the rectangle keeps `pos` itself; angle 0, unit scale, identity matrix |
| Renderables.Renderable.Init | src/renderable/base.js:129-148 | running `init` again resets the rectangle, angle and scale, and applies `identity()` to the existing matrix |
| Renderables.Renderable.TransformBy | src/renderable/base.js:164-166 | `transform` is `multiply` on the matrix; angle and scale kept |
| Renderables.Renderable.SetTransform | src/renderable/base.js:182-184 | `setTransform` is `set` on the matrix; angle and scale kept |
| Renderables.Renderable.Rotate | src/renderable/base.js:194-199 | nothing when the angle equals the stored one; otherwise the stored angle becomes the difference and the matrix turns by it |
| Renderables.Renderable.Scale | src/renderable/base.js:209-231 | per axis, a request equal to the stored factor applies 1; another stores and applies `requested / stored`; `scaleY` defaults to `scaleX` |
| Renderables.Renderable.Update | src/renderable/base.js:243-245 | always returns false |
| RenderableProperties.RotateStoresDifference | src/renderable/base.js:194-199 | rotating to the stored angle is a no-op; otherwise the difference is stored, the scale kept, and every image point turned by the difference |
| RenderableProperties.RepeatedRotateTurnsAgain | src/renderable/base.js:194-199 | from angle 0, `rotate(1)`, `rotate(3)`, `rotate(3)` store 1, 2, 1, and the last call turns the matrix again |
| RenderableProperties.ScaleOmittedYIsUniform | src/renderable/base.js:209-212 | `scale(s)` is `scale(s, s)` |
| RenderableProperties.ScalePerAxis | src/renderable/base.js:209-231 | per axis: the stored factor times the old one is the request when they differ; `a, e` (`d, f`) are scaled by the applied factor; `b, c` and the angle are kept |
| RenderableProperties.ScaleFromUnit | src/renderable/base.js:209-231 | from unit scale the stored factors are the requested ones and the matrix is scaled by them |
| RenderableProperties.ScaleToStoredIsNoOp | src/renderable/base.js:209-231 | asking for the stored factors changes nothing |
| RenderableProperties.ScaleUndoRestoresMatrix | src/renderable/base.js:209-231 | from unit scale, `scale(k)` then `scale(1)` restores the matrix but leaves the stored factor at `1 / k` |
| RenderableProperties.RepeatedScaleScalesAgain | src/renderable/base.js:209-231 | from unit scale, `scale(2)`, `scale(4)`, `scale(4)` each apply 2, so the matrix is scaled by 8 |
| RenderableProperties.TransformComposes | src/renderable/base.js:164-166 | after `transform(n)` every point goes through `n` first, then the old matrix; angle and scale kept |
| RenderableProperties.SetTransformReplaces | src/renderable/base.js:182-184 | `setTransform` replaces the linear part and keeps a translation given as 0 |
| RenderableProperties.ReinitKeepsTranslation | src/renderable/base.js:141-146 | re-running `init` keeps the matrix translation, so it gives a new renderable's transform iff there was none |

## Left out

- `draw` of `me.Rect` and `me.Renderable`: canvas output, not modelled.
- `anchorPoint` is created by `init` and never read by the modelled code, so it is not modelled.
- `colPos` is modelled as two fields of the box (`colX`, `colY`). The source allocates its own `me.Vector2d` for it and never shares it, so no aliasing is lost.
- `me.Vector2d` is not part of this model beyond `x`, `y`, `add` and `clone`, which the modelled code uses.
- The getters that `Object.defineProperty` installs are modelled as one flag per axis that says which formula is in force. `GettersSwitchTogether` shows that one flag per axis is enough.
- `containsPointV(v)` is `containsPoint(v.x, v.y)` and is not modelled separately.
- Methods that return `this` for chaining are modelled as methods without a result.
- IEEE-754 rounding, `NaN`, `Infinity` and the 32-bit wrap-around of `~~` are not modelled: numbers are exact reals.
- `Math.cos` and `Math.sin` are parameters of `rotate`, so the proofs hold for any functions given there.
- `me.Renderable` extends `me.Rect` in the source. The model holds the rectangle in a `rect` field instead, so the inherited rectangle methods are called on `rect`.
- The flags of `me.Renderable` (`visible`, `inViewport`, `alwaysUpdate`, `updateWhenPaused`, `isPersistent`, `floating`, `z`) are plain data that no modelled operation reads or writes, so they are not modelled.
- Renderables.Renderable.Scale: requires a non-zero stored factor on every axis whose request differs from it. JavaScript would divide by zero there and store `Infinity`, which exact reals cannot represent.
