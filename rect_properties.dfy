/** Properties of the rectangle model: the edge getters and their activation,
    the queries, `union`, `flipX`/`flipY`, `collideVsAABB`, and invariants kept
    along any sequence of mutating operations. */
module AabbProperties {
  import opened Numeric
  import opened Aabb

  /** One call of a mutator of `me.Rect`, as a value. */
  datatype RectOp =
    | SetOp(nx: real, ny: real, nw: real, nh: real)
    | TranslateOp(dx: real, dy: real)
    | UnionOp(other: RectState)
    | AdjustSizeOp(ox: real, ow: real, oy: real, oh: real)
    | FlipXOp(sw: real)
    | FlipYOp(sh: real)

  function Step(s: RectState, op: RectOp): RectState {
    match op
    case SetOp(nx, ny, nw, nh) => SetState(s, nx, ny, nw, nh)
    case TranslateOp(dx, dy) => TranslateState(s, dx, dy)
    case UnionOp(other) => UnionState(s, other)
    case AdjustSizeOp(ox, ow, oy, oh) => AdjustSizeState(s, ox, ow, oy, oh)
    case FlipXOp(sw) => FlipXState(s, sw)
    case FlipYOp(sh) => FlipYState(s, sh)
  }

  /** The state reached from `s` by running `ops` in order. */
  function Run(s: RectState, ops: seq<RectOp>): RectState
    decreases |ops|
  {
    if ops == [] then s else Run(Step(s, ops[0]), ops[1..])
  }

  // ---------------------------------------------------------------------------
  // Edge getters

  /** `adjustSize` redefines `left` exactly when it redefines `right` (and `top`
      exactly when `bottom`), so one flag per axis describes the getters. */
  lemma GettersSwitchTogether(t: RectState)
    ensures LeftGetterChanges(t) == RightGetterChanges(t)
    ensures TopGetterChanges(t) == BottomGetterChanges(t)
  {
  }

  /** `adjustSize`: an axis given `-1` keeps its offset, size, half size and
      getters; any other axis takes the given offset and size, half size
      `~~(size / 2)`, and becomes offset-active iff it was already or the new
      offset is non-zero. */
  lemma AdjustSizeAxes(s: RectState, x: real, w: real, y: real, h: real)
    ensures var t := AdjustSizeState(s, x, w, y, h);
      && (x == -1.0 ==> t.colX == s.colX && t.width == s.width && t.hWidth == s.hWidth && t.offsetX == s.offsetX)
      && (x != -1.0 ==> t.colX == x && t.width == w && t.hWidth == Half(w) && t.offsetX == (s.offsetX || x != 0.0))
      && (y == -1.0 ==> t.colY == s.colY && t.height == s.height && t.hHeight == s.hHeight && t.offsetY == s.offsetY)
      && (y != -1.0 ==> t.colY == y && t.height == h && t.hHeight == Half(h) && t.offsetY == (s.offsetY || y != 0.0))
      && t.x == s.x && t.y == s.y
  {
  }

  /** `adjustSize(-1, _, -1, _)` changes nothing. */
  lemma AdjustSizeSkipBoth(s: RectState, w: real, h: real)
    ensures AdjustSizeState(s, -1.0, w, -1.0, h) == s
  {
  }

  /** An operation that activates the X-axis offset getters. */
  predicate ActivatesX(op: RectOp) {
    op.AdjustSizeOp? && op.ox != -1.0 && op.ox != 0.0
  }

  predicate ActivatesY(op: RectOp) {
    op.AdjustSizeOp? && op.oy != -1.0 && op.oy != 0.0
  }

  /** Until an `adjustSize` with a non-zero X offset runs, `left` is `pos.x` and
      `right` is `pos.x + width`, whatever `colPos.x` holds (a `flipX` changes
      `colPos.x` and nothing visible). A fresh `init` state is such a start. */
  lemma {:induction false} PlainXUntilAdjusted(s: RectState, ops: seq<RectOp>)
    requires !s.offsetX
    requires forall i :: 0 <= i < |ops| ==> !ActivatesX(ops[i])
    ensures var t := Run(s, ops); !t.offsetX && t.Left() == t.x && t.Right() == t.x + t.width
    decreases |ops|
  {
    if ops != [] {
      if ops[0].AdjustSizeOp? {
        AdjustSizeAxes(s, ops[0].ox, ops[0].ow, ops[0].oy, ops[0].oh);
      }
      PlainXUntilAdjusted(Step(s, ops[0]), ops[1..]);
    }
  }

  lemma {:induction false} PlainYUntilAdjusted(s: RectState, ops: seq<RectOp>)
    requires !s.offsetY
    requires forall i :: 0 <= i < |ops| ==> !ActivatesY(ops[i])
    ensures var t := Run(s, ops); !t.offsetY && t.Top() == t.y && t.Bottom() == t.y + t.height
    decreases |ops|
  {
    if ops != [] {
      if ops[0].AdjustSizeOp? {
        AdjustSizeAxes(s, ops[0].ox, ops[0].ow, ops[0].oy, ops[0].oh);
      }
      PlainYUntilAdjusted(Step(s, ops[0]), ops[1..]);
    }
  }

  /** Nothing but a new `init` turns the offset getters off again. */
  lemma {:induction false} ActivationIsPermanent(s: RectState, ops: seq<RectOp>)
    ensures s.offsetX ==> Run(s, ops).offsetX
    ensures s.offsetY ==> Run(s, ops).offsetY
    decreases |ops|
  {
    if ops != [] {
      if ops[0].AdjustSizeOp? {
        AdjustSizeAxes(s, ops[0].ox, ops[0].ow, ops[0].oy, ops[0].oh);
      }
      ActivationIsPermanent(Step(s, ops[0]), ops[1..]);
    }
  }

  // ---------------------------------------------------------------------------
  // Cached half sizes

  predicate HalvesFresh(s: RectState) {
    s.hWidth == Half(s.width) && s.hHeight == Half(s.height)
  }

  /** `init`, `set`, `adjustSize` and `flipX`/`flipY` all keep the half sizes
      equal to `~~(size / 2)`; only `union` can leave them stale. */
  lemma {:induction false} HalvesStayFreshWithoutUnion(s: RectState, ops: seq<RectOp>)
    requires HalvesFresh(s)
    requires forall i :: 0 <= i < |ops| ==> !ops[i].UnionOp?
    ensures HalvesFresh(Run(s, ops))
    decreases |ops|
  {
    if ops != [] {
      if ops[0].AdjustSizeOp? {
        AdjustSizeAxes(s, ops[0].ox, ops[0].ow, ops[0].oy, ops[0].oh);
      }
      HalvesStayFreshWithoutUnion(Step(s, ops[0]), ops[1..]);
    }
  }

  /** `union` grows the box without refreshing `hWidth`. */
  lemma UnionLeavesHalvesStale()
    ensures HalvesFresh(InitState(0.0, 0.0, 2.0, 2.0))
    ensures !HalvesFresh(UnionState(InitState(0.0, 0.0, 2.0, 2.0), InitState(4.0, 0.0, 2.0, 2.0)))
  {
    assert Half(2.0) == 1.0;
  }

  // ---------------------------------------------------------------------------
  // set, translate, flip

  /** `set` replaces position and size but keeps the hit-box offset and the
      getters in force. */
  lemma SetKeepsHitbox(s: RectState, x: real, y: real, w: real, h: real)
    ensures var t := SetState(s, x, y, w, h);
      && t.colX == s.colX && t.colY == s.colY && t.offsetX == s.offsetX && t.offsetY == s.offsetY
      && t.Left() == x + (if s.offsetX then s.colX else 0.0)
      && t.Right() - t.Left() == w && HalvesFresh(t)
  {
  }

  /** `translate` moves every edge by the offset; translating back undoes it,
      and two translations add up. */
  lemma TranslateShiftsEdges(s: RectState, dx: real, dy: real)
    ensures var t := TranslateState(s, dx, dy);
      && t.Left() == s.Left() + dx && t.Right() == s.Right() + dx
      && t.Top() == s.Top() + dy && t.Bottom() == s.Bottom() + dy
      && TranslateState(t, -dx, -dy) == s
  {
  }

  lemma TranslateComposes(s: RectState, dx1: real, dy1: real, dx2: real, dy2: real)
    ensures TranslateState(TranslateState(s, dx1, dy1), dx2, dy2) == TranslateState(s, dx1 + dx2, dy1 + dy2)
  {
  }

  /** `flipX` applied twice with the same sprite width restores `colPos.x` and
      never changes `width`; `flipY` likewise. */
  lemma FlipTwiceRestores(s: RectState, sw: real, sh: real)
    ensures FlipXState(s, sw).width == s.width && FlipYState(s, sh).height == s.height
    ensures FlipXState(FlipXState(s, sw), sw) == s.(hWidth := Half(s.width))
    ensures FlipYState(FlipYState(s, sh), sh) == s.(hHeight := Half(s.height))
  {
  }

  /** With the offset getters active, `flipX` mirrors the hit box inside the
      sprite `[pos.x, pos.x + sw]`; before they are active it moves no edge. */
  lemma FlipXMirrorsActiveHitbox(s: RectState, sw: real)
    ensures var t := FlipXState(s, sw);
      && (s.offsetX ==> t.Left() - s.x == sw - (s.Right() - s.x) && t.Right() - s.x == sw - (s.Left() - s.x))
      && (!s.offsetX ==> t.Left() == s.Left() && t.Right() == s.Right())
  {
  }

  lemma FlipYMirrorsActiveHitbox(s: RectState, sh: real)
    ensures var t := FlipYState(s, sh);
      && (s.offsetY ==> t.Top() - s.y == sh - (s.Bottom() - s.y) && t.Bottom() - s.y == sh - (s.Top() - s.y))
      && (!s.offsetY ==> t.Top() == s.Top() && t.Bottom() == s.Bottom())
  {
  }

  /** Example: on a fresh 10-wide box, whose x getters are still the plain
      ones, `flipX(16)` sets `colPos.x` to 6 and `left` stays 0. */
  lemma FlipBeforeAdjustIsInvisible()
    ensures FlipXState(InitState(0.0, 0.0, 10.0, 10.0), 16.0).colX == 6.0
    ensures FlipXState(InitState(0.0, 0.0, 10.0, 10.0), 16.0).Left() == 0.0
  {
  }

  // ---------------------------------------------------------------------------
  // Queries

  lemma EqualsIsEquivalence(s: RectState, r: RectState, q: RectState)
    ensures s.Equals(s)
    ensures s.Equals(r) == r.Equals(s)
    ensures s.Equals(r) && r.Equals(q) ==> s.Equals(q)
  {
  }

  lemma OverlapsIsSymmetric(s: RectState, r: RectState)
    ensures s.Overlaps(r) == r.Overlaps(s)
  {
  }

  /** A point strictly inside a box. */
  predicate StrictlyInside(s: RectState, px: real, py: real) {
    s.Left() < px < s.Right() && s.Top() < py < s.Bottom()
  }

  /** For boxes of positive size, `overlaps` holds exactly when some point lies
      strictly inside both; a common interior point always implies overlap. */
  lemma OverlapsIffCommonInterior(s: RectState, r: RectState)
    ensures (exists px, py :: StrictlyInside(s, px, py) && StrictlyInside(r, px, py)) ==> s.Overlaps(r)
    ensures s.width > 0.0 && s.height > 0.0 && r.width > 0.0 && r.height > 0.0 && s.Overlaps(r) ==>
              exists px, py :: StrictlyInside(s, px, py) && StrictlyInside(r, px, py)
  {
    if s.width > 0.0 && s.height > 0.0 && r.width > 0.0 && r.height > 0.0 && s.Overlaps(r) {
      var lo, hi := Max(s.Left(), r.Left()), Min(s.Right(), r.Right());
      var top, bottom := Max(s.Top(), r.Top()), Min(s.Bottom(), r.Bottom());
      assert lo < hi && top < bottom;
      var px, py := (lo + hi) / 2.0, (top + bottom) / 2.0;
      assert StrictlyInside(s, px, py) && StrictlyInside(r, px, py);
    }
  }

  /** Sizes are not validated: a box of width zero has no interior point and
      still overlaps a box around it. */
  lemma ZeroWidthBoxOverlaps()
    ensures InitState(0.0, 0.0, 0.0, 10.0).Overlaps(InitState(-5.0, 0.0, 10.0, 10.0))
  {
  }

  predicate NonEmpty(s: RectState) {
    s.Left() <= s.Right() && s.Top() <= s.Bottom()
  }

  /** For a box of non-negative size, `containsPoint` includes all four edges,
      corners too. */
  lemma ContainsPointIncludesEdges(s: RectState)
    requires NonEmpty(s)
    ensures forall py :: s.Top() <= py <= s.Bottom() ==> s.ContainsPoint(s.Left(), py) && s.ContainsPoint(s.Right(), py)
    ensures forall px :: s.Left() <= px <= s.Right() ==> s.ContainsPoint(px, s.Top()) && s.ContainsPoint(px, s.Bottom())
  {
  }

  /** For a non-empty box, `within` holds exactly when every point the box
      contains is contained by the other box. */
  lemma WithinIffPointsContained(s: RectState, r: RectState)
    requires NonEmpty(s)
    ensures s.Within(r) <==> forall px, py :: s.ContainsPoint(px, py) ==> r.ContainsPoint(px, py)
  {
    if forall px, py :: s.ContainsPoint(px, py) ==> r.ContainsPoint(px, py) {
      assert s.ContainsPoint(s.Left(), s.Top());
      assert s.ContainsPoint(s.Right(), s.Bottom());
    }
  }

  // ---------------------------------------------------------------------------
  // union

  /** The box `union` works on: position and size, ignoring the hit box. */
  predicate PosWithin(a: RectState, b: RectState) {
    b.x <= a.x && a.x + a.width <= b.x + b.width && b.y <= a.y && a.y + a.height <= b.y + b.height
  }

  predicate WholeBox(s: RectState) {
    IsWhole(s.x) && IsWhole(s.y) && IsWhole(s.width) && IsWhole(s.height)
  }

  /** `union` never touches the hit box, the getters or the half sizes. */
  lemma UnionKeepsHitbox(s: RectState, r: RectState)
    ensures var u := UnionState(s, r);
      u.colX == s.colX && u.colY == s.colY && u.offsetX == s.offsetX && u.offsetY == s.offsetY
      && u.hWidth == s.hWidth && u.hHeight == s.hHeight
  {
  }

  /** On whole-number boxes the rounding is exact: the union's origin is the
      smaller origin and its far edge the larger far edge. */
  lemma UnionOfWholeBoxes(s: RectState, r: RectState)
    requires WholeBox(s) && WholeBox(r)
    ensures var u := UnionState(s, r);
      && u.x == Min(s.x, r.x) && u.x + u.width == Max(s.x + s.width, r.x + r.width)
      && u.y == Min(s.y, r.y) && u.y + u.height == Max(s.y + s.height, r.y + r.height)
      && WholeBox(u)
  {
    var x1, y1 := Min(s.x, r.x), Min(s.y, r.y);
    var x2, y2 := Max(s.x + s.width, r.x + r.width), Max(s.y + s.height, r.y + r.height);
    WholeArithmetic(s.x, s.width);
    WholeArithmetic(r.x, r.width);
    WholeArithmetic(s.y, s.height);
    WholeArithmetic(r.y, r.height);
    WholeArithmetic(x2, x1);
    WholeArithmetic(y2, y1);
    TruncOfWhole(x1);
    TruncOfWhole(y1);
    CeilOfWhole(x2 - x1);
    CeilOfWhole(y2 - y1);
  }

  /** With whole-number inputs both boxes lie inside their union. */
  lemma UnionCoversWholeBoxes(s: RectState, r: RectState)
    requires WholeBox(s) && WholeBox(r)
    ensures PosWithin(s, UnionState(s, r)) && PosWithin(r, UnionState(s, r))
  {
    UnionOfWholeBoxes(s, r);
  }

  /** With whole-number inputs, uniting again with the same box changes nothing. */
  lemma UnionIdempotentOnWholeBoxes(s: RectState, r: RectState)
    requires WholeBox(s) && WholeBox(r)
    ensures UnionState(UnionState(s, r), r) == UnionState(s, r)
  {
    var u := UnionState(s, r);
    UnionOfWholeBoxes(s, r);
    UnionOfWholeBoxes(u, r);
  }

  /** The origin is truncated toward zero, not floored: a box at x = -0.5 is
      not inside its union with itself, which starts at 0. */
  lemma UnionTruncationDropsNegativeFraction()
    ensures var s := InitState(-0.5, 0.0, 1.0, 1.0);
      UnionState(s, s).x == 0.0 && !PosWithin(s, UnionState(s, s))
  {
    assert Trunc(-0.5) == 0;
  }

  // ---------------------------------------------------------------------------
  // collideVsAABB

  /** Half sizes that are exactly half the sizes (even whole sizes, say). */
  predicate ExactHalves(s: RectState) {
    2.0 * s.hWidth == s.width && 2.0 * s.hHeight == s.height
  }

  /** A tie in penetration depth resolves on the Y axis. */
  lemma CollisionTieGoesToY(s: RectState, r: RectState)
    requires s.Overlaps(r) && s.PenetrationX(r) == s.PenetrationY(r)
    ensures s.CollideVsAabb(r).0 == 0.0
    ensures s.CollideVsAabb(r).1 == (if s.DeltaY(r) < 0.0 then -s.PenetrationY(r) else s.PenetrationY(r))
  {
  }

  /** When the chosen axis has a positive penetration, the response on it is
      non-zero and negative exactly when this box's centre lies before the
      other's: the push points away from the other box. */
  lemma SignWhenPenetrating(s: RectState, r: RectState)
    requires s.Overlaps(r)
    ensures var p := s.CollideVsAabb(r);
      && (0.0 < s.PenetrationX(r) < s.PenetrationY(r) ==> p.0 != 0.0 && (p.0 < 0.0 <==> s.DeltaX(r) < 0.0))
      && (0.0 < s.PenetrationY(r) <= s.PenetrationX(r) ==> p.1 != 0.0 && (p.1 < 0.0 <==> s.DeltaY(r) < 0.0))
  {
  }

  /** With exact half sizes, overlapping boxes always get a non-zero response
      pointing away from the other box (negative exactly when this box's centre
      lies before the other's), and moving the box by it leaves the two boxes
      touching but no longer overlapping. */
  lemma CollisionResponseSeparates(s: RectState, r: RectState)
    requires ExactHalves(s) && ExactHalves(r) && s.Overlaps(r)
    ensures var p := s.CollideVsAabb(r);
      && p != (0.0, 0.0)
      && (p.0 != 0.0 ==> (p.0 < 0.0 <==> s.DeltaX(r) < 0.0))
      && (p.1 != 0.0 ==> (p.1 < 0.0 <==> s.DeltaY(r) < 0.0))
      && !TranslateState(s, p.0, p.1).Overlaps(r)
  {
    var p := s.CollideVsAabb(r);
    assert s.PenetrationX(r) > 0.0 && s.PenetrationY(r) > 0.0;
    TranslateShiftsEdges(s, p.0, p.1);
  }

  /** Boxes at (0,0) and (5,5), both 10 by 10: equal penetration 5 on both axes,
      so the response is on Y, pointing up. */
  lemma CollisionExample()
    ensures InitState(0.0, 0.0, 10.0, 10.0).Overlaps(InitState(5.0, 5.0, 10.0, 10.0))
    ensures InitState(0.0, 0.0, 10.0, 10.0).CollideVsAabb(InitState(5.0, 5.0, 10.0, 10.0)) == (0.0, -5.0)
  {
    assert Half(10.0) == 5.0;
  }

  /** Without exact halves the response can point toward the other box: two
      3 by 10 boxes at x = 0 and x = 2.5 have half width 1, penetration -0.5 on
      X, and the box on the left gets (0.5, 0), a push to the right. */
  lemma OddSizePushesTowardOther()
    ensures var s, r := InitState(0.0, 0.0, 3.0, 10.0), InitState(2.5, 0.0, 3.0, 10.0);
      && s.Overlaps(r)
      && s.DeltaX(r) < 0.0
      && s.CollideVsAabb(r) == (0.5, 0.0)
  {
    assert Half(3.0) == 1.0;
    assert Half(10.0) == 5.0;
  }

  /** Two 1 by 1 boxes on the same spot overlap, but their half sizes truncate
      to 0, so the response is (0, 0): no collision is reported. */
  lemma CoincidentUnitBoxesGetNoPush()
    ensures var s := InitState(0.0, 0.0, 1.0, 1.0);
      && s.Overlaps(s)
      && s.CollideVsAabb(s) == (0.0, 0.0)
  {
    assert Half(1.0) == 0.0;
  }
}
