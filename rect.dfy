/** The engine's axis-aligned rectangle (`me.Rect`, src/math/shape.js).

    A rectangle tracks a position vector that it BORROWS from its creator: the
    same object, not a copy, so moving that vector moves the rectangle and
    `Translate` moves every other holder of the vector too. Beside it the box
    keeps a hit-box offset (`colPos`), its size and cached half sizes.

    The four edges are getters whose formula the source swaps at run time: at
    first `left` is `pos.x`, and only an `adjustSize` that gives the X axis a
    non-zero offset redefines `left`/`right` to add `colPos.x` (the Y axis
    likewise). Nothing switches them back except a new `init`. The model keeps
    one flag per axis, `offsetX`/`offsetY`, saying which formula is in force.

    `RectState` is a value snapshot of a rectangle; each mutator of the class
    `Rect` is specified by a function from the old snapshot to the new one, and
    the queries (`equals`, `overlaps`, ...) are predicates on snapshots. */
module Aabb {
  import opened Numeric
  import opened Vector

  /** `~~(size / 2)`, the cached half size. */
  function Half(size: real): real {
    Trunc(size / 2.0) as real
  }

  datatype RectState = RectState(
    x: real, y: real,          // pos.x, pos.y (the borrowed vector's coordinates)
    colX: real, colY: real,    // colPos, the hit-box offset relative to pos
    width: real, height: real,
    hWidth: real, hHeight: real,
    offsetX: bool,             // left/right getters add colPos.x
    offsetY: bool)             // top/bottom getters add colPos.y
  {
    /** `left`: `pos.x`, plus the hit-box offset `colPos.x` once `adjustSize`
        has switched the x getters. */
    function Left(): (l: real)
      ensures !offsetX ==> l == x
      ensures offsetX ==> l - x == colX
    {
      if offsetX then x + colX else x
    }

    /** `right`: whichever getters are in force, it lies `width` after `left`. */
    function Right(): (r: real)
      ensures r - Left() == width
    {
      if offsetX then x + colX + width else x + width
    }

    /** `top`: `pos.y`, plus `colPos.y` once the y getters are switched. */
    function Top(): (t: real)
      ensures !offsetY ==> t == y
      ensures offsetY ==> t - y == colY
    {
      if offsetY then y + colY else y
    }

    /** `bottom`: it lies `height` below `top`. */
    function Bottom(): (b: real)
      ensures b - Top() == height
    {
      if offsetY then y + colY + height else y + height
    }

    /** `equals`: the four edges coincide, which is each box lying within the
        other. */
    predicate Equals(r: RectState)
      ensures Equals(r) <==> Within(r) && r.Within(this)
    {
      Left() == r.Left() && Right() == r.Right() && Top() == r.Top() && Bottom() == r.Bottom()
    }

    /** `overlaps`: strict on every side, so boxes that share only an edge do
        not overlap, and a box overlaps itself exactly when its size is
        positive. */
    predicate Overlaps(r: RectState)
      ensures Right() == r.Left() || r.Right() == Left() || Bottom() == r.Top() || r.Bottom() == Top() ==>
                !Overlaps(r)
      ensures r == this ==> (Overlaps(r) <==> width > 0.0 && height > 0.0)
    {
      Left() < r.Right() && r.Left() < Right() && Top() < r.Bottom() && r.Top() < Bottom()
    }

    /** `within`: this box lies inside `r`, edges included; it is `contains`
        with the two boxes swapped. */
    predicate Within(r: RectState)
      ensures Within(r) <==> r.Contains(this)
    {
      r.Left() <= Left() && r.Right() >= Right() && r.Top() <= Top() && r.Bottom() >= Bottom()
    }

    /** `contains`: `r` lies inside this box, edges included. For `r` of
        non-negative size that is both of its corners being points of this box. */
    predicate Contains(r: RectState)
      ensures ContainsPoint(r.Left(), r.Top()) && ContainsPoint(r.Right(), r.Bottom()) ==> Contains(r)
      ensures r.width >= 0.0 && r.height >= 0.0 && Contains(r) ==>
                ContainsPoint(r.Left(), r.Top()) && ContainsPoint(r.Right(), r.Bottom())
    {
      r.Left() >= Left() && r.Right() <= Right() && r.Top() >= Top() && r.Bottom() <= Bottom()
    }

    /** `containsPoint(px, py)`; `containsPointV(v)` is this on `v.x, v.y`.
        Edges are included, and a box of negative size contains no point. */
    predicate ContainsPoint(px: real, py: real)
      ensures ContainsPoint(px, py) ==> width >= 0.0 && height >= 0.0
      ensures width >= 0.0 && height >= 0.0 && (px == Left() || px == Right()) && (py == Top() || py == Bottom()) ==>
                ContainsPoint(px, py)
    {
      px >= Left() && px <= Right() && py >= Top() && py <= Bottom()
    }

    /** Centre-to-centre distances and penetration depths used by `collideVsAABB`;
        the centres are taken as `left + hWidth` and `top + hHeight`. */
    function DeltaX(r: RectState): real {
      Left() + hWidth - r.Left() - r.hWidth
    }

    function DeltaY(r: RectState): real {
      Top() + hHeight - r.Top() - r.hHeight
    }

    function PenetrationX(r: RectState): real {
      (r.hWidth + hWidth) - Abs(DeltaX(r))
    }

    function PenetrationY(r: RectState): real {
      (r.hHeight + hHeight) - Abs(DeltaY(r))
    }

    /** `collideVsAABB`: the response vector. Zero when the boxes do not overlap;
        otherwise only the axis of strictly smaller penetration survives (a tie
        goes to Y), negated when this box's centre lies before the other's. */
    function CollideVsAabb(r: RectState): (p: (real, real))
      ensures !Overlaps(r) ==> p == (0.0, 0.0)
      ensures p.0 == 0.0 || p.1 == 0.0
      ensures p.0 != 0.0 ==> PenetrationX(r) < PenetrationY(r)
      ensures Overlaps(r) && PenetrationX(r) < PenetrationY(r) ==>
                p.0 == (if DeltaX(r) < 0.0 then -PenetrationX(r) else PenetrationX(r)) && p.1 == 0.0
      ensures Overlaps(r) && PenetrationY(r) <= PenetrationX(r) ==>
                p.0 == 0.0 && p.1 == (if DeltaY(r) < 0.0 then -PenetrationY(r) else PenetrationY(r))
    {
      if !Overlaps(r) then (0.0, 0.0)
      else
        var dx := DeltaX(r);
        var dy := DeltaY(r);
        var px := PenetrationX(r);
        var py := PenetrationY(r);
        if px < py then (if dx < 0.0 then -px else px, 0.0)
        else (0.0, if dy < 0.0 then -py else py)
    }
  }

  /** `init(v, w, h)`: no hit-box offset, plain edge getters. */
  function InitState(x: real, y: real, w: real, h: real): RectState {
    RectState(x, y, 0.0, 0.0, w, h, Half(w), Half(h), false, false)
  }

  /** `set(v, w, h)`: a new position vector and size; the hit-box offset and the
      edge getters are left as they are. */
  function SetState(s: RectState, x: real, y: real, w: real, h: real): RectState {
    s.(x := x, y := y, width := w, height := h, hWidth := Half(w), hHeight := Half(h))
  }

  /** `translate(dx, dy)` and `translateV`: moves the position vector. */
  function TranslateState(s: RectState, dx: real, dy: real): RectState {
    s.(x := s.x + dx, y := s.y + dy)
  }

  /** `union(r)`: works on the positions (not the edges), rounds the extents up
      and truncates the origin toward zero; half sizes are not refreshed. */
  function UnionState(s: RectState, r: RectState): RectState {
    var x1 := Min(s.x, r.x);
    var y1 := Min(s.y, r.y);
    s.(width := Ceil(Max(s.x + s.width, r.x + r.width) - x1) as real,
       height := Ceil(Max(s.y + s.height, r.y + r.height) - y1) as real,
       x := Trunc(x1) as real,
       y := Trunc(y1) as real)
  }

  /** The test `adjustSize` makes, after storing the new offset and size, to
      decide whether to redefine `left` (`this.left !== pos.x + colPos.x`). */
  predicate LeftGetterChanges(t: RectState) {
    t.Left() != t.x + t.colX
  }

  /** The same test for `right`. */
  predicate RightGetterChanges(t: RectState) {
    t.Right() != t.x + t.colX + t.width
  }

  predicate TopGetterChanges(t: RectState) {
    t.Top() != t.y + t.colY
  }

  predicate BottomGetterChanges(t: RectState) {
    t.Bottom() != t.y + t.colY + t.height
  }

  /** `adjustSize(x, w, y, h)` on the X axis; `-1` leaves the axis alone. */
  function AdjustX(s: RectState, x: real, w: real): RectState {
    if x != -1.0 then
      var t := s.(colX := x, width := w, hWidth := Half(w));
      t.(offsetX := t.offsetX || LeftGetterChanges(t) || RightGetterChanges(t))
    else s
  }

  /** `adjustSize(x, w, y, h)` on the Y axis; `-1` leaves the axis alone. */
  function AdjustY(s: RectState, y: real, h: real): RectState {
    if y != -1.0 then
      var t := s.(colY := y, height := h, hHeight := Half(h));
      t.(offsetY := t.offsetY || TopGetterChanges(t) || BottomGetterChanges(t))
    else s
  }

  /** `adjustSize(x, w, y, h)`: the X axis first, then the Y axis. */
  function AdjustSizeState(s: RectState, x: real, w: real, y: real, h: real): RectState {
    AdjustY(AdjustX(s, x, w), y, h)
  }

  /** `flipX(sw)`: mirrors the hit-box offset inside a sprite `sw` wide. */
  function FlipXState(s: RectState, sw: real): RectState {
    s.(colX := sw - s.width - s.colX, hWidth := Half(s.width))
  }

  /** `flipY(sh)`: mirrors the hit-box offset inside a sprite `sh` high. */
  function FlipYState(s: RectState, sh: real): RectState {
    s.(colY := sh - s.height - s.colY, hHeight := Half(s.height))
  }

  /** A rectangle: the borrowed position vector plus the box's own fields. */
  class Rect {
    var pos: Vec
    var colX: real
    var colY: real
    var width: real
    var height: real
    var hWidth: real
    var hHeight: real
    var offsetX: bool
    var offsetY: bool

    /** The current snapshot, read through the borrowed vector. */
    function State(): RectState
      reads this, pos
    {
      RectState(pos.x, pos.y, colX, colY, width, height, hWidth, hHeight, offsetX, offsetY)
    }

    /** `new me.Rect(v, w, h)`: keeps `v` itself, not a copy. */
    constructor (v: Vec, w: real, h: real)
      ensures pos == v && State() == InitState(v.x, v.y, w, h)
    {
      pos := v;
      colX, colY := 0.0, 0.0;
      width, height := w, h;
      hWidth, hHeight := Half(w), Half(h);
      offsetX, offsetY := false, false;
    }

    /** `init(v, w, h)` run again on an existing rectangle: a fresh zero offset
        and the plain edge getters. */
    method Init(v: Vec, w: real, h: real)
      modifies this
      ensures pos == v && State() == InitState(v.x, v.y, w, h)
    {
      pos := v;
      colX, colY := 0.0, 0.0;
      width, height := w, h;
      hWidth, hHeight := Half(w), Half(h);
      offsetX, offsetY := false, false;
    }

    /** `set(v, w, h)` */
    method Set(v: Vec, w: real, h: real)
      modifies this
      ensures pos == v && State() == SetState(old(State()), v.x, v.y, w, h)
    {
      pos := v;
      width, height := w, h;
      hWidth, hHeight := Half(w), Half(h);
    }

    /** `getRect()`: a new rectangle over a COPY of the position; it starts
        with no hit-box offset. */
    method GetRect() returns (r: Rect)
      ensures fresh(r) && fresh(r.pos) && r.pos != pos
      ensures r.State() == InitState(pos.x, pos.y, width, height)
    {
      var v := pos.Clone();
      r := new Rect(v, width, height);
    }

    /** `translate(dx, dy)`: moves the shared position vector in place. */
    method Translate(dx: real, dy: real)
      modifies pos
      ensures State() == TranslateState(old(State()), dx, dy)
    {
      pos.x := pos.x + dx;
      pos.y := pos.y + dy;
    }

    /** `translateV(v)`: `pos.add(v)`. */
    method TranslateV(v: Vec)
      modifies pos
      ensures State() == TranslateState(old(State()), old(v.x), old(v.y))
    {
      pos.Add(v);
    }

    /** `union(r)`; `r` may share this box's vector or be this very box. */
    method Union(r: Rect)
      modifies this, pos
      ensures pos == old(pos)
      ensures State() == UnionState(old(State()), old(r.State()))
    {
      var x1 := Min(pos.x, r.pos.x);
      var y1 := Min(pos.y, r.pos.y);
      width := Ceil(Max(pos.x + width, r.pos.x + r.width) - x1) as real;
      height := Ceil(Max(pos.y + height, r.pos.y + r.height) - y1) as real;
      pos.x := Trunc(x1) as real;
      pos.y := Trunc(y1) as real;
    }

    /** `adjustSize(x, w, y, h)` */
    method AdjustSize(x: real, w: real, y: real, h: real)
      modifies this
      ensures pos == old(pos)
      ensures State() == AdjustSizeState(old(State()), x, w, y, h)
    {
      if x != -1.0 {
        colX := x;
        width := w;
        hWidth := Half(width);
        if State().Left() != pos.x + colX || State().Right() != pos.x + colX + width {
          offsetX := true;
        }
      }
      if y != -1.0 {
        colY := y;
        height := h;
        hHeight := Half(height);
        if State().Top() != pos.y + colY || State().Bottom() != pos.y + colY + height {
          offsetY := true;
        }
      }
    }

    /** `flipX(sw)` */
    method FlipX(sw: real)
      modifies this
      ensures pos == old(pos)
      ensures State() == FlipXState(old(State()), sw)
    {
      colX := sw - width - colX;
      hWidth := Half(width);
    }

    /** `flipY(sh)` */
    method FlipY(sh: real)
      modifies this
      ensures pos == old(pos)
      ensures State() == FlipYState(old(State()), sh)
    {
      colY := sh - height - colY;
      hHeight := Half(height);
    }
  }

  /** Two rectangles built over one vector move together, while a box from
      `GetRect` does not follow them. */
  method SharedPositionMovesBoth(v: Vec) returns (a: Rect, b: Rect, c: Rect)
    modifies v
    ensures a.pos == b.pos == v && c.pos != v
    ensures a.State().Left() == b.State().Left() == old(v.x) + 5.0
    ensures c.State().Left() == old(v.x)
  {
    a := new Rect(v, 10.0, 10.0);
    b := new Rect(v, 4.0, 4.0);
    c := a.GetRect();
    a.Translate(5.0, 0.0);
  }
}
