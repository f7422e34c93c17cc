/** The engine's two-component vector, reduced to what the shapes use of it:
    its coordinates, component-wise `add` and `clone`. */
module Vector {

  class Vec {
    var x: real
    var y: real

    constructor (x: real, y: real)
      ensures this.x == x && this.y == y
    {
      this.x := x;
      this.y := y;
    }

    /** `add`: adds `v` component-wise, in place (`v` may be this very vector). */
    method Add(v: Vec)
      modifies this
      ensures x == old(x) + old(v.x) && y == old(y) + old(v.y)
    {
      x, y := x + v.x, y + v.y;
    }

    /** `clone`: a fresh vector with the same coordinates. */
    method Clone() returns (c: Vec)
      ensures fresh(c) && c.x == x && c.y == y
    {
      c := new Vec(x, y);
    }
  }
}
