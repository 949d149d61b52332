/** The trailing-blocks demo: an 800 by 600 window of home-made sprites
    whose centres rebound off the window edges. */
module MovingThingsAgain {
  import opened Geometry
  import opened Confinement

  const WIDTH: int := 800
  const HEIGHT: int := 600

  /** `Movable`: a rectangle and a velocity; the colour is not modelled. */
  class Movable {
    var rect: Rect
    var dx: int
    var dy: int

    function AsMotion(): Motion
      reads this
    {
      Motion(rect, dx, dy)
    }

    /** `Movable(x, y, width, height, dx, dy)`: (x, y) is the centre. */
    constructor (x: int := 0, y: int := 3, width: nat := 16, height: nat := 16, dx: int := 4, dy: int := 3)
      ensures rect.CenterX() == x && rect.CenterY() == y
      ensures rect.w == width && rect.h == height
      ensures this.dx == dx && this.dy == dy
    {
      this.dx, this.dy := dx, dy;
      rect := CentredAt(x, y, width, height);
    }

    /** `confine()`: the centre is confined to [0, WIDTH] x [0, HEIGHT] with
        the default rebound. */
    method Confine()
      modifies this
      ensures AsMotion() == ConfineCentre(old(AsMotion()), WIDTH, HEIGHT)
    {
      var (cx, ndx) := Confiner(rect.CenterX(), dx, 0, WIDTH, true);
      rect, dx := rect.WithCenterX(cx), ndx;
      var (cy, ndy) := Confiner(rect.CenterY(), dy, 0, HEIGHT, true);
      rect, dy := rect.WithCenterY(cy), ndy;
    }

    /** `update()`: move by the velocity, then confine. The centre ends on
        the window, and a velocity component changes sign exactly when the
        move took the centre off the window on that axis. */
    method Update()
      modifies this
      ensures AsMotion() == CentredStep(old(AsMotion()), WIDTH, HEIGHT)
      ensures 0 <= rect.CenterX() <= WIDTH && 0 <= rect.CenterY() <= HEIGHT
      ensures dx == if 0 <= old(rect.CenterX() + dx) <= WIDTH then old(dx) else -old(dx)
      ensures dy == if 0 <= old(rect.CenterY() + dy) <= HEIGHT then old(dy) else -old(dy)
    {
      rect := rect.Translated(dx, dy);
      Confine();
    }
  }
}
