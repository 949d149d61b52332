/** The pygame-sprite demo: sprites slide right across a 1280 by 720 window
    and, once past the right edge, restart just off the left edge. */
module MovingSprites {
  import opened Geometry

  const WIDTH: int := 1280
  const HEIGHT: int := 720

  /** One horizontal update of a rectangle of width w at x: add dx, and
      when the result is past WIDTH restart at -w. */
  function Slide(x: int, dx: int, w: nat): (r: int)
    ensures r <= WIDTH
    ensures x + dx <= WIDTH ==> r == x + dx
    ensures x + dx > WIDTH ==> r == -(w as int)
  {
    if x + dx > WIDTH then -(w as int) else x + dx
  }

  /** n successive horizontal updates. */
  function Slides(x: int, dx: int, w: nat, n: nat): int
  {
    if n == 0 then x else Slide(Slides(x, dx, w, n - 1), dx, w)
  }

  /** A sprite moving right that starts no further left than -w never goes
      further left than -w, and after its first update stays within
      [-w, WIDTH] however many updates it takes. */
  lemma {:induction false} SlidesStayInBand(x: int, dx: int, w: nat, n: nat)
    requires dx >= 0 && x >= -(w as int)
    ensures -(w as int) <= Slides(x, dx, w, n)
    ensures n > 0 ==> Slides(x, dx, w, n) <= WIDTH
  {
    if n > 0 {
      SlidesStayInBand(x, dx, w, n - 1);
    }
  }

  /** `Sprite`: a rectangle and a horizontal speed; image, colour key and
      transparency are not modelled. */
  class Sprite {
    var rect: Rect
    var dx: int

    /** `Sprite(x, y, dx, dy, colour, height, width)` with no angle: (x, y)
        is the top-left corner. `dy` is accepted and never used. */
    constructor (x: int := 0, y: int := 0, dx: int := 0, dy: int := 0, height: nat := 64, width: nat := 64)
      ensures rect == Rect(x, y, width, height) && this.dx == dx
    {
      this.dx := dx;
      rect := Rect(x, y, width, height);
    }

    /** `rotate(angle)`: the rotated image has size (nw, nh), which only
        pygame knows; the new rectangle keeps the old centre. */
    method Rotate(nw: nat, nh: nat)
      modifies this
      ensures rect.w == nw && rect.h == nh
      ensures rect.CenterX() == old(rect.CenterX()) && rect.CenterY() == old(rect.CenterY())
      ensures dx == old(dx)
    {
      var centre := (rect.CenterX(), rect.CenterY());
      rect := CentredAt(centre.0, centre.1, nw, nh);
    }

    /** `update()`: x takes one `Slide`; y, the size and the speed are kept. */
    method Update()
      modifies this
      ensures rect == old(rect).(x := Slide(old(rect.x), old(dx), old(rect.w)))
      ensures rect.x <= WIDTH
      ensures dx == old(dx)
    {
      rect := rect.(x := rect.x + dx);
      if rect.x > WIDTH {
        rect := rect.(x := -(rect.w as int));
      }
    }
  }
}
