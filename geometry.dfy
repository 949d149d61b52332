/** Axis-aligned screen rectangles with integer coordinates, as pygame's Rect
    keeps them: a top-left corner (x, y) and a size (w, h). The centre is
    derived with integer division, and assigning a centre moves the corner
    and keeps the size. */
module Geometry {

  datatype Rect = Rect(x: int, y: int, w: nat, h: nat) {

    function CenterX(): int { x + w / 2 }

    function CenterY(): int { y + h / 2 }

    /** `rect.centerx = cx`: only x moves. */
    function WithCenterX(cx: int): (r: Rect)
      ensures r.CenterX() == cx && r.y == y && r.w == w && r.h == h
    {
      Rect(cx - w / 2, y, w, h)
    }

    /** `rect.centery = cy`: only y moves. */
    function WithCenterY(cy: int): (r: Rect)
      ensures r.CenterY() == cy && r.x == x && r.w == w && r.h == h
    {
      Rect(x, cy - h / 2, w, h)
    }

    /** `rect.x += dx; rect.y += dy`. */
    function Translated(dx: int, dy: int): (r: Rect)
      ensures r.w == w && r.h == h
      ensures r.CenterX() == CenterX() + dx && r.CenterY() == CenterY() + dy
    {
      Rect(x + dx, y + dy, w, h)
    }

    /** A new rectangle of size (nw, nh) that takes over this one's centre:
        `rect = image.get_rect(); rect.center = original_centre`. */
    function Recentred(nw: nat, nh: nat): (r: Rect)
      ensures r.w == nw && r.h == nh
      ensures r.CenterX() == CenterX() && r.CenterY() == CenterY()
    {
      Rect(CenterX() - nw / 2, CenterY() - nh / 2, nw, nh)
    }
  }

  /** `rect.center = (cx, cy)` on a rectangle of size (w, h). */
  function CentredAt(cx: int, cy: int, w: nat, h: nat): (r: Rect)
    ensures r.CenterX() == cx && r.CenterY() == cy && r.w == w && r.h == h
  {
    Rect(cx - w / 2, cy - h / 2, w, h)
  }
}
