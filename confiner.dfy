/** The boundary rule shared by the game and the animation demos: a coordinate
    that has left [minimum, maximum] either rebounds (it is put back on the
    bound it crossed and its increment changes sign) or wraps round (it
    reappears on the opposite bound and keeps its increment). */
module Confinement {
  import opened Geometry

  /** Python's arithmetic on a comparison result: True is 1, False is 0. */
  function Flag(b: bool): int { if b then 1 else 0 }

  /** `confiner(current, delta, minimum, maximum, bounce)`. The out-of-range
      branches keep the source's arithmetic on comparison results, so the
      result is also defined when minimum > maximum. */
  function Confiner(current: int, delta: int, minimum: int, maximum: int, bounce: bool): (r: (int, int))
    ensures minimum <= current <= maximum ==> r == (current, delta)
    ensures minimum <= maximum && current < minimum ==>
              r == (if bounce then (minimum, -delta) else (maximum, delta))
    ensures minimum <= maximum && current > maximum ==>
              r == (if bounce then (maximum, -delta) else (minimum, delta))
    ensures minimum <= maximum ==> minimum <= r.0 <= maximum
    ensures r.1 == delta || (r.1 == -delta && bounce && !(minimum <= current <= maximum))
  {
    if minimum <= current <= maximum then
      (current, delta)
    else if bounce then
      (minimum * Flag(current < minimum) + maximum * Flag(current > maximum), -delta)
    else
      (maximum * Flag(current < minimum) + minimum * Flag(current > maximum), delta)
  }

  /** With an empty range (maximum < minimum) no coordinate is in range: the
      bounce rule negates every increment, and a coordinate strictly between
      the two bounds is sent to their sum. */
  lemma ConfinerEmptyRange(current: int, delta: int, minimum: int, maximum: int)
    requires maximum < minimum
    ensures Confiner(current, delta, minimum, maximum, true).1 == -delta
    ensures Confiner(current, delta, minimum, maximum, false).1 == delta
    ensures maximum < current < minimum ==>
              Confiner(current, delta, minimum, maximum, true).0 == minimum + maximum &&
              Confiner(current, delta, minimum, maximum, false).0 == minimum + maximum
    ensures current <= maximum ==> Confiner(current, delta, minimum, maximum, true).0 == minimum
    ensures current >= minimum ==> Confiner(current, delta, minimum, maximum, true).0 == maximum
  {
  }

  /** A rectangle and its velocity, the state the centre-based movers keep. */
  datatype Motion = Motion(rect: Rect, dx: int, dy: int)

  /** `confine()` of the centre-based movers: the centre's x is confined to
      [0, maxX], then the centre's y to [0, maxY], always with rebound. */
  function ConfineCentre(m: Motion, maxX: int, maxY: int): (r: Motion)
    requires 0 <= maxX && 0 <= maxY
    ensures 0 <= r.rect.CenterX() <= maxX && 0 <= r.rect.CenterY() <= maxY
    ensures r.rect.w == m.rect.w && r.rect.h == m.rect.h
    ensures 0 <= m.rect.CenterX() <= maxX ==> r.rect.x == m.rect.x && r.dx == m.dx
    ensures 0 <= m.rect.CenterY() <= maxY ==> r.rect.y == m.rect.y && r.dy == m.dy
    ensures !(0 <= m.rect.CenterX() <= maxX) ==> r.dx == -m.dx
    ensures !(0 <= m.rect.CenterY() <= maxY) ==> r.dy == -m.dy
  {
    var (cx, dx) := Confiner(m.rect.CenterX(), m.dx, 0, maxX, true);
    var r1 := m.rect.WithCenterX(cx);
    var (cy, dy) := Confiner(r1.CenterY(), m.dy, 0, maxY, true);
    Motion(r1.WithCenterY(cy), dx, dy)
  }

  /** `update()` of the centre-based movers without life: move by the
      velocity, then confine the centre. The centre ends on screen, the size
      is kept, and on each axis either the move is plain addition or the
      velocity on that axis, and only that one, is negated. */
  function CentredStep(m: Motion, maxX: int, maxY: int): (r: Motion)
    requires 0 <= maxX && 0 <= maxY
    ensures 0 <= r.rect.CenterX() <= maxX && 0 <= r.rect.CenterY() <= maxY
    ensures r.rect.w == m.rect.w && r.rect.h == m.rect.h
    ensures 0 <= m.rect.CenterX() + m.dx <= maxX ==> r.rect.x == m.rect.x + m.dx && r.dx == m.dx
    ensures 0 <= m.rect.CenterY() + m.dy <= maxY ==> r.rect.y == m.rect.y + m.dy && r.dy == m.dy
    ensures m.rect.CenterX() + m.dx < 0 ==> r.rect.CenterX() == 0 && r.dx == -m.dx
    ensures m.rect.CenterX() + m.dx > maxX ==> r.rect.CenterX() == maxX && r.dx == -m.dx
    ensures m.rect.CenterY() + m.dy < 0 ==> r.rect.CenterY() == 0 && r.dy == -m.dy
    ensures m.rect.CenterY() + m.dy > maxY ==> r.rect.CenterY() == maxY && r.dy == -m.dy
  {
    ConfineCentre(Motion(m.rect.Translated(m.dx, m.dy), m.dx, m.dy), maxX, maxY)
  }
}
