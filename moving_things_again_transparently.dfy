/** The translucent-rectangles demo: a 1280 by 800 window of home-made
    sprites whose centres rebound off the window edges, a trail of 64 of
    them and 32 more with random position and random non-zero velocity. */
module TransparentThings {
  import opened Geometry
  import opened Confinement

  const WIDTH: int := 1280
  const HEIGHT: int := 800

  /** The velocity loop accepts a draw exactly when dx + dy != 0, so a
      draw with dx == -dy is rejected even when neither is zero, and a draw
      with one of them zero and the other not is accepted. */
  predicate Accepted(v: (int, int)) { v.0 + v.1 != 0 }

  /** `random.randint(-3, 4)` for both components. */
  ghost predicate VelocityDrawsInRange(draw: nat -> (int, int))
  {
    forall j: nat :: -3 <= draw(j).0 <= 4 && -3 <= draw(j).1 <= 4
  }

  /** The velocity loop of `GameThing.__init__`: start from (0, 0) and draw
      (dx, dy) until dx + dy is non-zero. `draw(j)` is the j-th draw. The
      result is the first accepted draw. */
  method RandomVelocity(draw: nat -> (int, int)) returns (dx: int, dy: int)
    requires exists j: nat :: Accepted(draw(j))
    ensures Accepted((dx, dy))
    ensures exists j: nat :: (dx, dy) == draw(j) && forall i: nat :: i < j ==> !Accepted(draw(i))
    ensures VelocityDrawsInRange(draw) ==> -3 <= dx <= 4 && -3 <= dy <= 4
  {
    ghost var k: nat :| Accepted(draw(k));
    dx, dy := 0, 0;
    var j: nat := 0;
    while dx + dy == 0
      invariant forall i: nat :: i + 1 < j ==> !Accepted(draw(i))
      invariant j == 0 ==> (dx, dy) == (0, 0)
      invariant j > 0 ==> (dx, dy) == draw(j - 1)
      invariant j <= k + 1
      decreases k + 1 - j
    {
      dx, dy := draw(j).0, draw(j).1;
      j := j + 1;
    }
  }

  /** `Movable`: a rectangle and a velocity; colour and transparency are not
      modelled. */
  class Movable {
    var rect: Rect
    var dx: int
    var dy: int

    function AsMotion(): Motion
      reads this
    {
      Motion(rect, dx, dy)
    }

    /** `Movable(x, y, width, height, dx, dy)`: (x, y) is the centre. */
    constructor (x: int := 0, y: int := 3, width: nat := 48, height: nat := 48, dx: int := 4, dy: int := 3)
      ensures rect.CenterX() == x && rect.CenterY() == y
      ensures rect.w == width && rect.h == height
      ensures this.dx == dx && this.dy == dy
    {
      this.dx, this.dy := dx, dy;
      rect := CentredAt(x, y, width, height);
    }

    /** `confine()`: the centre is confined to [0, WIDTH] x [0, HEIGHT] with
        the default rebound. */
    method Confine()
      modifies this
      ensures AsMotion() == ConfineCentre(old(AsMotion()), WIDTH, HEIGHT)
    {
      var (cx, ndx) := Confiner(rect.CenterX(), dx, 0, WIDTH, true);
      rect, dx := rect.WithCenterX(cx), ndx;
      var (cy, ndy) := Confiner(rect.CenterY(), dy, 0, HEIGHT, true);
      rect, dy := rect.WithCenterY(cy), ndy;
    }

    /** `update()`: move by the velocity, then confine. The centre ends on
        the window and the size is kept. */
    method Update()
      modifies this
      ensures AsMotion() == CentredStep(old(AsMotion()), WIDTH, HEIGHT)
      ensures 0 <= rect.CenterX() <= WIDTH && 0 <= rect.CenterY() <= HEIGHT
      ensures rect.w == old(rect.w) && rect.h == old(rect.h)
    {
      rect := rect.Translated(dx, dy);
      Confine();
    }
  }

  /** The random draws of `GameThing.__init__`: `velocity(k, j)` is the j-th
      velocity drawn for random rectangle k, `position(k)` its centre. */
  datatype Draws = Draws(velocity: (nat, nat) -> (int, int), position: nat -> (int, int))

  /** Every random rectangle's velocity loop ends. */
  ghost predicate VelocitySettles(d: Draws, k: nat)
  {
    exists j: nat :: Accepted(d.velocity(k, j))
  }

  /** Every velocity drawn is `random.randint(-3, 4)` in both components. */
  ghost predicate InRange(d: Draws)
  {
    forall k: nat, j: nat :: -3 <= d.velocity(k, j).0 <= 4 && -3 <= d.velocity(k, j).1 <= 4
  }

  /** `v` is the velocity loop's result for random rectangle k: the first
      of its draws that is accepted. */
  ghost predicate FirstAccepted(d: Draws, k: nat, v: (int, int))
  {
    exists j: nat :: v == d.velocity(k, j) && Accepted(v) && forall i: nat :: i < j ==> !Accepted(d.velocity(k, i))
  }

  /** Movable `m` is random rectangle k as `GameThing.__init__` makes it. */
  ghost predicate RandomPlaced(d: Draws, k: nat, m: Movable)
    reads m
  {
    && m.rect == CentredAt(d.position(k).0, d.position(k).1, 160, 160)
    && Accepted((m.dx, m.dy))
    && FirstAccepted(d, k, (m.dx, m.dy))
    && (InRange(d) ==> -3 <= m.dx <= 4 && -3 <= m.dy <= 4)
  }

  /** One pass of the second loop of `GameThing.__init__`: random
      rectangle k, of size 160 at its random centre, with the first
      accepted velocity of its draws. */
  method RandomMovable(d: Draws, k: nat) returns (m: Movable)
    requires VelocitySettles(d, k)
    ensures fresh(m)
    ensures m.rect == CentredAt(d.position(k).0, d.position(k).1, 160, 160)
    ensures FirstAccepted(d, k, (m.dx, m.dy))
    ensures InRange(d) ==> -3 <= m.dx <= 4 && -3 <= m.dy <= 4
  {
    var draw := (j: nat) => d.velocity(k, j);
    ghost var w: nat :| Accepted(d.velocity(k, w));
    assert Accepted(draw(w));
    assert InRange(d) ==> VelocityDrawsInRange(draw);
    var dx, dy := RandomVelocity(draw);
    ghost var first: nat :| (dx, dy) == draw(first) && forall i: nat :: i < first ==> !Accepted(draw(i));
    assert forall i: nat :: draw(i) == d.velocity(k, i);
    assert FirstAccepted(d, k, (dx, dy));
    var p := d.position(k);
    m := new Movable(p.0, p.1, 160, 160, dx, dy);
  }

  /** `GameThing`: the list of movables and the running flag; the window and
      the clock are not modelled. */
  class GameThing {
    var movables: seq<Movable>
    var inProgress: bool

    /** No object appears twice in the list. */
    ghost predicate Distinct()
      reads this
    {
      forall i, j :: 0 <= i < j < |movables| ==> movables[i] != movables[j]
    }

    /** `GameThing()` up to the animation loop: 64 trail movables centred on
        (2v, v) for v = 0, 10, ..., 630 with the default size and velocity,
        then 32 of size 160 at random centres with an accepted random
        velocity. */
    constructor (d: Draws)
      requires forall k: nat :: k < 32 ==> VelocitySettles(d, k)
      ensures inProgress && |movables| == 96 && Distinct()
      ensures forall i :: 0 <= i < 96 ==> fresh(movables[i])
      ensures forall i :: 0 <= i < 64 ==>
                movables[i].rect == CentredAt(20 * i, 10 * i, 48, 48) &&
                movables[i].dx == 4 && movables[i].dy == 3
      ensures forall i :: 64 <= i < 96 ==>
                movables[i].rect == CentredAt(d.position(i - 64).0, d.position(i - 64).1, 160, 160) &&
                Accepted((movables[i].dx, movables[i].dy))
      ensures forall i :: 64 <= i < 96 ==> FirstAccepted(d, i - 64, (movables[i].dx, movables[i].dy))
      ensures InRange(d) ==> forall i :: 64 <= i < 96 ==> -3 <= movables[i].dx <= 4 && -3 <= movables[i].dy <= 4
    {
      var ms: seq<Movable> := [];
      for v := 0 to 64
        invariant |ms| == v
        invariant forall i, j :: 0 <= i < j < |ms| ==> ms[i] != ms[j]
        invariant forall i :: 0 <= i < |ms| ==> fresh(ms[i])
        invariant forall i :: 0 <= i < |ms| ==>
                    ms[i].rect == CentredAt(20 * i, 10 * i, 48, 48) && ms[i].dx == 4 && ms[i].dy == 3
      {
        var m := new Movable(v * 20, v * 10);
        ms := ms + [m];
      }
      for k := 0 to 32
        invariant |ms| == 64 + k
        invariant forall i, j :: 0 <= i < j < |ms| ==> ms[i] != ms[j]
        invariant forall i :: 0 <= i < |ms| ==> fresh(ms[i])
        invariant forall i :: 0 <= i < 64 ==>
                    ms[i].rect == CentredAt(20 * i, 10 * i, 48, 48) && ms[i].dx == 4 && ms[i].dy == 3
        invariant forall i :: 64 <= i < |ms| ==> RandomPlaced(d, i - 64, ms[i])
      {
        var m := RandomMovable(d, k);
        ms := ms + [m];
      }
      movables := ms;
      inProgress := true;
    }

    /** One pass of `do_animation` without the drawing: a quit event clears
        the running flag, then every movable takes one `update()`. */
    method Frame(quit: bool)
      requires Distinct()
      modifies this, set i | 0 <= i < |movables| :: movables[i]
      ensures movables == old(movables) && Distinct()
      ensures inProgress == (old(inProgress) && !quit)
      ensures forall i :: 0 <= i < |movables| ==>
                movables[i].AsMotion() == CentredStep(old(movables[i].AsMotion()), WIDTH, HEIGHT)
    {
      if quit {
        inProgress := false;
      }
      for i := 0 to |movables|
        invariant movables == old(movables) && inProgress == (old(inProgress) && !quit)
        invariant forall j :: 0 <= j < i ==>
                    movables[j].AsMotion() == CentredStep(old(movables[j].AsMotion()), WIDTH, HEIGHT)
        invariant forall j :: i <= j < |movables| ==> movables[j].AsMotion() == old(movables[j].AsMotion())
      {
        movables[i].Update();
      }
    }
  }
}
