/** The first moving-things demo: an 800 by 600 window of home-made sprites
    kept by their top-left corner, which wrap round to the opposite edge when
    they leave the window (the `confiner` copy here defaults to wrapping). */
module MovingThings {
  import opened Confinement

  const WIDTH: int := 800
  const HEIGHT: int := 600

  /** One coordinate's update: add the increment, then wrap into
      [0, maximum]. The increment is never changed by wrapping. */
  function WrapStep(pos: int, delta: int, maximum: int): (r: int)
    ensures 0 <= maximum ==> 0 <= r <= maximum
    ensures 0 <= pos + delta <= maximum ==> r == pos + delta
    ensures 0 <= maximum && pos + delta < 0 ==> r == maximum
    ensures 0 <= maximum && pos + delta > maximum ==> r == 0
  {
    Confiner(pos + delta, delta, 0, maximum, false).0
  }

  /** n successive updates of one coordinate. */
  function WrapSteps(pos: int, delta: int, maximum: int, n: nat): int
  {
    if n == 0 then pos else WrapStep(WrapSteps(pos, delta, maximum, n - 1), delta, maximum)
  }

  /** The single block starts at x = 100 moving left by 1 in a range of
      [0, WIDTH - 48]: it slides one pixel per update for the first 100. */
  lemma {:induction false} BlockSlides(n: nat)
    requires n <= 100
    ensures WrapSteps(100, -1, WIDTH - 48, n) == 100 - n
  {
    if n > 0 {
      BlockSlides(n - 1);
    }
  }

  /** The block reaches the left edge on update 100 and reappears at the
      right edge, x = WIDTH - 48, on update 101. */
  lemma BlockWraps()
    ensures WrapSteps(100, -1, WIDTH - 48, 100) == 0
    ensures WrapSteps(100, -1, WIDTH - 48, 101) == WIDTH - 48
  {
    BlockSlides(100);
  }

  /** `Movable`: a top-left corner, a velocity and a size; the colour is not
      modelled. */
  class Movable {
    var x: int
    var y: int
    var dx: int
    var dy: int
    const width: nat
    const height: nat

    constructor (x: int := 0, y: int := 0, width: nat := 16, height: nat := 12, dx: int := 4, dy: int := 3)
      ensures this.x == x && this.y == y && this.dx == dx && this.dy == dy
      ensures this.width == width && this.height == height
    {
      this.x, this.y := x, y;
      this.dx, this.dy := dx, dy;
      this.width := width;
      this.height := height;
    }

    /** `confine()`: the corner is confined to [0, WIDTH - width] x
        [0, HEIGHT - height] with the default, wrapping, mode. */
    method Confine()
      modifies this
      ensures (x, dx) == Confiner(old(x), old(dx), 0, WIDTH - width, false)
      ensures (y, dy) == Confiner(old(y), old(dy), 0, HEIGHT - height, false)
    {
      var (nx, ndx) := Confiner(x, dx, 0, WIDTH - width, false);
      x, dx := nx, ndx;
      var (ny, ndy) := Confiner(y, dy, 0, HEIGHT - height, false);
      y, dy := ny, ndy;
    }

    /** `update()`: each coordinate takes one `WrapStep`, so the velocity
        never changes and a block no larger than the window stays inside it. */
    method Update()
      modifies this
      ensures x == WrapStep(old(x), old(dx), WIDTH - width)
      ensures y == WrapStep(old(y), old(dy), HEIGHT - height)
      ensures dx == old(dx) && dy == old(dy)
      ensures width <= WIDTH ==> 0 <= x <= WIDTH - width
      ensures height <= HEIGHT ==> 0 <= y <= HEIGHT - height
    {
      x := x + dx;
      y := y + dy;
      Confine();
    }
  }

  /** The block of `GameThing`, `Movable(x=100, width=48, height=32,
      dx=-1)`, after n updates is at `WrapSteps(100, -1, WIDTH - 48, n)`. */
  method MoveBlock(n: nat) returns (block: Movable)
    ensures block.x == WrapSteps(100, -1, WIDTH - 48, n)
    ensures block.dx == -1 && block.width == 48 && block.height == 32
  {
    block := new Movable(x := 100, width := 48, height := 32, dx := -1);
    for k := 0 to n
      invariant block.x == WrapSteps(100, -1, WIDTH - 48, k)
      invariant block.dx == -1 && block.width == 48 && block.height == 32
    {
      block.Update();
    }
  }
}
