/** The sprites of the sqasteroids game: a rectangle that moves by its
    velocity, rebounds off the screen edges (centre-based) and carries a life
    counter that changes by `dlife` per update; and the player's ship, which
    turns in 36 discrete steps. */
module Sprites {
  import opened Geometry
  import opened Confinement

  const WIDTH: int := 1280
  const HEIGHT: int := 800

  /** Number of precomputed ship orientations (`make_rotations(steps=36)`). */
  const STEPS: nat := 36

  /** The groups a sprite can belong to in the game. */
  datatype GroupName = All | Asteroids | Bullets

  /** The state of a RectSprite that `update` reads and writes. */
  datatype Body = Body(rect: Rect, dx: int, dy: int, life: int, dlife: int) {
    function AsMotion(): Motion { Motion(rect, dx, dy) }
  }

  /** One `RectSprite.update()`: move, add `dlife` to life, confine the
      centre to the screen. */
  function Step(b: Body): (r: Body)
    ensures r.life == b.life + b.dlife && r.dlife == b.dlife
    ensures r.AsMotion() == CentredStep(b.AsMotion(), WIDTH, HEIGHT)
  {
    var m := CentredStep(b.AsMotion(), WIDTH, HEIGHT);
    Body(m.rect, m.dx, m.dy, b.life + b.dlife, b.dlife)
  }

  /** `update()` kills the sprite exactly when the new life is negative. */
  predicate Expires(b: Body) { Step(b).life < 0 }

  /** n successive updates. */
  function Steps(b: Body, n: nat): Body
  {
    if n == 0 then b else Step(Steps(b, n - 1))
  }

  lemma {:induction false} StepsLife(b: Body, n: nat)
    ensures Steps(b, n).life == b.life + n * b.dlife
    ensures Steps(b, n).dlife == b.dlife
  {
    if n > 0 {
      StepsLife(b, n - 1);
      assert n * b.dlife == (n - 1) * b.dlife + b.dlife;
    }
  }

  /** A sprite made with life 5 and dlife -1 survives five updates and is
      killed by the sixth. */
  lemma KilledOnSixthUpdate(b: Body)
    requires b.life == 5 && b.dlife == -1
    ensures forall k: nat :: k < 5 ==> !Expires(Steps(b, k))
    ensures Expires(Steps(b, 5))
  {
    forall k: nat | k < 5 ensures !Expires(Steps(b, k)) {
      StepsLife(b, k);
    }
    StepsLife(b, 5);
  }

  /** A sprite with dlife 0 and non-negative life (every asteroid) keeps its
      life and is never killed by updates. */
  lemma ConstantLifeNeverExpires(b: Body, n: nat)
    requires b.dlife == 0 && b.life >= 0
    ensures Steps(b, n).life == b.life
    ensures !Expires(Steps(b, n))
  {
    StepsLife(b, n);
  }

  /** `RectSprite`: a rectangle sprite with velocity and life. `groups` is
      the set of groups the sprite belongs to, which pygame keeps on the
      sprite itself and which `kill()` empties. */
  class RectSprite {
    var rect: Rect
    var dx: int
    var dy: int
    var life: int
    var dlife: int
    var groups: set<GroupName>

    function State(): Body
      reads this
    {
      Body(rect, dx, dy, life, dlife)
    }

    /** `RectSprite(x, y, dx, dy, width, height, life, dlife)` without an
        image or angle: the top-left corner is (x, y). */
    constructor (x: int, y: int, dx: int, dy: int, width: nat, height: nat, life: int, dlife: int)
      ensures State() == Body(Rect(x, y, width, height), dx, dy, life, dlife)
      ensures groups == {}
    {
      this.rect := Rect(x, y, width, height);
      this.dx := dx;
      this.dy := dy;
      this.life := life;
      this.dlife := dlife;
      this.groups := {};
    }

    /** `rotate(angle)`: the rotated image has size (nw, nh), which only
        pygame knows; the new rectangle keeps the centre. */
    method Rotate(nw: nat, nh: nat)
      modifies this
      ensures rect == old(rect).Recentred(nw, nh)
      ensures rect.CenterX() == old(rect.CenterX()) && rect.CenterY() == old(rect.CenterY())
      ensures dx == old(dx) && dy == old(dy) && life == old(life) && dlife == old(dlife)
      ensures groups == old(groups)
    {
      var centre := (rect.CenterX(), rect.CenterY());
      rect := CentredAt(centre.0, centre.1, nw, nh);
    }

    /** `kill()`: leave every group. */
    method Kill()
      modifies this
      ensures groups == {}
      ensures State() == old(State())
    {
      groups := {};
    }

    /** `confine()`: confine the centre to [0, WIDTH] x [0, HEIGHT]. */
    method Confine()
      modifies this
      ensures State().AsMotion() == ConfineCentre(old(State()).AsMotion(), WIDTH, HEIGHT)
      ensures life == old(life) && dlife == old(dlife) && groups == old(groups)
    {
      var (cx, ndx) := Confiner(rect.CenterX(), dx, 0, WIDTH, true);
      rect, dx := rect.WithCenterX(cx), ndx;
      var (cy, ndy) := Confiner(rect.CenterY(), dy, 0, HEIGHT, true);
      rect, dy := rect.WithCenterY(cy), ndy;
    }

    /** `update()`: the new state is `Step` of the old one, and the sprite
        leaves every group exactly when its new life is negative. */
    method Update()
      modifies this
      ensures State() == Step(old(State()))
      ensures groups == if Expires(old(State())) then {} else old(groups)
    {
      rect := rect.Translated(dx, dy);
      life := life + dlife;
      if life < 0 {
        Kill();
      }
      Confine();
    }
  }

  /** `(orientation + step) % 36` with Python's floored modulo, which for a
      positive divisor agrees with Dafny's. */
  function Turned(orientation: int, step: int): (r: int)
    ensures 0 <= r < STEPS
    ensures (orientation + step - r) % STEPS == 0
  {
    (orientation + step) % STEPS
  }

  /** Spinning one step either way from the ends of the range wraps round. */
  lemma TurnedWraps()
    ensures Turned(0, -1) == 35 && Turned(35, 1) == 0
    ensures forall o :: 0 <= o < STEPS ==> Turned(Turned(o, 1), -1) == o
  {
  }

  /** `PlayerSprite`: the ship. It is a RectSprite (held here as the
      component `sprite`) with an orientation index into the 36 precomputed
      rotations. `rotatedSizes[i]` is the size of the image rotated to
      orientation i and `launch[i]` the bullet launch velocity for it; both
      come from pygame's rotation and from trigonometry, which are outside
      this model; `launch[0]` is (-8 sin 0, -8 cos 0) = (0, -8), and the
      image rotated by 0 degrees keeps the ship's size. */
  class PlayerSprite {
    const sprite: RectSprite
    const rotatedSizes: seq<(nat, nat)>
    const launch: seq<(int, int)>
    var orientation: int
    var bulletDx: int
    var bulletDy: int

    ghost predicate Valid()
      reads this
    {
      |rotatedSizes| == STEPS && |launch| == STEPS && 0 <= orientation < STEPS
    }

    /** `PlayerSprite(x, y, 0, 0, image)`: orientation 0, bullets launched
        straight up at speed 8, life 80 that never changes. */
    constructor (x: int, y: int, width: nat, height: nat, rotatedSizes: seq<(nat, nat)>, launch: seq<(int, int)>)
      requires |rotatedSizes| == STEPS && |launch| == STEPS && launch[0] == (0, -8)
      requires rotatedSizes[0] == (width, height)
      ensures Valid() && fresh(sprite)
      ensures this.rotatedSizes == rotatedSizes && this.launch == launch
      ensures orientation == 0 && bulletDx == 0 && bulletDy == -8
      ensures (bulletDx, bulletDy) == launch[orientation]
      ensures (sprite.rect.w, sprite.rect.h) == rotatedSizes[orientation]
      ensures sprite.State() == Body(Rect(x, y, width, height), 0, 0, 80, 0)
      ensures sprite.groups == {}
    {
      sprite := new RectSprite(x, y, 0, 0, width, height, 80, 0);
      this.rotatedSizes := rotatedSizes;
      this.launch := launch;
      orientation := 0;
      bulletDx, bulletDy := 0, -8;
    }

    /** `spin(step)`: move the orientation by `step` modulo 36, switch to the
        image for the new orientation keeping the rectangle's centre, and
        take the launch velocity for it. */
    method Spin(step: int)
      requires Valid()
      modifies this, sprite
      ensures Valid()
      ensures orientation == Turned(old(orientation), step)
      ensures sprite.rect.CenterX() == old(sprite.rect.CenterX())
      ensures sprite.rect.CenterY() == old(sprite.rect.CenterY())
      ensures (sprite.rect.w, sprite.rect.h) == rotatedSizes[orientation]
      ensures (bulletDx, bulletDy) == launch[orientation]
      ensures sprite.dx == old(sprite.dx) && sprite.dy == old(sprite.dy)
      ensures sprite.life == old(sprite.life) && sprite.dlife == old(sprite.dlife)
      ensures sprite.groups == old(sprite.groups)
    {
      orientation := (orientation + step) % STEPS;
      var (w, h) := rotatedSizes[orientation];
      sprite.rect := sprite.rect.Recentred(w, h);
      bulletDx, bulletDy := launch[orientation].0, launch[orientation].1;
    }
  }
}
