/** The game's sprites other than the ship, seen as values: an arena of
    sprite states indexed by id, the three groups as sets of ids, the next
    free id and the score. The functions here say what each step of the
    game does to that world; the Game class in module Sqasteroids is proved
    against them. */
module GameWorld {
  import opened Geometry
  import opened Sprites

  type Id = nat
  type Point = (int, int)

  /** `XSCALE = WIDTH/40`, `YSCALE = HEIGHT/25`, both 32. */
  const XSCALE: nat := WIDTH / 40
  const YSCALE: nat := HEIGHT / 25

  /** The quotient limit / step rounded up: that many steps reach limit,
      one fewer do not. */
  lemma CeilingSteps(limit: nat, step: nat)
    requires step > 0
    ensures var n := (limit + step - 1) / step;
      n * step >= limit && (n > 0 ==> (n - 1) * step < limit)
  {
    var n := (limit + step - 1) / step;
    var r := (limit + step - 1) % step;
    assert limit + step - 1 == n * step + r;
    assert (n - 1) * step == n * step - step;
  }

  /** `list(range(0, limit, step))`: the multiples of step below limit, in
      increasing order, and all of them. */
  function Chunks(limit: nat, step: nat): (s: seq<int>)
    requires step > 0
    ensures forall i :: 0 <= i < |s| ==> s[i] == i * step && s[i] < limit
    ensures |s| * step >= limit
  {
    var n := (limit + step - 1) / step;
    CeilingSteps(limit, step);
    assert forall i :: 0 <= i < n ==> i * step <= (n - 1) * step by {
      forall i | 0 <= i < n ensures i * step <= (n - 1) * step {
        MulLeq(i, n - 1, step);
      }
    }
    seq(n, i => i * step)
  }

  lemma MulLeq(a: nat, b: nat, c: nat)
    requires a <= b
    ensures a * c <= b * c
  {
    assert b * c == a * c + (b - a) * c;
  }

  const XCHUNKS: seq<int> := Chunks(WIDTH, XSCALE)
  const YCHUNKS: seq<int> := Chunks(HEIGHT, YSCALE)

  /** The bounds of the central safe zone: `XCHUNKS[10]`, `XCHUNKS[-10]`,
      `YCHUNKS[10]`, `YCHUNKS[-10]`. */
  const SAFE_LEFT: int := XCHUNKS[10]
  const SAFE_RIGHT: int := XCHUNKS[|XCHUNKS| - 10]
  const SAFE_TOP: int := YCHUNKS[10]
  const SAFE_BOTTOM: int := YCHUNKS[|YCHUNKS| - 10]

  lemma SafeZoneBounds()
    ensures |XCHUNKS| == 40 && |YCHUNKS| == 25
    ensures SAFE_LEFT == 320 && SAFE_RIGHT == 960 && SAFE_TOP == 320 && SAFE_BOTTOM == 480
  {
    assert XSCALE == 32 && YSCALE == 32;
    assert |XCHUNKS| * 32 >= 1280 && XCHUNKS[|XCHUNKS| - 1] < 1280;
    assert |YCHUNKS| * 32 >= 800 && YCHUNKS[|YCHUNKS| - 1] < 800;
  }

  /** The open rectangle kept clear of asteroids when a wave starts. */
  predicate InSafeZone(p: Point)
  {
    SAFE_LEFT < p.0 < SAFE_RIGHT && SAFE_TOP < p.1 < SAFE_BOTTOM
  }

  /** The random source, keyed by the id of the sprite being made:
      `heading(id)` is the velocity of asteroid `id` (from its random angle)
      and `spawn(id, j)` the j-th random point drawn for its position. */
  datatype Oracle = Oracle(heading: Id -> (int, int), spawn: (Id, nat) -> Point)

  /** The rejection loop for a new asteroid's position ends: some draw lies
      outside the safe zone. */
  ghost predicate SpawnSettles(o: Oracle, id: Id)
  {
    exists j: nat :: !InSafeZone(o.spawn(id, j))
  }

  ghost predicate SpawnsSettle(o: Oracle)
  {
    forall id: Id :: SpawnSettles(o, id)
  }

  /** `random.randint(0, WIDTH)`, `random.randint(0, HEIGHT)`. */
  ghost predicate DrawsOnScreen(o: Oracle)
  {
    forall id: Id, j: nat :: 0 <= o.spawn(id, j).0 <= WIDTH && 0 <= o.spawn(id, j).1 <= HEIGHT
  }

  datatype World = World(bodies: map<Id, Body>, all: set<Id>, asteroids: set<Id>, bullets: set<Id>,
                         nextId: Id, score: int)

  /** Side of an asteroid of the given life: `int(XSCALE*life)`. */
  function AsteroidSize(life: nat): nat { XSCALE * life }

  /** What every member of the asteroid group is: life 1 to 3, never
      decaying, sized by its life. */
  predicate IsAsteroid(b: Body)
  {
    1 <= b.life <= 3 && b.dlife == 0 &&
    b.rect.w == AsteroidSize(b.life) && b.rect.h == AsteroidSize(b.life)
  }

  /** The world's invariant: every group is a subset of `all`, every member
      has a state, ids below `nextId` are the only ones used. */
  ghost predicate Wf(w: World)
  {
    && w.all <= w.bodies.Keys
    && w.asteroids <= w.all
    && w.bullets <= w.all
    && w.asteroids !! w.bullets
    && (forall id :: id in w.bodies ==> id < w.nextId)
    && (forall id :: id in w.asteroids ==> id in w.bodies && IsAsteroid(w.bodies[id]))
  }

  /** The ids `lo .. hi-1`. */
  function Range(lo: nat, hi: nat): (r: set<Id>)
    ensures forall id :: id in r <==> lo <= id < hi
    ensures lo <= hi ==> |r| == hi - lo
    decreases hi - lo
  {
    if lo >= hi then {} else {lo} + Range(lo + 1, hi)
  }

  /** Make a sprite with the next id and add it to `all`, and to the
      asteroid or the bullet group as asked. */
  function Spawn(w: World, b: Body, asteroid: bool, bullet: bool): (r: World)
  {
    World(w.bodies[w.nextId := b], w.all + {w.nextId},
          if asteroid then w.asteroids + {w.nextId} else w.asteroids,
          if bullet then w.bullets + {w.nextId} else w.bullets,
          w.nextId + 1, w.score)
  }

  /** Spawning keeps the invariant as long as only proper asteroids join the
      asteroid group and no sprite joins both groups. */
  lemma SpawnWf(w: World, b: Body, asteroid: bool, bullet: bool)
    requires Wf(w) && !(asteroid && bullet) && (asteroid ==> IsAsteroid(b))
    ensures Wf(Spawn(w, b, asteroid, bullet))
  {
  }

  /** The sprite `make_sqasteroid(x, y, life)` makes: top-left (x, y), the
      heading drawn for it, constant life. */
  function AsteroidBody(x: int, y: int, life: nat, heading: (int, int)): Body
  {
    Body(Rect(x, y, AsteroidSize(life), AsteroidSize(life)), heading.0, heading.1, life, 0)
  }

  function AddSqasteroid(w: World, x: int, y: int, life: nat, o: Oracle): World
  {
    Spawn(w, AsteroidBody(x, y, life, o.heading(w.nextId)), true, false)
  }

  /** A shot: a 2 by 2 sprite at the given top-left, life 80 losing 1 per
      frame. */
  function BulletBody(x: int, y: int, v: (int, int)): Body
  {
    Body(Rect(x, y, 2, 2), v.0, v.1, 80, -1)
  }

  const PARTICLE_VELOCITIES: seq<(int, int)> :=
    [(6, 6), (-6, 6), (6, -6), (-6, -6), (8, 0), (-8, 0), (0, 8), (0, -8)]

  /** An explosion fragment: 7 by 7, default life 80, losing 5 per frame. */
  function ParticleBody(x: int, y: int, v: (int, int)): Body
  {
    Body(Rect(x, y, 7, 7), v.0, v.1, 80, -5)
  }

  /** The first n explosion fragments at (x, y), added to `all` only. */
  function Explosion(w: World, x: int, y: int, n: nat): World
    requires n <= |PARTICLE_VELOCITIES|
  {
    if n == 0 then w
    else Spawn(Explosion(w, x, y, n - 1), ParticleBody(x, y, PARTICLE_VELOCITIES[n - 1]), false, false)
  }

  /** An explosion adds n fresh ids to `all` and changes no other group. */
  lemma {:induction false} ExplosionGroups(w: World, x: int, y: int, n: nat)
    requires n <= |PARTICLE_VELOCITIES|
    ensures var r := Explosion(w, x, y, n);
      && r.nextId == w.nextId + n
      && r.asteroids == w.asteroids && r.bullets == w.bullets && r.score == w.score
      && (forall id :: id in r.all <==> id in w.all || w.nextId <= id < r.nextId)
  {
    if n > 0 {
      ExplosionGroups(w, x, y, n - 1);
    }
  }

  /** An explosion keeps every existing state and gives states to exactly
      the n fresh ids. */
  lemma {:induction false} ExplosionBodies(w: World, x: int, y: int, n: nat)
    requires n <= |PARTICLE_VELOCITIES|
    ensures var r := Explosion(w, x, y, n);
      && r.nextId == w.nextId + n
      && (forall id :: id in r.bodies <==> id in w.bodies || w.nextId <= id < r.nextId)
      && (forall id :: id in w.bodies && id < w.nextId ==> r.bodies[id] == w.bodies[id])
  {
    if n > 0 {
      ExplosionBodies(w, x, y, n - 1);
    }
  }

  /** Fragment i of an explosion is a particle at (x, y) with the i-th
      velocity of the fan. */
  lemma {:induction false} ExplosionParticles(w: World, x: int, y: int, n: nat)
    requires n <= |PARTICLE_VELOCITIES|
    ensures var r := Explosion(w, x, y, n);
      forall id :: w.nextId <= id < w.nextId + n ==>
        id in r.bodies && r.bodies[id] == ParticleBody(x, y, PARTICLE_VELOCITIES[id - w.nextId])
  {
    if n > 0 {
      ExplosionParticles(w, x, y, n - 1);
      ExplosionGroups(w, x, y, n - 1);
      var p := Explosion(w, x, y, n - 1);
      assert Explosion(w, x, y, n).bodies == p.bodies[p.nextId := ParticleBody(x, y, PARTICLE_VELOCITIES[n - 1])];
    }
  }

  /** Remove the given ids from every group (`kill()` on each). */
  function Killed(w: World, ids: set<Id>): World
  {
    w.(all := w.all - ids, asteroids := w.asteroids - ids, bullets := w.bullets - ids)
  }

  /** One entry of `groupcollide`'s result: an asteroid and the bullets
      that hit it. */
  datatype Hit = Hit(target: Id, bullets: set<Id>)

  /** What `groupcollide(asteroids, bullets, True, True)` can return: each
      key a distinct member of the asteroid group, each hit by at least one
      member of the bullet group; a bullet is killed by its first collision,
      so no bullet is reported for two asteroids. */
  predicate ValidHits(w: World, hits: seq<Hit>)
  {
    && (forall i :: 0 <= i < |hits| ==> hits[i].target in w.asteroids && hits[i].target in w.bodies)
    && (forall i :: 0 <= i < |hits| ==> hits[i].bullets != {} && hits[i].bullets <= w.bullets)
    && (forall i, j :: 0 <= i < j < |hits| ==> hits[i].target != hits[j].target)
    && (forall i, j :: 0 <= i < j < |hits| ==> hits[i].bullets !! hits[j].bullets)
  }

  function Targets(hits: seq<Hit>): set<Id>
  {
    set i | 0 <= i < |hits| :: hits[i].target
  }

  function HitBullets(hits: seq<Hit>): set<Id>
  {
    if hits == [] then {} else HitBullets(hits[..|hits| - 1]) + hits[|hits| - 1].bullets
  }

  /** Points for destroying an asteroid: more for smaller ones. */
  function HitScore(life: int): int { 4 - life }

  /** Number of fragments a destroyed asteroid splits into. */
  function Offspring(life: int): nat { if life > 1 then 2 else 0 }

  /** The score and split part of resolving one destroyed asteroid whose
      state was `t`. */
  function Split(w: World, t: Body, o: Oracle): World
  {
    var w1 := w.(score := w.score + HitScore(t.life));
    if t.life > 1 then
      AddSqasteroid(AddSqasteroid(w1, t.rect.x, t.rect.y, t.life - 1, o), t.rect.x, t.rect.y, t.life - 1, o)
    else w1
  }

  /** The body of the loop over `collided.keys()` for one destroyed asteroid
      whose state was `t`: score, two smaller asteroids at its top-left when
      its life is above 1, and an explosion at its centre. */
  function ResolveHit(w: World, t: Body, o: Oracle): World
  {
    Explosion(Split(w, t, o), t.rect.CenterX(), t.rect.CenterY(), |PARTICLE_VELOCITIES|)
  }

  /** The loop over the hits in order; `src` holds the destroyed asteroids'
      states, which killing does not change. */
  function ResolveAll(w: World, hits: seq<Hit>, src: map<Id, Body>, o: Oracle): World
    requires forall i :: 0 <= i < |hits| ==> hits[i].target in src
    decreases |hits|
  {
    if hits == [] then w
    else ResolveHit(ResolveAll(w, hits[..|hits| - 1], src, o), src[hits[|hits| - 1].target], o)
  }

  /** `bullet_collisions()`: `groupcollide` kills every asteroid and bullet
      that collided, then each destroyed asteroid is resolved in turn. */
  function Collisions(w: World, hits: seq<Hit>, o: Oracle): World
    requires forall i :: 0 <= i < |hits| ==> hits[i].target in w.bodies
  {
    ResolveAll(Killed(w, Targets(hits) + HitBullets(hits)), hits, w.bodies, o)
  }

  /** Sum of the points for the given hits. */
  function TotalScore(hits: seq<Hit>, src: map<Id, Body>): int
    requires forall i :: 0 <= i < |hits| ==> hits[i].target in src
  {
    if hits == [] then 0
    else TotalScore(hits[..|hits| - 1], src) + HitScore(src[hits[|hits| - 1].target].life)
  }

  /** Number of fragments the given hits produce. */
  function TotalOffspring(hits: seq<Hit>, src: map<Id, Body>): nat
    requires forall i :: 0 <= i < |hits| ==> hits[i].target in src
  {
    if hits == [] then 0
    else TotalOffspring(hits[..|hits| - 1], src) + Offspring(src[hits[|hits| - 1].target].life)
  }

  lemma SplitEffect(w: World, t: Body, o: Oracle)
    ensures var r := Split(w, t, o); var n := w.nextId; var k := Offspring(t.life);
      && r.score == w.score + HitScore(t.life)
      && r.nextId == n + k
      && r.bullets == w.bullets
      && (forall id :: id in r.asteroids <==> id in w.asteroids || n <= id < n + k)
      && (forall id :: id in r.all <==> id in w.all || n <= id < n + k)
      && (forall id :: id in r.bodies <==> id in w.bodies || n <= id < n + k)
      && (forall id :: id in w.bodies && id < n ==> r.bodies[id] == w.bodies[id])
      && (forall id :: n <= id < n + k ==>
            r.bodies[id] == AsteroidBody(t.rect.x, t.rect.y, t.life - 1, o.heading(id)))
  {
  }

  /** One destroyed asteroid adds 4 - life to the score, two asteroids of
      life - 1 at its top-left when its life is above 1 and none otherwise,
      and 8 fragments at its centre to `all` only; no id in use changes and
      the bullet group is kept. */
  lemma ResolveHitEffect(w: World, t: Body, o: Oracle)
    ensures var r := ResolveHit(w, t, o); var n := w.nextId; var k := Offspring(t.life);
      && r.score == w.score + HitScore(t.life)
      && r.nextId == n + k + 8
      && r.bullets == w.bullets
      && (forall id :: id in r.asteroids <==> id in w.asteroids || n <= id < n + k)
      && (forall id :: id in r.all <==> id in w.all || n <= id < r.nextId)
      && (forall id :: id in r.bodies <==> id in w.bodies || n <= id < r.nextId)
      && (forall id :: id in w.bodies && id < n ==> r.bodies[id] == w.bodies[id])
      && (forall id :: n <= id < n + k ==>
            r.bodies[id] == AsteroidBody(t.rect.x, t.rect.y, t.life - 1, o.heading(id)))
      && (forall id :: n + k <= id < r.nextId ==>
            r.bodies[id] == ParticleBody(t.rect.CenterX(), t.rect.CenterY(), PARTICLE_VELOCITIES[id - n - k]))
  {
    SplitEffect(w, t, o);
    ExplosionGroups(Split(w, t, o), t.rect.CenterX(), t.rect.CenterY(), |PARTICLE_VELOCITIES|);
    ExplosionBodies(Split(w, t, o), t.rect.CenterX(), t.rect.CenterY(), |PARTICLE_VELOCITIES|);
    ExplosionParticles(Split(w, t, o), t.rect.CenterX(), t.rect.CenterY(), |PARTICLE_VELOCITIES|);
  }

  /** What resolving the hits in turn does: the score grows by the hits'
      points, every id in use keeps its groups and its state, the new ids
      all join `all`, and those that join the asteroid group are proper
      asteroids. */
  lemma {:induction false} ResolveAllEffect(w: World, hits: seq<Hit>, src: map<Id, Body>, o: Oracle)
    requires forall i :: 0 <= i < |hits| ==> hits[i].target in src && IsAsteroid(src[hits[i].target])
    requires forall id :: id in w.asteroids ==> id < w.nextId
    ensures var r := ResolveAll(w, hits, src, o);
      && r.score == w.score + TotalScore(hits, src)
      && r.nextId == w.nextId + TotalOffspring(hits, src) + 8 * |hits|
      && r.bullets == w.bullets
      && (forall id :: id in r.asteroids <==> id in w.asteroids || (w.nextId <= id < r.nextId && id in r.asteroids))
      && (forall id :: id in r.asteroids && w.nextId <= id ==> id < r.nextId && id in r.bodies && IsAsteroid(r.bodies[id]))
      && (forall id :: id in r.all <==> id in w.all || w.nextId <= id < r.nextId)
      && (forall id :: id in r.bodies <==> id in w.bodies || w.nextId <= id < r.nextId)
      && (forall id :: id in w.bodies && id < w.nextId ==> r.bodies[id] == w.bodies[id])
  {
    if hits != [] {
      var front := hits[..|hits| - 1];
      ResolveAllEffect(w, front, src, o);
      var p := ResolveAll(w, front, src, o);
      var t := src[hits[|hits| - 1].target];
      ResolveHitEffect(p, t, o);
      var r := ResolveHit(p, t, o);
      forall id | id in r.asteroids && w.nextId <= id
        ensures id < r.nextId && id in r.bodies && IsAsteroid(r.bodies[id])
      {
        if id >= p.nextId {
          assert r.bodies[id] == AsteroidBody(t.rect.x, t.rect.y, t.life - 1, o.heading(id));
        }
      }
    }
  }

  /** The ids at or above `from` that are in the asteroid group. */
  function NewAsteroids(r: World, from: Id): set<Id>
  {
    set id | id in r.asteroids && from <= id
  }

  /** The asteroid group gains exactly the hits' fragments. */
  lemma {:induction false} ResolveAllOffspringCount(w: World, hits: seq<Hit>, src: map<Id, Body>, o: Oracle)
    requires forall i :: 0 <= i < |hits| ==> hits[i].target in src && IsAsteroid(src[hits[i].target])
    requires forall id :: id in w.asteroids ==> id < w.nextId
    ensures |NewAsteroids(ResolveAll(w, hits, src, o), w.nextId)| == TotalOffspring(hits, src)
  {
    var r := ResolveAll(w, hits, src, o);
    if hits == [] {
      assert NewAsteroids(r, w.nextId) == {};
    } else {
      var front := hits[..|hits| - 1];
      ResolveAllOffspringCount(w, front, src, o);
      ResolveAllEffect(w, front, src, o);
      var p := ResolveAll(w, front, src, o);
      var t := src[hits[|hits| - 1].target];
      ResolveHitEffect(p, t, o);
      var k := Offspring(t.life);
      assert NewAsteroids(r, w.nextId) == NewAsteroids(p, w.nextId) + Range(p.nextId, p.nextId + k);
      assert NewAsteroids(p, w.nextId) !! Range(p.nextId, p.nextId + k);
    }
  }

  /** Every hit is worth between 1 and 3 points. */
  lemma {:induction false} TotalScoreBounds(hits: seq<Hit>, src: map<Id, Body>)
    requires forall i :: 0 <= i < |hits| ==> hits[i].target in src && 1 <= src[hits[i].target].life <= 3
    ensures |hits| <= TotalScore(hits, src) <= 3 * |hits|
  {
    if hits != [] {
      TotalScoreBounds(hits[..|hits| - 1], src);
    }
  }

  lemma {:induction false} HitBulletsWithin(hits: seq<Hit>, pool: set<Id>)
    requires forall i :: 0 <= i < |hits| ==> hits[i].bullets <= pool
    ensures HitBullets(hits) <= pool
  {
    if hits != [] {
      HitBulletsWithin(hits[..|hits| - 1], pool);
    }
  }

  /** The collision pass keeps the world's invariant. */
  lemma {:induction false} CollisionsWf(w: World, hits: seq<Hit>, o: Oracle)
    requires Wf(w) && ValidHits(w, hits)
    ensures Wf(Collisions(w, hits, o))
  {
    var k := Killed(w, Targets(hits) + HitBullets(hits));
    assert forall i :: 0 <= i < |hits| ==> IsAsteroid(w.bodies[hits[i].target]);
    ResolveAllEffect(k, hits, w.bodies, o);
    var r := ResolveAll(k, hits, w.bodies, o);
    assert r.all <= r.bodies.Keys;
    assert r.asteroids <= r.all;
    assert r.bullets <= r.all;
    assert r.asteroids !! r.bullets;
    assert forall id :: id in r.asteroids ==> id in r.bodies && IsAsteroid(r.bodies[id]);
  }

  /** The collision pass adds the hits' points to the score: between 1 and
      3 per destroyed asteroid. */
  lemma CollisionsScore(w: World, hits: seq<Hit>, o: Oracle)
    requires Wf(w) && ValidHits(w, hits)
    ensures Collisions(w, hits, o).score == w.score + TotalScore(hits, w.bodies)
    ensures w.score + |hits| <= Collisions(w, hits, o).score <= w.score + 3 * |hits|
  {
    var k := Killed(w, Targets(hits) + HitBullets(hits));
    assert forall i :: 0 <= i < |hits| ==> IsAsteroid(w.bodies[hits[i].target]);
    ResolveAllEffect(k, hits, w.bodies, o);
    TotalScoreBounds(hits, w.bodies);
  }

  /** Hit asteroids and hit bullets leave every group, every other member
      keeps its groups, and the bullet group gains nothing. */
  lemma CollisionsGroups(w: World, hits: seq<Hit>, o: Oracle)
    requires Wf(w) && ValidHits(w, hits)
    ensures Collisions(w, hits, o).bullets == w.bullets - HitBullets(hits)
    ensures forall id :: id < w.nextId ==>
              (id in Collisions(w, hits, o).asteroids <==> id in w.asteroids && id !in Targets(hits))
    ensures forall id :: id < w.nextId ==>
              (id in Collisions(w, hits, o).all <==> id in w.all && id !in Targets(hits) + HitBullets(hits))
  {
    var k := Killed(w, Targets(hits) + HitBullets(hits));
    assert forall i :: 0 <= i < |hits| ==> IsAsteroid(w.bodies[hits[i].target]);
    ResolveAllEffect(k, hits, w.bodies, o);
    HitBulletsWithin(hits, w.bullets);
    assert Targets(hits) <= w.asteroids;
    assert k.bullets == w.bullets - HitBullets(hits);
  }

  /** No state in use changes, and the asteroid group gains exactly the
      fragments, with fresh ids: two per destroyed asteroid of life above 1. */
  lemma CollisionsFragments(w: World, hits: seq<Hit>, o: Oracle)
    requires Wf(w) && ValidHits(w, hits)
    ensures forall id :: id in w.bodies ==>
              id in Collisions(w, hits, o).bodies && Collisions(w, hits, o).bodies[id] == w.bodies[id]
    ensures |NewAsteroids(Collisions(w, hits, o), w.nextId)| == TotalOffspring(hits, w.bodies)
    ensures Collisions(w, hits, o).nextId == w.nextId + TotalOffspring(hits, w.bodies) + 8 * |hits|
  {
    var k := Killed(w, Targets(hits) + HitBullets(hits));
    assert forall i :: 0 <= i < |hits| ==> IsAsteroid(w.bodies[hits[i].target]);
    ResolveAllEffect(k, hits, w.bodies, o);
    ResolveAllOffspringCount(k, hits, w.bodies, o);
  }

  /** `all_sprites.update()` on the world: every member of `all` takes one
      `Step`, and the ones whose life went negative leave every group. */
  function Updated(w: World): World
    requires w.all <= w.bodies.Keys
  {
    var dead := set id | id in w.all && Expires(w.bodies[id]);
    World(map id | id in w.bodies :: if id in w.all then Step(w.bodies[id]) else w.bodies[id],
          w.all - dead, w.asteroids - dead, w.bullets - dead, w.nextId, w.score)
  }

  /** The update pass keeps the invariant and never removes an asteroid
      (their life does not decay); every sprite it keeps is on screen. */
  lemma UpdatedEffect(w: World)
    requires Wf(w)
    ensures var r := Updated(w);
      && Wf(r)
      && r.asteroids == w.asteroids
      && r.bullets == set id | id in w.bullets && !Expires(w.bodies[id])
      && (forall id :: id in r.all ==>
            0 <= r.bodies[id].rect.CenterX() <= WIDTH && 0 <= r.bodies[id].rect.CenterY() <= HEIGHT)
  {
    var r := Updated(w);
    forall id | id in w.asteroids ensures !Expires(w.bodies[id]) && IsAsteroid(r.bodies[id]) {
      ConstantLifeNeverExpires(w.bodies[id], 1);
    }
  }

  /** The sprites after one frame's `bullet_collisions()` and
      `all_sprites.update()`: the asteroid group is the one the collisions
      left, since asteroids never expire, and the score has grown by the
      hits' points. */
  function AfterUpdate(w: World, hits: seq<Hit>, o: Oracle): (r: World)
    requires Wf(w) && ValidHits(w, hits)
    ensures Wf(r)
    ensures r.score == w.score + TotalScore(hits, w.bodies)
    ensures r.asteroids == Collisions(w, hits, o).asteroids
  {
    CollisionsWf(w, hits, o);
    CollisionsScore(w, hits, o);
    UpdatedEffect(Collisions(w, hits, o));
    Updated(Collisions(w, hits, o))
  }

  /** A frame clears the wave exactly when every asteroid is hit and none
      of them splits, that is, all of them had life 1. */
  lemma WaveCleared(w: World, hits: seq<Hit>, o: Oracle)
    requires Wf(w) && ValidHits(w, hits)
    ensures AfterUpdate(w, hits, o).asteroids == {} <==>
              w.asteroids <= Targets(hits) && TotalOffspring(hits, w.bodies) == 0
  {
    var c := Collisions(w, hits, o);
    CollisionsGroups(w, hits, o);
    CollisionsFragments(w, hits, o);
    forall id ensures id in c.asteroids <==> id in w.asteroids - Targets(hits) || id in NewAsteroids(c, w.nextId) {
      if id in w.asteroids {
        assert id in w.bodies;
      }
    }
    assert c.asteroids == (w.asteroids - Targets(hits)) + NewAsteroids(c, w.nextId);
  }

  /** The fire control: `shoot()` acts only when the counter is below 1. */
  predicate Fires(counter: int, fire: bool) { fire && counter < 1 }

  /** Counter after one frame: `shoot()` (if the fire key is held) sets it
      to 15 when it fires, and the frame then takes 1 off. */
  function ReloadFrame(counter: int, fire: bool): int
  {
    (if Fires(counter, fire) then 15 else counter) - 1
  }

  /** Counter at the start of frame k, frames 0 .. k-1 having seen the fire
      key as in `fire`. */
  function CounterAt(counter: int, fire: seq<bool>, k: nat): int
    requires k <= |fire|
  {
    if k == 0 then counter else ReloadFrame(CounterAt(counter, fire, k - 1), fire[k - 1])
  }

  lemma {:induction false} Cooling(counter: int, fire: seq<bool>, k: nat)
    requires 1 <= k < 15 && k <= |fire| && Fires(counter, fire[0])
    ensures CounterAt(counter, fire, k) == 15 - k
  {
    if k > 1 {
      Cooling(counter, fire, k - 1);
    }
  }

  /** After a shot, the next 14 frames cannot fire whatever the keys, and the
      15th frame after it can: shots are at least 15 frames apart. */
  lemma ShotsAtLeast15Apart(counter: int, fire: seq<bool>)
    requires |fire| > 0 && Fires(counter, fire[0])
    ensures forall k :: 1 <= k < 15 && k < |fire| ==> !Fires(CounterAt(counter, fire, k), fire[k])
    ensures |fire| >= 15 ==> CounterAt(counter, fire, 15) == 0
  {
    forall k | 1 <= k < 15 && k < |fire| ensures !Fires(CounterAt(counter, fire, k), fire[k]) {
      Cooling(counter, fire, k);
    }
    if |fire| >= 15 {
      Cooling(counter, fire, 14);
    }
  }

  function Pow2(n: nat): nat { if n == 0 then 1 else 2 * Pow2(n - 1) }

  /** Hits needed and points earned to clear an asteroid of the given life
      and all the fragments it splits into. */
  function ClearCost(life: nat): (int, int)
  {
    if life <= 1 then (1, HitScore(life))
    else
      var c := ClearCost(life - 1);
      (1 + Offspring(life) * c.0, HitScore(life) + Offspring(life) * c.1)
  }

  /** Clearing an asteroid of life n takes 2^n - 1 hits and earns
      2^(n+1) + n - 2 points; for a new asteroid (life 3), 7 hits and 17. */
  lemma {:induction false} ClearCostClosedForm(life: nat)
    requires life >= 1
    ensures ClearCost(life) == (Pow2(life) - 1, 2 * Pow2(life) + life - 2)
  {
    if life > 1 {
      ClearCostClosedForm(life - 1);
    }
  }

  lemma NewAsteroidClearCost()
    ensures ClearCost(3) == (7, 17)
  {
    ClearCostClosedForm(3);
  }
}
