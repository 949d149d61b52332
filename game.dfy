/** The sqasteroids game object: the groups of sprites, score, level, the
    fire control, and the per-frame loop body. One pass of the source's
    `game_loop` is `CheckEvents` followed by `Tick`; `groupcollide`'s result,
    computed from the rectangles between the two, is `Tick`'s `hits`. */
module Sqasteroids {
  import opened Geometry
  import opened Sprites
  import opened GameWorld

  /** `MIDWIDTH = WIDTH * 0.5`, `MIDHEIGHT = HEIGHT * 0.5`. */
  const MIDWIDTH: int := WIDTH / 2
  const MIDHEIGHT: int := HEIGHT / 2

  /** Frames between shots: `reload_counter = 15`. */
  const RELOAD: int := 15

  /** The keys `check_events` reads in one frame: quit (window close or
      Escape), A (spin +1), D (spin -1), right Shift (thrust), Return (fire),
      Space (start). */
  datatype Keys = Keys(quit: bool, spinA: bool, spinD: bool, thrust: bool, fire: bool, start: bool)

  /** The position-drawing loop of `level_setup` for the asteroid that will
      get id `id`: start at the screen's middle, which lies in the safe zone,
      and draw random points until one lies outside it. The result is the
      first draw outside the safe zone. */
  method PickSpawn(o: Oracle, id: Id) returns (p: Point)
    requires SpawnSettles(o, id)
    ensures !InSafeZone(p)
    ensures exists j: nat :: p == o.spawn(id, j) && forall i: nat :: i < j ==> InSafeZone(o.spawn(id, i))
    ensures DrawsOnScreen(o) ==> 0 <= p.0 <= WIDTH && 0 <= p.1 <= HEIGHT
  {
    SafeZoneBounds();
    ghost var k: nat :| !InSafeZone(o.spawn(id, k));
    p := (MIDWIDTH, MIDHEIGHT);
    var j: nat := 0;
    while InSafeZone(p)
      invariant forall i: nat :: i + 1 < j ==> InSafeZone(o.spawn(id, i))
      invariant j == 0 ==> p == (MIDWIDTH, MIDHEIGHT)
      invariant j > 0 ==> p == o.spawn(id, j - 1)
      invariant j <= k + 1
      decreases k + 1 - j
    {
      p := o.spawn(id, j);
      j := j + 1;
    }
  }

  /** Adding the fresh ids lo..hi-1 to a set of ids below lo adds hi - lo
      elements. */
  lemma FreshIdsCount(s: set<Id>, t: set<Id>, lo: Id, hi: Id)
    requires lo <= hi
    requires forall id :: id in s ==> id < lo
    requires forall id :: id in t <==> id in s || lo <= id < hi
    ensures |t| == |s| + (hi - lo)
  {
    assert t == s + Range(lo, hi);
    assert s !! Range(lo, hi);
  }

  /** `Updated` stated one id at a time. */
  lemma UpdatedPointwise(w: World, r: World)
    requires w.all <= w.bodies.Keys && w.asteroids <= w.all && w.bullets <= w.all
    requires r.nextId == w.nextId && r.score == w.score
    requires forall id :: id in r.bodies <==> id in w.bodies
    requires forall id :: id in w.bodies ==>
               r.bodies[id] == if id in w.all then Step(w.bodies[id]) else w.bodies[id]
    requires forall id :: id in r.all <==> id in w.all && !Expires(w.bodies[id])
    requires forall id :: id in r.asteroids <==> id in w.asteroids && id in w.all && !Expires(w.bodies[id])
    requires forall id :: id in r.bullets <==> id in w.bullets && id in w.all && !Expires(w.bodies[id])
    ensures r == Updated(w)
  {
    var u := Updated(w);
    assert r.bodies == u.bodies;
    assert r.all == u.all;
    assert r.asteroids == u.asteroids;
    assert r.bullets == u.bullets;
  }

  /** An asteroid of a new wave: life 3, top-left outside the safe zone,
      moving with the heading drawn for its id. */
  ghost predicate WaveAsteroid(b: Body, id: Id, o: Oracle)
  {
    IsAsteroid(b) && b.life == 3 && !InSafeZone((b.rect.x, b.rect.y)) &&
    (b.dx, b.dy) == o.heading(id) &&
    (DrawsOnScreen(o) ==> 0 <= b.rect.x <= WIDTH && 0 <= b.rect.y <= HEIGHT)
  }

  /** The ship's state after the spin keys: the same centre, velocity, life
      and dlife; when it turned, the size of the image for its new
      orientation, and otherwise the same rectangle. */
  ghost predicate Steered(before: Body, after: Body, turned: bool, size: (nat, nat))
  {
    && after.rect.CenterX() == before.rect.CenterX() && after.rect.CenterY() == before.rect.CenterY()
    && after.dx == before.dx && after.dy == before.dy
    && after.life == before.life && after.dlife == before.dlife
    && (turned ==> (after.rect.w, after.rect.h) == size)
    && (!turned ==> after.rect == before.rect)
  }

  /** The sprites `r` after a level-up at the end of a frame whose
      collision and update passes left `a` with no asteroid: the new level's
      wave of 3 + level fresh wave asteroids is the whole asteroid group and
      joins `all`; every other group, every existing state and the score are
      those of `a`. */
  ghost predicate LevelUp(a: World, r: World, level: int, o: Oracle)
  {
    && r.nextId == a.nextId + 3 + level
    && r.bullets == a.bullets && r.score == a.score
    && (forall id :: id in r.asteroids <==> a.nextId <= id < r.nextId)
    && (forall id :: id in r.all <==> id in a.all || a.nextId <= id < r.nextId)
    && (forall id :: id in r.asteroids ==> id in r.bodies && WaveAsteroid(r.bodies[id], id, o))
    && (forall id :: id in a.bodies ==> id in r.bodies && r.bodies[id] == a.bodies[id])
  }

  /** What `check_events` does to the sprites, given the sprites `w0` and
      level `level0` before it, whether it starts a game and whether the
      ship fires: it leaves the sprites `w`, the level `level` and the ship
      `ship`, with launch velocity (`bdx`, `bdy`). Starting a game gives
      level 1, score 0 and a fresh wave of 4 asteroids as the whole arena;
      otherwise level, score and asteroids are kept and the sprites are
      unchanged but for one bullet at the ship's centre, moving at the
      launch velocity plus the ship's, when it fires. */
  ghost predicate KeysHandled(w0: World, level0: int, starts: bool, fires: bool, o: Oracle,
                              w: World, level: int, ship: Body, bdx: int, bdy: int)
  {
    && (starts ==>
          && level == 1 && w.score == 0 && w.bullets == {} && w.all == w.asteroids && |w.asteroids| == 4
          && (forall id :: id in w.asteroids ==> id in w.bodies && WaveAsteroid(w.bodies[id], id, o)))
    && (!starts ==> level == level0 && w.score == w0.score && w.asteroids == w0.asteroids)
    && (!starts && fires ==>
          w == Spawn(w0, BulletBody(ship.rect.CenterX(), ship.rect.CenterY(), (bdx + ship.dx, bdy + ship.dy)),
                     false, true))
    && (!starts && !fires ==> w == w0)
  }

  class Game {
    const player: PlayerSprite
    var bodies: map<Id, Body>
    var all: set<Id>
    var asteroids: set<Id>
    var bullets: set<Id>
    var nextId: Id
    var keepGoing: bool
    var gameInProgress: bool
    var level: int
    var score: int
    var reloadCounter: int

    /** The sprites other than the ship, their groups and the score. */
    function View(): World
      reads this
    {
      World(bodies, all, asteroids, bullets, nextId, score)
    }

    ghost predicate Valid()
      reads this, player, player.sprite
    {
      && Wf(View())
      && player.Valid()
      && player.sprite.groups <= {All}
      && player.sprite.life == 80 && player.sprite.dlife == 0
      && (gameInProgress <==> level > 0)
      && level >= 0 && score >= 0
    }

    /** `Game()` up to the start of its loop: the welcome screen's
        decorations are not modelled, so the groups start empty. */
    constructor (rotatedSizes: seq<(nat, nat)>, launch: seq<(int, int)>)
      requires |rotatedSizes| == STEPS && |launch| == STEPS && launch[0] == (0, -8)
      requires rotatedSizes[0] == (20, 32)
      ensures Valid() && fresh(player) && fresh(player.sprite)
      ensures keepGoing && !gameInProgress && level == 0 && score == 0 && reloadCounter == 0
      ensures all == {} && asteroids == {} && bullets == {}
      ensures player.sprite.State() == Body(Rect(MIDWIDTH, MIDHEIGHT, 20, 32), 0, 0, 80, 0)
      ensures player.orientation == 0 && player.sprite.groups == {}
    {
      player := new PlayerSprite(MIDWIDTH, MIDHEIGHT, 20, 32, rotatedSizes, launch);
      bodies := map[];
      all, asteroids, bullets := {}, {}, {};
      nextId := 0;
      keepGoing := true;
      gameInProgress := false;
      level := 0;
      score := 0;
      reloadCounter := 0;
    }

    /** A new sprite with the next id, added to `all` and to the asteroid or
        the bullet group as asked (`RectSprite(...)` then `group.add`). */
    method AddSprite(b: Body, asteroid: bool, bullet: bool)
      requires Valid() && !(asteroid && bullet) && (asteroid ==> IsAsteroid(b))
      modifies this
      ensures Valid()
      ensures View() == Spawn(old(View()), b, asteroid, bullet)
      ensures level == old(level) && gameInProgress == old(gameInProgress)
      ensures reloadCounter == old(reloadCounter) && keepGoing == old(keepGoing)
    {
      SpawnWf(View(), b, asteroid, bullet);
      bodies := bodies[nextId := b];
      all := all + {nextId};
      if asteroid {
        asteroids := asteroids + {nextId};
      }
      if bullet {
        bullets := bullets + {nextId};
      }
      nextId := nextId + 1;
    }

    /** `make_sqasteroid(x, y, life)`: a new asteroid in `all` and the
        asteroid group. */
    method MakeSqasteroid(x: int, y: int, life: nat, o: Oracle)
      requires Valid() && 1 <= life <= 3
      modifies this
      ensures Valid()
      ensures View() == AddSqasteroid(old(View()), x, y, life, o)
      ensures level == old(level) && gameInProgress == old(gameInProgress)
      ensures reloadCounter == old(reloadCounter) && keepGoing == old(keepGoing)
    {
      var heading := o.heading(nextId);
      AddSprite(Body(Rect(x, y, XSCALE * life, YSCALE * life), heading.0, heading.1, life, 0), true, false);
    }

    /** One pass of `level_setup`'s loop: draw a position outside the safe
        zone and make an asteroid of life 3 there. */
    method SpawnWaveAsteroid(o: Oracle)
      requires Valid() && SpawnsSettle(o)
      modifies this
      ensures Valid()
      ensures nextId == old(nextId) + 1
      ensures asteroids == old(asteroids) + {old(nextId)} && all == old(all) + {old(nextId)}
      ensures old(nextId) in bodies && WaveAsteroid(bodies[old(nextId)], old(nextId), o)
      ensures forall id :: id in bodies <==> id in old(bodies) || id == old(nextId)
      ensures forall id :: id in old(bodies) ==> bodies[id] == old(bodies)[id]
      ensures bullets == old(bullets) && score == old(score)
      ensures level == old(level) && gameInProgress == old(gameInProgress)
      ensures reloadCounter == old(reloadCounter) && keepGoing == old(keepGoing)
    {
      var p := PickSpawn(o, nextId);
      MakeSqasteroid(p.0, p.1, 3, o);
    }

    /** `level_setup()`: a wave of 3 + level asteroids of life 3, each placed
        outside the safe zone. */
    method LevelSetup(o: Oracle)
      requires Valid() && SpawnsSettle(o)
      modifies this
      ensures Valid()
      ensures nextId == old(nextId) + 3 + level
      ensures forall id :: id in asteroids <==> id in old(asteroids) || old(nextId) <= id < nextId
      ensures forall id :: id in all <==> id in old(all) || old(nextId) <= id < nextId
      ensures |asteroids| == |old(asteroids)| + 3 + level
      ensures forall id :: old(nextId) <= id < nextId ==> id in bodies && WaveAsteroid(bodies[id], id, o)
      ensures forall id :: id in old(bodies) ==> id in bodies && bodies[id] == old(bodies)[id]
      ensures bullets == old(bullets) && score == old(score)
      ensures level == old(level) && gameInProgress == old(gameInProgress)
      ensures reloadCounter == old(reloadCounter) && keepGoing == old(keepGoing)
    {
      var n := 3 + level;
      var i := 0;
      while i < n
        invariant 0 <= i <= n
        invariant Valid()
        invariant nextId == old(nextId) + i
        invariant forall id :: id in asteroids <==> id in old(asteroids) || old(nextId) <= id < nextId
        invariant forall id :: id in all <==> id in old(all) || old(nextId) <= id < nextId
        invariant forall id :: old(nextId) <= id < nextId ==> id in bodies && WaveAsteroid(bodies[id], id, o)
        invariant forall id :: id in old(bodies) ==> id in bodies && bodies[id] == old(bodies)[id]
        invariant bullets == old(bullets) && score == old(score)
        invariant level == old(level) && gameInProgress == old(gameInProgress)
        invariant reloadCounter == old(reloadCounter) && keepGoing == old(keepGoing)
      {
        SpawnWaveAsteroid(o);
        i := i + 1;
      }
      FreshIdsCount(old(asteroids), asteroids, old(nextId), nextId);
    }

    /** `start_game()`: score 0, level 1, every group emptied (the ship's
        membership too), a wave of four, and the ship back in `all`. */
    method StartGame(o: Oracle)
      requires Valid() && SpawnsSettle(o)
      modifies this, player.sprite
      ensures Valid()
      ensures gameInProgress && level == 1 && score == 0
      ensures bullets == {} && all == asteroids && |asteroids| == 4
      ensures nextId == old(nextId) + 4
      ensures forall id :: id in asteroids <==> old(nextId) <= id < nextId
      ensures forall id :: id in asteroids ==> id in bodies && WaveAsteroid(bodies[id], id, o)
      ensures forall id :: id in old(bodies) ==> id in bodies && bodies[id] == old(bodies)[id]
      ensures player.sprite.groups == {All}
      ensures player.sprite.State() == old(player.sprite.State())
      ensures reloadCounter == old(reloadCounter) && keepGoing == old(keepGoing)
    {
      Reset();
      ghost var first := nextId;
      LevelSetup(o);
      assert forall id :: id in asteroids <==> first <= id < nextId;
      assert all == asteroids;
      player.sprite.groups := {All};
    }

    /** The first half of `start_game()`: a game in progress at level 1 with
        score 0, and every group emptied, the ship leaving `all` too. */
    method Reset()
      requires Valid()
      modifies this, player.sprite
      ensures Valid()
      ensures gameInProgress && level == 1 && score == 0
      ensures all == {} && asteroids == {} && bullets == {} && player.sprite.groups == {}
      ensures bodies == old(bodies) && nextId == old(nextId)
      ensures player.sprite.State() == old(player.sprite.State())
      ensures reloadCounter == old(reloadCounter) && keepGoing == old(keepGoing)
    {
      gameInProgress := true;
      score := 0;
      level := 1;
      all, asteroids, bullets := {}, {}, {};
      player.sprite.Kill();
    }

    /** `shoot()`: only when the counter is below 1, a bullet at the ship's
        centre, moving with the launch velocity plus the ship's, joins `all`
        and the bullet group, and the counter is set to 15. */
    method Shoot()
      requires Valid()
      modifies this
      ensures Valid()
      ensures Fires(old(reloadCounter), true) ==>
                && reloadCounter == RELOAD
                && View() == Spawn(old(View()),
                                   BulletBody(player.sprite.rect.CenterX(), player.sprite.rect.CenterY(),
                                              (player.bulletDx + player.sprite.dx, player.bulletDy + player.sprite.dy)),
                                   false, true)
      ensures !Fires(old(reloadCounter), true) ==> reloadCounter == old(reloadCounter) && View() == old(View())
      ensures level == old(level) && gameInProgress == old(gameInProgress) && keepGoing == old(keepGoing)
    {
      if reloadCounter < 1 {
        reloadCounter := RELOAD;
        var shot := BulletBody(player.sprite.rect.CenterX(), player.sprite.rect.CenterY(),
                               (player.bulletDx + player.sprite.dx, player.bulletDy + player.sprite.dy));
        AddSprite(shot, false, true);
      }
    }

    /** The explosion loop of `bullet_collisions`: eight fragments at (x, y),
        in `all` only. */
    method Explode(x: int, y: int)
      requires Valid()
      modifies this
      ensures Valid()
      ensures View() == Explosion(old(View()), x, y, |PARTICLE_VELOCITIES|)
      ensures level == old(level) && gameInProgress == old(gameInProgress)
      ensures reloadCounter == old(reloadCounter) && keepGoing == old(keepGoing)
    {
      for k := 0 to |PARTICLE_VELOCITIES|
        invariant Valid()
        invariant View() == Explosion(old(View()), x, y, k)
        invariant level == old(level) && gameInProgress == old(gameInProgress)
        invariant reloadCounter == old(reloadCounter) && keepGoing == old(keepGoing)
      {
        AddSprite(ParticleBody(x, y, PARTICLE_VELOCITIES[k]), false, false);
      }
    }

    /** The body of `bullet_collisions`' loop for one destroyed asteroid
        `target`: score 4 - life, two halves of life - 1 at its corner when
        its life is above 1, and an explosion at its centre. */
    method DestroyAsteroid(target: Body, o: Oracle)
      requires Valid() && IsAsteroid(target)
      modifies this
      ensures Valid()
      ensures View() == ResolveHit(old(View()), target, o)
      ensures level == old(level) && gameInProgress == old(gameInProgress)
      ensures reloadCounter == old(reloadCounter) && keepGoing == old(keepGoing)
    {
      score := score + HitScore(target.life);
      if target.life > 1 {
        MakeSqasteroid(target.rect.x, target.rect.y, target.life - 1, o);
        MakeSqasteroid(target.rect.x, target.rect.y, target.life - 1, o);
      }
      Explode(target.rect.CenterX(), target.rect.CenterY());
    }

    /** `kill()` on each of the given sprites: they leave every group, and
        their states stay as they were. */
    method KillAll(dead: set<Id>)
      requires Valid()
      modifies this
      ensures Valid()
      ensures View() == Killed(old(View()), dead)
      ensures level == old(level) && gameInProgress == old(gameInProgress)
      ensures reloadCounter == old(reloadCounter) && keepGoing == old(keepGoing)
    {
      all, asteroids, bullets := all - dead, asteroids - dead, bullets - dead;
    }

    /** `bullet_collisions()`: `groupcollide` kills every hit asteroid and
        bullet; then, in order, each destroyed asteroid scores 4 - life,
        splits in two of life - 1 when its life is above 1, and explodes. */
    method BulletCollisions(hits: seq<Hit>, o: Oracle)
      requires Valid() && ValidHits(View(), hits)
      modifies this
      ensures Valid()
      ensures View() == Collisions(old(View()), hits, o)
      ensures level == old(level) && gameInProgress == old(gameInProgress)
      ensures reloadCounter == old(reloadCounter) && keepGoing == old(keepGoing)
    {
      var src := bodies;
      KillAll(Targets(hits) + HitBullets(hits));
      ghost var k := View();
      for i := 0 to |hits|
        invariant forall j :: 0 <= j < |hits| ==> hits[j].target in src && IsAsteroid(src[hits[j].target])
        invariant Valid()
        invariant View() == ResolveAll(k, hits[..i], src, o)
        invariant level == old(level) && gameInProgress == old(gameInProgress)
        invariant reloadCounter == old(reloadCounter) && keepGoing == old(keepGoing)
      {
        ghost var front := hits[..i];
        DestroyAsteroid(src[hits[i].target], o);
        assert hits[..i + 1][..i] == front;
      }
      assert hits[..|hits|] == hits;
    }

    /** `all_sprites.update()`: the ship (when in `all`) and every other
        member of `all` take one update; those whose life went negative
        leave every group. */
    method UpdateAll()
      requires Valid()
      modifies this, player.sprite
      ensures Valid()
      ensures View() == Updated(old(View()))
      ensures All in old(player.sprite.groups) ==> player.sprite.State() == Step(old(player.sprite.State()))
      ensures All !in old(player.sprite.groups) ==> player.sprite.State() == old(player.sprite.State())
      ensures player.sprite.groups == old(player.sprite.groups)
      ensures level == old(level) && gameInProgress == old(gameInProgress)
      ensures reloadCounter == old(reloadCounter) && keepGoing == old(keepGoing)
    {
      if All in player.sprite.groups {
        assert !Expires(player.sprite.State());
        player.sprite.Update();
      }
      UpdatedEffect(View());
      UpdateArena();
    }

    /** `update()` of the arena sprite `id`: one `Step`, and it leaves every
        group when its new life is negative. */
    method UpdateSprite(id: Id)
      requires id in bodies
      modifies this
      ensures bodies == old(bodies)[id := Step(old(bodies)[id])]
      ensures var dead := if Expires(old(bodies)[id]) then {id} else {};
        all == old(all) - dead && asteroids == old(asteroids) - dead && bullets == old(bullets) - dead
      ensures nextId == old(nextId) && score == old(score)
      ensures level == old(level) && gameInProgress == old(gameInProgress)
      ensures reloadCounter == old(reloadCounter) && keepGoing == old(keepGoing)
    {
      var b := Step(bodies[id]);
      bodies := bodies[id := b];
      if b.life < 0 {
        all, asteroids, bullets := all - {id}, asteroids - {id}, bullets - {id};
      }
    }

    /** The part of `all_sprites.update()` over the sprites other than the
        ship, in any order: each takes one `update()` and leaves every group
        when its new life is negative. */
    method UpdateArena()
      requires all <= bodies.Keys && asteroids <= all && bullets <= all
      modifies this
      ensures View() == Updated(old(View()))
      ensures level == old(level) && gameInProgress == old(gameInProgress)
      ensures reloadCounter == old(reloadCounter) && keepGoing == old(keepGoing)
    {
      ghost var w := View();
      ghost var done: set<Id> := {};
      var todo := all;
      while todo != {}
        invariant todo <= w.all && done <= w.all && todo !! done
        invariant forall id :: id in w.all ==> id in todo || id in done
        invariant forall id :: id in bodies <==> id in w.bodies
        invariant forall id :: id in w.bodies ==>
                    bodies[id] == if id in done then Step(w.bodies[id]) else w.bodies[id]
        invariant forall id :: id in all <==> id in w.all && !(id in done && Expires(w.bodies[id]))
        invariant forall id :: id in asteroids <==> id in w.asteroids && !(id in done && Expires(w.bodies[id]))
        invariant forall id :: id in bullets <==> id in w.bullets && !(id in done && Expires(w.bodies[id]))
        invariant nextId == w.nextId && score == w.score
        invariant level == old(level) && gameInProgress == old(gameInProgress)
        invariant reloadCounter == old(reloadCounter) && keepGoing == old(keepGoing)
        decreases todo
      {
        var id :| id in todo;
        UpdateSprite(id);
        todo := todo - {id};
        done := done + {id};
      }
      UpdatedPointwise(w, View());
    }

    /** The end of a frame: while a game is in progress and the asteroid
        group is empty, go up a level and spawn a wave of 3 + level. */
    method AdvanceLevel(o: Oracle)
      requires Valid() && SpawnsSettle(o)
      modifies this
      ensures Valid()
      ensures old(level) > 0 && old(asteroids) == {} ==>
                && level == old(level) + 1
                && nextId == old(nextId) + 3 + level
                && |asteroids| == 3 + level
                && (forall id :: id in asteroids <==> old(nextId) <= id < nextId)
                && (forall id :: id in all <==> id in old(all) || old(nextId) <= id < nextId)
                && (forall id :: id in asteroids ==> id in bodies && WaveAsteroid(bodies[id], id, o))
                && (forall id :: id in old(bodies) ==> id in bodies && bodies[id] == old(bodies)[id])
      ensures !(old(level) > 0 && old(asteroids) == {}) ==> level == old(level) && View() == old(View())
      ensures level > 0 ==> asteroids != {}
      ensures bullets == old(bullets) && score == old(score) && gameInProgress == old(gameInProgress)
      ensures reloadCounter == old(reloadCounter) && keepGoing == old(keepGoing)
    {
      if level > 0 {
        if |asteroids| < 1 {
          level := level + 1;
          LevelSetup(o);
        }
      }
    }

    /** The spin keys of `check_events`: A spins by +1, then D by -1. */
    method Steer(spinA: bool, spinD: bool)
      requires Valid()
      modifies player, player.sprite
      ensures Valid()
      ensures player.orientation ==
                Turned(Turned(old(player.orientation), if spinA then 1 else 0), if spinD then -1 else 0)
      ensures Steered(old(player.sprite.State()), player.sprite.State(), spinA || spinD,
                      player.rotatedSizes[player.orientation])
      ensures spinA || spinD ==> (player.bulletDx, player.bulletDy) == player.launch[player.orientation]
      ensures !(spinA || spinD) ==> player.bulletDx == old(player.bulletDx) && player.bulletDy == old(player.bulletDy)
      ensures player.sprite.groups == old(player.sprite.groups)
    {
      if spinA {
        player.Spin(1);
      }
      if spinD {
        player.Spin(-1);
      }
    }

    /** `check_events()`: quit, spin, fire and, outside a game, start. Thrust
        is not modelled (see the README). */
    method CheckEvents(keys: Keys, o: Oracle)
      requires Valid() && SpawnsSettle(o)
      modifies this, player, player.sprite
      ensures Valid()
      ensures keepGoing == (old(keepGoing) && !keys.quit)
      ensures player.orientation ==
                Turned(Turned(old(player.orientation), if keys.spinA then 1 else 0), if keys.spinD then -1 else 0)
      ensures Steered(old(player.sprite.State()), player.sprite.State(), keys.spinA || keys.spinD,
                      player.rotatedSizes[player.orientation])
      ensures keys.spinA || keys.spinD ==> (player.bulletDx, player.bulletDy) == player.launch[player.orientation]
      ensures !(keys.spinA || keys.spinD) ==>
                player.bulletDx == old(player.bulletDx) && player.bulletDy == old(player.bulletDy)
      ensures player.sprite.groups == if !old(gameInProgress) && keys.start then {All} else old(player.sprite.groups)
      ensures reloadCounter == if Fires(old(reloadCounter), keys.fire) then RELOAD else old(reloadCounter)
      ensures KeysHandled(old(View()), old(level), !old(gameInProgress) && keys.start,
                          Fires(old(reloadCounter), keys.fire), o,
                          View(), level, player.sprite.State(), player.bulletDx, player.bulletDy)
    {
      if keys.quit {
        keepGoing := false;
      }
      Steer(keys.spinA, keys.spinD);
      if keys.fire {
        Shoot();
      }
      if !gameInProgress && keys.start {
        StartGame(o);
      }
    }

    /** The rest of one pass of `game_loop`: count down the fire control,
        resolve collisions, update every sprite, check for a cleared wave.
        The sprites end as `AfterUpdate` says, and when a game is in
        progress and that pass left no asteroid (by `WaveCleared`, when
        every asteroid was hit and none split) the game goes up a level and
        a new wave joins them. The ship takes one update when it is in
        play. */
    method Tick(hits: seq<Hit>, o: Oracle)
      requires Valid() && SpawnsSettle(o) && ValidHits(View(), hits)
      modifies this, player.sprite
      ensures Valid()
      ensures reloadCounter == old(reloadCounter) - 1
      ensures score == old(score) + TotalScore(hits, old(bodies))
      ensures level == old(level) + 1 <==> old(level) > 0 && AfterUpdate(old(View()), hits, o).asteroids == {}
      ensures !(old(level) > 0 && AfterUpdate(old(View()), hits, o).asteroids == {}) ==>
                level == old(level) && View() == AfterUpdate(old(View()), hits, o)
      ensures old(level) > 0 && AfterUpdate(old(View()), hits, o).asteroids == {} ==>
                LevelUp(AfterUpdate(old(View()), hits, o), View(), level, o)
      ensures level == old(level) || level == old(level) + 1
      ensures level > old(level) ==> |asteroids| == 3 + level
      ensures level > 0 ==> asteroids != {}
      ensures All in old(player.sprite.groups) ==> player.sprite.State() == Step(old(player.sprite.State()))
      ensures All !in old(player.sprite.groups) ==> player.sprite.State() == old(player.sprite.State())
      ensures player.sprite.groups == old(player.sprite.groups)
      ensures keepGoing == old(keepGoing) && gameInProgress == old(gameInProgress)
    {
      reloadCounter := reloadCounter - 1;
      BulletCollisions(hits, o);
      CollisionsScore(old(View()), hits, o);
      UpdateAll();
      assert View() == AfterUpdate(old(View()), hits, o);
      AdvanceLevel(o);
    }

    /** One pass of `game_loop` without the drawing: the keys, then the rest
        of the frame. `collide` stands for `groupcollide`, applied to the
        sprites as the keys left them; `seen`, `seenLevel` and `seenShip`
        are those sprites, the level and the ship's state at that point.
        The fire control follows `ReloadFrame`, so `ShotsAtLeast15Apart`
        applies to the game. */
    method GameLoopPass(keys: Keys, collide: World -> seq<Hit>, o: Oracle)
      returns (ghost seen: World, ghost seenLevel: int, ghost seenShip: Body)
      requires Valid() && SpawnsSettle(o)
      requires forall w :: Wf(w) ==> ValidHits(w, collide(w))
      modifies this, player, player.sprite
      ensures Valid()
      ensures keepGoing == (old(keepGoing) && !keys.quit)
      ensures reloadCounter == ReloadFrame(old(reloadCounter), keys.fire)
      // The keys.
      ensures player.orientation ==
                Turned(Turned(old(player.orientation), if keys.spinA then 1 else 0), if keys.spinD then -1 else 0)
      ensures Steered(old(player.sprite.State()), seenShip, keys.spinA || keys.spinD,
                      player.rotatedSizes[player.orientation])
      ensures keys.spinA || keys.spinD ==> (player.bulletDx, player.bulletDy) == player.launch[player.orientation]
      ensures !(keys.spinA || keys.spinD) ==>
                player.bulletDx == old(player.bulletDx) && player.bulletDy == old(player.bulletDy)
      ensures player.sprite.groups == if !old(gameInProgress) && keys.start then {All} else old(player.sprite.groups)
      ensures KeysHandled(old(View()), old(level), !old(gameInProgress) && keys.start,
                          Fires(old(reloadCounter), keys.fire), o,
                          seen, seenLevel, seenShip, player.bulletDx, player.bulletDy)
      // The rest of the frame.
      ensures Wf(seen) && ValidHits(seen, collide(seen))
      ensures score == seen.score + TotalScore(collide(seen), seen.bodies)
      ensures level == seenLevel + 1 <==> seenLevel > 0 && AfterUpdate(seen, collide(seen), o).asteroids == {}
      ensures !(seenLevel > 0 && AfterUpdate(seen, collide(seen), o).asteroids == {}) ==>
                level == seenLevel && View() == AfterUpdate(seen, collide(seen), o)
      ensures seenLevel > 0 && AfterUpdate(seen, collide(seen), o).asteroids == {} ==>
                LevelUp(AfterUpdate(seen, collide(seen), o), View(), level, o)
      ensures level > 0 ==> asteroids != {}
      ensures All in player.sprite.groups ==> player.sprite.State() == Step(seenShip)
      ensures All !in player.sprite.groups ==> player.sprite.State() == seenShip
    {
      CheckEvents(keys, o);
      seen, seenLevel, seenShip := View(), level, player.sprite.State();
      Tick(collide(View()), o);
    }
  }
}
