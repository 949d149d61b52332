# sqasteroids in Dafny

A model of the game logic of *sqasteroids*, a small pygame take on
Asteroids where the asteroids are translucent squares, together with the
motion and edge handling of the four practice demos that led up to it.

What is modelled:

- **The edge rule.** `confiner(current, delta, minimum, maximum, bounce)`
  either rebounds a coordinate (clamp it to the nearer bound and negate
  its increment) or wraps it to the opposite bound, keeping the increment
  (`Confinement.Confiner`). It is applied to a rectangle's centre
  (`ConfineCentre`, `CentredStep`). Rectangles are pygame `Rect`s, with
  `centerx = x + w // 2` (`Geometry.Rect`).
- **Sprites.** `RectSprite` is a class whose `update` moves the sprite,
  adds `dlife` to `life`, leaves every group once life is negative and
  then confines its centre. Its proved specification is the value function
  `Sprites.Step`. `PlayerSprite` is the ship, which turns through 36
  orientations.
- **The game world.** Every sprite other than the ship is a `Body` in an
  arena indexed by sprite id. The three sprite groups (all sprites,
  asteroids, player bullets) are sets of ids; the world also holds the next
  free id and the score (`GameWorld.World`). The functions in `GameWorld`
  say what each game step does to the world. The lemmas prove the world's
  invariant, the score and fragment counts of a collision pass, the
  reload timing of the gun, and what it costs to clear an asteroid.
- **The game.** `Sqasteroids.Game` is a class with the game's own state:
  the sprites, the groups, level, score, reload counter and the running
  flags. `AddSprite`, `MakeSqasteroid`, `Explode`, `DestroyAsteroid`,
  `KillAll`, `BulletCollisions`, `UpdateArena` and `UpdateAll` are proved to
  leave the world exactly as the corresponding `GameWorld` function says.
  The other methods (`LevelSetup`, `StartGame`, `AdvanceLevel`,
  `CheckEvents`, `Tick`, `GameLoopPass`, ...) state their effect directly
  on the game's fields. `Tick` and `GameLoopPass` are also tied, on every
  frame, to the world after the collision and update passes
  (`AfterUpdate`): the sprites are exactly that world on a frame without a
  level-up, and that world plus the new wave (`LevelUp`) on a frame with
  one.
- **Randomness, input and collision detection are parameters.**
  - Random headings and spawn positions come from an `Oracle`, keyed by
    the id of the sprite being made.
  - The keys held in a frame are a `Keys` value.
  - The result of `pygame.sprite.groupcollide` is a sequence of `Hit`s,
    constrained by `ValidHits` to what `groupcollide` can return.
- **The practice demos.** Each is its own module:
  - `MovingThings`: wrapping, top-left-based blocks;
  - `MovingThingsAgain`: rebounding, centre-based blocks;
  - `TransparentThings`: rebounding blocks plus the random-velocity
    rejection loop;
  - `MovingSprites`: sprites that slide right and restart off the left
    edge.

Points of the code worth knowing when reading the model:

- `confiner` has a wrapping mode as well as the rebound. Wrapping is the
  default in `practice/moving_things.py`, so `Confiner` takes the `bounce`
  flag.
- The two fragments of a split asteroid get the destroyed asteroid's
  top-left corner (sqasteroids.py:253-254), not its centre. The fragments
  are smaller, so their centres differ from the parent's.
- Explosion particles are 7 by 7, with their top-left at the destroyed
  asteroid's centre, life 80 and dlife -5 (sqasteroids.py:256-260). They
  are killed by their 17th update and join the all-sprites group only.
- One destroyed asteroid can use up several bullets at once, and they all
  die (a `Hit` holds a set of bullets). The asteroid still scores once, and
  no bullet is counted for two asteroids.

## Model

| member | source | states |
|---|---|---|
| Geometry.Rect.WithCenterX | sqasteroids.py:76 | assigning `centerx` moves only `x`, and the new centre is the value assigned |
| Geometry.Rect.WithCenterY | sqasteroids.py:77 | assigning `centery` moves only `y`, and the new centre is the value assigned |
| Geometry.Rect.Translated | sqasteroids.py:67-68 | moving `x` and `y` by the velocity moves the centre by the same amount and keeps the size |
| Geometry.Rect.Recentred | sqasteroids.py:58-64 | a rectangle replaced by one of a new size keeps its old centre |
| Geometry.CentredAt | practice/moving_things_again_transparently.py:23-24 | a rectangle of the given size whose centre is the given point |
| Confinement.Confiner | sqasteroids.py:315-338 | a value already in [minimum, maximum] and its delta come back unchanged; otherwise rebound clamps to the nearer bound and negates the delta, and wrap moves to the opposite bound and keeps the delta; for a non-empty range the result always lies inside it; the demos' copies (`practice/moving_things_again_transparently.py:86-109`, `practice/moving_things.py:87-110`, `practice/moving_things_again.py:72-95`) are the same function with a different default for `bounce` |
| Confinement.ConfinerEmptyRange | sqasteroids.py:330-338 | when maximum < minimum nothing is in range: rebound always negates the delta and wrap always keeps it; a value strictly between the bounds goes to minimum + maximum in both modes; rebound sends a value at or below maximum to minimum and one at or above minimum to maximum |
| Confinement.ConfineCentre | sqasteroids.py:74-77 | each centre coordinate is confined to [0, max] by rebounding; the size is kept and a velocity component flips exactly when its centre was off-screen |
| Confinement.CentredStep | sqasteroids.py:66-77 | a move by the velocity followed by the rebound leaves the centre on screen, keeps the size, and flips a component exactly when the move took its centre off-screen |
| Sprites.Step | sqasteroids.py:66-77 | one update adds `dlife` to life and moves then confines the centre |
| Sprites.StepsLife | sqasteroids.py:69 | after n updates life is `life + n*dlife` and `dlife` is unchanged |
| Sprites.KilledOnSixthUpdate | sqasteroids.py:69-71 | a sprite with life 5 and dlife -1 survives five updates and is killed by the sixth |
| Sprites.ConstantLifeNeverExpires | sqasteroids.py:69-71 | a sprite with dlife 0 and non-negative life keeps its life and is never killed |
| Sprites.RectSprite.constructor | sqasteroids.py:32-51 | the top-left is (x, y) and the size, velocity, life and dlife are as given; the sprite starts in no group |
| Sprites.RectSprite.Rotate | sqasteroids.py:53-64 | the rectangle takes the rotated image's size and keeps its centre; nothing else changes |
| Sprites.RectSprite.Kill | sqasteroids.py:70-71 | the sprite leaves every group and its state is unchanged |
| Sprites.RectSprite.Confine | sqasteroids.py:74-77 | the state becomes `ConfineCentre` of the old state |
| Sprites.RectSprite.Update | sqasteroids.py:66-72 | the state becomes `Step` of the old state; the sprite leaves every group exactly when the new life is negative |
| Sprites.Turned | sqasteroids.py:108 | the new orientation is in [0, 36) and congruent to orientation + step modulo 36 |
| Sprites.TurnedWraps | sqasteroids.py:108 | spinning -1 from 0 gives 35, spinning +1 from 35 gives 0, and +1 then -1 restores any orientation |
| Sprites.PlayerSprite.constructor | sqasteroids.py:81-91 | given the 36 rotated sizes and launch velocities, with the ship's own size and launch velocity (0, -8) at step 0: orientation 0, launch velocity (0, -8) and size those of step 0, stationary, life 80 with dlife 0, no group |
| Sprites.PlayerSprite.Spin | sqasteroids.py:101-116 | the orientation becomes `Turned(orientation, step)`, the rectangle takes that orientation's image size around the same centre, the launch velocity is that orientation's, and velocity, life and groups are kept |
| GameWorld.Chunks | sqasteroids.py:24-25 | `list(range(0, limit, step))`: every entry is the multiple i*step of its index and lies below limit, and there are enough entries that one more step would reach limit, so all multiples of step below limit are listed |
| GameWorld.SafeZoneBounds | sqasteroids.py:22-25 | 40 x-chunks and 25 y-chunks; the safe zone is strictly between x 320 and 960 and strictly between y 320 and 480 |
| GameWorld.Range | sqasteroids.py:214 | the ids lo to hi-1, numbering hi - lo |
| GameWorld.SpawnWf | sqasteroids.py:229-230 | adding a sprite to `all` and to at most one of the asteroid and bullet groups keeps the world invariant, when only proper asteroids join the asteroid group |
| GameWorld.ExplosionGroups | sqasteroids.py:256-260 | an explosion takes the next 8 ids, adds them to `all` only, and keeps the score and the other groups |
| GameWorld.ExplosionBodies | sqasteroids.py:256-260 | an explosion gives states to exactly the 8 fresh ids and keeps every older state |
| GameWorld.ExplosionParticles | sqasteroids.py:256-260 | the i-th new particle is a 7 by 7 sprite whose top-left is the blast point (the destroyed asteroid's centre), with the i-th fan velocity, life 80 and dlife -5 |
| GameWorld.SplitEffect | sqasteroids.py:249-254 | the score grows by 4 - life; an asteroid of life above 1 yields two of life - 1 at its top-left with fresh ids and their own headings, and one of life 1 yields none |
| GameWorld.ResolveHitEffect | sqasteroids.py:247-260 | resolving one destroyed asteroid: score +4 - life, 0 or 2 fragments in the asteroid group, then 8 particles in `all`; bullets kept; no existing state changes |
| GameWorld.ResolveAllEffect | sqasteroids.py:247-260 | resolving the hits in turn adds their total score, uses exactly the offspring + 8 per hit fresh ids, keeps every old id's groups and state, and admits only proper asteroids to the asteroid group |
| GameWorld.ResolveAllOffspringCount | sqasteroids.py:251-254 | the asteroid group gains exactly two fragments per destroyed asteroid of life above 1 |
| GameWorld.TotalScoreBounds | sqasteroids.py:249 | each destroyed asteroid is worth between 1 and 3 points |
| GameWorld.HitBulletsWithin | sqasteroids.py:246 | the bullets groupcollide reports all come from the bullet group |
| GameWorld.CollisionsWf | sqasteroids.py:243-260 | `bullet_collisions()` keeps the world invariant |
| GameWorld.CollisionsScore | sqasteroids.py:246-249 | the score grows by the hits' total, which is between one and three times the number of destroyed asteroids |
| GameWorld.CollisionsGroups | sqasteroids.py:246 | destroyed asteroids and the bullets that hit them leave every group, every other existing sprite keeps its groups, and the bullet group only shrinks |
| GameWorld.CollisionsFragments | sqasteroids.py:250-260 | no existing sprite state changes, the asteroid group gains exactly the fragments, and the ids used are the fragments plus 8 particles per hit |
| GameWorld.AfterUpdate | sqasteroids.py:271-272 | the collision pass then the update pass keep the world invariant, add the hits' points to the score, and leave the asteroid group as the collisions left it |
| GameWorld.WaveCleared | sqasteroids.py:271-283 | after a frame's collision and update passes the asteroid group is empty exactly when every asteroid was hit and none of them split (all had life 1) |
| GameWorld.UpdatedEffect | sqasteroids.py:272 | `all_sprites.update()` keeps the invariant and the asteroid group, keeps exactly the bullets whose life stays non-negative, and leaves every remaining sprite's centre on screen |
| GameWorld.Cooling | sqasteroids.py:232-235 | k frames after a shot (1 <= k < 15) the reload counter is 15 - k |
| GameWorld.ShotsAtLeast15Apart | sqasteroids.py:234-235 | after a shot, none of the next 14 frames can fire whatever the keys, and the counter is back to 0 on the 15th |
| GameWorld.ClearCostClosedForm | sqasteroids.py:247-254 | clearing an asteroid of life n and all its fragments takes 2^n - 1 hits and earns 2^(n+1) + n - 2 points |
| GameWorld.NewAsteroidClearCost | sqasteroids.py:222 | a new life-3 asteroid takes 7 hits to clear and is worth 17 points |
| Sqasteroids.PickSpawn | sqasteroids.py:215-221 | starting at the screen centre, the chosen point is the first random draw outside the safe zone, and it is on screen when the draws are |
| Sqasteroids.FreshIdsCount | sqasteroids.py:214 | a group grown by fresh ids lo to hi-1 grows by hi - lo |
| Sqasteroids.Game.constructor | sqasteroids.py:140-157 | empty groups, not running a game, level 0, score 0, reload 0; the ship (size 20 by 32 and launch velocity (0, -8) at step 0) has top-left (MIDWIDTH, MIDHEIGHT) and size 20 by 32 |
| Sqasteroids.Game.AddSprite | sqasteroids.py:229-230 | the world becomes `Spawn` of the old world |
| Sqasteroids.Game.MakeSqasteroid | sqasteroids.py:224-230 | the world becomes `AddSqasteroid`: one new asteroid of the given life at top-left (x, y) with its heading, in `all` and the asteroid group |
| Sqasteroids.Game.SpawnWaveAsteroid | sqasteroids.py:215-222 | one fresh life-3 asteroid whose top-left lies outside the safe zone joins `all` and the asteroid group; nothing else changes |
| Sqasteroids.Game.LevelSetup | sqasteroids.py:212-222 | exactly 3 + level fresh wave asteroids join `all` and the asteroid group, each outside the safe zone; existing sprites are untouched |
| Sqasteroids.Game.Reset | sqasteroids.py:201-208 | a game is in progress, score 0, level 1, every group empty |
| Sqasteroids.Game.StartGame | sqasteroids.py:201-210 | score 0, level 1, no bullets, exactly 4 asteroids which make up all of the arena sprites, each a wave asteroid, numbered from the old `nextId`; every existing sprite state kept; the ship's state, the fire control and `keep_going` untouched and the ship back in the all-sprites group |
| Sqasteroids.Game.Shoot | sqasteroids.py:232-241 | fires exactly when the counter is below 1: the counter becomes 15 and a 2 by 2 bullet with life 80 and dlife -1 joins `all` and the bullet group, its top-left at the ship's centre and its velocity the launch velocity plus the ship's; otherwise nothing changes |
| Sqasteroids.Game.Explode | sqasteroids.py:256-260 | the world becomes `Explosion` of the old world at (x, y) |
| Sqasteroids.Game.DestroyAsteroid | sqasteroids.py:248-260 | the world becomes `ResolveHit` of the old world for that target |
| Sqasteroids.Game.KillAll | sqasteroids.py:246 | the world becomes `Killed`: the given ids leave every group |
| Sqasteroids.Game.BulletCollisions | sqasteroids.py:243-260 | the world becomes `Collisions(old world, hits)` |
| Sqasteroids.Game.UpdateSprite | sqasteroids.py:66-72 | one arena sprite takes `Step` and leaves every group when its life turns negative |
| Sqasteroids.Game.UpdateArena | sqasteroids.py:272 | the world becomes `Updated` of the old world |
| Sqasteroids.Game.UpdateAll | sqasteroids.py:272 | the arena takes `Updated`, and the ship takes one update when it is in play |
| Sqasteroids.Game.AdvanceLevel | sqasteroids.py:275-285 | during a game, an empty asteroid group raises the level by 1 and sets up a new wave of 3 + level fresh wave asteroids, which are then the whole asteroid group and join the arena sprites, while every existing sprite state is kept; otherwise the level and sprites are unchanged; the asteroid group is never left empty during a game; bullets, score, fire control and `keep_going` untouched |
| Sqasteroids.Game.Steer | sqasteroids.py:299-303 | key A spins +1, then key D spins -1; the ship keeps its centre, velocity and life, takes the rotated size of its new step when it turned and is unchanged otherwise; the launch velocity is the new step's on a turn and kept otherwise |
| Sqasteroids.Game.CheckEvents | sqasteroids.py:291-312 | quit clears `keep_going`; the ship turns as in `Steer`; start begins a game only when none is in progress, with `StartGame`'s level, score and wave; stated as `KeysHandled`: otherwise level, score and asteroids are kept, and the sprites are exactly the old ones plus, when `Fires` allows, one bullet at the ship's centre moving at launch plus ship velocity; the counter is reset on a shot |
| Sqasteroids.Game.Tick | sqasteroids.py:269-285 | the counter drops by 1 and the score grows by the hits' total; the level rises, by exactly one, if and only if a game is in progress and `AfterUpdate` of the old sprites has no asteroid, and then the sprites are `AfterUpdate` of the old ones plus a new wave of 3 + level fresh asteroids (`LevelUp`): bullets and score as there, existing states kept; otherwise the level is kept and the sprites are exactly `AfterUpdate` of the old ones; the ship takes one `Step` when in play and is unchanged otherwise |
| Sqasteroids.Game.GameLoopPass | sqasteroids.py:265-285 | one frame: the reload counter follows `ReloadFrame` and `keep_going` drops on quit; on the sprites `seen` after the keys (unchanged unless the ship fired or a game started), the score grows by the total of `collide(seen)`, the level rises exactly when a game is in progress and `AfterUpdate(seen, ...)` has no asteroid, and otherwise the sprites end as `AfterUpdate(seen, ...)`; and on a level-up they are `AfterUpdate(seen, ...)` plus the new wave (`LevelUp`); `seen` is as `KeysHandled` says: the old sprites plus one bullet from the turned ship when it fired, and a fresh wave of 4 with score 0 and level 1 when a game started; the ship turns as in `Steer`, then takes one `Step` when in play; a game in progress never ends the frame without asteroids |
| TransparentThings.RandomVelocity | practice/moving_things_again_transparently.py:51-54 | the velocity is the first draw with dx + dy != 0, and within [-3, 4] on each axis when the draws are |
| TransparentThings.Movable.constructor | practice/moving_things_again_transparently.py:20-24 | the centre is (x, y), with the given size and velocity |
| TransparentThings.Movable.Confine | practice/moving_things_again_transparently.py:34-37 | the centre is confined to the 1280 by 800 window by rebounding |
| TransparentThings.Movable.Update | practice/moving_things_again_transparently.py:29-32 | move then rebound: the centre ends inside the window and the size is kept |
| TransparentThings.RandomMovable | practice/moving_things_again_transparently.py:50-59 | one random rectangle: size 160 centred on its drawn position, its velocity the first accepted of its draws, within [-3, 4] on each axis when the draws are |
| TransparentThings.GameThing.constructor | practice/moving_things_again_transparently.py:46-61 | 96 distinct new movables: 64 trail blocks centred on (20i, 10i) with the default velocity, then 32 of size 160 at random centres, rectangle k with the first accepted velocity of its own draws (`FirstAccepted`), within [-3, 4] on each axis when the draws are |
| TransparentThings.GameThing.Frame | practice/moving_things_again_transparently.py:66-83 | quit clears the running flag, and every movable takes exactly one update |
| MovingThingsAgain.Movable.constructor | practice/moving_things_again.py:18-22 | the centre is (x, y), with the given size and velocity |
| MovingThingsAgain.Movable.Confine | practice/moving_things_again.py:31-34 | the centre is confined to the 800 by 600 window by rebounding |
| MovingThingsAgain.Movable.Update | practice/moving_things_again.py:26-29 | move then rebound: the centre ends inside the window, and a velocity component flips exactly when the move took its centre out |
| MovingThings.WrapStep | practice/moving_things.py:26-34 | one coordinate moves by its increment and wraps to the opposite edge of [0, maximum] when it leaves; the result lies in range |
| MovingThings.BlockSlides | practice/moving_things.py:51 | the block starting at x = 100 with dx = -1 is at 100 - n after n ≤ 100 updates |
| MovingThings.BlockWraps | practice/moving_things.py:51 | the block reaches x = 0 on update 100 and reappears at the right edge, WIDTH - 48, on update 101 |
| MovingThings.Movable.constructor | practice/moving_things.py:17-22 | top-left, size and velocity as given |
| MovingThings.Movable.Confine | practice/moving_things.py:31-34 | the top-left is confined to [0, WIDTH - width] by [0, HEIGHT - height] by wrapping |
| MovingThings.Movable.Update | practice/moving_things.py:26-29 | each coordinate takes one `WrapStep`; the velocity never changes; a block no larger than the window stays inside it |
| MovingThings.MoveBlock | practice/moving_things.py:51-68 | after n updates the block is at `WrapSteps(100, -1, WIDTH - 48, n)` |
| MovingSprites.Slide | practice/moving_sprites.py:43-47 | x moves by dx, and restarts at -width once past WIDTH; the result is never past WIDTH |
| MovingSprites.SlidesStayInBand | practice/moving_sprites.py:43-47 | a right-moving sprite that starts at or right of -width stays in [-width, WIDTH] after any number (at least one) of updates |
| MovingSprites.Sprite.constructor | practice/moving_sprites.py:17-26 | top-left (x, y), the given size and horizontal speed |
| MovingSprites.Sprite.Rotate | practice/moving_sprites.py:30-41 | the rectangle takes the rotated image's size and keeps its centre |
| MovingSprites.Sprite.Update | practice/moving_sprites.py:43-47 | x takes one `Slide`; y, the size and the speed are kept |

## Left out

- `PlayerSprite.accellerate` (sqasteroids.py:118-126) works in floating point, including the 0.9 damping. The ship's velocity therefore stays as constructed, and the thrust key is read but has no effect in `Keys`.
- The trigonometry is left out. Bullet launch velocities (`-8 sin θ`, `-8 cos θ`) are per-orientation inputs (`launch`), and asteroid headings (`4 sin`, `4 cos` of a random angle) come from the `Oracle`. All velocities are integers, where the source has floats.
- Image rotation by pygame is left out. The size of each rotated image is an input (`rotatedSizes`, the `Rotate` arguments).
- `MIDWIDTH` and `MIDHEIGHT` are the floats 640.0 and 400.0 in the source. The model uses the integers 640 and 400.
- Sqasteroids.PickSpawn: randomness is an `Oracle`. The rejection loops end only if some draw is accepted, and this is a precondition (`SpawnSettles`, `VelocitySettles`), because real randomness cannot be written down.
- Drawing, colours, alpha, fonts, the score and level text, `TextSprite` and the screen fill are not modelled. Neither is `welcome_screen` (sqasteroids.py:162-199) with its decorative sprites, so a new `Game` starts with empty groups.
- The frame clock, `pygame.display`, `pygame.quit` and the event queue are not modelled. Polled events and key state are the `Keys` parameter of one frame, and the endless `game_loop` is modelled as one pass (`GameLoopPass`).
- `pygame.sprite.groupcollide` is not modelled. Its result is the `hits` parameter (or a function of the world in `GameLoopPass`), limited by `ValidHits` to distinct asteroids that each hit some bullets. Rectangle intersection and the order of the result are not modelled.
- Sprites other than the ship are values in an arena, not objects. Object identity and aliasing of those sprites are not modelled.
- The `GameThing` trails of `practice/moving_things.py` (line 54) and `practice/moving_things_again.py` (line 44), and those demos' animation loops, are not modelled. Only their `Movable` classes and the single block of `moving_things.py` are.
- The module-level animation script of `practice/moving_sprites.py` (lines 50-80) is not modelled, including its 160 sprites. The constructor's `angle` argument is not modelled either; a caller calls `Rotate`.
- `practice/simple.py` and the older in-progress copy of the game contain no logic beyond the above and are not modelled.
- `make_rotations` (sqasteroids.py:93-99) builds pygame images and is represented only by `rotatedSizes` and `launch`.
