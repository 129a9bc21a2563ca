# Space shooter: the frame rules of main.py

This project models the game logic of `main.py`. That is a pygame shooter in which 50 blocks bounce around a
1200 by 800 screen and the player's ship follows the pointer along a fixed row. A click fires a bullet that
climbs 3 units per frame. A bullet destroys every block it overlaps, each destroyed block scores one point,
and the game shows a win banner instead of the sprites once the score reaches 50. A field of 2000 stars,
drawn after the sprites or the banner, scrolls up and wraps around at the bottom.

The model has six modules:

- `Geometry`: pygame's `Rect` (x, y, w, h, with `right = x + w` and `bottom = y + h`) and the overlap test
  sprite collision uses.
- `Groups`: a pygame `Group` as a sequence without duplicates, in the order sprites were added, and
  `Group.remove`.
- `Sprites`: the `Block`, `Player` and `Bullet` classes with their `update` methods. `BlockStep` gives the
  block rule as a function on the block's state, and lemmas follow a block over any number of frames.
- `Starfield`: one star's step, the whole field's step, and the in-place loop over the star array.
- `Collisions`: the collision and scoring pass as a function of the rectangles the sprites have when it
  starts (`Hit`, `Missed`, `Resolve`), and what it guarantees about every block and bullet.
- `Shooter`: the `Game` class. It holds `block_list`, `bullet_list`, `all_sprites_list`, `score`, the
  player and the star array. Its constructor is the setup code. Its methods are the parts of a frame:
  events and firing, updating every sprite, the collision loop, the win check and the starfield.
  `Advance` (events and updates) and `Settle` (collisions, win check, stars) are the two halves of a
  frame, and `Step` is one iteration of the main loop.

The game's invariant is `Game.Valid`. It holds after setup and after every part of a frame, and it says:

- `score + |block_list| == 50` and `score >= 0`, so the score never exceeds 50;
- each group holds a sprite at most once;
- `all_sprites_list` is exactly the blocks, the bullets and the player;
- every block keeps its boundaries (0, 0, 1200, 800) and a velocity in [-3, 3] on each axis;
- the ship stays on row 700;
- every star stays in columns [0, 1200) and rows [0, 850).

The collision loop iterates over a snapshot of `bullet_list`; pygame's group iteration copies the sprite
list. During the loop nothing moves, so the model reads every rectangle once when the loop starts. The
functions in `Collisions` work on those rectangles (`aim` for bullets, `at` for blocks). This is why the
pass can be stated and proved as a function of values.

Three behaviours of the code that are easy to misread:

- One bullet destroys every block it overlaps in a frame, not at most one. `spritecollide(..., True)` kills
  all overlapping blocks (`main.py:195`), and the inner loop adds one point per killed block
  (`main.py:198-203`).
- Any `MOUSEBUTTONDOWN` fires, whatever the button (`main.py:174`).
- A block is flipped in the same `update` call that takes it onto or past a boundary
  (`main.py:47-53`), not on the next one.

## Model

| member | source | states |
|---|---|---|
| Geometry.OverlapsSymmetric | main.py:195 | whether a bullet and a block collide does not depend on which is tested against which |
| Geometry.SelfOverlaps | main.py:195 | two sprites with the same rectangle of positive size collide |
| Geometry.SeparatedNeverOverlap | main.py:195 | a sprite with an empty rectangle never collides, nor do sprites separated along either axis or only touching at an edge |
| Groups.Remove | main.py:199-200 | `Group.remove` drops exactly the given sprite, is a no-op when it is absent, never grows the group and keeps it duplicate-free |
| Groups.RemoveConcat | main.py:207-208 | removing a sprite from a group's sequence split anywhere into a front and a back part removes it from each part, the order kept |
| Groups.RemoveOnly | main.py:199 | removing a bullet that sits once in the group leaves exactly the sprites before and after it |
| Sprites.BlockStep | main.py:46-53 | a block moves by exactly its velocity and keeps its size and its four boundaries; `change_x` is negated exactly when the moved block has `right > right_boundary` or `left <= left_boundary`, and is otherwise unchanged; likewise `change_y` with `bottom >= bottom_boundary` or `top <= top_boundary`; each velocity component keeps its magnitude |
| Sprites.Block.Update | main.py:46-53 | the block's new fields are `BlockStep` of its old fields |
| Sprites.Block.constructor | main.py:27-44 | a new block has its image's size at the origin, zero velocity and all boundaries 0 |
| Sprites.RoamingForever | main.py:50-53 | over any number of frames a block keeps its size, its boundaries and the magnitude of each velocity component, so its velocity stays in [-3, 3] |
| Sprites.ContainedStep | main.py:46-53 | a roaming block within 3 units of its boundaries, whose next move also stays within 3 units, keeps both properties after a frame |
| Sprites.ContainedForever | main.py:46-53 | such a block stays within 3 units of the screen on every side after any number of frames |
| Sprites.SpawnedRoaming | main.py:130-138 | a block drawn from the setup ranges has boundaries (0, 0, 1200, 800) and velocity in [-3, 3]; it starts contained when its image is at most 26 by 151 |
| Sprites.Player.constructor | main.py:59-67 | a new ship has its image's size at the origin |
| Sprites.Player.Update | main.py:69-76 | the ship's left edge moves to the pointer's x; its row and size do not change |
| Sprites.Bullet.constructor | main.py:82-89 | a new bullet has its image's size at the origin |
| Sprites.Bullet.Update | main.py:91-93 | a bullet's top rises by exactly 3; its column and size do not change |
| Starfield.SeededInField | main.py:162-165 | every star drawn at setup lies in columns [0, 1200) and rows [0, 850) |
| Starfield.Scroll | main.py:229-234 | a star with y at least 1 rises one row in place; one with y below 1 is moved to the respawn column and row; stars in the field stay in it |
| Starfield.Scrolled | main.py:227-234 | if every star is in the field and the respawn draws are in range, every star is still in the field after the frame that applies `Scroll` to each star with its own draws |
| Starfield.ScrollAll | main.py:227-234 | the in-place loop over `star_list` leaves the array equal to `Scrolled` of its old contents |
| Collisions.Hit | main.py:195 | `block_hit_list` holds exactly the blocks of the group that overlap the bullet |
| Collisions.Missed | main.py:195 | the blocks `spritecollide` leaves alive all come from the group |
| Collisions.Split | main.py:195 | `spritecollide` splits the group: a block survives exactly when it is in the group and does not overlap the bullet; the killed and surviving parts add up to the group, and neither holds a block twice |
| Collisions.Resolve | main.py:192-208 | the blocks alive after the pass all come from the blocks alive before it |
| Collisions.ResolveStep | main.py:192-208 | the pass over the first i + 1 bullets is the pass over the first i followed by bullet i's turn |
| Collisions.Accounted | main.py:195-208 | kills plus surviving blocks equal the blocks before the pass; every bullet still in flight was in the snapshot and is not above row -10 |
| Collisions.ResolveDistinct | main.py:192-208 | the pass never duplicates a block or a bullet |
| Collisions.BlockSurvivesIff | main.py:192-208 | a block survives exactly when it was alive and no bullet of the snapshot overlaps it |
| Collisions.BulletSurvivesIff | main.py:192-208 | a bullet is still in flight exactly when it overlaps no block left alive by the bullets before it and its top is at row -10 or below |
| Shooter.Clicks | main.py:170-183 | a frame fires at most one bullet per event, and none exactly when there is no click |
| Shooter.BulletSetAppend | main.py:182-183 | adding a bullet to a group adds exactly it to the group's members |
| Shooter.BlockSetMissed | main.py:195 | the blocks left by `spritecollide` are the group's blocks minus the killed ones |
| Shooter.ShotOnce | main.py:198-208 | a bullet sits once in a duplicate-free group; removing it leaves the sprites around it, and removing it again changes nothing |
| Shooter.Turn | main.py:195-208 | one bullet's turn leaves the blocks `spritecollide` does not kill, adds one point per killed block, and, in a duplicate-free `bullet_list`, keeps the bullet exactly when it killed nothing and its top is at row -10 or below |
| Shooter.TurnTallied | main.py:195-208 | one bullet's turn keeps the bookkeeping: `score + |block_list| == 50`, no group holds a sprite twice, and `all_sprites_list` is the blocks, the bullets and the player |
| Shooter.Shoot | main.py:195-208 | the body of the collision loop, with its inner loop over the killed blocks and the off-screen check, produces exactly one bullet's turn |
| Shooter.PassStep | main.py:192-208 | one bullet's turn takes the collision loop from the first i bullets to the first i + 1 |
| Shooter.Pass | main.py:192-208 | the collision loop keeps the bookkeeping invariant and ends with the groups and the score that `Resolve` gives for the snapshot |
| Shooter.Game.constructor | main.py:125-165 | setup makes 50 fresh blocks from the draws, the ship on row 700, no bullets, score 0 and the 2000 drawn stars, and establishes the game invariant |
| Shooter.Game.Fire | main.py:177-183 | a click adds one fresh bullet at (ship x + 42, ship y) to both `bullet_list` and `all_sprites_list`, and keeps the game invariant |
| Shooter.Game.HandleEvents | main.py:170-183 | the event loop stops the game exactly when a quit event arrives, and appends one bullet per click to `bullet_list`, each at the ship's muzzle |
| Shooter.Game.UpdateAll | main.py:189 | every block takes its `BlockStep`, the ship follows the pointer, every bullet rises 3, and the game invariant holds |
| Shooter.Game.ResolveCollisions | main.py:192-208 | the collision loop ends with the bullets, blocks and score `Resolve` gives for the rectangles at its start, and keeps the game invariant |
| Shooter.Game.WinBannerShown | main.py:216 | the banner shows exactly when the score is 50, which is exactly when no block is left |
| Shooter.Game.ScrollStars | main.py:227-234 | the star array becomes `Scrolled` of its old contents, and every star stays in the field |
| Shooter.Game.Advance | main.py:170-189 | events then updates: quit and the fired bullets as above, the ship at the pointer's x, every block's `BlockStep`, and the rectangle every old and new sprite has once it has moved |
| Shooter.Game.Settle | main.py:192-234 | the collision loop's outcome as `Resolve` gives it, no sprite joining a group, the win flag exactly when the score is 50 and no block is left, and the stars' step, keeping the game invariant |
| Shooter.Game.Step | main.py:168-240 | one frame keeps the game invariant; the frame's bullets, old and fired, hold no duplicate, so `Collisions.BulletSurvivesIff` applies to them; the ship ends at the pointer's x; every remaining block has taken its `BlockStep`; each remaining sprite's rectangle is the one it had when the collisions were resolved; the groups and score are what `Resolve` gives for the moved rectangles of the old and fired sprites; the score never falls; the win flag is set exactly when the score is 50 and no block is left; the stars take one step |

## Left out

- Drawing, fonts, the background image, sprite images, sound and `display.flip` (`main.py:31-32`, `64-65`,
  `86-87`, `104-110`, `175`, `212-228`, `237`) are left out as output side effects. Image sizes are
  constructor parameters.
- Event polling and the pointer position (`main.py:73`, `170`) become parameters of `Step`: a sequence of
  events and the pointer's x.
- The frame clock and the hidden cursor (`main.py:152-155`, `240`) are left out; they only pace and
  decorate the loop.
- The random draws at `main.py:130-134`, `163-164` and `231-233` are caller-supplied values, with a
  `requires` for each range.
- The console `print(score)` and the unused `score_text` (`main.py:202-203`) are left out.
- pygame's overlap test (`colliderect`, used by `spritecollide`) is not part of this model. It is assumed to
  report no collision when either rectangle has zero width or height, and otherwise strict intersection of
  the two rectangles on both axes, as `Geometry.Overlaps` states.
- `all_sprites_list` is a set of sprites, without the order pygame keeps. Nothing modelled depends on that
  order: the updates it drives touch each sprite independently, and the drawing it orders is left out.
- pygame stores rectangle coordinates as 32-bit integers. The model uses unbounded integers, and no
  coordinate reachable in the game comes near that width.
- Shooter.Game.Valid: does not include the "within 3 units of the screen" containment. It holds only
  when the block image is at most 26 wide and 151 high, and the image size is not part of the source;
  `Sprites.ContainedForever` and `Sprites.SpawnedRoaming` state it under that condition.
