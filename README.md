# Space shooter game-state engine

A model of the per-frame game-state engine of a small canvas shooter
(`assets/script/app.js`, with its earlier copy `app.js`). The player moves
around a 512 by 480 canvas and fires volleys of three bullets. Enemies drift in
from the right, and a destroyed enemy leaves a play-once explosion. One
frame of the game does the following, in order:

- adds `dt` to the game clock;
- moves the player from the keys held and maybe fires (`handleInput`);
- moves every bullet, enemy and explosion and drops those that left the
  screen or finished (`updateEntities`);
- maybe spawns an enemy;
- clamps the player into the canvas (`checkPlayerBounds`);
- resolves bullet-against-enemy and enemy-against-player overlaps
  (`checkCollisions`).

The clock, the key snapshot and the random spawn draws are parameters.

The project is laid out as follows:

- `geometry.dfy` (`Geometry`): the canvas size, `collides` and `boxCollides`,
  with the asymmetric edge convention made precise.
- `sprite.dfy` (`Sprites`): the `Sprite` constructor, the animation cursor
  `update`, and the frame selection, `done` flag and sheet offset of `render`.
- `entities.dfy` (`Entities`): the game state as a `World` value, the sprite
  constants, the start state and the invariant every frame keeps (player 39 by
  39, score a non-negative multiple of 100).
- `input.dfy` (`Input`): `handleInput` over a set of held key names.
- `simulation.dfy` (`Simulation`): the three passes of `updateEntities`.
  - Each pass is specified as a map followed by a filter.
  - Each is implemented as the source's index loop, which splices in place and
    holds the index (`splice(i, 1); i--`).
  - Each loop is proved equal to its specification.
- `collisions.dfy` (`Collisions`): the clamp, and the enemy scan.
  - The scan is specified as a left fold of one step per enemy.
  - It is implemented as the source's nested loops with their
    `splice`/`i--`/`break`.
  - The accounting, ordering and game-over properties are proved about the
    fold.
- `engine.dfy` (`Engine`): the spawn and one whole frame (`update`).
- `game.dfy` (`Shooter`): the globals as a `Game` object whose methods update
  the fields in place. Each method is proved to leave the state that the
  corresponding function of the model computes.
- `as_written.dfy` (`AsWritten`): two lines of `assets/script/app.js` modelled
  as written, next to the corrected reading the rest of the model uses.
- `seqs.dfy` and `wrappers.dfy`: generic map/filter/subsequence facts and
  `Option`.

Some behaviour differs from what one might expect of such a game; the model
follows the code:

- One might expect a bullet-killed enemy not to also end the game in the same
  frame. But the player test at assets/script/app.js:374 uses the position and
  size captured at :341-342 even after the enemy was spliced out, so it can end
  the game (`Collisions.ShotEnemyStillEndsGame`).
- One might expect game over to suspend movement and spawning. The flag only
  gates firing: movement, updating and spawning go on
  (`Input.GameOverGatesOnlyFiring`).
- Nothing clamps `dt` to be non-negative, so the model takes any real `dt`.
- The enemy removal test throws (see Findings).

## Model

| member | source | states |
|---|---|---|
| Geometry.Collides | assets/script/app.js:323-326 | the edge convention: the first box's right or bottom edge on the second's left or top edge misses; its left edge on the second's right edge, rows shared, hits |
| Geometry.BoxCollides | assets/script/app.js:328-333 | a box of positive size collides with itself; a box whose right or bottom edge is at or before the other's left or top edge misses |
| Geometry.BoxCollidesIffSharedPoint | assets/script/app.js:323-333 | for boxes of positive size, `boxCollides` holds iff some point lies in the first box (half-open) and the second box (closed) |
| Geometry.RightEdgeTouchMisses | assets/script/app.js:323-326 | A's right edge on B's left edge (`r <= x2`) is no collision |
| Geometry.LeftEdgeTouchHits | assets/script/app.js:323-326 | A's left edge on B's right edge is a collision for positive sizes, while the swapped call is not: the test is asymmetric |
| Geometry.SeparatedBoxesMiss | assets/script/app.js:323-333 | boxes strictly apart on either axis do not collide, in either order |
| Geometry.BoxCollidesSymmetricOffEdges | assets/script/app.js:323-333 | without exact edge contact the test is symmetric |
| Sprites.NewSprite | app.js:120-128 | url, pos, size, the fifth argument as `frames`, and `once` are stored; a given speed is kept and a non-number speed becomes 0; a non-empty `dir` is kept and a missing or empty one becomes "horizontal"; the cursor starts at 0 and `done` is unset |
| Sprites.Sprite.Update | app.js:131-133 | only the cursor changes; it does not decrease for speed >= 0 and dt >= 0; dt = 0 changes nothing |
| Sprites.Sprite.SelectFrame | app.js:136-150 | finished iff speed > 0, play-once and floor(cursor) >= frame count; frame 0 when speed <= 0; otherwise `FrameAt(frames, floor(cursor))`, the truncating `frames[idx % length]` for any cursor, negative included: `frames[floor(cursor) mod length]` for a non-negative cursor, undefined for no frames |
| Sprites.JsRem | app.js:140 | JavaScript's truncating `%`: result strictly within (-n, n), equal to Euclidean `%` for a non-negative left side and to `-((-a) % n)` for a negative one |
| Sprites.FrameAt | app.js:140 | `frames[idx % length]`: undefined for no frames; the Euclidean-indexed frame for idx >= 0; for idx < 0 defined only when length divides -idx, and then frame 0 |
| Sprites.Sprite.SheetOffset | app.js:152-160 | frame 0 is the sprite origin; a vertical sheet keeps x, any other keeps y |
| Sprites.Sprite.Render | app.js:135-160 | only `done` changes, set exactly when finished; finished draws nothing; a defined frame is drawn from `SheetOffset(frame)`, the cell `frame` steps along `dir`; an undefined frame gives an undefined draw position |
| Sprites.UpdateAdditive | app.js:131-133 | update by dt1 then dt2 equals one update by dt1 + dt2 |
| Sprites.UpdateMonotone | app.js:131-133 | with speed >= 0 and dt >= 0 the cursor never decreases |
| Sprites.UpdateAllIndex | app.js:131-133 | any sequence of updates moves the cursor by speed times the summed time and changes nothing else |
| Sprites.DoneIsSticky | app.js:143-146 | once set, `done` stays set through `update` and `render` |
| Sprites.PlayOnceCompletion | app.js:131-146 | a fresh play-once sprite with positive speed becomes done iff speed times elapsed time reaches the frame count |
| Sprites.SheetOffsetLayout | app.js:152-160 | frame 0 is at the sprite origin and each next frame is one cell further along `dir`, the other coordinate unchanged |
| Sprites.DefaultDirIsHorizontal | app.js:126 | a sprite built without `dir` lays frames out along x |
| Entities.InitialWorldInvariant | assets/script/app.js:101-117 | the start state has the player at (0, 0), empty bullet, enemy and explosion lists, score and game time 0, `lastFire` at the load clock, no game over, and satisfies the frame invariant |
| Entities.ExplosionLifetime | assets/script/app.js:357-366 | the 13-frame speed-16 explosion is done iff at least 13/16 s has elapsed |
| Input.LetterKeysAreUpperCased | app.js:230-232 | `isDown('s')` etc. look up the upper-cased key name |
| Input.Steer | app.js:237-251 | y moves by playerSpeed*dt times (down held - up held), x by playerSpeed*dt times (right held - left held) |
| Input.HandleInput | app.js:236-271 | the player is steered; when firing is allowed the bullets gain the forward, up, down volley from the moved player's centre and `lastFire` becomes `now`, otherwise both are unchanged; nothing else changes |
| Input.SteerDisplacement | app.js:237-251 | each held direction moves the player by playerSpeed*dt on its axis; opposite keys cancel |
| Input.HandleInputEffect | app.js:236-271 | a shot appends exactly forward, up, down bullets at the moved player's centre and sets `lastFire := now`; otherwise bullets and `lastFire` are unchanged; nothing else but the player moves |
| Input.CooldownIsStrict | app.js:253 | exactly 100 ms after the last shot nothing is fired |
| Input.GameOverGatesOnlyFiring | app.js:237-253 | when the game is over nothing is fired, but movement is as if it were not |
| Simulation.MoveBullet | assets/script/app.js:286-290 | a bullet moves 500*dt along its heading and keeps tag and sprite |
| Simulation.BulletPass | assets/script/app.js:283-297 | no more bullets than before, every survivor on screen (0 <= y <= 480, x <= 512) |
| Simulation.MoveEnemy | assets/script/app.js:301-302 | an enemy moves left by 100*dt and only its sprite's cursor advances, by speed*dt |
| Simulation.EnemyPass | assets/script/app.js:300-309 | no more enemies than before, every survivor's right edge at or right of 0 |
| Simulation.MoveExplosion | assets/script/app.js:313 | an explosion keeps its position and only its sprite's cursor changes |
| Simulation.ExplosionPass | assets/script/app.js:312-320 | no more explosions than before, none of the survivors done |
| Simulation.UpdateEntities | assets/script/app.js:278-321 | the player's sprite is updated and its position kept; score, clock, `lastFire` and flag are kept; no list grows |
| Simulation.UpdateBullets | assets/script/app.js:283-297 | the splice-and-hold loop computes the bullet pass |
| Simulation.UpdateEnemies | assets/script/app.js:300-309 | the splice-and-hold loop computes the enemy pass (testing the current enemy) |
| Simulation.UpdateExplosions | assets/script/app.js:312-320 | the splice-and-hold loop computes the explosion pass |
| Simulation.BulletPassSurvivors | assets/script/app.js:283-297 | survivors satisfy 0 <= y <= 480 and x <= 512; a bullet survives iff its moved copy is on screen; survivors are moved bullets in their original order |
| Simulation.EnemyPassSurvivors | assets/script/app.js:300-309 | an enemy survives iff its moved right edge is not left of 0; survivors are moved enemies in order |
| Simulation.ExplosionPassSurvivors | assets/script/app.js:312-320 | exactly the done explosions are removed; the others keep position and order with the cursor advanced |
| Simulation.EnemyEdgeExamples | assets/script/app.js:305 | an 80-wide enemy at x = -1 stays, one at x = -81 goes |
| Simulation.UpdateEntitiesKeeps | assets/script/app.js:278-280 | the pass advances only the player's cursor and leaves position, size, score, clock, `lastFire` and flag alone |
| Collisions.ClampPlayer | assets/script/app.js:380-396 | for a player that fits, the result lies in [0, 512 - w] by [0, 480 - h]; an in-range coordinate is unchanged |
| Collisions.CheckPlayerBounds | assets/script/app.js:380-396 | only the player's position changes, and a 39 by 39 player ends in [0, 473] by [0, 441] |
| Collisions.ClampIdempotent | assets/script/app.js:380-396 | clamping twice equals clamping once, for a player that fits |
| Collisions.ClampOversized | assets/script/app.js:382-386 | because of `else if`, a player wider than the canvas is clamped to 0, which is out of range, and a second clamp moves it again |
| Collisions.Hits | assets/script/app.js:341-348 | a hit needs the bullet's corner left of and above the enemy's right and bottom edges; a bullet at the enemy's own position (positive sizes) hits |
| Collisions.FirstHit | assets/script/app.js:344-372 | the index of a hitting bullet with no hitting bullet before it, or none when no bullet hits |
| Collisions.FindHit | assets/script/app.js:344-372 | the inner loop with `break` returns the first hitting bullet in list order |
| Collisions.ScanEnemies | assets/script/app.js:340-377 | the outer splice-and-hold loop over every enemy computes the fold of one step per enemy, so no enemy is skipped |
| Collisions.Step | assets/script/app.js:341-376 | the flag is or-ed with the captured box overlapping the player; a missed enemy is appended to the kept ones and nothing else changes; a hit keeps the kept enemies, removes one bullet, appends an explosion at the enemy and adds 100 |
| Collisions.Resolve | assets/script/app.js:340-377 | the score never drops, bullets never grow, at most the scanned enemies are added to the kept ones, explosions never shrink, and a set flag stays set |
| Collisions.CheckCollisions | assets/script/app.js:335-378 | the player is the clamped player; clock and `lastFire` are kept; the score never drops; bullets and enemies never grow; game over is never cleared |
| Collisions.StepOnHit | assets/script/app.js:349-370 | a hit drops the enemy, removes only the first hitting bullet, scores 100, appends one explosion at the enemy's position, then tests the player |
| Collisions.StepOnMiss | assets/script/app.js:341-376 | an enemy no bullet hits is kept and only the game-over test applies |
| Collisions.ResolveAccounting | assets/script/app.js:340-377 | enemies removed = bullets removed = explosions added = score delta / 100; earlier explosions and kept enemies stay in front |
| Collisions.ResolveExplosions | assets/script/app.js:357-366 | every appended explosion is a play-once explosion at one scanned enemy's position |
| Collisions.ResolveKeepsOrder | assets/script/app.js:340-377 | the kept enemies are a subsequence of the scanned ones |
| Collisions.ResolveBulletsShrink | assets/script/app.js:369 | the remaining bullets are a sub-multiset of those before the scan |
| Collisions.ResolveGameOver | assets/script/app.js:374-376 | the flag ends set iff it was set or some enemy's captured box overlaps the player, including enemies shot in the same iteration |
| Collisions.CheckCollisionsEffect | assets/script/app.js:335-378 | the player is exactly the clamped player, clock and `lastFire` unchanged, score non-decreasing and a multiple of 100 if it was, and 100 times each of bullets removed, enemies removed and explosions added |
| Collisions.BulletKillsEnemyExample | assets/script/app.js:341-372 | an overlapping bullet and enemy both go, score 100, one explosion at the enemy |
| Collisions.ShotEnemyStillEndsGame | assets/script/app.js:341-376 | an enemy shot while overlapping the player still ends the game |
| Engine.Spawn | app.js:177-183 | a failed test changes nothing; a passed one appends exactly the spawned enemy and changes nothing else |
| Engine.Advance | app.js:169-183 | the clock gains dt; the player's size, the score and the flag are kept; `lastFire` is kept or becomes `now` |
| Engine.Tick | app.js:169-188 | the clock gains dt, the score never drops, game over is never cleared, `lastFire` is kept or becomes `now` |
| Engine.SpawnEffect | app.js:177-183 | a spawn appends one enemy at x = 512, 0 <= y < 441, 80 by 39, speed 6, frames [0,1,2,3,2,1], existing enemies untouched; no spawn changes nothing |
| Engine.AdvanceKeepsInvariant | app.js:169-183 | before collisions the player's size and the score are unchanged, so the invariant holds |
| Engine.TickEffect | app.js:169-188 | a frame keeps the invariant, adds dt to the clock, leaves the player in the canvas, sets `lastFire` to `now` or leaves it, never lowers the score, and never clears game over |
| Shooter.Game.constructor | assets/script/app.js:101-117 | the globals start as the start state |
| Shooter.Game.HandleInput | app.js:236-271 | updates the fields to the `handleInput` of the old state, keeping `Valid()` |
| Shooter.Game.MovePlayer | app.js:237-251 | moves only the player's position, as steered, keeping `Valid()` |
| Shooter.Game.Fire | app.js:253-270 | when firing is allowed pushes the three bullets from the player's centre and sets `lastFire`; otherwise changes nothing; keeps `Valid()` |
| Shooter.Game.UpdateEntities | assets/script/app.js:278-321 | updates the fields to the `updateEntities` of the old state, keeping `Valid()` |
| Shooter.Game.CheckPlayerBounds | assets/script/app.js:380-396 | clamps the player in place, keeping the invariant, into [0, 473] by [0, 441] |
| Shooter.Game.CheckCollisions | assets/script/app.js:335-378 | updates the fields to the `checkCollisions` of the old state, keeping the invariant |
| Shooter.Game.Update | assets/script/app.js:174-193 | one frame in place equals the model's frame, keeping the invariant |
| AsWritten.EnemyPass | assets/script/app.js:300-309 | as written the enemy loop completes only on an empty list; otherwise it throws with enemy 0 moved and animated and the rest untouched |
| AsWritten.EnemyPassThrowsOnScreen | assets/script/app.js:305 | one on-screen enemy: as written the loop throws, corrected it keeps the enemy moved by 100*dt |
| AsWritten.CollidesJsOnNumbers | assets/script/app.js:323-326 | `collides` over JavaScript numbers agrees with the real-valued test on numbers |
| AsWritten.EveryBulletHits | assets/script/app.js:345-348 | with the bullet object as `pos2`, every bullet hits every enemy |
| AsWritten.FarBulletHits | assets/script/app.js:345-348 | an enemy at (500, 0) and a bullet at (0, 400) collide as written but not corrected |

## Left out

- The resource loader (assets/script/app.js:21-87) is asynchronous image loading, which is browser I/O.
- The keyboard listeners and the `blur` reset (assets/script/app.js:198-232) are also out. `handleInput` receives the set of held key names instead.
- `main`, `requestAnimationFrame`, `Date.now`, `init` and the canvas are host clock and rendering: `now` and `dt` are parameters. The same goes for `ctx.drawImage`/`createPattern` (with the misspelt `this.siz` at assets/script/app.js:171), the empty `render` (:398-400) and the score element.
- `Math.random()` and `1 - Math.pow(.993, gameTime)` are randomness and floating point. The spawn decision and the height draw come in as one `Option<real>`.
- `gameOver()` and `reset()` are not defined in these files. `gameOver` is modelled as setting `isGameOver`, and `reset` is not modelled.
- Positions and times are exact reals, not IEEE doubles. NaN appears only in `AsWritten`.
- Sprites are values owned by their entity. An in-place `_index`/`done` update is a replacement, which is sound because no sprite object is shared.
- The explosion's `pos` aliases the destroyed enemy's `pos` array (assets/script/app.js:358). The model copies it instead. The enemy has already been removed, so nothing can observe the difference.
- `Sprite.render` never runs in the game loop, because the game's own `render` is empty. Nothing sets `done`, so in practice the explosion pass never removes an explosion. The model proves what the pass would do given `done`.
- Input.HandleInput: uses one clock reading `now` for both the cooldown test and `lastFire = Date.now()` (app.js:253,269). The source reads the clock twice.
- Bullet tags are the three the game creates (`forward`, `up`, `down`). Any other tag would move like `forward`.
- `isGameOver` starts undefined (assets/script/app.js:113). It is modelled as false, which is how `!isGameOver` reads it.
- The `Sprite` constructor's fifth parameter is named `frame` but the body reads `frames` (app.js:120,124; assets/script/app.js:125,129), which is an unrelated global. The model uses the fifth argument, as evidently intended.
- `playerSpeed` is declared only in assets/script/app.js:121 (200). app.js uses it without declaring it.

## Findings

| source | as written | input that shows it | evidently intended | confidence | as-written member | corrected member |
|---|---|---|---|---|---|---|
| assets/script/app.js:305 | `enemies.pos[0]` reads a missing property of the list, so the first iteration throws a TypeError and the frame loop stops | any frame with one enemy, e.g. at (300, 100) | `enemies[i].pos[0]`, the current enemy's x | high (not executed) | AsWritten.EnemyPass | Simulation.EnemyPassSurvivors |
| assets/script/app.js:345 | `pos2 = bullets[j]` passes the bullet object, so every comparison in `collides` sees NaN and every bullet hits every enemy | enemy at (500, 0), bullet at (0, 400) | `bullets[j].pos` | high (not executed) | AsWritten.FarBulletHits | Collisions.FindHit |
