/**
 * The per-frame `update(dt)` (app.js:169-188; assets/script/app.js:174-193):
 * advance the game clock, handle input, update the entities, maybe spawn an
 * enemy, then resolve collisions. The spawn decision `Math.random() < 1 -
 * Math.pow(.993, gameTime)` and the random height are host randomness: the
 * caller passes `None` when the test fails and `Some(u)` with the second draw
 * `u` when it passes.
 */
module Engine {
  import opened Wrappers
  import opened Geometry
  import opened Sprites
  import opened Entities
  import Input
  import Simulation
  import Collisions

  /**
   * The enemy pushed by a successful spawn (app.js:178-182): at the right edge
   * of the canvas, at height u * (480 - 39), with the enemy sprite.
   */
  function SpawnedEnemy(u: real): Entity
  {
    Entity(Vec(Width, u * (Height - EnemySize.y)), EnemySprite)
  }

  /** The spawn branch of `update`: `None` when the random test fails, `Some(u)` with the height draw when it passes. */
  function Spawn(w: World, draw: Option<real>): (r: World)
    ensures draw.None? ==> r == w
    ensures draw.Some? ==> r == w.(enemies := w.enemies + [SpawnedEnemy(draw.value)])
    ensures |r.enemies| <= |w.enemies| + 1 && r.enemies[..|w.enemies|] == w.enemies
  {
    if draw.Some? then w.(enemies := w.enemies + [SpawnedEnemy(draw.value)]) else w
  }

  /** The first part of a frame: `gameTime += dt`, `handleInput`, `updateEntities` and the spawn test. */
  function Advance(w: World, dt: real, now: int, keys: Input.Keys, draw: Option<real>): (r: World)
    ensures r.gameTime == w.gameTime + dt
    ensures r.player.sprite.size == w.player.sprite.size && r.score == w.score
    ensures r.isGameOver == w.isGameOver
    ensures r.lastFire == w.lastFire || r.lastFire == now
  {
    var w1 := w.(gameTime := w.gameTime + dt);
    var w2 := Input.HandleInput(w1, keys, dt, now);
    var w3 := Simulation.UpdateEntities(w2, dt);
    Spawn(w3, draw)
  }

  /** One frame: `Advance`, then `checkCollisions`. */
  function Tick(w: World, dt: real, now: int, keys: Input.Keys, draw: Option<real>): (r: World)
    ensures r.gameTime == w.gameTime + dt
    ensures r.score >= w.score && (w.isGameOver ==> r.isGameOver)
    ensures r.lastFire == w.lastFire || r.lastFire == now
  {
    Collisions.CheckCollisions(Advance(w, dt, now, keys, draw))
  }

  /**
   * Before collisions are resolved the player keeps its sprite and the score
   * is untouched, so the invariant holds at the `checkCollisions` call.
   */
  lemma AdvanceKeepsInvariant(w: World, dt: real, now: int, keys: Input.Keys, draw: Option<real>)
    requires Invariant(w)
    ensures var w' := Advance(w, dt, now, keys, draw);
      && w'.player.sprite.size == w.player.sprite.size
      && w'.score == w.score
      && Invariant(w')
  {
  }

  /**
   * A spawn appends exactly one enemy, at x = 512 and 0 <= y < 441 for a draw
   * in [0, 1), 80 by 39, speed 6, frames [0,1,2,3,2,1], and leaves the
   * existing enemies as they were.
   */
  lemma SpawnEffect(w: World, u: real)
    requires 0.0 <= u < 1.0
    ensures var es := Spawn(w, Some(u)).enemies;
      && |es| == |w.enemies| + 1
      && es[..|w.enemies|] == w.enemies
      && es[|w.enemies|].pos.x == Width
      && 0.0 <= es[|w.enemies|].pos.y < Height - EnemySize.y
      && es[|w.enemies|].sprite.size == Vec(80.0, 39.0)
      && es[|w.enemies|].sprite.speed == 6.0
      && es[|w.enemies|].sprite.frames == [0, 1, 2, 3, 2, 1]
    ensures Spawn(w, None) == w
  {
    assert u * 441.0 < 441.0;
  }

  /**
   * A frame adds dt to the game clock, leaves a 39 by 39 player inside the
   * canvas, sets `lastFire` to `now` or leaves it, never lowers the score, and
   * keeps the invariant (player size, score a non-negative multiple of 100).
   */
  lemma TickEffect(w: World, dt: real, now: int, keys: Input.Keys, draw: Option<real>)
    requires Invariant(w)
    ensures var w' := Tick(w, dt, now, keys, draw);
      && Invariant(w')
      && w'.gameTime == w.gameTime + dt
      && 0.0 <= w'.player.pos.x <= Width - PlayerSize.x
      && 0.0 <= w'.player.pos.y <= Height - PlayerSize.y
      && (w'.lastFire == w.lastFire || w'.lastFire == now)
      && w'.score >= w.score
      && (w.isGameOver ==> w'.isGameOver)
  {
    var w1 := w.(gameTime := w.gameTime + dt);
    var w2 := Input.HandleInput(w1, keys, dt, now);
    Input.HandleInputEffect(w1, keys, dt, now);
    var w3 := Simulation.UpdateEntities(w2, dt);
    Simulation.UpdateEntitiesKeeps(w2, dt);
    var w4 := Spawn(w3, draw);
    assert w4 == Advance(w, dt, now, keys, draw);
    Collisions.CheckCollisionsEffect(w4);
    var w5 := Collisions.CheckPlayerBounds(w4);
    Collisions.ResolveGameOver(Collisions.Scan([], w5.bullets, w5.explosions, w5.score, w5.isGameOver),
                               w5.enemies, w5.player);
  }
}
