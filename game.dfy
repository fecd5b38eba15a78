/**
 * The game's globals as one object, and the per-frame routines that update
 * them in place: `handleInput`, `updateEntities`, `checkPlayerBounds`,
 * `checkCollisions` and `update`. Each method is proved to leave the state the
 * corresponding function of the model computes.
 */
module Shooter {
  import opened Wrappers
  import opened Geometry
  import opened Sprites
  import opened Entities
  import Input
  import Simulation
  import Collisions
  import Engine

  class Game {
    var player: Entity
    var bullets: seq<Bullet>
    var enemies: seq<Entity>
    var explosions: seq<Entity>
    var score: int
    var gameTime: real
    var lastFire: int
    var isGameOver: bool

    /** The globals as one value. */
    function State(): World
      reads this
    {
      World(player, bullets, enemies, explosions, score, gameTime, lastFire, isGameOver)
    }

    ghost predicate Valid()
      reads this
    {
      Invariant(State())
    }

    /** The globals as initialised at load time, `lastFire` being the clock then. */
    constructor (now: int)
      ensures State() == InitialWorld(now) && Valid()
    {
      player := Entity(Vec(0.0, 0.0), PlayerSprite);
      bullets, enemies, explosions := [], [], [];
      score, gameTime, lastFire, isGameOver := 0, 0.0, now, false;
    }

    /** `handleInput(dt)` (app.js:236-271): movement, then firing. */
    method HandleInput(keys: Input.Keys, dt: real, now: int)
      requires Valid()
      modifies this
      ensures Valid()
      ensures State() == Input.HandleInput(old(State()), keys, dt, now)
    {
      MovePlayer(keys, dt);
      Fire(keys, now);
    }

    /** The four movement tests of `handleInput` (app.js:237-251). */
    method MovePlayer(keys: Input.Keys, dt: real)
      requires Valid()
      modifies this
      ensures Valid()
      ensures State() == old(State()).(player := old(player).(pos := Input.Steer(old(player.pos), keys, dt)))
    {
      var pos := player.pos;
      if Input.DownHeld(keys) {
        pos := Vec(pos.x, pos.y + PlayerSpeed * dt);
      }
      if Input.UpHeld(keys) {
        pos := Vec(pos.x, pos.y - PlayerSpeed * dt);
      }
      if Input.LeftHeld(keys) {
        pos := Vec(pos.x - PlayerSpeed * dt, pos.y);
      }
      if Input.RightHeld(keys) {
        pos := Vec(pos.x + PlayerSpeed * dt, pos.y);
      }
      player := player.(pos := pos);
    }

    /** The firing test of `handleInput` (app.js:253-270): three bullets from the player's centre. */
    method Fire(keys: Input.Keys, now: int)
      requires Valid()
      modifies this
      ensures Valid()
      ensures Input.CanFire(keys, old(isGameOver), now, old(lastFire)) ==>
                State() == old(State()).(bullets := old(bullets) + Input.Volley(Input.Muzzle(player)), lastFire := now)
      ensures !Input.CanFire(keys, old(isGameOver), now, old(lastFire)) ==> State() == old(State())
    {
      if Input.IsDown(keys, "SPACE") && !isGameOver && now - lastFire > 100 {
        var x := player.pos.x + player.sprite.size.x / 2.0;
        var y := player.pos.y + player.sprite.size.y / 2.0;
        bullets := bullets + [Bullet(Vec(x, y), Forward, ForwardBulletSprite)];
        bullets := bullets + [Bullet(Vec(x, y), Up, UpBulletSprite)];
        bullets := bullets + [Bullet(Vec(x, y), Down, DownBulletSprite)];
        lastFire := now;
      }
    }

    /**
     * `updateEntities(dt)` (assets/script/app.js:278-321): the player's
     * animation, then the bullet, enemy and explosion loops, each of which
     * works on its list and stores it back.
     */
    method UpdateEntities(dt: real)
      requires Valid()
      modifies this
      ensures Valid()
      ensures State() == Simulation.UpdateEntities(old(State()), dt)
    {
      player := player.(sprite := player.sprite.Update(dt));
      bullets := Simulation.UpdateBullets(bullets, dt);
      enemies := Simulation.UpdateEnemies(enemies, dt);
      explosions := Simulation.UpdateExplosions(explosions, dt);
    }

    /** `checkPlayerBounds()` (assets/script/app.js:380-396). */
    method CheckPlayerBounds()
      requires Valid()
      modifies this
      ensures Valid()
      ensures State() == Collisions.CheckPlayerBounds(old(State()))
      ensures 0.0 <= player.pos.x <= Width - PlayerSize.x && 0.0 <= player.pos.y <= Height - PlayerSize.y
    {
      var pos := player.pos;
      if pos.x < 0.0 {
        pos := Vec(0.0, pos.y);
      } else if pos.x > Width - player.sprite.size.x {
        pos := Vec(Width - player.sprite.size.x, pos.y);
      }
      if pos.y < 0.0 {
        pos := Vec(pos.x, 0.0);
      } else if pos.y > Height - player.sprite.size.y {
        pos := Vec(pos.x, Height - player.sprite.size.y);
      }
      player := player.(pos := pos);
    }

    /**
     * `checkCollisions()` (assets/script/app.js:335-378): clamp the player,
     * then scan the enemies against the bullets and the player.
     */
    method CheckCollisions()
      requires Valid()
      modifies this
      ensures Valid()
      ensures State() == Collisions.CheckCollisions(old(State()))
    {
      Collisions.CheckCollisionsEffect(State());
      CheckPlayerBounds();
      var r := Collisions.ScanEnemies(enemies, bullets, explosions, score, isGameOver, player);
      enemies, bullets, explosions, score, isGameOver := r.kept, r.bullets, r.explosions, r.score, r.over;
    }

    /** `update(dt)` (app.js:169-188), with the clock and the random draws passed in. */
    method Update(dt: real, now: int, keys: Input.Keys, draw: Option<real>)
      requires Valid()
      modifies this
      ensures Valid()
      ensures State() == Engine.Tick(old(State()), dt, now, keys, draw)
    {
      ghost var w0 := State();
      Engine.AdvanceKeepsInvariant(w0, dt, now, keys, draw);
      gameTime := gameTime + dt;
      HandleInput(keys, dt, now);
      UpdateEntities(dt);
      if draw.Some? {
        enemies := enemies + [Engine.SpawnedEnemy(draw.value)];
      }
      assert State() == Engine.Advance(w0, dt, now, keys, draw);
      CheckCollisions();
    }
  }
}
