/**
 * The game state: the player, the bullet, enemy and explosion lists, and the
 * scalars `score`, `gameTime`, `lastFire` and `isGameOver`
 * (assets/script/app.js:100-123; app.js:100-118), plus the sprites the game
 * creates.
 */
module Entities {
  import opened Wrappers
  import opened Geometry
  import opened Sprites

  /** Speeds in pixels per second (assets/script/app.js:121-123). */
  const PlayerSpeed: real := 200.0
  const BulletSpeed: real := 500.0
  const EnemySpeed: real := 100.0

  /** The one sprite sheet every `Sprite` of the game names. */
  const SheetUrl: string := "img/sprites.png"

  /** A player, enemy or explosion: a position and its own sprite. */
  datatype Entity = Entity(pos: Vec, sprite: Sprite)

  /** The `dir` tag of a bullet: 'forward', 'up' or 'down'. */
  datatype Heading = Forward | Up | Down

  datatype Bullet = Bullet(pos: Vec, dir: Heading, sprite: Sprite)

  /** Every global the per-frame update reads or writes. */
  datatype World = World(player: Entity, bullets: seq<Bullet>, enemies: seq<Entity>,
                         explosions: seq<Entity>, score: int, gameTime: real,
                         lastFire: int, isGameOver: bool)

  /** The player's sprite: 39 by 39, speed 16, frames [0, 1] (app.js:103). */
  const PlayerSize: Vec := Vec(39.0, 39.0)
  const PlayerSprite: Sprite := NewSprite(SheetUrl, Vec(0.0, 0.0), PlayerSize, Some(16.0), [0, 1], None, false)

  /** Enemy sprite: 80 by 39, speed 6, frames [0,1,2,3,2,1] (app.js:181). */
  const EnemySize: Vec := Vec(80.0, 39.0)
  const EnemySprite: Sprite :=
    NewSprite(SheetUrl, Vec(0.0, 78.0), EnemySize, Some(6.0), [0, 1, 2, 3, 2, 1], None, false)

  /** Bullet sprites: no speed and no frames given (app.js:257-267). */
  const ForwardBulletSprite: Sprite := NewSprite(SheetUrl, Vec(0.0, 39.0), Vec(18.0, 8.0), None, [], None, false)
  const UpBulletSprite: Sprite := NewSprite(SheetUrl, Vec(0.0, 50.0), Vec(9.0, 5.0), None, [], None, false)
  const DownBulletSprite: Sprite := NewSprite(SheetUrl, Vec(0.0, 60.0), Vec(9.0, 5.0), None, [], None, false)

  /**
   * Explosion sprite: 39 by 39, speed 16, the 13 frames 0..12, `dir` null
   * (so horizontal), play-once (assets/script/app.js:359-365).
   */
  const ExplosionSprite: Sprite :=
    NewSprite(SheetUrl, Vec(0.0, 117.0), Vec(39.0, 39.0), Some(16.0),
              [0, 1, 2, 3, 4, 5, 6, 7, 8, 9, 10, 11, 12], None, true)

  function ExplosionAt(pos: Vec): Entity
  {
    Entity(pos, ExplosionSprite)
  }

  /**
   * The start state: player at (0, 0), empty lists, score and game time 0,
   * `lastFire` the load-time clock reading, and `isGameOver` undefined (false).
   */
  function InitialWorld(now: int): World
  {
    World(Entity(Vec(0.0, 0.0), PlayerSprite), [], [], [], 0, 0.0, now, false)
  }

  /**
   * What every frame keeps: the player's sprite is 39 by 39, and the score is a
   * non-negative multiple of 100.
   */
  predicate Invariant(w: World)
  {
    w.player.sprite.size == PlayerSize && w.score >= 0 && w.score % 100 == 0
  }

  /** A fresh game satisfies the invariant and has nothing on screen but the player. */
  lemma InitialWorldInvariant(now: int)
    ensures Invariant(InitialWorld(now))
    ensures InitialWorld(now).bullets == [] && InitialWorld(now).enemies == []
    ensures InitialWorld(now).explosions == [] && InitialWorld(now).score == 0
    ensures InitialWorld(now).gameTime == 0.0 && InitialWorld(now).player.pos == Vec(0.0, 0.0)
    ensures InitialWorld(now).lastFire == now && !InitialWorld(now).isGameOver
  {
  }

  /** The explosion plays its 13 frames once and is done after 13/16 of a second. */
  lemma ExplosionLifetime(dts: seq<real>)
    ensures UpdateAll(ExplosionSprite, dts).Render().sprite.done <==> Sum(dts) >= 13.0 / 16.0
  {
    PlayOnceCompletion(ExplosionSprite, dts);
  }
}
