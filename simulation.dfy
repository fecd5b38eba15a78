/**
 * `updateEntities` (assets/script/app.js:278-321): advance the player's sprite,
 * then move each bullet, enemy and explosion and drop the ones that left the
 * screen or finished. Each pass is a map over the list followed by a filter,
 * which is what the source's `splice(i, 1); i--` scan computes.
 */
module Simulation {
  import opened Geometry
  import opened Sprites
  import opened Entities
  import opened Seqs

  /** One bullet step (assets/script/app.js:286-290): up and down move y, any other tag moves x. */
  function MoveBullet(b: Bullet, dt: real): (r: Bullet)
    ensures r.dir == b.dir && r.sprite == b.sprite
    ensures r.pos == Vec(b.pos.x + BulletSpeed * dt * HeadingVector(b.dir).x,
                         b.pos.y + BulletSpeed * dt * HeadingVector(b.dir).y)
  {
    match b.dir
    case Up => b.(pos := Vec(b.pos.x, b.pos.y - BulletSpeed * dt))
    case Down => b.(pos := Vec(b.pos.x, b.pos.y + BulletSpeed * dt))
    case Forward => b.(pos := Vec(b.pos.x + BulletSpeed * dt, b.pos.y))
  }

  /** The removal test of assets/script/app.js:293: above, below or right of the canvas. */
  predicate BulletGone(b: Bullet)
  {
    b.pos.y < 0.0 || b.pos.y > Height || b.pos.x > Width
  }

  /** The bullet pass: every bullet moved, then the ones off screen dropped. */
  function BulletPass(bs: seq<Bullet>, dt: real): (r: seq<Bullet>)
    ensures |r| <= |bs|
    ensures forall i :: 0 <= i < |r| ==> 0.0 <= r[i].pos.y <= Height && r[i].pos.x <= Width
  {
    Filter(b => !BulletGone(b), Map(b => MoveBullet(b, dt), bs))
  }

  /** One enemy step (assets/script/app.js:301-302): left by enemySpeed*dt, sprite advanced. */
  function MoveEnemy(e: Entity, dt: real): (r: Entity)
    ensures r.pos == Vec(e.pos.x - EnemySpeed * dt, e.pos.y)
    ensures r.sprite.(index := e.sprite.index) == e.sprite
    ensures r.sprite.index == e.sprite.index + e.sprite.speed * dt
  {
    Entity(Vec(e.pos.x - EnemySpeed * dt, e.pos.y), e.sprite.Update(dt))
  }

  /**
   * The removal test of assets/script/app.js:305: the right edge is left of the
   * canvas. The source reads `enemies.pos[0]` (a property of the list, which
   * does not exist); this uses the current enemy's x, as evidently intended.
   */
  predicate EnemyGone(e: Entity)
  {
    e.pos.x + e.sprite.size.x < 0.0
  }

  /** The enemy pass: every enemy moved, then the ones past the left edge dropped. */
  function EnemyPass(es: seq<Entity>, dt: real): (r: seq<Entity>)
    ensures |r| <= |es|
    ensures forall i :: 0 <= i < |r| ==> r[i].pos.x + r[i].sprite.size.x >= 0.0
  {
    Filter(e => !EnemyGone(e), Map(e => MoveEnemy(e, dt), es))
  }

  /** One explosion step (assets/script/app.js:313): only the sprite advances. */
  function MoveExplosion(x: Entity, dt: real): (r: Entity)
    ensures r.pos == x.pos
    ensures r.sprite.(index := x.sprite.index) == x.sprite
  {
    x.(sprite := x.sprite.Update(dt))
  }

  /** The removal test of assets/script/app.js:316. */
  predicate ExplosionGone(x: Entity)
  {
    x.sprite.done
  }

  /** The explosion pass: every sprite advanced, then the finished ones dropped. */
  function ExplosionPass(xs: seq<Entity>, dt: real): (r: seq<Entity>)
    ensures |r| <= |xs|
    ensures forall i :: 0 <= i < |r| ==> !r[i].sprite.done
  {
    Filter(x => !ExplosionGone(x), Map(x => MoveExplosion(x, dt), xs))
  }

  /** `updateEntities(dt)`: player sprite, then bullets, enemies and explosions. */
  function UpdateEntities(w: World, dt: real): (r: World)
    ensures r.player.pos == w.player.pos
    ensures r.player.sprite == w.player.sprite.Update(dt)
    ensures r.score == w.score && r.gameTime == w.gameTime
    ensures r.lastFire == w.lastFire && r.isGameOver == w.isGameOver
    ensures |r.bullets| <= |w.bullets| && |r.enemies| <= |w.enemies| && |r.explosions| <= |w.explosions|
  {
    w.(player := w.player.(sprite := w.player.sprite.Update(dt)),
       bullets := BulletPass(w.bullets, dt),
       enemies := EnemyPass(w.enemies, dt),
       explosions := ExplosionPass(w.explosions, dt))
  }

  // The three loops of `updateEntities`. Each mirrors the source's scan: the
  // element at i is updated in place and, when it must go, spliced out without
  // advancing i (the source's `i--` before the loop's `i++`). The ghost `k`
  // counts the elements of the original list processed so far.

  /** The bullet loop (assets/script/app.js:283-297). */
  method UpdateBullets(bullets: seq<Bullet>, dt: real) returns (list: seq<Bullet>)
    ensures list == BulletPass(bullets, dt)
  {
    list := bullets;
    ghost var k := 0;
    var i := 0;
    while i < |list|
      invariant 0 <= i <= |list| && 0 <= k <= |bullets|
      invariant list[..i] == BulletPass(bullets[..k], dt)
      invariant list[i..] == bullets[k..]
      decreases |list| - i
    {
      BulletPassSnoc(bullets[..k], bullets[k], dt);
      assert bullets[..k + 1] == bullets[..k] + [bullets[k]];
      list := list[i := MoveBullet(list[i], dt)];
      if list[i].pos.y < 0.0 || list[i].pos.y > Height || list[i].pos.x > Width {
        list := list[..i] + list[i + 1..];
      } else {
        i := i + 1;
      }
      k := k + 1;
    }
    assert bullets[..k] == bullets;
  }

  /**
   * The enemy loop (assets/script/app.js:300-309), testing the current enemy's
   * x where the source reads `enemies.pos[0]`.
   */
  method UpdateEnemies(enemies: seq<Entity>, dt: real) returns (list: seq<Entity>)
    ensures list == EnemyPass(enemies, dt)
  {
    list := enemies;
    ghost var k := 0;
    var i := 0;
    while i < |list|
      invariant 0 <= i <= |list| && 0 <= k <= |enemies|
      invariant list[..i] == EnemyPass(enemies[..k], dt)
      invariant list[i..] == enemies[k..]
      decreases |list| - i
    {
      EnemyPassSnoc(enemies[..k], enemies[k], dt);
      assert enemies[..k + 1] == enemies[..k] + [enemies[k]];
      list := list[i := list[i].(pos := Vec(list[i].pos.x - EnemySpeed * dt, list[i].pos.y))];
      list := list[i := list[i].(sprite := list[i].sprite.Update(dt))];
      if list[i].pos.x + list[i].sprite.size.x < 0.0 {
        list := list[..i] + list[i + 1..];
      } else {
        i := i + 1;
      }
      k := k + 1;
    }
    assert enemies[..k] == enemies;
  }

  /** The explosion loop (assets/script/app.js:312-320). */
  method UpdateExplosions(explosions: seq<Entity>, dt: real) returns (list: seq<Entity>)
    ensures list == ExplosionPass(explosions, dt)
  {
    list := explosions;
    ghost var k := 0;
    var i := 0;
    while i < |list|
      invariant 0 <= i <= |list| && 0 <= k <= |explosions|
      invariant list[..i] == ExplosionPass(explosions[..k], dt)
      invariant list[i..] == explosions[k..]
      decreases |list| - i
    {
      ExplosionPassSnoc(explosions[..k], explosions[k], dt);
      assert explosions[..k + 1] == explosions[..k] + [explosions[k]];
      list := list[i := list[i].(sprite := list[i].sprite.Update(dt))];
      if list[i].sprite.done {
        list := list[..i] + list[i + 1..];
      } else {
        i := i + 1;
      }
      k := k + 1;
    }
    assert explosions[..k] == explosions;
  }

  /** The direction a bullet tag moves in. */
  function HeadingVector(h: Heading): Vec
  {
    match h
    case Forward => Vec(1.0, 0.0)
    case Up => Vec(0.0, -1.0)
    case Down => Vec(0.0, 1.0)
  }

  // The three passes, one element at a time: what the loops of the game use.

  lemma BulletPassSnoc(bs: seq<Bullet>, b: Bullet, dt: real)
    ensures BulletPass(bs + [b], dt)
            == BulletPass(bs, dt) + (if BulletGone(MoveBullet(b, dt)) then [] else [MoveBullet(b, dt)])
  {
    MapSnoc(b => MoveBullet(b, dt), bs, b);
    FilterSnoc(b => !BulletGone(b), Map(b => MoveBullet(b, dt), bs), MoveBullet(b, dt));
  }

  lemma EnemyPassSnoc(es: seq<Entity>, e: Entity, dt: real)
    ensures EnemyPass(es + [e], dt)
            == EnemyPass(es, dt) + (if EnemyGone(MoveEnemy(e, dt)) then [] else [MoveEnemy(e, dt)])
  {
    MapSnoc(e => MoveEnemy(e, dt), es, e);
    FilterSnoc(e => !EnemyGone(e), Map(e => MoveEnemy(e, dt), es), MoveEnemy(e, dt));
  }

  lemma ExplosionPassSnoc(xs: seq<Entity>, x: Entity, dt: real)
    ensures ExplosionPass(xs + [x], dt)
            == ExplosionPass(xs, dt) + (if ExplosionGone(MoveExplosion(x, dt)) then [] else [MoveExplosion(x, dt)])
  {
    MapSnoc(x => MoveExplosion(x, dt), xs, x);
    FilterSnoc(x => !ExplosionGone(x), Map(x => MoveExplosion(x, dt), xs), MoveExplosion(x, dt));
  }

  /**
   * After the bullet pass every survivor is on screen (0 <= y <= 480, x <= 512);
   * a bullet survives exactly when its moved copy is on screen; survivors keep
   * their relative order.
   */
  lemma BulletPassSurvivors(bs: seq<Bullet>, dt: real)
    ensures forall b :: b in BulletPass(bs, dt) ==> 0.0 <= b.pos.y <= Height && b.pos.x <= Width
    ensures forall i :: 0 <= i < |bs| ==>
              (MoveBullet(bs[i], dt) in BulletPass(bs, dt) <==> !BulletGone(MoveBullet(bs[i], dt)))
    ensures forall b :: b in BulletPass(bs, dt) ==> exists i :: 0 <= i < |bs| && b == MoveBullet(bs[i], dt)
    ensures IsSubseq(BulletPass(bs, dt), Map(b => MoveBullet(b, dt), bs))
  {
    var moved := Map(b => MoveBullet(b, dt), bs);
    FilterMembers(b => !BulletGone(b), moved);
    FilterIsSubseq(b => !BulletGone(b), moved);
    forall b | b in BulletPass(bs, dt)
      ensures exists i :: 0 <= i < |bs| && b == MoveBullet(bs[i], dt)
    {
      var i :| 0 <= i < |moved| && moved[i] == b;
    }
  }

  /**
   * After the enemy pass an enemy survives exactly when its moved copy's right
   * edge is not left of the canvas; survivors are moved enemies, in order.
   */
  lemma EnemyPassSurvivors(es: seq<Entity>, dt: real)
    ensures forall e :: e in EnemyPass(es, dt) ==> e.pos.x + e.sprite.size.x >= 0.0
    ensures forall i :: 0 <= i < |es| ==>
              (MoveEnemy(es[i], dt) in EnemyPass(es, dt) <==> !EnemyGone(MoveEnemy(es[i], dt)))
    ensures forall e :: e in EnemyPass(es, dt) ==> exists i :: 0 <= i < |es| && e == MoveEnemy(es[i], dt)
    ensures IsSubseq(EnemyPass(es, dt), Map(e => MoveEnemy(e, dt), es))
  {
    var moved := Map(e => MoveEnemy(e, dt), es);
    FilterMembers(e => !EnemyGone(e), moved);
    FilterIsSubseq(e => !EnemyGone(e), moved);
    forall e | e in EnemyPass(es, dt)
      ensures exists i :: 0 <= i < |es| && e == MoveEnemy(es[i], dt)
    {
      var i :| 0 <= i < |moved| && moved[i] == e;
    }
  }

  /**
   * The explosion pass removes exactly the explosions whose sprite is done;
   * the others keep their position and order, with only the cursor advanced.
   */
  lemma ExplosionPassSurvivors(xs: seq<Entity>, dt: real)
    ensures forall x :: x in ExplosionPass(xs, dt) ==> !x.sprite.done
    ensures forall i :: 0 <= i < |xs| ==>
              (MoveExplosion(xs[i], dt) in ExplosionPass(xs, dt) <==> !xs[i].sprite.done)
    ensures forall x :: x in ExplosionPass(xs, dt) ==>
              exists i :: 0 <= i < |xs| && x.pos == xs[i].pos && x.sprite == xs[i].sprite.Update(dt)
    ensures IsSubseq(ExplosionPass(xs, dt), Map(x => MoveExplosion(x, dt), xs))
  {
    var moved := Map(x => MoveExplosion(x, dt), xs);
    FilterMembers(x => !ExplosionGone(x), moved);
    FilterIsSubseq(x => !ExplosionGone(x), moved);
    forall x | x in ExplosionPass(xs, dt)
      ensures exists i :: 0 <= i < |xs| && x.pos == xs[i].pos && x.sprite == xs[i].sprite.Update(dt)
    {
      var i :| 0 <= i < |moved| && moved[i] == x;
    }
  }

  /** Enemies 80 wide: one at x = -1 stays (right edge 79), one at x = -81 goes (right edge -1). */
  lemma EnemyEdgeExamples()
    ensures EnemyPass([Entity(Vec(-1.0, 0.0), EnemySprite)], 0.0) == [Entity(Vec(-1.0, 0.0), EnemySprite)]
    ensures EnemyPass([Entity(Vec(-81.0, 0.0), EnemySprite)], 0.0) == []
  {
    EnemyPassSnoc([], Entity(Vec(-1.0, 0.0), EnemySprite), 0.0);
    EnemyPassSnoc([], Entity(Vec(-81.0, 0.0), EnemySprite), 0.0);
  }

  /** The pass keeps the player's position and sprite size, and touches no scalar. */
  lemma UpdateEntitiesKeeps(w: World, dt: real)
    ensures UpdateEntities(w, dt).player.pos == w.player.pos
    ensures UpdateEntities(w, dt).player.sprite.size == w.player.sprite.size
    ensures UpdateEntities(w, dt).player.sprite.index == w.player.sprite.index + w.player.sprite.speed * dt
    ensures UpdateEntities(w, dt).score == w.score && UpdateEntities(w, dt).lastFire == w.lastFire
    ensures UpdateEntities(w, dt).gameTime == w.gameTime && UpdateEntities(w, dt).isGameOver == w.isGameOver
  {
  }
}
