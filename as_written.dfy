/**
 * Two lines of assets/script/app.js that do not do what the surrounding code
 * evidently means, each modelled as written next to the corrected reading the
 * rest of the model uses.
 */
module AsWritten {
  import opened Wrappers
  import opened Geometry
  import opened Sprites
  import opened Entities
  import Simulation
  import Collisions

  /**
   * How the enemy loop of `updateEntities` ends: it runs to completion, or it
   * throws, leaving the list as it was at the throw.
   */
  datatype Outcome = Completed(list: seq<Entity>) | Threw(list: seq<Entity>)

  /**
   * The enemy loop as written (assets/script/app.js:300-309). The removal test
   * reads `enemies.pos[0]`; an array has no `pos`, so `enemies.pos` is
   * undefined and indexing it throws a TypeError in the first iteration, after
   * enemy 0 has been moved and animated. The throw leaves `update` before
   * `requestAnimationFrame(main)` (assets/script/app.js:14-18), so the frame
   * loop stops.
   */
  function EnemyPass(enemies: seq<Entity>, dt: real): (r: Outcome)
    ensures enemies == [] <==> r == Completed([])
    ensures enemies != [] ==> r.Threw? && |r.list| == |enemies| && r.list[1..] == enemies[1..]
    ensures enemies != [] ==> r.list[0] == Simulation.MoveEnemy(enemies[0], dt)
  {
    if enemies == [] then Completed([])
    else Threw(enemies[0 := Simulation.MoveEnemy(enemies[0], dt)])
  }

  /**
   * One enemy well inside the screen: as written the pass throws; the
   * corrected pass (`Simulation.EnemyPass`, testing `enemies[i].pos[0]`)
   * completes and keeps the enemy, moved by 100 * dt.
   */
  lemma EnemyPassThrowsOnScreen()
    ensures var e := Entity(Vec(300.0, 100.0), EnemySprite);
      && EnemyPass([e], 0.5).Threw?
      && Simulation.EnemyPass([e], 0.5) == [Simulation.MoveEnemy(e, 0.5)]
      && Simulation.EnemyPass([e], 0.5)[0].pos == Vec(250.0, 100.0)
  {
    var e := Entity(Vec(300.0, 100.0), EnemySprite);
    Simulation.EnemyPassSnoc([], e, 0.5);
  }

  /**
   * A JavaScript number as far as the collision test needs one: a real, or
   * NaN. `undefined` converts to NaN in arithmetic and in comparisons.
   */
  datatype JsNum = Num(v: real) | NaN

  function Add(a: JsNum, b: JsNum): (r: JsNum)
    ensures r.Num? <==> a.Num? && b.Num?
    ensures r.Num? ==> r.v == a.v + b.v
  {
    if a.Num? && b.Num? then Num(a.v + b.v) else NaN
  }

  /** `a <= b` and `a > b`: false whenever either side is NaN. */
  predicate Le(a: JsNum, b: JsNum) { a.Num? && b.Num? && a.v <= b.v }
  predicate Gt(a: JsNum, b: JsNum) { a.Num? && b.Num? && a.v > b.v }

  /** `collides` (assets/script/app.js:323-326) over JavaScript numbers. */
  predicate CollidesJs(x: JsNum, y: JsNum, r: JsNum, b: JsNum, x2: JsNum, y2: JsNum, r2: JsNum, b2: JsNum)
  {
    !(Le(r, x2) || Gt(x, r2) || Le(b, y2) || Gt(y, b2))
  }

  /** On numbers `CollidesJs` is the model's `Collides`. */
  lemma CollidesJsOnNumbers(x: real, y: real, r: real, b: real, x2: real, y2: real, r2: real, b2: real)
    ensures CollidesJs(Num(x), Num(y), Num(r), Num(b), Num(x2), Num(y2), Num(r2), Num(b2))
            <==> Collides(x, y, r, b, x2, y2, r2, b2)
  {
  }

  /**
   * The bullet test as written (assets/script/app.js:345-348): `pos2` is the
   * bullet object, so `pos2[0]` and `pos2[1]` are undefined and the bullet's
   * right and bottom edges are NaN.
   */
  predicate Hits(e: Entity, bullet: Bullet)
  {
    var size2 := bullet.sprite.size;
    CollidesJs(Num(e.pos.x), Num(e.pos.y),
               Add(Num(e.pos.x), Num(e.sprite.size.x)), Add(Num(e.pos.y), Num(e.sprite.size.y)),
               NaN, NaN, Add(NaN, Num(size2.x)), Add(NaN, Num(size2.y)))
  }

  /**
   * As written, every bullet hits every enemy: each of the four comparisons is
   * false. So the inner loop always breaks at j = 0, and whenever a bullet is
   * in flight each enemy is destroyed by the oldest bullet, wherever the two are.
   */
  lemma EveryBulletHits(e: Entity, bullet: Bullet)
    ensures Hits(e, bullet)
  {
  }

  /**
   * An enemy at (500, 0) and a bullet at (0, 400), far apart: the as-written
   * test reports a hit, the corrected `Collisions.Hits` (using `bullets[j].pos`)
   * does not, and the corrected first-hit search (`Collisions.FirstHit`) finds nothing.
   */
  lemma FarBulletHits()
    ensures var e := Entity(Vec(500.0, 0.0), EnemySprite);
      var b := Bullet(Vec(0.0, 400.0), Forward, ForwardBulletSprite);
      && Hits(e, b)
      && !Collisions.Hits(e, b)
      && Collisions.FirstHit(e, [b]) == None
  {
    var e := Entity(Vec(500.0, 0.0), EnemySprite);
    var b := Bullet(Vec(0.0, 400.0), Forward, ForwardBulletSprite);
    EveryBulletHits(e, b);
    assert !Collisions.Hits(e, b);
  }
}
