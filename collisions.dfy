/**
 * `checkPlayerBounds` and `checkCollisions` (assets/script/app.js:335-396): the
 * hard clamp of the player into the canvas, then the scan of every enemy
 * against the bullets and the player.
 */
module Collisions {
  import opened Wrappers
  import opened Geometry
  import opened Sprites
  import opened Entities
  import opened Seqs

  /** One axis of `checkPlayerBounds`: below 0 goes to 0, else past the limit goes to the limit. */
  function ClampAxis(v: real, size: real, extent: real): real
  {
    if v < 0.0 then 0.0 else if v > extent - size then extent - size else v
  }

  /**
   * `checkPlayerBounds` (assets/script/app.js:380-396). When the player fits in
   * the canvas the result lies in [0, 512 - w] by [0, 480 - h], and a coordinate
   * already in range is left as it is.
   */
  function ClampPlayer(pos: Vec, size: Vec): (p: Vec)
    ensures 0.0 <= size.x <= Width ==> 0.0 <= p.x <= Width - size.x
    ensures 0.0 <= size.y <= Height ==> 0.0 <= p.y <= Height - size.y
    ensures 0.0 <= pos.x <= Width - size.x ==> p.x == pos.x
    ensures 0.0 <= pos.y <= Height - size.y ==> p.y == pos.y
  {
    Vec(ClampAxis(pos.x, size.x, Width), ClampAxis(pos.y, size.y, Height))
  }

  /** For a player that fits in the canvas the clamp is idempotent. */
  lemma ClampIdempotent(pos: Vec, size: Vec)
    requires 0.0 <= size.x <= Width && 0.0 <= size.y <= Height
    ensures ClampPlayer(ClampPlayer(pos, size), size) == ClampPlayer(pos, size)
  {
  }

  /**
   * Because the two tests are `if ... else if`, a player wider than the canvas
   * is clamped to x = 0, which is past the right limit: the clamp then neither
   * lands in range nor is idempotent.
   */
  lemma ClampOversized(pos: Vec, size: Vec)
    requires size.x > Width && pos.x < 0.0
    ensures ClampPlayer(pos, size).x == 0.0 > Width - size.x
    ensures ClampPlayer(ClampPlayer(pos, size), size).x == Width - size.x
  {
  }

  /** `checkPlayerBounds` on the state. */
  function CheckPlayerBounds(w: World): (r: World)
    ensures r == w.(player := r.player) && r.player.sprite == w.player.sprite
    ensures w.player.sprite.size == PlayerSize ==>
              0.0 <= r.player.pos.x <= Width - PlayerSize.x && 0.0 <= r.player.pos.y <= Height - PlayerSize.y
  {
    w.(player := w.player.(pos := ClampPlayer(w.player.pos, w.player.sprite.size)))
  }

  /**
   * Bullet `b` hits enemy `e` (assets/script/app.js:341-348). The source passes
   * the bullet object itself as the position (`var pos2 = bullets[j]`, line
   * 345); this uses the bullet's `pos`, as evidently intended.
   */
  predicate Hits(e: Entity, b: Bullet)
    ensures Hits(e, b) ==> b.pos.x < e.pos.x + e.sprite.size.x && b.pos.y < e.pos.y + e.sprite.size.y
    ensures (&& e.sprite.size.x > 0.0 && e.sprite.size.y > 0.0
             && b.sprite.size.x >= 0.0 && b.sprite.size.y >= 0.0 && b.pos == e.pos)
            ==> Hits(e, b)
  {
    BoxCollides(e.pos, e.sprite.size, b.pos, b.sprite.size)
  }

  /** The first bullet in list order that hits `e`, if any (the inner loop with its `break`). */
  function FirstHit(e: Entity, bs: seq<Bullet>): (r: Option<nat>)
    ensures r.Some? ==> r.value < |bs| && Hits(e, bs[r.value])
    ensures r.Some? ==> forall j :: 0 <= j < r.value ==> !Hits(e, bs[j])
    ensures r.None? ==> forall j :: 0 <= j < |bs| ==> !Hits(e, bs[j])
    decreases |bs|
  {
    if bs == [] then None
    else if Hits(e, bs[0]) then Some(0)
    else match FirstHit(e, bs[1..])
      case None => None
      case Some(j) => Some(j + 1)
  }

  /**
   * The inner bullet loop of `checkCollisions` (assets/script/app.js:344-372):
   * the index of the first bullet, in list order, that hits `e`.
   */
  method FindHit(e: Entity, bs: seq<Bullet>) returns (hit: Option<nat>)
    ensures hit.Some? ==> hit.value < |bs| && Hits(e, bs[hit.value])
    ensures hit.Some? ==> forall j :: 0 <= j < hit.value ==> !Hits(e, bs[j])
    ensures hit.None? ==> forall j :: 0 <= j < |bs| ==> !Hits(e, bs[j])
    ensures hit == FirstHit(e, bs)
  {
    var j := 0;
    while j < |bs|
      invariant 0 <= j <= |bs|
      invariant forall jj :: 0 <= jj < j ==> !Hits(e, bs[jj])
    {
      if Hits(e, bs[j]) {
        return Some(j);
      }
      j := j + 1;
    }
    return None;
  }

  /**
   * The scan state after some enemies: the enemies kept so far, and the
   * bullets, explosions, score and game-over flag as they now stand.
   */
  datatype Scan = Scan(kept: seq<Entity>, bullets: seq<Bullet>, explosions: seq<Entity>,
                       score: int, over: bool)

  /**
   * One outer iteration (assets/script/app.js:341-376) for enemy `e`: when a
   * bullet hits it, the enemy is dropped, 100 is scored, a play-once explosion
   * is pushed at the enemy's position and the first hitting bullet is removed;
   * either way the enemy's captured position and size are then tested against
   * the player, and an overlap calls `gameOver()`, modelled as setting the flag.
   */
  function Step(st: Scan, e: Entity, player: Entity): (r: Scan)
    ensures r.over == (st.over || BoxCollides(e.pos, e.sprite.size, player.pos, player.sprite.size))
    ensures FirstHit(e, st.bullets).None? ==> r == st.(kept := st.kept + [e], over := r.over)
    ensures FirstHit(e, st.bullets).Some? ==>
              && r.kept == st.kept
              && |r.bullets| == |st.bullets| - 1
              && r.explosions == st.explosions + [ExplosionAt(e.pos)]
              && r.score == st.score + 100
  {
    var over := st.over || BoxCollides(e.pos, e.sprite.size, player.pos, player.sprite.size);
    match FirstHit(e, st.bullets)
    case None => st.(kept := st.kept + [e], over := over)
    case Some(j) =>
      Scan(st.kept, st.bullets[..j] + st.bullets[j + 1..], st.explosions + [ExplosionAt(e.pos)],
           st.score + 100, over)
  }

  /** The scan over a list of enemies, one `Step` per enemy in order. */
  function Resolve(st: Scan, es: seq<Entity>, player: Entity): (r: Scan)
    ensures r.score >= st.score && |r.bullets| <= |st.bullets|
    ensures |r.kept| <= |st.kept| + |es| && |r.explosions| >= |st.explosions|
    ensures st.over ==> r.over
    decreases |es|
  {
    if es == [] then st else Step(Resolve(st, es[..|es| - 1], player), es[|es| - 1], player)
  }

  lemma ResolveSnoc(st: Scan, es: seq<Entity>, e: Entity, player: Entity)
    ensures Resolve(st, es + [e], player) == Step(Resolve(st, es, player), e, player)
  {
    assert (es + [e])[..|es|] == es;
  }

  /** `checkCollisions()`: clamp the player, then scan the enemies. */
  function CheckCollisions(w: World): (r: World)
    ensures r.player == CheckPlayerBounds(w).player
    ensures r.gameTime == w.gameTime && r.lastFire == w.lastFire
    ensures r.score >= w.score && |r.bullets| <= |w.bullets| && |r.enemies| <= |w.enemies|
    ensures w.isGameOver ==> r.isGameOver
  {
    var w1 := CheckPlayerBounds(w);
    var r := Resolve(Scan([], w1.bullets, w1.explosions, w1.score, w1.isGameOver), w1.enemies, w1.player);
    w1.(enemies := r.kept, bullets := r.bullets, explosions := r.explosions,
        score := r.score, isGameOver := r.over)
  }

  /**
   * The outer loop of `checkCollisions` (assets/script/app.js:340-377) over
   * `enemies`, with the bullets, explosions, score and flag it updates: on the
   * first bullet hit the enemy is spliced out and i is not advanced (the
   * source's `i--`), 100 is scored, an explosion pushed and the bullet spliced
   * out; then the enemy's captured box is tested against the player.
   */
  method ScanEnemies(enemies: seq<Entity>, bullets: seq<Bullet>, explosions: seq<Entity>,
                     score: int, over: bool, player: Entity) returns (r: Scan)
    ensures r == Resolve(Scan([], bullets, explosions, score, over), enemies, player)
  {
    ghost var st0 := Scan([], bullets, explosions, score, over);
    var es, bs, xs, sc, gameOver := enemies, bullets, explosions, score, over;
    ghost var k := 0;
    var i := 0;
    while i < |es|
      invariant 0 <= i <= |es| && 0 <= k <= |enemies|
      invariant es[i..] == enemies[k..]
      invariant Resolve(st0, enemies[..k], player) == Scan(es[..i], bs, xs, sc, gameOver)
      decreases |es| - i
    {
      ResolveSnoc(st0, enemies[..k], enemies[k], player);
      TailStep(es, i, enemies, k);
      ghost var m := Scan(es[..i], bs, xs, sc, gameOver);
      ghost var next := Step(m, es[i], player);
      var pos := es[i].pos;
      var size := es[i].sprite.size;
      var hit := FindHit(es[i], bs);
      if hit.Some? {
        StepOnHit(m, es[i], player, hit.value);
        SpliceOut(es, i);
        es := es[..i] + es[i + 1..];
        sc := sc + 100;
        xs := xs + [ExplosionAt(pos)];
        bs := bs[..hit.value] + bs[hit.value + 1..];
      } else {
        StepOnMiss(m, es[i], player);
        i := i + 1;
      }
      if BoxCollides(pos, size, player.pos, player.sprite.size) {
        gameOver := true;  // `gameOver()`
      }
      assert Scan(es[..i], bs, xs, sc, gameOver) == next;
      k := k + 1;
    }
    assert enemies[..k] == enemies;
    r := Scan(es, bs, xs, sc, gameOver);
  }

  /** Advancing both cursors of two lists that agree from them on. */
  lemma TailStep<T>(a: seq<T>, i: nat, b: seq<T>, k: nat)
    requires i < |a| && k <= |b| && a[i..] == b[k..]
    ensures k < |b| && a[i] == b[k] && a[i + 1..] == b[k + 1..]
    ensures a[..i + 1] == a[..i] + [a[i]] && b[..k + 1] == b[..k] + [b[k]]
  {
    assert a[i..][0] == a[i];
    assert a[i..][1..] == a[i + 1..];
    assert b[k..][1..] == b[k + 1..];
  }

  /** Splicing out element i leaves the prefix and shifts the suffix down. */
  lemma SpliceOut<T>(a: seq<T>, i: nat)
    requires i < |a|
    ensures (a[..i] + a[i + 1..])[..i] == a[..i]
    ensures (a[..i] + a[i + 1..])[i..] == a[i + 1..]
  {
  }

  /**
   * A hit consumes only the first hitting bullet in list order, drops the
   * enemy, scores 100 and appends one explosion at the enemy's position.
   */
  lemma StepOnHit(st: Scan, e: Entity, player: Entity, j: nat)
    requires j < |st.bullets| && Hits(e, st.bullets[j])
    requires forall k :: 0 <= k < j ==> !Hits(e, st.bullets[k])
    ensures Step(st, e, player).kept == st.kept
    ensures Step(st, e, player).bullets == st.bullets[..j] + st.bullets[j + 1..]
    ensures Step(st, e, player).explosions == st.explosions + [ExplosionAt(e.pos)]
    ensures Step(st, e, player).score == st.score + 100
    ensures Step(st, e, player).over
            == (st.over || BoxCollides(e.pos, e.sprite.size, player.pos, player.sprite.size))
  {
  }

  /** An enemy no bullet hits is kept, and bullets, explosions and score stay as they are. */
  lemma StepOnMiss(st: Scan, e: Entity, player: Entity)
    requires forall k :: 0 <= k < |st.bullets| ==> !Hits(e, st.bullets[k])
    ensures Step(st, e, player)
            == st.(kept := st.kept + [e],
                   over := st.over || BoxCollides(e.pos, e.sprite.size, player.pos, player.sprite.size))
  {
  }

  /**
   * Accounting: each removed enemy costs exactly one bullet, adds exactly one
   * explosion and exactly 100 points; the earlier explosions and the enemies
   * kept before stay in front.
   */
  lemma {:induction false} ResolveAccounting(st: Scan, es: seq<Entity>, player: Entity)
    ensures var r := Resolve(st, es, player);
      var removed := |st.kept| + |es| - |r.kept|;
      && 0 <= removed <= |es|
      && |st.bullets| - |r.bullets| == removed
      && |r.explosions| - |st.explosions| == removed
      && r.score - st.score == 100 * removed
      && r.kept[..|st.kept|] == st.kept
      && r.explosions[..|st.explosions|] == st.explosions
    decreases |es|
  {
    if es != [] {
      var t, e := es[..|es| - 1], es[|es| - 1];
      assert es == t + [e];
      ResolveAccounting(st, t, player);
      var m := Resolve(st, t, player);
      ResolveSnoc(st, t, e, player);
      var r := Step(m, e, player);
      assert m.kept[..|st.kept|] == st.kept;
      if FirstHit(e, m.bullets).None? {
        assert r.kept == m.kept + [e] && r.bullets == m.bullets && r.explosions == m.explosions;
        assert (m.kept + [e])[..|st.kept|] == st.kept;
      } else {
        assert r.kept == m.kept && r.explosions == m.explosions + [ExplosionAt(e.pos)];
        assert (m.explosions + [ExplosionAt(e.pos)])[..|st.explosions|] == st.explosions;
      }
    }
  }

  /** Every explosion the scan appends is a fresh play-once explosion at the position of one of the enemies. */
  lemma {:induction false} ResolveExplosions(st: Scan, es: seq<Entity>, player: Entity)
    ensures var r := Resolve(st, es, player);
      |r.explosions| >= |st.explosions|
      && forall k :: |st.explosions| <= k < |r.explosions| ==>
           exists i :: 0 <= i < |es| && r.explosions[k] == ExplosionAt(es[i].pos)
    decreases |es|
  {
    if es != [] {
      var t, e := es[..|es| - 1], es[|es| - 1];
      assert es == t + [e];
      ResolveExplosions(st, t, player);
      ResolveSnoc(st, t, e, player);
      var m := Resolve(st, t, player);
      var r := Resolve(st, es, player);
      forall k | |st.explosions| <= k < |r.explosions|
        ensures exists i :: 0 <= i < |es| && r.explosions[k] == ExplosionAt(es[i].pos)
      {
        if k < |m.explosions| {
          var i :| 0 <= i < |t| && m.explosions[k] == ExplosionAt(t[i].pos);
          assert r.explosions[k] == m.explosions[k];
          assert es[i] == t[i];
        } else {
          assert r.explosions[k] == ExplosionAt(es[|es| - 1].pos);
        }
      }
    }
  }

  /** The kept enemies are a subsequence of the scanned ones: survivors keep their order. */
  lemma {:induction false} ResolveKeepsOrder(st: Scan, es: seq<Entity>, player: Entity)
    requires st.kept == []
    ensures IsSubseq(Resolve(st, es, player).kept, es)
    decreases |es|
  {
    if es != [] {
      var t, e := es[..|es| - 1], es[|es| - 1];
      assert es == t + [e];
      ResolveKeepsOrder(st, t, player);
      ResolveSnoc(st, t, e, player);
      var m := Resolve(st, t, player);
      if FirstHit(e, m.bullets).None? {
        SubseqSnoc(m.kept, t, e);
      } else {
        SubseqExtend(m.kept, t, e);
      }
    }
  }

  lemma StepBulletsShrink(st: Scan, e: Entity, player: Entity)
    ensures multiset(Step(st, e, player).bullets) <= multiset(st.bullets)
  {
    match FirstHit(e, st.bullets)
    case None =>
    case Some(j) =>
      var b := st.bullets;
      assert b == b[..j] + [b[j]] + b[j + 1..];
      assert multiset(b) == multiset(b[..j]) + multiset{b[j]} + multiset(b[j + 1..]);
  }

  /** Removed bullets only: what remains is a sub-multiset of the bullets before the scan. */
  lemma {:induction false} ResolveBulletsShrink(st: Scan, es: seq<Entity>, player: Entity)
    ensures multiset(Resolve(st, es, player).bullets) <= multiset(st.bullets)
    decreases |es|
  {
    if es != [] {
      var t, e := es[..|es| - 1], es[|es| - 1];
      ResolveBulletsShrink(st, t, player);
      StepBulletsShrink(Resolve(st, t, player), e, player);
    }
  }

  /**
   * The game-over flag ends up set exactly when it was set or some scanned
   * enemy's box, as captured before any removal, overlaps the player. This
   * includes enemies a bullet removed in the same iteration.
   */
  lemma {:induction false} ResolveGameOver(st: Scan, es: seq<Entity>, player: Entity)
    ensures Resolve(st, es, player).over
            <==> st.over || (exists i :: 0 <= i < |es| &&
                               BoxCollides(es[i].pos, es[i].sprite.size, player.pos, player.sprite.size))
    decreases |es|
  {
    if es != [] {
      var t, e := es[..|es| - 1], es[|es| - 1];
      assert es == t + [e];
      ResolveGameOver(st, t, player);
      ResolveSnoc(st, t, e, player);
      if exists i :: 0 <= i < |t| && BoxCollides(t[i].pos, t[i].sprite.size, player.pos, player.sprite.size) {
        var i :| 0 <= i < |t| && BoxCollides(t[i].pos, t[i].sprite.size, player.pos, player.sprite.size);
        assert es[i] == t[i];
      }
    }
  }

  /** The collision pass leaves the player where the clamp put it and keeps the score a multiple of 100. */
  lemma CheckCollisionsEffect(w: World)
    ensures var w' := CheckCollisions(w);
      && w'.player == w.player.(pos := ClampPlayer(w.player.pos, w.player.sprite.size))
      && w'.gameTime == w.gameTime && w'.lastFire == w.lastFire
      && (w.score % 100 == 0 ==> w'.score % 100 == 0)
      && w'.score >= w.score
      && w'.score - w.score == 100 * (|w.bullets| - |w'.bullets|)
      && w'.score - w.score == 100 * (|w.enemies| - |w'.enemies|)
      && w'.score - w.score == 100 * (|w'.explosions| - |w.explosions|)
  {
    var w1 := CheckPlayerBounds(w);
    ResolveAccounting(Scan([], w1.bullets, w1.explosions, w1.score, w1.isGameOver), w1.enemies, w1.player);
  }

  /**
   * A bullet at (100, 100), 18 by 8, against an enemy at (100, 100), 80 by 39,
   * with the player clear: the enemy and that bullet go, 100 is scored and one
   * explosion appears at (100, 100).
   */
  lemma BulletKillsEnemyExample(player: Entity)
    requires player.pos == Vec(300.0, 300.0) && player.sprite.size == PlayerSize
    ensures var b := Bullet(Vec(100.0, 100.0), Forward, ForwardBulletSprite);
      var e := Entity(Vec(100.0, 100.0), EnemySprite);
      Resolve(Scan([], [b], [], 0, false), [e], player)
        == Scan([], [], [ExplosionAt(Vec(100.0, 100.0))], 100, false)
  {
    var b := Bullet(Vec(100.0, 100.0), Forward, ForwardBulletSprite);
    var e := Entity(Vec(100.0, 100.0), EnemySprite);
    ResolveSnoc(Scan([], [b], [], 0, false), [], e, player);
    assert Hits(e, b);
  }

  /**
   * The player test runs even for an enemy just removed by a bullet: an enemy
   * shot while overlapping the player still ends the game in the same frame.
   */
  lemma ShotEnemyStillEndsGame(player: Entity)
    requires player.pos == Vec(100.0, 100.0) && player.sprite.size == PlayerSize
    ensures var b := Bullet(Vec(100.0, 100.0), Forward, ForwardBulletSprite);
      var e := Entity(Vec(100.0, 100.0), EnemySprite);
      var r := Resolve(Scan([], [b], [], 0, false), [e], player);
      r.kept == [] && r.score == 100 && r.over
  {
    var b := Bullet(Vec(100.0, 100.0), Forward, ForwardBulletSprite);
    var e := Entity(Vec(100.0, 100.0), EnemySprite);
    ResolveSnoc(Scan([], [b], [], 0, false), [], e, player);
    assert Hits(e, b);
  }
}
