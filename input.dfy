/**
 * `handleInput` (app.js:236-271; assets/script/app.js:241-276): movement and
 * firing driven by a snapshot of the pressed keys. The key listeners that fill
 * the snapshot are host events and are not part of this model; the snapshot
 * and the clock reading `now` are parameters.
 */
module Input {
  import opened Geometry
  import opened Sprites
  import opened Entities

  /**
   * The pressed-key snapshot: the names the key listener stores, "SPACE",
   * "LEFT", "UP", "RIGHT", "DOWN" or the upper-case character of the key code.
   */
  type Keys = set<string>

  function UpperChar(c: char): char
  {
    if 'a' <= c <= 'z' then (c as int - 32) as char else c
  }

  /** `key.toUpperCase()` on ASCII letters. */
  function ToUpper(s: string): (u: string)
    ensures |u| == |s|
  {
    seq(|s|, i requires 0 <= i < |s| => UpperChar(s[i]))
  }

  /** `input.isDown(name)`: the snapshot holds the upper-cased name. */
  predicate IsDown(keys: Keys, name: string)
  {
    ToUpper(name) in keys
  }

  predicate DownHeld(keys: Keys) { IsDown(keys, "DOWN") || IsDown(keys, "s") }
  predicate UpHeld(keys: Keys) { IsDown(keys, "UP") || IsDown(keys, "w") }
  predicate LeftHeld(keys: Keys) { IsDown(keys, "LEFT") || IsDown(keys, "a") }
  predicate RightHeld(keys: Keys) { IsDown(keys, "RIGHT") || IsDown(keys, "d") }

  /** The four movement tests of app.js:237-251, applied one after the other. */
  function Steer(pos: Vec, keys: Keys, dt: real): (p: Vec)
    ensures p.y == pos.y + PlayerSpeed * dt * (Held(DownHeld(keys)) - Held(UpHeld(keys)))
    ensures p.x == pos.x + PlayerSpeed * dt * (Held(RightHeld(keys)) - Held(LeftHeld(keys)))
  {
    var y1 := if DownHeld(keys) then pos.y + PlayerSpeed * dt else pos.y;
    var y2 := if UpHeld(keys) then y1 - PlayerSpeed * dt else y1;
    var x1 := if LeftHeld(keys) then pos.x - PlayerSpeed * dt else pos.x;
    var x2 := if RightHeld(keys) then x1 + PlayerSpeed * dt else x1;
    Vec(x2, y2)
  }

  function Held(b: bool): real { if b then 1.0 else 0.0 }

  /** `isDown('SPACE') && !isGameOver && now - lastFire > 100` (app.js:253). */
  predicate CanFire(keys: Keys, isGameOver: bool, now: int, lastFire: int)
  {
    IsDown(keys, "SPACE") && !isGameOver && now - lastFire > 100
  }

  /** The centre of the player's box, where bullets start (app.js:254-255). */
  function Muzzle(player: Entity): Vec
  {
    Vec(player.pos.x + player.sprite.size.x / 2.0, player.pos.y + player.sprite.size.y / 2.0)
  }

  /** The three bullets pushed by one shot, in push order (app.js:257-267). */
  function Volley(origin: Vec): seq<Bullet>
  {
    [Bullet(origin, Forward, ForwardBulletSprite),
     Bullet(origin, Up, UpBulletSprite),
     Bullet(origin, Down, DownBulletSprite)]
  }

  /**
   * `handleInput(dt)`: move the player, then fire if allowed. The speed is the
   * `playerSpeed` of assets/script/app.js:121; app.js uses the name without
   * declaring it.
   */
  function HandleInput(w: World, keys: Keys, dt: real, now: int): (r: World)
    ensures r == w.(player := r.player, bullets := r.bullets, lastFire := r.lastFire)
    ensures r.player == w.player.(pos := Steer(w.player.pos, keys, dt))
    ensures CanFire(keys, w.isGameOver, now, w.lastFire) ==>
              r.bullets == w.bullets + Volley(Muzzle(r.player)) && r.lastFire == now
    ensures !CanFire(keys, w.isGameOver, now, w.lastFire) ==>
              r.bullets == w.bullets && r.lastFire == w.lastFire
  {
    var p := w.player.(pos := Steer(w.player.pos, keys, dt));
    if CanFire(keys, w.isGameOver, now, w.lastFire) then
      w.(player := p, bullets := w.bullets + Volley(Muzzle(p)), lastFire := now)
    else
      w.(player := p)
  }

  /** Letter keys are looked up by their upper-case name. */
  lemma LetterKeysAreUpperCased(keys: Keys)
    ensures IsDown(keys, "s") <==> "S" in keys
    ensures IsDown(keys, "w") <==> "W" in keys
    ensures IsDown(keys, "a") <==> "A" in keys
    ensures IsDown(keys, "d") <==> "D" in keys
    ensures IsDown(keys, "SPACE") <==> "SPACE" in keys
  {
    assert ToUpper("s") == "S";
    assert ToUpper("w") == "W";
    assert ToUpper("a") == "A";
    assert ToUpper("d") == "D";
    assert ToUpper("SPACE") == "SPACE";
  }

  /**
   * Each held direction moves the player by playerSpeed*dt along its axis, so
   * opposite keys held together cancel out.
   */
  lemma SteerDisplacement(pos: Vec, keys: Keys, dt: real)
    ensures Steer(pos, keys, dt).y
            == pos.y + PlayerSpeed * dt * (Held(DownHeld(keys)) - Held(UpHeld(keys)))
    ensures Steer(pos, keys, dt).x
            == pos.x + PlayerSpeed * dt * (Held(RightHeld(keys)) - Held(LeftHeld(keys)))
    ensures DownHeld(keys) && UpHeld(keys) ==> Steer(pos, keys, dt).y == pos.y
    ensures LeftHeld(keys) && RightHeld(keys) ==> Steer(pos, keys, dt).x == pos.x
  {
  }

  /**
   * A shot appends exactly the three bullets forward, up, down, all at the
   * centre of the moved player, and sets `lastFire` to `now`; otherwise the
   * bullets and `lastFire` are unchanged. Nothing but the player, the bullets
   * and `lastFire` changes.
   */
  lemma HandleInputEffect(w: World, keys: Keys, dt: real, now: int)
    ensures var w' := HandleInput(w, keys, dt, now);
      && w'.player == w.player.(pos := Steer(w.player.pos, keys, dt))
      && w' == w.(player := w'.player, bullets := w'.bullets, lastFire := w'.lastFire)
      && (CanFire(keys, w.isGameOver, now, w.lastFire) ==>
            && |w'.bullets| == |w.bullets| + 3
            && w'.bullets[..|w.bullets|] == w.bullets
            && (forall k :: |w.bullets| <= k < |w'.bullets| ==> w'.bullets[k].pos == Muzzle(w'.player))
            && w'.bullets[|w.bullets|].dir == Forward
            && w'.bullets[|w.bullets| + 1].dir == Up
            && w'.bullets[|w.bullets| + 2].dir == Down
            && w'.lastFire == now)
      && (!CanFire(keys, w.isGameOver, now, w.lastFire) ==>
            w'.bullets == w.bullets && w'.lastFire == w.lastFire)
  {
  }

  /** The cooldown is strict: exactly 100 ms after the last shot nothing is fired. */
  lemma CooldownIsStrict(w: World, keys: Keys, dt: real)
    ensures HandleInput(w, keys, dt, w.lastFire + 100).bullets == w.bullets
    ensures HandleInput(w, keys, dt, w.lastFire + 100).lastFire == w.lastFire
  {
  }

  /** Game over stops firing but not movement. */
  lemma GameOverGatesOnlyFiring(w: World, keys: Keys, dt: real, now: int)
    requires w.isGameOver
    ensures HandleInput(w, keys, dt, now).bullets == w.bullets
    ensures HandleInput(w, keys, dt, now).player.pos == HandleInput(w.(isGameOver := false), keys, dt, now).player.pos
  {
  }
}
