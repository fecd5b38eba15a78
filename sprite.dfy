/**
 * The sprite animator: the `Sprite` constructor, `Sprite.prototype.update` and
 * the frame-selection half of `Sprite.prototype.render` (app.js:120-160; the
 * same code sits at assets/script/app.js:125-165).
 */
module Sprites {
  import opened Wrappers
  import opened Geometry

  /** What the first half of `render` decides. */
  datatype Frame =
    | Finished                   // play-once animation past its last frame: `done` is set, nothing drawn
    | Cell(frame: Option<int>)   // the frame to draw; None is JavaScript's `undefined`

  /** What `render` would hand to `drawImage`: nothing, a sheet origin, or an undefined frame. */
  datatype Blit = NoBlit | BlitAt(origin: Vec) | BlitUndefined

  datatype Rendered = Rendered(sprite: Sprite, blit: Blit)

  /**
   * A sprite: sheet `url`, origin `pos` of the first cell, cell `size`, `speed`
   * in frames per second, the `frames` list, the layout `dir` ("vertical" lays
   * cells downwards, any other string sideways), the play-once flag `once`, the
   * completion flag `done` and the fractional cursor `index` (`_index`).
   */
  datatype Sprite = Sprite(url: string, pos: Vec, size: Vec, speed: real, frames: seq<int>,
                           dir: string, once: bool, done: bool, index: real)
  {
    /** `Sprite.prototype.update` (app.js:131-133): the cursor moves by speed*dt. */
    function Update(dt: real): (s: Sprite)
      ensures s.(index := index) == this
      ensures speed >= 0.0 && dt >= 0.0 ==> s.index >= index
      ensures dt == 0.0 ==> s == this
    {
      this.(index := index + speed * dt)
    }

    /**
     * Frame selection (app.js:136-150): frame 0 unless the speed is positive;
     * otherwise the frame at floor(cursor) modulo the list length, except that a
     * play-once sprite whose floor(cursor) reached the list length is finished.
     */
    function SelectFrame(): (f: Frame)
      ensures f == Finished <==> speed > 0.0 && once && index.Floor >= |frames|
      ensures speed <= 0.0 ==> f == Cell(Some(0))
      ensures speed > 0.0 && index >= 0.0 && |frames| > 0 && f != Finished
              ==> f == Cell(Some(frames[index.Floor % |frames|]))
      ensures speed > 0.0 && |frames| == 0 && f != Finished ==> f == Cell(None)
      ensures speed > 0.0 && f != Finished ==> f == Cell(FrameAt(frames, index.Floor))
    {
      if speed > 0.0 then
        var max := |frames|;
        var idx := index.Floor;
        if once && idx >= max then Finished else Cell(FrameAt(frames, idx))
      else
        Cell(Some(0))
    }

    /**
     * The sheet origin of `frame` (app.js:152-160): only the coordinate along
     * `dir` moves, by `frame` cells.
     */
    function SheetOffset(frame: int): (o: Vec)
      ensures frame == 0 ==> o == pos
      ensures dir == "vertical" ==> o.x == pos.x
      ensures dir != "vertical" ==> o.y == pos.y
    {
      if dir == "vertical" then Vec(pos.x, pos.y + frame as real * size.y)
      else Vec(pos.x + frame as real * size.x, pos.y)
    }

    /**
     * `Sprite.prototype.render` up to the draw call (app.js:135-160). A finished
     * play-once sprite gets `done := true` and draws nothing. The draw call
     * itself (app.js:162-166, which also reads the misspelt `this.siz`) is
     * drawing and is not part of this model.
     */
    function Render(): (r: Rendered)
      ensures r.sprite == this.(done := r.sprite.done)
      ensures r.sprite.done <==> done || SelectFrame() == Finished
      ensures r.blit == NoBlit <==> SelectFrame() == Finished
      ensures SelectFrame() == Cell(None) <==> r.blit == BlitUndefined
      ensures SelectFrame().Cell? && SelectFrame().frame.Some?
              ==> r.blit == BlitAt(SheetOffset(SelectFrame().frame.value))
    {
      match SelectFrame()
      case Finished => Rendered(this.(done := true), NoBlit)
      case Cell(None) => Rendered(this, BlitUndefined)
      case Cell(Some(f)) => Rendered(this, BlitAt(SheetOffset(f)))
    }
  }

  /**
   * JavaScript's `%` on integers, which truncates toward zero: the result has
   * the sign of `a`.
   */
  function JsRem(a: int, n: int): (r: int)
    requires n > 0
    ensures -n < r < n
    ensures a >= 0 ==> r == a % n
    ensures a < 0 ==> r <= 0
    ensures a < 0 ==> r == -((-a) % n)
  {
    if a >= 0 then a % n else -((-a) % n)
  }

  /** `frames[idx % frames.length]`: undefined for an empty list (`% 0` is NaN) or a negative index. */
  function FrameAt(frames: seq<int>, idx: int): (r: Option<int>)
    ensures |frames| == 0 ==> r == None
    ensures |frames| > 0 && idx >= 0 ==> r == Some(frames[idx % |frames|])
    ensures |frames| > 0 && idx < 0 ==> (r.Some? <==> (-idx) % |frames| == 0)
    ensures |frames| > 0 && idx < 0 && r.Some? ==> r.value == frames[0]
  {
    if |frames| == 0 then None
    else
      var k := JsRem(idx, |frames|);
      if k < 0 then None else Some(frames[k])
  }

  /**
   * The `Sprite(url, pos, size, speed, frames, dir, once)` constructor
   * (app.js:120-129). A speed that is not a number (None) becomes 0; a missing
   * or empty `dir` becomes "horizontal"; the cursor starts at 0 and `done` is
   * unset. The source names its fifth parameter `frame` but assigns
   * `this.frames = frames` (app.js:120,124; assets/script/app.js:125,129),
   * which reads an unrelated global; here the fifth argument is used, as
   * evidently intended. A missing `frames` argument is the empty list.
   */
  function NewSprite(url: string, pos: Vec, size: Vec, speed: Option<real>, frames: seq<int>,
                     dir: Option<string>, once: bool): (s: Sprite)
    ensures s.index == 0.0 && !s.done
    ensures s.url == url && s.pos == pos && s.size == size && s.frames == frames && s.once == once
    ensures speed.Some? ==> s.speed == speed.value
    ensures dir.Some? && dir.value != "" ==> s.dir == dir.value
    ensures s.dir != ""
    ensures speed.None? ==> s.speed == 0.0
    ensures (dir.None? || dir == Some("")) ==> s.dir == "horizontal"
  {
    Sprite(url, pos, size, if speed.Some? then speed.value else 0.0, frames,
           if dir.None? || dir.value == "" then "horizontal" else dir.value,
           once, false, 0.0)
  }

  /** Total of a list of time steps. */
  function Sum(dts: seq<real>): real
    decreases |dts|
  {
    if dts == [] then 0.0 else Sum(dts[..|dts| - 1]) + dts[|dts| - 1]
  }

  /** The sprite after one `update` per element of `dts`, in order. */
  function UpdateAll(s: Sprite, dts: seq<real>): Sprite
    decreases |dts|
  {
    if dts == [] then s else UpdateAll(s, dts[..|dts| - 1]).Update(dts[|dts| - 1])
  }

  /** Two updates equal one update by the summed time. */
  lemma UpdateAdditive(s: Sprite, dt1: real, dt2: real)
    ensures s.Update(dt1).Update(dt2) == s.Update(dt1 + dt2)
  {
    assert s.speed * dt1 + s.speed * dt2 == s.speed * (dt1 + dt2);
  }

  /** With a non-negative speed and time step the cursor never decreases. */
  lemma UpdateMonotone(s: Sprite, dt: real)
    requires s.speed >= 0.0 && dt >= 0.0
    ensures s.Update(dt).index >= s.index
  {
  }

  /** Any number of updates moves the cursor by speed times the total time, and changes nothing else. */
  lemma {:induction false} UpdateAllIndex(s: Sprite, dts: seq<real>)
    ensures UpdateAll(s, dts) == s.(index := s.index + s.speed * Sum(dts))
    decreases |dts|
  {
    if dts != [] {
      var t, d := dts[..|dts| - 1], dts[|dts| - 1];
      UpdateAllIndex(s, t);
      assert s.index + s.speed * Sum(t) + s.speed * d == s.index + s.speed * (Sum(t) + d);
    }
  }

  /** `done` is never reset: neither `update` nor `render` turns it off. */
  lemma DoneIsSticky(s: Sprite, dt: real)
    requires s.done
    ensures s.Update(dt).done && s.Render().sprite.done
  {
  }

  /**
   * A fresh play-once sprite with positive speed is marked done by `render`
   * exactly when speed times the total elapsed time reaches the number of frames.
   */
  lemma PlayOnceCompletion(s: Sprite, dts: seq<real>)
    requires s.once && s.speed > 0.0 && s.index == 0.0 && !s.done
    ensures UpdateAll(s, dts).Render().sprite.done <==> s.speed * Sum(dts) >= |s.frames| as real
  {
    UpdateAllIndex(s, dts);
    var u := UpdateAll(s, dts);
    assert u.speed == s.speed && u.once && u.frames == s.frames && !u.done;
    FloorAtLeast(u.index, |s.frames|);
    assert u.SelectFrame() == Finished <==> u.index >= |s.frames| as real;
  }

  lemma FloorAtLeast(x: real, n: int)
    ensures x.Floor >= n <==> x >= n as real
  {
    assert x.Floor as real <= x < x.Floor as real + 1.0;
  }

  /**
   * The sheet layout: frame 0 sits at the sprite's origin, and each further
   * frame is one cell further along `dir` with the other coordinate unchanged.
   */
  lemma SheetOffsetLayout(s: Sprite, f: int)
    ensures s.SheetOffset(0) == s.pos
    ensures s.dir == "vertical" ==>
      s.SheetOffset(f + 1) == Vec(s.SheetOffset(f).x, s.SheetOffset(f).y + s.size.y)
    ensures s.dir != "vertical" ==>
      s.SheetOffset(f + 1) == Vec(s.SheetOffset(f).x + s.size.x, s.SheetOffset(f).y)
  {
    assert (f + 1) as real * s.size.y == f as real * s.size.y + s.size.y;
    assert (f + 1) as real * s.size.x == f as real * s.size.x + s.size.x;
  }

  /** A sprite built without a `dir` lays its frames out horizontally. */
  lemma DefaultDirIsHorizontal(url: string, pos: Vec, size: Vec, speed: Option<real>,
                               frames: seq<int>, once: bool, f: int)
    ensures NewSprite(url, pos, size, speed, frames, None, once).SheetOffset(f)
            == Vec(pos.x + f as real * size.x, pos.y)
  {
  }
}
