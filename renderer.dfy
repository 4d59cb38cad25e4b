/**
 * The renderer's state of renderer.js: the player's sprite animation (a frame
 * counter that advances the walk cycle every `frameSpeed` ticks) and the list
 * of landscape decorations that drift towards the player, are culled behind
 * the player or off to the sides, and are drawn far to near.
 */
module Renderer {
  import opened Wrappers
  import opened Config
  import opened Entities
  import opened Projection
  import opened State

  // ---------------------------------------------------------------------------
  // Sprite

  /** The constructor's argument; None stands for a missing field. */
  datatype SpriteConfig = SpriteConfig(frames: Option<seq<(int, int)>>, frameSpeed: Option<int>,
                                       frameWidth: Option<int>, frameHeight: Option<int>, scale: Option<int>)

  /** The walk cycle used when no frames are given (renderer.js:15). */
  const DEFAULT_FRAMES: seq<(int, int)> := [(1, 2), (0, 2), (3, 2), (0, 2)]

  /** `v || d` on a number: a missing field or 0 falls back to the default. */
  function OrDefault(v: Option<int>, d: int): int {
    if v.Some? && v.value != 0 then v.value else d
  }

  /** One pre-scaled frame: the source rectangle of the sheet and the size it is drawn at. */
  datatype FrameCanvas = FrameCanvas(srcX: int, srcY: int, srcWidth: int, srcHeight: int, width: int, height: int)

  /** The canvas createScaledFrames makes for one frame (renderer.js:31-51). */
  function Cut(frame: (int, int), frameWidth: int, frameHeight: int, scale: int): FrameCanvas {
    FrameCanvas(frame.0 * frameWidth, frame.1 * frameHeight, frameWidth, frameHeight,
                frameWidth * scale, frameHeight * scale)
  }

  /** The animation counters of a sprite. */
  datatype Anim = Anim(counter: int, frame: nat)

  /** One loaded update (renderer.js:58-62). */
  function AnimTick(a: Anim, frameSpeed: int, frameCount: nat): (r: Anim)
    requires frameCount > 0
    ensures a.frame < frameCount ==> r.frame < frameCount
    ensures r.counter == 0 || r.counter < frameSpeed
    ensures a.counter + 1 < frameSpeed ==> r == Anim(a.counter + 1, a.frame)
    ensures a.counter + 1 >= frameSpeed ==> r == Anim(0, (a.frame + 1) % frameCount)
  {
    var counter := a.counter + 1;
    if counter >= frameSpeed then Anim(0, (a.frame + 1) % frameCount) else Anim(counter, a.frame)
  }

  /** n loaded updates. */
  function AnimTicks(a: Anim, frameSpeed: int, frameCount: nat, n: nat): Anim
    requires frameCount > 0
  {
    if n == 0 then a else AnimTick(AnimTicks(a, frameSpeed, frameCount, n - 1), frameSpeed, frameCount)
  }

  /** Updates that do not reach frameSpeed only count. */
  lemma {:induction false} CountWithinFrame(f: nat, frameSpeed: int, frameCount: nat, n: nat)
    requires frameCount > 0 && n < frameSpeed
    ensures AnimTicks(Anim(0, f), frameSpeed, frameCount, n) == Anim(n, f)
  {
    if n > 0 {
      CountWithinFrame(f, frameSpeed, frameCount, n - 1);
    }
  }

  lemma {:induction false} AnimTicksAdd(a: Anim, frameSpeed: int, frameCount: nat, m: nat, n: nat)
    requires frameCount > 0
    ensures AnimTicks(a, frameSpeed, frameCount, m + n) ==
            AnimTicks(AnimTicks(a, frameSpeed, frameCount, m), frameSpeed, frameCount, n)
  {
    if n > 0 {
      AnimTicksAdd(a, frameSpeed, frameCount, m, n - 1);
    }
  }

  lemma OneFrame(p: nat, frameSpeed: int, frameCount: nat)
    requires frameCount > 0 && frameSpeed > 0
    ensures AnimTicks(Anim(0, p), frameSpeed, frameCount, frameSpeed) == Anim(0, (p + 1) % frameCount)
  {
    CountWithinFrame(p, frameSpeed, frameCount, frameSpeed - 1);
  }

  lemma ModSmall(x: int, m: int)
    requires 0 <= x < m
    ensures x % m == x
  {
  }

  lemma ModSelf(m: int)
    requires m > 0
    ensures m % m == 0
  {
  }

  /**
   * The walk cycle's pace: from a reset counter, every frameSpeed updates
   * advance the frame by exactly one, and the last frame is followed by the
   * first.
   */
  lemma {:induction false} FramesAdvance(f: nat, frameSpeed: int, frameCount: nat, k: nat)
    requires frameSpeed > 0 && f < frameCount && f + k <= frameCount
    ensures AnimTicks(Anim(0, f), frameSpeed, frameCount, frameSpeed * k) ==
            Anim(0, if f + k == frameCount then 0 else f + k)
  {
    if k > 0 {
      var p := f + k - 1;
      FramesAdvance(f, frameSpeed, frameCount, k - 1);
      assert frameSpeed * k == frameSpeed * (k - 1) + frameSpeed;
      AnimTicksAdd(Anim(0, f), frameSpeed, frameCount, frameSpeed * (k - 1), frameSpeed);
      OneFrame(p, frameSpeed, frameCount);
      if p + 1 == frameCount {
        ModSelf(frameCount);
      } else {
        ModSmall(p + 1, frameCount);
      }
    }
  }

  /** The animation is periodic: frameSpeed times the number of frames updates bring it back to where it was. */
  lemma WalkCyclePeriodic(f: nat, frameSpeed: int, frameCount: nat)
    requires frameSpeed > 0 && f < frameCount
    ensures AnimTicks(Anim(0, f), frameSpeed, frameCount, frameSpeed * frameCount) == Anim(0, f)
  {
    FramesAdvance(f, frameSpeed, frameCount, frameCount - f);
    FramesAdvance(0, frameSpeed, frameCount, f);
    assert frameSpeed * frameCount == frameSpeed * (frameCount - f) + frameSpeed * f;
    AnimTicksAdd(Anim(0, f), frameSpeed, frameCount, frameSpeed * (frameCount - f), frameSpeed * f);
  }

  /** What `draw` hands to the canvas: a frame and its top-left corner. */
  datatype Blit = Blit(frame: FrameCanvas, left: int, top: int)

  class Sprite {
    var isLoaded: bool
    var frames: seq<(int, int)>
    var currentFrame: nat
    var frameCounter: int
    var frameSpeed: int
    var frameWidth: int
    var frameHeight: int
    var scale: int
    var scaledFrames: seq<FrameCanvas>

    ghost predicate Valid()
      reads this
    {
      |frames| > 0 && currentFrame < |frames| &&
      0 <= frameCounter && (frameCounter < frameSpeed || frameCounter == 0) &&
      (isLoaded ==> |scaledFrames| == |frames|) && (!isLoaded ==> scaledFrames == [])
    }

    /** The constructor (renderer.js:3-26), without the image request: falsy fields take their defaults. */
    constructor (config: SpriteConfig)
      requires config.frames.None? || |config.frames.value| > 0
      ensures Valid() && !isLoaded && currentFrame == 0 && frameCounter == 0 && scaledFrames == []
      ensures frames == (if config.frames.Some? then config.frames.value else DEFAULT_FRAMES)
      ensures frameSpeed == OrDefault(config.frameSpeed, 8)
      ensures frameWidth == OrDefault(config.frameWidth, 32) && frameHeight == OrDefault(config.frameHeight, 32)
      ensures scale == OrDefault(config.scale, 20)
    {
      isLoaded := false;
      frames := if config.frames.Some? then config.frames.value else DEFAULT_FRAMES;
      currentFrame := 0;
      frameCounter := 0;
      frameSpeed := OrDefault(config.frameSpeed, 8);
      frameWidth := OrDefault(config.frameWidth, 32);
      frameHeight := OrDefault(config.frameHeight, 32);
      scale := OrDefault(config.scale, 20);
      scaledFrames := [];
    }

    /** The image's onload handler (renderer.js:8-12). */
    method OnLoad()
      requires Valid()
      modifies this`isLoaded, this`scaledFrames
      ensures Valid() && isLoaded
      ensures |scaledFrames| == |frames|
      ensures forall k :: 0 <= k < |frames| ==> scaledFrames[k] == Cut(frames[k], frameWidth, frameHeight, scale)
    {
      isLoaded := true;
      CreateScaledFrames();
    }

    /** createScaledFrames (renderer.js:28-53): one canvas per frame, in order. */
    method CreateScaledFrames()
      modifies this`scaledFrames
      ensures |scaledFrames| == |frames|
      ensures forall k :: 0 <= k < |frames| ==> scaledFrames[k] == Cut(frames[k], frameWidth, frameHeight, scale)
    {
      scaledFrames := [];
      for k := 0 to |frames|
        invariant |scaledFrames| == k
        invariant forall j :: 0 <= j < k ==> scaledFrames[j] == Cut(frames[j], frameWidth, frameHeight, scale)
      {
        scaledFrames := scaledFrames + [Cut(frames[k], frameWidth, frameHeight, scale)];
      }
    }

    /** update (renderer.js:55-63): nothing until loaded, otherwise one animation tick. */
    method Update()
      requires Valid()
      modifies this`frameCounter, this`currentFrame
      ensures Valid()
      ensures !isLoaded ==> frameCounter == old(frameCounter) && currentFrame == old(currentFrame)
      ensures isLoaded ==> Anim(frameCounter, currentFrame) ==
                           AnimTick(Anim(old(frameCounter), old(currentFrame)), frameSpeed, |frames|)
    {
      if !isLoaded {
        return;
      }
      frameCounter := frameCounter + 1;
      if frameCounter >= frameSpeed {
        frameCounter := 0;
        currentFrame := (currentFrame + 1) % |frames|;
      }
    }

    /**
     * draw (renderer.js:65-79): false, with nothing drawn, exactly when the
     * image is not loaded or no frames were cut; otherwise the current frame,
     * bottom-centred on (x, y).
     */
    function Draw(x: real, y: real): (r: Option<Blit>)
      requires Valid()
      reads this
      ensures r.Some? <==> isLoaded && |scaledFrames| > 0
      ensures r.Some? ==> r.value.frame == scaledFrames[currentFrame]
      ensures r.Some? ==> r.value.left == (x - (frameWidth * scale) as real / 2.0).Floor &&
                          r.value.top == (y - (frameHeight * scale) as real).Floor
    {
      if !isLoaded || |scaledFrames| == 0 then None
      else
        var drawWidth := frameWidth * scale;
        var drawHeight := frameHeight * scale;
        Some(Blit(scaledFrames[currentFrame], (x - drawWidth as real / 2.0).Floor, (y - drawHeight as real).Floor))
    }
  }

  // ---------------------------------------------------------------------------
  // Decorations

  datatype Zone = Roadside | Landscape | Horizon

  datatype Decoration = Decoration(emoji: string, x: real, z: real, size: real, rotation: real,
                                   bobOffset: real, zone: Zone)

  /** The six `Math.random()` draws spawnDecoration makes, in the order it makes them. */
  datatype DecorationDraws = DecorationDraws(emoji: real, side: real, zone: real, sideDistance: real,
                                             size: real, bob: real)

  predicate DrawsInRange(d: DecorationDraws) {
    0.0 <= d.emoji < 1.0 && 0.0 <= d.side < 1.0 && 0.0 <= d.zone < 1.0 &&
    0.0 <= d.sideDistance < 1.0 && 0.0 <= d.size < 1.0 && 0.0 <= d.bob < 1.0
  }

  /** `Math.PI * 2` as the double the browser computes. */
  const TWO_PI: real := 6.283185307179586

  /** The decoration emojis of the selected business, if one is selected. */
  function EmojisOf(gs: GameState): (r: Option<seq<string>>)
    ensures r.Some? <==> gs.selectedBusiness.Some?
    ensures r.Some? ==> |r.value| == 8
  {
    if gs.selectedBusiness.None? then None else Some(BusinessOf(gs.selectedBusiness.value).decorations)
  }

  /** The zone a zone draw selects (renderer.js:119-131, 142). */
  function ZoneOf(zoneRandom: real): Zone {
    if zoneRandom < 0.5 then Roadside else if zoneRandom < 0.8 then Landscape else Horizon
  }

  /** The decoration spawnDecoration pushes (renderer.js:108-143). */
  function NewDecoration(emojis: seq<string>, z: real, d: DecorationDraws): (dec: Decoration)
    requires |emojis| > 0 && DrawsInRange(d)
    ensures dec.emoji in emojis && dec.z == z && dec.rotation == 0.0
    ensures 0.0 <= dec.bobOffset < TWO_PI
    ensures dec.zone == Roadside <==> d.zone < 0.5
    ensures dec.zone == Landscape <==> 0.5 <= d.zone < 0.8
    ensures dec.zone == Horizon <==> 0.8 <= d.zone
    ensures dec.zone == Roadside ==> 1.0 <= Abs(dec.x) < 3.0 && 0.8 <= dec.size < 1.4
    ensures dec.zone == Landscape ==> 2.0 <= Abs(dec.x) < 5.0 && 0.6 <= dec.size < 1.0
    ensures dec.zone == Horizon ==> 3.0 <= Abs(dec.x) < 8.0 && 0.4 <= dec.size < 0.7
    ensures d.side > 0.5 ==> dec.x > 0.0
    ensures d.side <= 0.5 ==> dec.x < 0.0
  {
    var k := (d.emoji * |emojis| as real).Floor;
    assert 0 <= k < |emojis| by {
      assert d.emoji * |emojis| as real < |emojis| as real;
    }
    var side := if d.side > 0.5 then 1.0 else -1.0;
    var zone := ZoneOf(d.zone);
    var sideDistance := match zone
      case Roadside => d.sideDistance * 2.0 + 1.0
      case Landscape => d.sideDistance * 3.0 + 2.0
      case Horizon => d.sideDistance * 5.0 + 3.0;
    var baseSize := match zone
      case Roadside => d.size * 0.6 + 0.8
      case Landscape => d.size * 0.4 + 0.6
      case Horizon => d.size * 0.3 + 0.4;
    Decoration(emojis[k], sideDistance * side, z, baseSize, 0.0, d.bob * TWO_PI, zone)
  }

  /** The per-tick drift (renderer.js:154-155). */
  function Drift(d: Decoration): Decoration {
    d.(z := d.z - ENTITY_SPEED, bobOffset := d.bobOffset + 0.015)
  }

  /** The screen-x band a far decoration must stay in (renderer.js:165-166). */
  predicate OnScreen(c: Canvas, d: Decoration)
    requires d.z > 0.3
  {
    var screenX := WorldToScreen(c, d.x, d.z).x;
    -200.0 < screenX < c.width + 200.0
  }

  /** A moved decoration is removed behind the player or, beyond depth 0.3, off to the sides (renderer.js:158-170). */
  predicate Culled(c: Canvas, d: Decoration) {
    d.z <= -0.5 || (d.z > 0.3 && !OnScreen(c, d))
  }

  /** The list after the move-and-cull pass: every decoration moved, the culled ones removed, order kept. */
  function Drifted(c: Canvas, s: seq<Decoration>): seq<Decoration> {
    if s == [] then []
    else (if Culled(c, Drift(s[0])) then [] else [Drift(s[0])]) + Drifted(c, s[1..])
  }

  /** Every survivor of the pass is a moved original that is not culled, and the list does not grow. */
  lemma {:induction false} DriftedSound(c: Canvas, s: seq<Decoration>)
    ensures |Drifted(c, s)| <= |s|
    ensures forall e :: e in Drifted(c, s) ==> !Culled(c, e) && e.z > -0.5
    ensures forall e :: e in Drifted(c, s) ==> exists k :: 0 <= k < |s| && e == Drift(s[k])
  {
    if s != [] {
      var rest := Drifted(c, s[1..]);
      DriftedSound(c, s[1..]);
      forall e | e in rest
        ensures exists k :: 0 <= k < |s| && e == Drift(s[k])
      {
        var j :| 0 <= j < |s[1..]| && e == Drift(s[1..][j]);
        assert e == Drift(s[j + 1]);
      }
    }
  }

  /** Every moved original that is not culled survives the pass. */
  lemma {:induction false} DriftedComplete(c: Canvas, s: seq<Decoration>)
    ensures forall k :: 0 <= k < |s| && !Culled(c, Drift(s[k])) ==> Drift(s[k]) in Drifted(c, s)
  {
    if s != [] {
      var rest := Drifted(c, s[1..]);
      DriftedComplete(c, s[1..]);
      forall k | 1 <= k < |s| && !Culled(c, Drift(s[k]))
        ensures Drift(s[k]) in rest
      {
        assert s[k] == s[1..][k - 1];
      }
    }
  }

  /** Decorations enter at the far end: the new one's depth for a draw in [0, 1) is in [4, 6) (renderer.js:178). */
  function SpawnDepth(draw: real): (z: real)
    requires 0.0 <= draw < 1.0
    ensures 4.0 <= z < 6.0
  {
    draw * 2.0 + 4.0
  }

  /** Fewer decorations on a phone (renderer.js:94, 175). */
  function MaxDecorations(isMobile: bool): nat {
    if isMobile then 12 else 20
  }

  function SpawnRate(isMobile: bool): real {
    if isMobile then 0.015 else 0.025
  }

  /** The initial depth for a draw: 1 to 5 units away (renderer.js:98). */
  function InitialDepth(draw: real): (z: real)
    requires 0.0 <= draw < 1.0
    ensures 1.0 <= z < 5.0
  {
    draw * 4.0 + 1.0
  }

  /** The decoration a running tick adds: one, 4 to 6 units away, with probability SpawnRate (renderer.js:177-179). */
  function Spawned(gs: GameState, isMobile: bool, spawnDraw: real, depthDraw: real, d: DecorationDraws): (r: seq<Decoration>)
    requires 0.0 <= spawnDraw < 1.0 && 0.0 <= depthDraw < 1.0 && DrawsInRange(d)
    ensures |r| <= 1
    ensures |r| == 1 <==> spawnDraw < SpawnRate(isMobile) && gs.selectedBusiness.Some?
    ensures |r| == 1 ==> 4.0 <= r[0].z < 6.0 && r[0].emoji in EmojisOf(gs).value
  {
    if spawnDraw < SpawnRate(isMobile) && gs.selectedBusiness.Some? then
      [NewDecoration(EmojisOf(gs).value, SpawnDepth(depthDraw), d)]
    else []
  }

  /** The decoration list of the page (renderer.js:83). */
  class Background {
    var decorations: seq<Decoration>

    constructor ()
      ensures decorations == []
    {
      decorations := [];
    }

    /** spawnDecoration (renderer.js:103-146): nothing without a selected business. */
    method SpawnDecoration(gs: GameState, z: real, d: DecorationDraws)
      requires DrawsInRange(d)
      modifies this`decorations
      ensures gs.selectedBusiness.None? ==> decorations == old(decorations)
      ensures gs.selectedBusiness.Some? ==>
        decorations == old(decorations) + [NewDecoration(EmojisOf(gs).value, z, d)]
    {
      var emojis := EmojisOf(gs);
      if emojis.None? {
        return;
      }
      decorations := decorations + [NewDecoration(emojis.value, z, d)];
    }

    /**
     * initBackgroundDecorations (renderer.js:85-101): the list restarts empty
     * and, with a business selected, gets 12 (phone) or 20 decorations at
     * depths 1 to 5.
     */
    method InitBackgroundDecorations(gs: GameState, isMobile: bool, draws: seq<(real, DecorationDraws)>)
      requires |draws| == MaxDecorations(isMobile)
      requires forall k :: 0 <= k < |draws| ==> 0.0 <= draws[k].0 < 1.0 && DrawsInRange(draws[k].1)
      modifies this`decorations
      ensures gs.selectedBusiness.None? ==> decorations == []
      ensures gs.selectedBusiness.Some? ==> |decorations| == MaxDecorations(isMobile)
      ensures gs.selectedBusiness.Some? ==> forall k :: 0 <= k < |draws| ==>
        decorations[k] == NewDecoration(EmojisOf(gs).value, InitialDepth(draws[k].0), draws[k].1)
      ensures forall k :: 0 <= k < |decorations| ==> 1.0 <= decorations[k].z < 5.0
    {
      decorations := [];
      if gs.selectedBusiness.None? {
        return;
      }
      for i := 0 to |draws|
        invariant |decorations| == i
        invariant forall k :: 0 <= k < i ==>
          decorations[k] == NewDecoration(EmojisOf(gs).value, InitialDepth(draws[k].0), draws[k].1)
      {
        SpawnDecoration(gs, InitialDepth(draws[i].0), draws[i].1);
      }
    }

    /**
     * updateBackgroundDecorations (renderer.js:148-180): nothing before the
     * game starts; otherwise every decoration drifts and the culled ones are
     * spliced out, walking the list from the back, and with probability
     * SpawnRate a new one enters 4 to 6 units away.
     */
    method UpdateBackgroundDecorations(gs: GameState, c: Canvas, isMobile: bool,
                                       spawnDraw: real, depthDraw: real, d: DecorationDraws)
      requires 0.0 <= spawnDraw < 1.0 && 0.0 <= depthDraw < 1.0 && DrawsInRange(d)
      modifies this`decorations
      ensures !gs.gameStarted ==> decorations == old(decorations)
      ensures gs.gameStarted ==> decorations == Drifted(c, old(decorations)) + Spawned(gs, isMobile, spawnDraw, depthDraw, d)
    {
      if !gs.gameStarted {
        return;
      }
      ghost var orig := decorations;
      var i := |decorations|;
      while i > 0
        invariant 0 <= i <= |orig|
        invariant decorations == orig[..i] + Drifted(c, orig[i..])
      {
        i := i - 1;
        DriftStep(c, i, orig);
      }
      assert orig[0..] == orig;
      if spawnDraw < SpawnRate(isMobile) {
        SpawnDecoration(gs, SpawnDepth(depthDraw), d);
      }
    }

    /**
     * One iteration of the update loop for index i (renderer.js:153-170),
     * given that the decorations after i have been moved and culled.
     */
    method DriftStep(c: Canvas, i: nat, ghost orig: seq<Decoration>)
      requires i < |orig| && decorations == orig[..i + 1] + Drifted(c, orig[i + 1..])
      modifies this`decorations
      ensures decorations == orig[..i] + Drifted(c, orig[i..])
    {
      assert orig[i..] == [orig[i]] + orig[i + 1..];
      ghost var rest := Drifted(c, orig[i + 1..]);
      DecorationAt(decorations, orig, i, rest);
      var decoration := Drift(decorations[i]);
      if decoration.z <= -0.5 {
        decorations := decorations[..i] + decorations[i + 1..];
        return;
      }
      if decoration.z > 0.3 {
        var screenX := WorldToScreen(c, decoration.x, decoration.z).x;
        var isVisible := screenX > -200.0 && screenX < c.width + 200.0;
        if !isVisible {
          decorations := decorations[..i] + decorations[i + 1..];
          return;
        }
      }
      ReplaceDecorationAt(decorations, orig, i, rest, decoration);
      decorations := decorations[i := decoration];
    }
  }

  /** Index i of the partly swept list still holds the original decoration, and removing it leaves the prefix and the swept rest. */
  lemma DecorationAt(s: seq<Decoration>, orig: seq<Decoration>, i: nat, rest: seq<Decoration>)
    requires i < |orig| && s == orig[..i + 1] + rest
    ensures i < |s| && s[i] == orig[i]
    ensures s[..i] + s[i + 1..] == orig[..i] + rest
  {
    assert s[..i] == orig[..i];
    assert s[i + 1..] == rest;
  }

  lemma ReplaceDecorationAt(s: seq<Decoration>, orig: seq<Decoration>, i: nat, rest: seq<Decoration>, y: Decoration)
    requires i < |orig| && s == orig[..i + 1] + rest
    ensures s[i := y] == orig[..i] + ([y] + rest)
  {
    assert s == orig[..i] + [orig[i]] + rest;
  }

  // ---------------------------------------------------------------------------
  // Drawing order and fading

  /** The opacity of a decoration drawn at a given scale (renderer.js:200). */
  function Alpha(scale: real): (a: real)
    ensures 0.5 <= a <= 1.0
    ensures 0.5 <= scale * 2.5 <= 1.0 ==> a == scale * 2.5
    ensures scale * 2.5 < 0.5 ==> a == 0.5
    ensures scale * 2.5 > 1.0 ==> a == 1.0
  {
    var lifted := if 0.5 > scale * 2.5 then 0.5 else scale * 2.5;
    if 1.0 < lifted then 1.0 else lifted
  }

  predicate FarToNear(s: seq<Decoration>) {
    forall i, j :: 0 <= i < j < |s| ==> s[i].z >= s[j].z
  }

  /** Inserts before the first element no farther away, so earlier elements stay first among equals. */
  function Insert(d: Decoration, s: seq<Decoration>): (r: seq<Decoration>)
    ensures multiset(r) == multiset(s) + multiset{d}
  {
    if s == [] || s[0].z <= d.z then [d] + s
    else
      assert s == [s[0]] + s[1..];
      [s[0]] + Insert(d, s[1..])
  }

  /** Inserting into a far-to-near list keeps it far to near. */
  lemma {:induction false} InsertFarToNear(d: Decoration, s: seq<Decoration>)
    requires FarToNear(s)
    ensures FarToNear(Insert(d, s))
  {
    if s != [] && s[0].z > d.z {
      InsertFarToNear(d, s[1..]);
      var tail := Insert(d, s[1..]);
      forall e | e in tail
        ensures s[0].z >= e.z
      {
        assert e in multiset(tail);
        assert e in s[1..] || e == d;
      }
    }
  }

  /** `[...backgroundDecorations].sort((a, b) => b.z - a.z)` (renderer.js:186), as an insertion sort. */
  function SortFarToNear(s: seq<Decoration>): (r: seq<Decoration>)
    ensures FarToNear(r)
    ensures multiset(r) == multiset(s)
  {
    if s == [] then []
    else
      assert s == [s[0]] + s[1..];
      InsertFarToNear(s[0], SortFarToNear(s[1..]));
      Insert(s[0], SortFarToNear(s[1..]))
  }

  /** One decoration as drawBackgroundDecorations paints it, without the bobbing offset. */
  datatype Sprite2D = Sprite2D(decoration: Decoration, x: int, emojiSize: int, alpha: real)

  /** Whether and how one decoration is painted (renderer.js:189-200). */
  function Paint(c: Canvas, d: Decoration): Option<Sprite2D> {
    if !(0.0 <= d.z <= 6.0) then None
    else
      var p := WorldToScreen(c, d.x, d.z);
      if p.x < -100.0 || p.x > c.width + 100.0 then None
      else
        var emojiSize := (120.0 * p.scale * d.size).Floor;
        if emojiSize <= 12 then None
        else Some(Sprite2D(d, p.x.Floor, emojiSize, Alpha(p.scale)))
  }

  function PaintAll(c: Canvas, s: seq<Decoration>): (r: seq<Sprite2D>)
    ensures |r| <= |s|
    ensures forall k :: 0 <= k < |r| ==> Paint(c, r[k].decoration) == Some(r[k])
    ensures forall k :: 0 <= k < |r| ==> multiset(s)[r[k].decoration] > 0
  {
    if s == [] then []
    else
      var rest := PaintAll(c, s[1..]);
      assert s == [s[0]] + s[1..];
      assert forall k :: 0 <= k < |rest| ==> multiset(s)[rest[k].decoration] > 0 by {
        forall k | 0 <= k < |rest|
          ensures multiset(s)[rest[k].decoration] > 0
        {
          assert multiset(s[1..])[rest[k].decoration] > 0;
        }
      }
      (if Paint(c, s[0]).Some? then [Paint(c, s[0]).value] else []) + rest
  }

  /** Every decoration of the list that passes the depth, margin and size tests is painted. */
  lemma {:induction false} PaintAllComplete(c: Canvas, s: seq<Decoration>)
    ensures forall d :: d in s && Paint(c, d).Some? ==> Paint(c, d).value in PaintAll(c, s)
  {
    if s != [] {
      PaintAllComplete(c, s[1..]);
      forall d | d in s && Paint(c, d).Some?
        ensures Paint(c, d).value in PaintAll(c, s)
      {
        if d != s[0] {
          assert d in s[1..];
        }
      }
    }
  }

  /** drawBackgroundDecorations (renderer.js:182-218): what is painted, in painting order. */
  function DrawPlan(c: Canvas, decorations: seq<Decoration>): seq<Sprite2D> {
    PaintAll(c, SortFarToNear(decorations))
  }

  /**
   * The plan paints decorations of the list, far to near, only in depth
   * [0, 6] and with opacity in [0.5, 1], and it paints every decoration that
   * passes the tests.
   */
  lemma {:induction false} DrawPlanOrdered(c: Canvas, decorations: seq<Decoration>)
    ensures forall i, j :: 0 <= i < j < |DrawPlan(c, decorations)| ==>
      DrawPlan(c, decorations)[i].decoration.z >= DrawPlan(c, decorations)[j].decoration.z
    ensures forall k :: 0 <= k < |DrawPlan(c, decorations)| ==>
      0.0 <= DrawPlan(c, decorations)[k].decoration.z <= 6.0 &&
      0.5 <= DrawPlan(c, decorations)[k].alpha <= 1.0 &&
      DrawPlan(c, decorations)[k].decoration in decorations
    ensures forall d :: d in decorations && Paint(c, d).Some? ==> Paint(c, d).value in DrawPlan(c, decorations)
  {
    var sorted := SortFarToNear(decorations);
    PaintAllOrdered(c, sorted);
    PaintAllComplete(c, sorted);
    forall d | d in decorations
      ensures d in sorted
    {
      assert multiset(decorations)[d] > 0;
    }
    forall k | 0 <= k < |DrawPlan(c, decorations)|
      ensures DrawPlan(c, decorations)[k].decoration in decorations
    {
      assert multiset(sorted)[DrawPlan(c, decorations)[k].decoration] > 0;
    }
  }

  /** Painting keeps the order of the list it is given. */
  lemma {:induction false} PaintAllOrdered(c: Canvas, s: seq<Decoration>)
    requires FarToNear(s)
    ensures forall i, j :: 0 <= i < j < |PaintAll(c, s)| ==> PaintAll(c, s)[i].decoration.z >= PaintAll(c, s)[j].decoration.z
  {
    if s != [] {
      PaintAllOrdered(c, s[1..]);
      var rest := PaintAll(c, s[1..]);
      forall k | 0 <= k < |rest|
        ensures s[0].z >= rest[k].decoration.z
      {
        assert multiset(s[1..])[rest[k].decoration] > 0;
        var j :| 0 <= j < |s[1..]| && s[1..][j] == rest[k].decoration;
        assert s[1..][j] == s[j + 1];
      }
    }
  }
}
