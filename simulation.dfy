/** The pure rules of the TapDodge simulation: the difficulty ramp, the
    obstacle spawner (with its random draws passed in), block motion, the
    off-screen filter and the collision scan over the obstacle list. */
module Simulation {
  import opened Geometry

  /** Points earned per second survived. */
  const ScoreRate: real := 10.0
  /** Fall speed at t = 0, in CSS pixels per second, and its gain per second. */
  const BaseFallSpeed: real := 260.0
  const FallAccel: real := 10.0
  /** Seconds between spawns at t = 0, its floor, and its decrease per second. */
  const BaseSpawnEvery: real := 0.85
  const MinSpawnEvery: real := 0.30
  const SpawnAccel: real := 0.01
  /** How far below the viewport a block's top may go before it is dropped. */
  const DespawnMargin: real := 120.0
  /** Horizontal margin kept free at both sides of the play field. */
  const SideMargin: real := 8.0
  /** The longest simulated step, in seconds, after a stalled frame. */
  const MaxStep: real := 0.033

  // ---------------------------------------------------------------------
  // Difficulty ramp

  /** Fall speed as a function of elapsed time (recomputed every step). */
  function FallSpeedAt(t: real): (r: real)
    ensures t >= 0.0 ==> r >= BaseFallSpeed
    ensures t <= 0.0 ==> r <= BaseFallSpeed
  {
    BaseFallSpeed + t * FallAccel
  }

  /** Spawn interval as a function of elapsed time (recomputed every step). */
  function SpawnEveryAt(t: real): (r: real)
    ensures MinSpawnEvery <= r <= BaseSpawnEvery
  {
    Clamp(BaseSpawnEvery - t * SpawnAccel, MinSpawnEvery, BaseSpawnEvery)
  }

  /** As time goes on, blocks fall no slower and spawn no less often. */
  lemma DifficultyRamps(t1: real, t2: real)
    requires t1 <= t2
    ensures FallSpeedAt(t1) <= FallSpeedAt(t2)
    ensures SpawnEveryAt(t2) <= SpawnEveryAt(t1)
  {
    ClampMonotone(BaseSpawnEvery - t2 * SpawnAccel, BaseSpawnEvery - t1 * SpawnAccel,
                  MinSpawnEvery, BaseSpawnEvery);
  }

  /** The spawn interval falls linearly from 0.85 s for the first 55 seconds
      and stays at 0.30 s from then on. */
  lemma SpawnEveryShape(t: real)
    ensures 0.0 <= t <= 55.0 ==> SpawnEveryAt(t) == BaseSpawnEvery - t * SpawnAccel
    ensures 55.0 <= t ==> SpawnEveryAt(t) == MinSpawnEvery
    ensures t <= 0.0 ==> SpawnEveryAt(t) == BaseSpawnEvery
  {
  }

  /** The step length the frame loop passes on: the time since the last frame,
      capped at 0.033 s (it is not bounded below). */
  function FrameDt(elapsed: real): (dt: real)
    ensures dt <= MaxStep
    ensures elapsed <= MaxStep ==> dt == elapsed
    ensures MaxStep <= elapsed ==> dt == MaxStep
  {
    Min(MaxStep, elapsed)
  }

  // ---------------------------------------------------------------------
  // Obstacles

  /** A falling obstacle with horizontal drift `vx` (its colour is cosmetic
      and not modelled). */
  datatype Block = Block(x: real, y: real, w: real, h: real, vx: real) {
    function Box(): Rect {
      Rect(x, y, w, h)
    }
  }

  /** The three values `Math.random()` yields for one spawn: for the size,
      the horizontal position and the drift. */
  datatype SpawnDraws = SpawnDraws(size: real, x: real, vx: real) {
    /** Each draw lies in [0, 1), as `Math.random` promises. */
    predicate InUnitRange() {
      0.0 <= size < 1.0 && 0.0 <= x < 1.0 && 0.0 <= vx < 1.0
    }
  }

  /** `rand(min, max)` with the random draw `u` made explicit. */
  function Rand(u: real, lo: real, hi: real): (r: real)
    ensures u == 0.0 ==> r == lo
    ensures lo == hi ==> r == lo
  {
    u * (hi - lo) + lo
  }

  /** A draw in [0, 1) lands between the two bounds when they are in
      order: at the lower one inclusive, short of the upper one when they
      differ. */
  lemma RandBetween(u: real, lo: real, hi: real)
    requires 0.0 <= u < 1.0
    requires lo <= hi
    ensures lo <= Rand(u, lo, hi) <= hi
    ensures lo < hi ==> Rand(u, lo, hi) < hi
  {
    var d := hi - lo;
    ScaledShare(u, d);
    assert Rand(u, lo, hi) == u * d + lo;
  }

  /** Scaling a non-negative span by a draw in [0, 1) gives a share of it:
      no less than 0, no more than the span, and short of it if it is
      positive. */
  lemma ScaledShare(u: real, d: real)
    requires 0.0 <= u < 1.0
    requires d >= 0.0
    ensures 0.0 <= u * d <= d
    ensures d > 0.0 ==> u * d < d
  {
  }

  /** `spawnBlock`'s new obstacle for a viewport `cssW` pixels wide. */
  function MakeBlock(cssW: real, d: SpawnDraws): (b: Block)
    ensures b.w == b.h == Rand(d.size, cssW * 0.06, cssW * 0.12)
    ensures b.y == -b.w - 10.0
    ensures b.x == Rand(d.x, SideMargin, cssW - b.w - SideMargin)
    ensures b.vx == Rand(d.vx, -20.0, 20.0)
  {
    var size := Rand(d.size, cssW * 0.06, cssW * 0.12);
    var x := Rand(d.x, SideMargin, cssW - size - SideMargin);
    Block(x, -size - 10.0, size, size, Rand(d.vx, -20.0, 20.0))
  }

  /** A spawned block is a square between 6% and 12% of the viewport width,
      placed just above the top edge, inside the side margins when they
      leave room for it, and drifting at less than 20 px/s either way. */
  lemma SpawnedBlockShape(cssW: real, d: SpawnDraws)
    requires d.InUnitRange()
    requires cssW >= 0.0
    ensures var b := MakeBlock(cssW, d);
      && b.w == b.h
      && b.y == -b.w - 10.0
      && b.y + b.h < 0.0
      && cssW * 0.06 <= b.w <= cssW * 0.12
      && (cssW - b.w - SideMargin >= SideMargin ==> SideMargin <= b.x <= cssW - b.w - SideMargin)
      && -20.0 <= b.vx < 20.0
  {
    var size := Rand(d.size, cssW * 0.06, cssW * 0.12);
    assert cssW * 0.06 <= cssW * 0.12;
    RandBetween(d.size, cssW * 0.06, cssW * 0.12);
    if cssW - size - SideMargin >= SideMargin {
      RandBetween(d.x, SideMargin, cssW - size - SideMargin);
    }
    RandBetween(d.vx, -20.0, 20.0);
  }

  /** One block after `dt` seconds: it falls at `fallSpeed` and drifts at
      its own `vx`. */
  function MoveBlock(b: Block, fallSpeed: real, dt: real): (m: Block)
    ensures m.w == b.w && m.h == b.h && m.vx == b.vx
    ensures m.y - b.y == fallSpeed * dt && m.x - b.x == b.vx * dt
  {
    b.(x := b.x + b.vx * dt, y := b.y + fallSpeed * dt)
  }

  /** Every block moved, in place and in order. */
  function Moved(bs: seq<Block>, fallSpeed: real, dt: real): (ms: seq<Block>)
    ensures |ms| == |bs|
    ensures forall i :: 0 <= i < |bs| ==> ms[i] == MoveBlock(bs[i], fallSpeed, dt)
  {
    seq(|bs|, i requires 0 <= i < |bs| => MoveBlock(bs[i], fallSpeed, dt))
  }

  /** The block is kept: its top is above the despawn line. */
  predicate OnScreen(b: Block, cssH: real) {
    b.y < cssH + DespawnMargin
  }

  /** `blocks.filter(b => b.y < cssH + 120)`. */
  function Survivors(bs: seq<Block>, cssH: real): (r: seq<Block>)
    ensures |r| <= |bs|
    ensures forall b :: b in r ==> b in bs && OnScreen(b, cssH)
  {
    if bs == [] then []
    else (if OnScreen(bs[0], cssH) then [bs[0]] else []) + Survivors(bs[1..], cssH)
  }

  /** No block that is still on screen is dropped. */
  lemma {:induction false} SurvivorsKeepOnScreen(bs: seq<Block>, cssH: real)
    ensures forall b :: b in bs && OnScreen(b, cssH) ==> b in Survivors(bs, cssH)
  {
    if bs != [] {
      SurvivorsKeepOnScreen(bs[1..], cssH);
      forall b | b in bs && OnScreen(b, cssH)
        ensures b in Survivors(bs, cssH)
      {
        if b != bs[0] {
          assert b in bs[1..];
        }
      }
    }
  }

  /** The filter works element by element, so it keeps the original order:
      filtering a concatenation concatenates the filtered parts. */
  lemma {:induction false} SurvivorsAppend(xs: seq<Block>, ys: seq<Block>, cssH: real)
    ensures Survivors(xs + ys, cssH) == Survivors(xs, cssH) + Survivors(ys, cssH)
  {
    if xs == [] {
      assert xs + ys == ys;
    } else {
      assert (xs + ys)[0] == xs[0];
      assert (xs + ys)[1..] == xs[1..] + ys;
      SurvivorsAppend(xs[1..], ys, cssH);
    }
  }

  /** A list whose blocks are all on screen passes the filter unchanged. */
  lemma {:induction false} SurvivorsAllOnScreen(bs: seq<Block>, cssH: real)
    requires forall i :: 0 <= i < |bs| ==> OnScreen(bs[i], cssH)
    ensures Survivors(bs, cssH) == bs
  {
    if bs != [] {
      SurvivorsAllOnScreen(bs[1..], cssH);
    }
  }

  /** Some block of the list collides with the rectangle `p`. */
  predicate HitsAny(p: Rect, bs: seq<Block>)
    ensures HitsAny(p, bs) <==> exists b :: b in bs && RectsHit(p, b.Box())
    ensures HitsAny(p, bs) ==> bs != []
  {
    exists i :: 0 <= i < |bs| && RectsHit(p, bs[i].Box())
  }

  /** When the player and every block have non-negative sides, the scan finds
      a hit exactly when some block shares a point with the player. */
  lemma HitsAnyIffSharedPoint(p: Rect, bs: seq<Block>)
    requires WellFormed(p)
    requires forall i :: 0 <= i < |bs| ==> WellFormed(bs[i].Box())
    ensures HitsAny(p, bs) <==>
      exists i, px, py :: 0 <= i < |bs| && Contains(p, px, py) && Contains(bs[i].Box(), px, py)
  {
    if HitsAny(p, bs) {
      var i :| 0 <= i < |bs| && RectsHit(p, bs[i].Box());
      var px, py := SharedPoint(p, bs[i].Box());
    } else {
      forall i, px, py | 0 <= i < |bs| && Contains(p, px, py)
        ensures !Contains(bs[i].Box(), px, py)
      {
        RectsHitIffSharedPoint(p, bs[i].Box());
      }
    }
  }
}
