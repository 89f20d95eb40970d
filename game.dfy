/** The shared game state of TapDodge and the operations that update it in
    place: reset, player setup, spawning, the per-frame step, game over,
    the tap impulse, and the start/restart/pause buttons with the frame
    loop's gate. The viewport size in CSS pixels (`cssW`, `cssH`) is read
    from the layout at the moment of each call, so it is a parameter. */
module Game {
  import opened Geometry
  import opened Simulation

  /** The player's rectangle and the speed that scales a tap impulse. */
  datatype Player = Player(x: real, y: real, w: real, h: real, speed: real) {
    function Box(): Rect {
      Rect(x, y, w, h)
    }
  }

  /** `setupPlayer`'s player for a viewport: at least 34 px on a side,
      centred horizontally, resting above a bottom margin of at least 18 px,
      with an impulse speed of at least 420 px/s. */
  function PlayerFor(cssW: real, cssH: real): (p: Player)
    ensures p.w >= 34.0 && p.w >= cssW * 0.09 && (p.w == 34.0 || p.w == cssW * 0.09)
    ensures p.h >= 34.0 && p.h >= cssH * 0.06 && (p.h == 34.0 || p.h == cssH * 0.06)
    ensures p.x + p.w / 2.0 == cssW / 2.0
    ensures p.y + p.h + 18.0 <= cssH && p.y + p.h + cssH * 0.04 <= cssH
    ensures p.y + p.h == cssH - 18.0 || p.y + p.h == cssH - cssH * 0.04
    ensures p.speed >= 420.0 && p.speed >= cssW * 1.2 && (p.speed == 420.0 || p.speed == cssW * 1.2)
  {
    var w := Max(34.0, cssW * 0.09);
    var h := Max(34.0, cssH * 0.06);
    Player(cssW / 2.0 - w / 2.0, cssH - h - Max(18.0, cssH * 0.04), w, h, Max(420.0, cssW * 1.2))
  }

  /** The button mapping of a tap: left of the middle of the canvas moves
      left (-1), anywhere else moves right (+1). */
  function TapDirection(tapX: real, rectWidth: real): (dir: real)
    ensures dir == -1.0 || dir == 1.0
    ensures dir == -1.0 <==> tapX < rectWidth / 2.0
  {
    if tapX < rectWidth / 2.0 then -1.0 else 1.0
  }

  /** `Math.max` on two integers. */
  function MaxInt(a: int, b: int): (r: int)
    ensures r >= a && r >= b && (r == a || r == b)
  {
    if a >= b then a else b
  }

  /** The four phases of a game, read off the three flags. */
  datatype Phase = Idle | Playing | Suspended | Over

  class Game {
    var running: bool
    var paused: bool
    var gameOver: bool
    /** Seconds survived in this run. */
    var t: real
    var score: real
    /** Best floored score; read from storage at start-up. */
    var best: int
    var player: Player
    var blocks: seq<Block>
    var spawnTimer: real
    var spawnEvery: real
    var fallSpeed: real

    /** What every operation keeps: a finished game is not running, only a
        running game is paused, the score is 10 points per second survived,
        and the difficulty parameters are those of the ramp at time t. */
    ghost predicate Valid()
      reads this
    {
      && (gameOver ==> !running)
      && (paused ==> running)
      && score == ScoreRate * t
      && fallSpeed == FallSpeedAt(t)
      && spawnEvery == SpawnEveryAt(t)
    }

    function Phase(): Phase
      reads this
    {
      if gameOver then Over
      else if !running then Idle
      else if paused then Suspended
      else Playing
    }

    /** The state record at load time, followed by the player setup at boot;
        `storedBest` is the value read from storage. */
    constructor (storedBest: int, cssW: real, cssH: real)
      ensures Valid() && Phase() == Idle
      ensures !running && !paused && !gameOver
      ensures t == 0.0 && score == 0.0 && best == storedBest
      ensures blocks == [] && spawnTimer == 0.0
      ensures spawnEvery == BaseSpawnEvery && fallSpeed == BaseFallSpeed
      ensures player == PlayerFor(cssW, cssH)
    {
      running, paused, gameOver := false, false, false;
      t, score, best := 0.0, 0.0, storedBest;
      player := Player(0.0, 0.0, 0.0, 0.0, 0.0);
      blocks := [];
      spawnTimer, spawnEvery, fallSpeed := 0.0, 0.85, 260.0;
      new;
      SetupPlayer(cssW, cssH);
    }

    /** Sizes and places the player for the viewport; nothing else changes. */
    method SetupPlayer(cssW: real, cssH: real)
      modifies this`player
      ensures player == PlayerFor(cssW, cssH)
    {
      var w := Max(34.0, cssW * 0.09);
      var h := Max(34.0, cssH * 0.06);
      player := player.(w := w, h := h);
      player := player.(x := cssW / 2.0 - player.w / 2.0);
      player := player.(y := cssH - player.h - Max(18.0, cssH * 0.04));
      player := player.(speed := Max(420.0, cssW * 1.2));
    }

    /** Clears the run: all flags off, clock, score and spawn timer at 0, no
        blocks, the difficulty back at its base, a fresh player; `best` is
        kept. */
    method ResetGame(cssW: real, cssH: real)
      modifies this
      ensures Valid() && Phase() == Idle
      ensures !running && !paused && !gameOver
      ensures t == 0.0 && score == 0.0 && spawnTimer == 0.0 && blocks == []
      ensures spawnEvery == BaseSpawnEvery && fallSpeed == BaseFallSpeed
      ensures best == old(best)
      ensures player == PlayerFor(cssW, cssH)
    {
      running := false;
      paused := false;
      gameOver := false;
      t := 0.0;
      score := 0.0;
      blocks := [];
      spawnTimer := 0.0;
      spawnEvery := 0.85;
      fallSpeed := 260.0;
      SetupPlayer(cssW, cssH);
    }

    /** Appends one new block, built from the three random draws. */
    method SpawnBlock(cssW: real, draws: SpawnDraws)
      modifies this`blocks
      ensures blocks == old(blocks) + [MakeBlock(cssW, draws)]
    {
      blocks := blocks + [MakeBlock(cssW, draws)];
    }

    /** Stops the run and records the floored score as the best one if it
        beats it. */
    method EndGame()
      requires Valid() && !paused
      modifies this`running, this`gameOver, this`best
      ensures Valid()
      ensures !running && gameOver
      ensures best == MaxInt(old(best), score.Floor)
      ensures best >= old(best)
    {
      running := false;
      gameOver := true;
      var finalScore := score.Floor;
      if finalScore > best {
        best := finalScore;
      }
    }

    /** The state one step of `dt` seconds leaves, relative to the state
        before it. The clock advances by `dt` and the score by `10 dt`; the
        difficulty is the ramp's at the new time; the spawn timer either
        fires (it restarts from exactly 0 and one new block is appended) or
        grows by `dt`; the blocks are the moved blocks above the despawn
        line, in order; the player and `paused` stay; a block that hits the
        player ends the game and may raise `best`, and otherwise the flags
        and `best` stay. */
    twostate predicate Stepped(dt: real, cssW: real, cssH: real, draws: SpawnDraws)
      reads this
    {
      var fired := old(spawnTimer) + dt >= SpawnEveryAt(old(t) + dt);
      && t == old(t) + dt && score == old(score) + ScoreRate * dt
      && fallSpeed == FallSpeedAt(t) && spawnEvery == SpawnEveryAt(t)
      && spawnTimer == (if fired then 0.0 else old(spawnTimer) + dt)
      && blocks == Survivors(Moved(old(blocks) + (if fired then [MakeBlock(cssW, draws)] else []),
                                   FallSpeedAt(t), dt), cssH)
      && player == old(player) && paused == old(paused)
      && (HitsAny(player.Box(), blocks) ==>
            !running && gameOver && best == MaxInt(old(best), score.Floor))
      && (!HitsAny(player.Box(), blocks) ==>
            running == old(running) && gameOver == old(gameOver) && best == old(best))
    }

    /** One simulation step of `dt` seconds. The clock and the score advance,
        the difficulty follows the ramp, the spawn timer fires at most once
        (and then restarts from exactly 0), every block moves, those below
        the despawn line are dropped in order, and a collision between the
        player and a remaining block ends the game. */
    method Update(dt: real, cssW: real, cssH: real, draws: SpawnDraws)
      requires Valid() && !paused
      modifies this`t, this`score, this`fallSpeed, this`spawnEvery, this`spawnTimer, this`blocks,
               this`running, this`gameOver, this`best
      ensures Valid() && Stepped(dt, cssW, cssH, draws)
      ensures MinSpawnEvery <= spawnEvery <= BaseSpawnEvery
      ensures forall b :: b in blocks ==> b.y < cssH + DespawnMargin
      ensures best >= old(best)
    {
      t := t + dt;
      score := score + dt * 10.0;

      // Difficulty ramp
      fallSpeed := 260.0 + t * 10.0;
      spawnEvery := Clamp(0.85 - t * 0.01, 0.30, 0.85);

      spawnTimer := spawnTimer + dt;
      ghost var fired := spawnTimer >= spawnEvery;
      if spawnTimer >= spawnEvery {
        spawnTimer := 0.0;
        SpawnBlock(cssW, draws);
      }

      assert blocks == old(blocks) + (if fired then [MakeBlock(cssW, draws)] else []);

      MoveBlocks(dt);
      // Remove offscreen
      blocks := Survivors(blocks, cssH);
      CheckCollisions();
    }

    /** The `forEach` over the blocks: each one falls at the current fall
        speed and drifts at its own `vx`, in place. */
    method MoveBlocks(dt: real)
      modifies this`blocks
      ensures blocks == Moved(old(blocks), fallSpeed, dt)
    {
      var i := 0;
      while i < |blocks|
        invariant 0 <= i <= |blocks| == |old(blocks)|
        invariant forall k :: 0 <= k < i ==> blocks[k] == MoveBlock(old(blocks)[k], fallSpeed, dt)
        invariant forall k :: i <= k < |blocks| ==> blocks[k] == old(blocks)[k]
      {
        blocks := blocks[i := MoveBlock(blocks[i], fallSpeed, dt)];
        i := i + 1;
      }
    }

    /** The collision loop: the first block that hits the player ends the
        game and stops the scan; if none does, nothing changes. */
    method CheckCollisions()
      requires Valid() && !paused
      modifies this`running, this`gameOver, this`best
      ensures Valid()
      ensures HitsAny(player.Box(), blocks) ==>
        !running && gameOver && best == MaxInt(old(best), score.Floor)
      ensures !HitsAny(player.Box(), blocks) ==>
        running == old(running) && gameOver == old(gameOver) && best == old(best)
    {
      var p := player;
      var j := 0;
      while j < |blocks|
        invariant 0 <= j <= |blocks|
        invariant forall k :: 0 <= k < j ==> !RectsHit(p.Box(), blocks[k].Box())
        invariant running == old(running) && gameOver == old(gameOver) && best == old(best)
      {
        if RectsHit(p.Box(), blocks[j].Box()) {
          EndGame();
          break;
        }
        j := j + 1;
      }
    }

    /** The tap impulse: a twentieth of the player's speed in direction `dir`,
        then clamped to the side margins. Only the player's x changes. */
    method Move(dir: real, cssW: real)
      modifies this`player
      ensures player == old(player).(x := Clamp(old(player.x) + dir * player.speed / 20.0,
                                                SideMargin, cssW - player.w - SideMargin))
      ensures player.x >= SideMargin
      ensures cssW - player.w - SideMargin >= SideMargin ==> player.x <= cssW - player.w - SideMargin
    {
      var p := player;
      p := p.(x := p.x + dir * p.speed * (1.0 / 20.0));
      p := p.(x := Clamp(p.x, 8.0, cssW - p.w - 8.0));
      player := p;
    }

    /** A tap at `tapX` pixels from the canvas's left edge moves the player
        towards that side. */
    method HandleTap(tapX: real, rectWidth: real, cssW: real)
      modifies this`player
      ensures player == old(player).(x := Clamp(old(player.x) + TapDirection(tapX, rectWidth) * player.speed / 20.0,
                                                SideMargin, cssW - player.w - SideMargin))
    {
      Move(TapDirection(tapX, rectWidth), cssW);
    }

    /** The start and restart buttons (identical handlers): a fresh game,
        running, from whatever state the game was in. */
    method Launch(cssW: real, cssH: real)
      modifies this
      ensures Valid() && Phase() == Playing
      ensures running && !paused && !gameOver
      ensures t == 0.0 && score == 0.0 && spawnTimer == 0.0 && blocks == []
      ensures spawnEvery == BaseSpawnEvery && fallSpeed == BaseFallSpeed
      ensures best == old(best)
      ensures player == PlayerFor(cssW, cssH)
    {
      ResetGame(cssW, cssH);
      running := true;
    }

    /** Everything but `paused` is as it was. */
    twostate predicate OnlyPauseChanged()
      reads this
    {
      && running == old(running) && gameOver == old(gameOver)
      && t == old(t) && score == old(score) && best == old(best)
      && player == old(player) && blocks == old(blocks)
      && spawnTimer == old(spawnTimer) && spawnEvery == old(spawnEvery)
      && fallSpeed == old(fallSpeed)
    }

    /** The pause button: ignored once the game is over, starts a fresh game
        when none is running, and otherwise toggles `paused`. */
    method PressPause(cssW: real, cssH: real)
      requires Valid()
      modifies this
      ensures Valid()
      ensures old(gameOver) ==> unchanged(this)
      ensures !old(gameOver) && !old(running) ==>
        && Phase() == Playing && t == 0.0 && score == 0.0 && blocks == [] && spawnTimer == 0.0
        && best == old(best) && player == PlayerFor(cssW, cssH)
      ensures !old(gameOver) && old(running) ==> paused == !old(paused) && OnlyPauseChanged()
      ensures old(Phase()) == Over ==> Phase() == Over
      ensures old(Phase()) == Idle ==> Phase() == Playing
      ensures old(Phase()) == Playing ==> Phase() == Suspended
      ensures old(Phase()) == Suspended ==> Phase() == Playing
    {
      if gameOver {
        return;
      }
      if !running {
        Launch(cssW, cssH);
        return;
      }
      paused := !paused;
    }

    /** Two presses of the pause button in a row on a running game restore
        `paused` and leave the clock and everything else as they were. */
    method PressPauseTwice(cssW: real, cssH: real)
      requires Valid() && running
      modifies this
      ensures Valid()
      ensures paused == old(paused) && OnlyPauseChanged()
    {
      PressPause(cssW, cssH);
      PressPause(cssW, cssH);
    }

    /** One animation frame, `elapsed` seconds after the previous one: nothing
        happens unless the game is running and not paused; otherwise the
        step is the elapsed time capped at 0.033 s. */
    method Frame(elapsed: real, cssW: real, cssH: real, draws: SpawnDraws)
      requires Valid()
      modifies this`t, this`score, this`fallSpeed, this`spawnEvery, this`spawnTimer, this`blocks,
               this`running, this`gameOver, this`best
      ensures Valid()
      ensures !old(running) || old(paused) ==> unchanged(this)
      ensures old(running) && !old(paused) ==>
        Stepped(FrameDt(elapsed), cssW, cssH, draws) && t <= old(t) + MaxStep
      ensures best >= old(best)
    {
      if !running || paused {
        return;
      }
      var dt := FrameDt(elapsed);
      Update(dt, cssW, cssH, draws);
    }
  }
}

/** A run on a 360 x 640 viewport, driven by the outside world: the frame
    driver, the buttons and the random source. */
module Scenarios {
  import opened Geometry
  import opened Simulation
  import opened Game

  /** Start a game and take one 0.85 s step: the spawn timer reaches the
      interval on this very step, so exactly one block appears; it is still
      high above the player, so the game goes on with 8.5 points. */
  method OpeningStep(draws: SpawnDraws) returns (g: Game)
    requires draws.InUnitRange()
    ensures g.Phase() == Playing
    ensures g.t == 0.85 && g.score == 8.5 && g.spawnTimer == 0.0
    ensures |g.blocks| == 1
  {
    g := new Game(0, 360.0, 640.0);
    g.Launch(360.0, 640.0);
    g.Update(0.85, 360.0, 640.0, draws);
    var b := MakeBlock(360.0, draws);
    SpawnedBlockShape(360.0, draws);
    var moved := Moved([b], FallSpeedAt(0.85), 0.85);
    assert moved[0] == MoveBlock(b, FallSpeedAt(0.85), 0.85);
    SurvivorsAllOnScreen(moved, 640.0);
    assert g.blocks == moved;
    assert !RectsHit(g.player.Box(), g.blocks[0].Box());
  }
}
