/** One frame of the game as a function of the state before it: input, physics
    and sweeps (module Physics), then the centre-point pickup, the fall-death
    check, the speed caps and the camera. The running game's `Update` is proved
    to compute exactly `Step`. */
module Simulation {
  import opened LevelGrid
  import opened Physics

  const SPAWN_X: real := 32.0   // 2 * TILE
  const SPAWN_Y: real := 0.0
  const START_LIVES: int := 3
  /** Points per coin; written as the literal 100 where it multiplies a count. */
  const COIN_VALUE: int := 100
  const GOAL_BONUS: int := 500
  /** A body whose top is this far down has fallen out of the level. */
  const FALL_LIMIT: real := 288.0   // (HEIGHT + 2) * TILE

  /** The three held controls of one frame. */
  datatype Input = Input(left: bool, right: bool, jump: bool)

  datatype Stats = Stats(score: int, coins: int, lives: int, won: bool)

  /** Everything one frame reads and writes. */
  datatype World = World(grid: Grid, body: Body, stats: Stats, cameraX: real)

  /** Several frames, each with its time step (in 60 Hz frames) and its input. */
  datatype Frame = Frame(dt: real, input: Input)

  const LEFT_KEYS: set<string> := {"ArrowLeft", "a", "A"}
  const RIGHT_KEYS: set<string> := {"ArrowRight", "d", "D"}
  const JUMP_KEYS: set<string> := {" ", "ArrowUp", "w", "W"}

  /** The controls held in a set of pressed key names: a control is held when
      any of its keys is; no other key matters. */
  function ReadInput(keys: set<string>): (inp: Input)
    ensures inp.left <==> keys * LEFT_KEYS != {}
    ensures inp.right <==> keys * RIGHT_KEYS != {}
    ensures inp.jump <==> keys * JUMP_KEYS != {}
  {
    var inp := Input("ArrowLeft" in keys || "a" in keys || "A" in keys,
                     "ArrowRight" in keys || "d" in keys || "D" in keys,
                     " " in keys || "ArrowUp" in keys || "w" in keys || "W" in keys);
    assert inp.left <==> keys * LEFT_KEYS != {} by {
      if "ArrowLeft" in keys { Shares(keys, LEFT_KEYS, "ArrowLeft"); }
      if "a" in keys { Shares(keys, LEFT_KEYS, "a"); }
      if "A" in keys { Shares(keys, LEFT_KEYS, "A"); }
      if keys * LEFT_KEYS != {} { var k :| k in keys * LEFT_KEYS; }
    }
    assert inp.right <==> keys * RIGHT_KEYS != {} by {
      if "ArrowRight" in keys { Shares(keys, RIGHT_KEYS, "ArrowRight"); }
      if "d" in keys { Shares(keys, RIGHT_KEYS, "d"); }
      if "D" in keys { Shares(keys, RIGHT_KEYS, "D"); }
      if keys * RIGHT_KEYS != {} { var k :| k in keys * RIGHT_KEYS; }
    }
    assert inp.jump <==> keys * JUMP_KEYS != {} by {
      if " " in keys { Shares(keys, JUMP_KEYS, " "); }
      if "ArrowUp" in keys { Shares(keys, JUMP_KEYS, "ArrowUp"); }
      if "w" in keys { Shares(keys, JUMP_KEYS, "w"); }
      if "W" in keys { Shares(keys, JUMP_KEYS, "W"); }
      if keys * JUMP_KEYS != {} { var k :| k in keys * JUMP_KEYS; }
    }
    inp
  }

  lemma Shares(keys: set<string>, names: set<string>, k: string)
    requires k in keys && k in names
    ensures keys * names != {}
  {
    assert k in keys * names;
  }

  /** The state a (re)initialisation creates. The grid is whatever the level
      holds at that moment: coins eaten earlier are not put back. */
  function InitWorld(g: Grid): World {
    World(g, Body(SPAWN_X, SPAWN_Y, 0.0, 0.0, false, 1), Stats(0, 0, START_LIVES, false), 0.0)
  }

  /** The body after input, jump, gravity and both sweeps. */
  function Moved(w: World, dt: real, inp: Input): Body
    requires WellShaped(w.grid)
  {
    var steered := Steer(w.body, inp.left, inp.right);
    var launched := JumpAndGravity(steered, inp.jump);
    var across := SweepX(w.grid, launched, Travel(launched.vx, dt));
    SweepY(w.grid, across, Travel(across.vy, dt))
  }

  function CentreX(b: Body): real { b.x + PLAYER_W / 2.0 }
  function CentreY(b: Body): real { b.y + PLAYER_H / 2.0 }

  /** The pickup rule, applied to the tile under the body's centre only: a coin
      there is removed and scores; a flag scores once, latching `won`. */
  function Pickup(g: Grid, b: Body, s: Stats): (r: (Grid, Stats))
    requires WellShaped(g)
    ensures WellShaped(r.0)
    ensures r.1.lives == s.lives
    ensures r.1.coins == s.coins || r.1.coins == s.coins + 1
    ensures r.1.score >= s.score && (s.won ==> r.1.won)
    ensures r.1.score - s.score ==
      (r.1.coins - s.coins) * 100 + (if r.1.won && !s.won then GOAL_BONUS else 0)
    ensures r.0 != g ==> r.1.coins == s.coins + 1
    ensures var t := TileAt(g, CentreX(b), CentreY(b));
      && (r.0 != g ==> t == COIN)
      && (r.1.won && !s.won ==> t == FLAG)
      && (t != COIN && !(t == FLAG && !s.won) ==> r == (g, s))
  {
    var cx := CentreX(b);
    var cy := CentreY(b);
    var t := TileAt(g, cx, cy);
    if t == COIN then
      (SetCell(g, CellOf(cx), CellOf(cy), EMPTY), s.(coins := s.coins + 1, score := s.score + COIN_VALUE))
    else if t == FLAG && !s.won then
      (g, s.(won := true, score := s.score + GOAL_BONUS))
    else (g, s)
  }

  /** A coin under the centre is emptied and pays COIN_VALUE. */
  lemma PickupCoin(g: Grid, b: Body, s: Stats)
    requires WellShaped(g) && TileAt(g, CentreX(b), CentreY(b)) == COIN
    ensures var (g', s') := Pickup(g, b, s);
      && 0 <= CellOf(CentreY(b)) < HEIGHT && 0 <= CellOf(CentreX(b)) < WIDTH
      && g'[CellOf(CentreY(b))][CellOf(CentreX(b))] == EMPTY
      && g' == SetCell(g, CellOf(CentreX(b)), CellOf(CentreY(b)), EMPTY)
      && s' == s.(coins := s.coins + 1, score := s.score + COIN_VALUE)
  {
  }

  /** The flag pays GOAL_BONUS the first time only. */
  lemma PickupGoal(g: Grid, b: Body, s: Stats)
    requires WellShaped(g) && TileAt(g, CentreX(b), CentreY(b)) == FLAG
    ensures !s.won ==> Pickup(g, b, s) == (g, s.(won := true, score := s.score + GOAL_BONUS))
    ensures s.won ==> Pickup(g, b, s) == (g, s)
  {
  }

  /** Coins move from the grid to the counter one at a time: their sum is kept. */
  lemma PickupConservesCoins(g: Grid, b: Body, s: Stats)
    requires WellShaped(g)
    ensures CoinCount(Pickup(g, b, s).0) + Pickup(g, b, s).1.coins == CoinCount(g) + s.coins
  {
    var cx, cy := CentreX(b), CentreY(b);
    if TileAt(g, cx, cy) == COIN {
      TakeCoin(g, CellOf(cx), CellOf(cy));
    }
  }

  function Respawn(b: Body): Body {
    b.(x := SPAWN_X, y := SPAWN_Y, vx := 0.0, vy := 0.0, onGround := false)
  }

  /** The end of a frame that did not re-initialise: speed caps, then the camera. */
  function Settle(g: Grid, b: Body, s: Stats): World {
    var capped := CapSpeeds(b);
    World(g, capped, s, Camera(capped.x))
  }

  /** The frame falls out of the level on the last life, so the game starts over. */
  predicate Resets(w: World, dt: real, inp: Input)
    requires WellShaped(w.grid)
  {
    Moved(w, dt, inp).y > FALL_LIMIT && w.stats.lives - 1 <= 0
  }

  /** The end of a frame after the pickup: falling out of the level costs a life
      and respawns the body, or re-initialises on the last life; otherwise the
      speed caps and the camera. */
  function Conclude(g: Grid, b: Body, s: Stats): (r: World)
    requires WellShaped(g)
    ensures WellShaped(r.grid)
    ensures -MAX_VX <= r.body.vx <= MAX_VX && -MAX_VY <= r.body.vy <= MAX_VY
    ensures 0.0 <= r.cameraX <= CAMERA_MAX && r.cameraX == Camera(r.body.x)
  {
    if b.y > FALL_LIMIT then
      if s.lives - 1 <= 0 then InitWorld(g)
      else Settle(g, Respawn(b), s.(lives := s.lives - 1))
    else Settle(g, b, s)
  }

  /** One frame. */
  function Step(w: World, dt: real, inp: Input): (r: World)
    requires WellShaped(w.grid)
    ensures WellShaped(r.grid)
  {
    var b := Moved(w, dt, inp);
    var (g, s) := Pickup(w.grid, b, w.stats);
    Conclude(g, b, s)
  }

  /** Falling out of the level costs a life. With lives left the body goes back to
      the spawn point at rest and nothing else changes; on the last life the whole
      state is re-initialised but the grid is left as it is. A body that low has
      its centre below the grid, so nothing is picked up in that frame. */
  lemma StepFallDeath(w: World, dt: real, inp: Input)
    requires WellShaped(w.grid) && Moved(w, dt, inp).y > FALL_LIMIT
    ensures w.stats.lives <= 1 ==> Step(w, dt, inp) == InitWorld(w.grid)
    ensures w.stats.lives > 1 ==>
      var r := Step(w, dt, inp);
      && r.grid == w.grid
      && r.stats == w.stats.(lives := w.stats.lives - 1)
      && r.body.x == SPAWN_X && r.body.y == SPAWN_Y
      && r.body.vx == 0.0 && r.body.vy == 0.0 && !r.body.onGround
  {
    var b := Moved(w, dt, inp);
    assert !InWorld(CentreX(b), CentreY(b));
  }

  /** A frame whose body stays in the level keeps the lives and ends with the
      moved body, speeds capped. */
  lemma StepNoFall(w: World, dt: real, inp: Input)
    requires WellShaped(w.grid) && Moved(w, dt, inp).y <= FALL_LIMIT
    ensures var r := Step(w, dt, inp);
      && r.stats.lives == w.stats.lives
      && r.body == CapSpeeds(Moved(w, dt, inp))
      && (r.grid, r.stats) == Pickup(w.grid, Moved(w, dt, inp), w.stats)
  {
  }

  /** Outside a re-initialisation, score and coins never decrease, a won level
      stays won, at most one life is lost, and every coin that leaves the grid is
      counted exactly once. */
  lemma StepStats(w: World, dt: real, inp: Input)
    requires WellShaped(w.grid)
    ensures Resets(w, dt, inp) ==> Step(w, dt, inp) == InitWorld(w.grid)
    ensures !Resets(w, dt, inp) ==>
      var r := Step(w, dt, inp);
      && r.stats.score >= w.stats.score && r.stats.coins >= w.stats.coins
      && (w.stats.won ==> r.stats.won)
      && (r.stats.lives == w.stats.lives || r.stats.lives == w.stats.lives - 1)
      && CoinCount(r.grid) + r.stats.coins == CoinCount(w.grid) + w.stats.coins
  {
    var b := Moved(w, dt, inp);
    PickupConservesCoins(w.grid, b, w.stats);
    if b.y > FALL_LIMIT {
      StepFallDeath(w, dt, inp);
    }
  }

  /** What every state the game reaches satisfies: lives between 1 and 3, the
      score is exactly what the coins and the flag paid, facing is a direction,
      speeds are within their caps and the camera follows the player. */
  predicate Consistent(w: World) {
    && WellShaped(w.grid)
    && 1 <= w.stats.lives <= START_LIVES
    && 0 <= w.stats.coins
    && w.stats.score == w.stats.coins * 100 + (if w.stats.won then GOAL_BONUS else 0)
    && (w.body.facing == 1 || w.body.facing == -1)
    && -MAX_VX <= w.body.vx <= MAX_VX && -MAX_VY <= w.body.vy <= MAX_VY
    && w.cameraX == Camera(w.body.x)
  }

  lemma InitConsistent(g: Grid)
    requires WellShaped(g)
    ensures Consistent(InitWorld(g))
  {
  }

  lemma StepPreservesConsistent(w: World, dt: real, inp: Input)
    requires Consistent(w)
    ensures Consistent(Step(w, dt, inp))
  {
    var b := Moved(w, dt, inp);
    if b.y > FALL_LIMIT {
      StepFallDeath(w, dt, inp);
    }
  }

  /** The state after several frames. */
  function Run(w: World, frames: seq<Frame>): (r: World)
    requires WellShaped(w.grid)
    ensures WellShaped(r.grid)
    decreases |frames|
  {
    if frames == [] then w else Run(Step(w, frames[0].dt, frames[0].input), frames[1..])
  }

  lemma {:induction false} RunConsistent(w: World, frames: seq<Frame>)
    requires Consistent(w)
    ensures Consistent(Run(w, frames))
    decreases |frames|
  {
    if frames != [] {
      StepPreservesConsistent(w, frames[0].dt, frames[0].input);
      RunConsistent(Step(w, frames[0].dt, frames[0].input), frames[1..]);
    }
  }

  /** With more lives than frames, counting lives alone rules out a
      re-initialisation (`RunKeepsLives` shows that no life is lost at all), so
      over the whole run score and coins only grow, `won` stays latched and coins are
      conserved between the grid and the counter. */
  lemma {:induction false} RunWithoutReset(w: World, frames: seq<Frame>)
    requires WellShaped(w.grid) && w.stats.lives > |frames|
    ensures var r := Run(w, frames);
      && r.stats.score >= w.stats.score && r.stats.coins >= w.stats.coins
      && (w.stats.won ==> r.stats.won)
      && r.stats.lives >= w.stats.lives - |frames|
      && CoinCount(r.grid) + r.stats.coins == CoinCount(w.grid) + w.stats.coins
    decreases |frames|
  {
    if frames != [] {
      var next := Step(w, frames[0].dt, frames[0].input);
      StepStats(w, frames[0].dt, frames[0].input);
      RunWithoutReset(next, frames[1..]);
    }
  }

  // ---------------------------------------------------------------------------
  // The floor under the grid

  /** The states the game actually reaches: consistent, the body no lower than
      one row below the bottom row's top (y <= 256), and not moving down while
      inside the bottom row. */
  predicate InLevel(w: World) {
    && Consistent(w)
    && w.body.y <= 256.0
    && (w.body.y > 240.0 ==> w.body.vy <= 0.0)
  }

  lemma InitInLevel(g: Grid)
    requires WellShaped(g)
    ensures InLevel(InitWorld(g))
  {
    InitConsistent(g);
  }

  /** Everything below the grid reads as solid, so a body that starts a frame in
      the level is stopped by that floor and ends no lower than y = 256, short of
      the fall limit of 288. */
  lemma {:induction false} MovedStaysAboveFloor(w: World, dt: real, inp: Input)
    requires InLevel(w) && 0.0 < dt <= 2.0
    ensures Moved(w, dt, inp).y <= 256.0
    ensures Moved(w, dt, inp).y > 240.0 ==> Moved(w, dt, inp).vy <= 0.0
  {
    var steered := Steer(w.body, inp.left, inp.right);
    var launched := JumpAndGravity(steered, inp.jump);
    var across := SweepX(w.grid, launched, Travel(launched.vx, dt));
    var dy := Travel(across.vy, dt);
    assert across.y == w.body.y && across.vy == launched.vy;
    assert launched.vy <= MAX_VY + GRAVITY;
    assert w.body.y > 240.0 ==> launched.vy <= GRAVITY;
    TravelBounds(across.vy, dt);
    SweepYFloor(w.grid, across, dy);
  }

  /** Fall death never happens: a frame that starts in the level stays in it and
      keeps every life. */
  lemma {:induction false} StepStaysInLevel(w: World, dt: real, inp: Input)
    requires InLevel(w) && 0.0 < dt <= 2.0
    ensures !Resets(w, dt, inp) && Moved(w, dt, inp).y <= FALL_LIMIT
    ensures InLevel(Step(w, dt, inp))
    ensures Step(w, dt, inp).stats.lives == w.stats.lives
  {
    MovedStaysAboveFloor(w, dt, inp);
    StepNoFall(w, dt, inp);
    StepPreservesConsistent(w, dt, inp);
  }

  /** Over any run of frames with time steps in (0, 2] from a state in the level,
      the game stays in the level and the number of lives never changes. */
  lemma {:induction false} RunKeepsLives(w: World, frames: seq<Frame>)
    requires InLevel(w)
    requires forall i :: 0 <= i < |frames| ==> 0.0 < frames[i].dt <= 2.0
    ensures InLevel(Run(w, frames)) && Run(w, frames).stats.lives == w.stats.lives
    decreases |frames|
  {
    if frames != [] {
      StepStaysInLevel(w, frames[0].dt, frames[0].input);
      RunKeepsLives(Step(w, frames[0].dt, frames[0].input), frames[1..]);
    }
  }

  // ---------------------------------------------------------------------------
  // Stranded left of the level

  /** Stuck left of the level, at rest horizontally: either one unit into the
      wall column next to it (x = -15) or further out. */
  predicate Stranded(b: Body) {
    b.vx == 0.0 && (b.x == -15.0 || b.x <= -28.0)
  }

  /** From a stranded body no input brings the body back within a frame of up
      to one nominal frame: every horizontal move is stopped by the wall that
      surrounds it, and each stop lands it stranded again. */
  lemma {:induction false} MovedStaysStranded(w: World, dt: real, inp: Input)
    requires WellShaped(w.grid) && Stranded(w.body) && 0.0 < dt <= 1.0
    ensures Stranded(Moved(w, dt, inp))
  {
    var steered := Steer(w.body, inp.left, inp.right);
    var launched := JumpAndGravity(steered, inp.jump);
    var dx := Travel(launched.vx, dt);
    var across := SweepX(w.grid, launched, dx);
    var ahead := launched.x + dx + (if launched.vx > 0.0 then PLAYER_W else 0.0);
    assert launched.x == w.body.x;
    SweepXContact(w.grid, launched, dx);
    if launched.vx != 0.0 {
      if launched.vx > 0.0 {
        assert launched.vx == MOVE_SPEED;
        assert dx == 2.1 * dt;
        assert ahead < 0.0;
      } else {
        assert launched.vx == -MOVE_SPEED;
        assert dx == -2.1 * dt;
        assert ahead < launched.x;
      }
      assert TileAt(w.grid, ahead, launched.y + 1.0) == SOLID;
      ColumnSamples(w.grid, ahead, launched.y);
      var k := (ahead / 16.0).Floor;
      assert k <= -1;
      if launched.vx > 0.0 {
        assert across.x == k as real * 16.0 - PLAYER_W;
      } else {
        assert across.x == k as real * 16.0 + 1.0;
        assert k == -1 || k <= -2;
      }
    }
  }

  lemma {:induction false} StepStaysStranded(w: World, dt: real, inp: Input)
    requires InLevel(w) && Stranded(w.body) && 0.0 < dt <= 1.0
    ensures InLevel(Step(w, dt, inp)) && Stranded(Step(w, dt, inp).body)
  {
    StepStaysInLevel(w, dt, inp);
    MovedStaysStranded(w, dt, inp);
  }

  /** Once stranded, the player stays left of the level for the rest of any run
      of frames no longer than one nominal frame each: the game cannot be won. */
  lemma {:induction false} RunStaysStranded(w: World, frames: seq<Frame>)
    requires InLevel(w) && Stranded(w.body)
    requires forall i :: 0 <= i < |frames| ==> 0.0 < frames[i].dt <= 1.0
    ensures InLevel(Run(w, frames)) && Stranded(Run(w, frames).body)
    ensures Run(w, frames).body.x < 0.0
    decreases |frames|
  {
    if frames != [] {
      StepStaysStranded(w, frames[0].dt, frames[0].input);
      RunStaysStranded(Step(w, frames[0].dt, frames[0].input), frames[1..]);
    }
  }

  /** Walking left off the first level: a player standing on the ground half a
      unit from the left end, holding left for one frame, is stranded. */
  lemma WalkOffLeftEdge()
    ensures var w := World(Level1(), Body(0.5, 176.0, 0.0, 0.0, true, -1), Stats(0, 0, START_LIVES, false), 0.0);
      && InLevel(w)
      && Step(w, 1.0, Input(true, false, false)).body.x == -15.0
      && Stranded(Step(w, 1.0, Input(true, false, false)).body)
  {
    var w := World(Level1(), Body(0.5, 176.0, 0.0, 0.0, true, -1), Stats(0, 0, START_LIVES, false), 0.0);
    var inp := Input(true, false, false);
    var launched := JumpAndGravity(Steer(w.body, true, false), false);
    assert launched.vx == -MOVE_SPEED;
    LeftEdgeStop(w.grid, launched, Travel(launched.vx, 1.0));
    StepStaysInLevel(w, 1.0, inp);
  }

  // ---------------------------------------------------------------------------
  // The frame as evidently intended

  /** `Moved` with the intended sweeps: open below the level, flush stops. */
  function MovedIntended(w: World, dt: real, inp: Input): Body
    requires WellShaped(w.grid)
  {
    var steered := Steer(w.body, inp.left, inp.right);
    var launched := JumpAndGravity(steered, inp.jump);
    var across := SweepXIntended(w.grid, launched, Travel(launched.vx, dt));
    SweepYIntended(w.grid, across, Travel(across.vy, dt))
  }

  /** `Step` with the intended sweeps; pickup, fall check, caps and camera are
      the source's. */
  function StepIntended(w: World, dt: real, inp: Input): (r: World)
    requires WellShaped(w.grid)
    ensures WellShaped(r.grid)
  {
    var b := MovedIntended(w, dt, inp);
    var (g, s) := Pickup(w.grid, b, w.stats);
    Conclude(g, b, s)
  }

  /** With the bottom edge open the pit is deadly: a player falling at full speed
      into the pit at column 14 drops out of the level in two frames and loses a
      life (the whole game on the last one). */
  lemma PitCostsLife(s: Stats, cameraX: real)
    ensures var w := World(Level1(), Body(226.0, 239.5, 0.0, 12.0, false, 1), s, cameraX);
      var none := Input(false, false, false);
      var next := StepIntended(w, 2.0, none);
      && next.body.y == 264.4 && next.stats == s && next.grid == Level1()
      && (s.lives >= 2 ==>
            StepIntended(next, 2.0, none).stats == s.(lives := s.lives - 1)
            && StepIntended(next, 2.0, none).body.x == SPAWN_X
            && StepIntended(next, 2.0, none).body.y == SPAWN_Y)
      && (s.lives <= 1 ==> StepIntended(next, 2.0, none) == InitWorld(Level1()))
  {
    var w := World(Level1(), Body(226.0, 239.5, 0.0, 12.0, false, 1), s, cameraX);
    var none := Input(false, false, false);
    var launched := JumpAndGravity(Steer(w.body, false, false), false);
    assert launched == Body(226.0, 239.5, 0.0, 12.45, false, 1);
    assert Travel(launched.vx, 2.0) == 0.0 && Travel(launched.vy, 2.0) == 24.9;
    PitNoFloorIntended(launched, 24.9);
    var b := MovedIntended(w, 2.0, none);
    assert b == Body(226.0, 264.4, 0.0, 12.45, false, 1);
    assert !InWorld(CentreX(b), CentreY(b));
    var next := StepIntended(w, 2.0, none);
    assert next.body == Body(226.0, 264.4, 0.0, 12.0, false, 1);
    var launched2 := JumpAndGravity(Steer(next.body, false, false), false);
    assert launched2 == Body(226.0, 264.4, 0.0, 12.45, false, 1);
    assert Travel(launched2.vx, 2.0) == 0.0 && Travel(launched2.vy, 2.0) == 24.9;
    PitNoFloorIntended(launched2, 24.9);
    var b2 := MovedIntended(next, 2.0, none);
    assert b2.y == 289.3;
    assert !InWorld(CentreX(b2), CentreY(b2));
  }
}
