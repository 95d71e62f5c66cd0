/** The running game as the canvas component keeps it: one mutable state object
    (player, score, coins, lives, won, camera) over the level's tile array, and
    the per-frame update that mutates both in place. Every operation is proved
    to compute the corresponding function of modules LevelGrid, Physics and
    Simulation on the abstract value `Abs()`. */
module GameCanvas {
  import opened LevelGrid
  import opened Physics
  import opened Simulation

  /** The time step never exceeds two frames, however long the pause. */
  const MAX_DT: real := 2.0

  /** The time step of the frame drawn at `ts` after one drawn at `last`, in
      nominal 60 Hz frames of 16.67 ms each, so 1.0 is one frame. */
  function FrameDelta(ts: real, last: real): (dt: real)
    ensures dt <= MAX_DT
    ensures last <= ts ==> 0.0 <= dt
    ensures last < ts ==> 0.0 < dt
    ensures ts - last <= 33.34 ==> dt * 16.67 == ts - last
    ensures ts - last >= 33.34 ==> dt == MAX_DT
  {
    Min((ts - last) / 16.67, MAX_DT)
  }

  class Game {
    /** The level's tiles. The same array survives every re-initialisation, so
        coins taken before a game over stay taken. */
    const data: array2<int>

    var x: real
    var y: real
    var vx: real
    var vy: real
    var onGround: bool
    var facing: int
    var score: int
    var coins: int
    var lives: int
    var won: bool
    var cameraX: real
    /** Time stamp of the previously drawn frame, in milliseconds. */
    var last: real

    predicate Valid() {
      data.Length0 == HEIGHT && data.Length1 == WIDTH
    }

    function Cells(): Grid
      reads data
    {
      GridOf(data)
    }

    function Player(): Body
      reads this
    {
      Body(x, y, vx, vy, onGround, facing)
    }

    function Tally(): Stats
      reads this
    {
      Stats(score, coins, lives, won)
    }

    /** The state as a value. */
    function Abs(): World
      reads this, data
    {
      World(Cells(), Player(), Tally(), cameraX)
    }

    constructor (level: array2<int>)
      requires level.Length0 == HEIGHT && level.Length1 == WIDTH
      ensures Valid() && data == level && last == 0.0
      ensures Abs() == InitWorld(GridOf(level)) && Consistent(Abs())
    {
      data := level;
      x, y, vx, vy := SPAWN_X, SPAWN_Y, 0.0, 0.0;
      onGround, facing := false, 1;
      score, coins, lives, won := 0, 0, START_LIVES, false;
      cameraX := 0.0;
      last := 0.0;
    }

    /** Starts the game over on the current contents of the level. */
    method InitState()
      requires Valid()
      modifies this
      ensures Abs() == InitWorld(Cells())
      ensures last == old(last)
    {
      x, y, vx, vy := SPAWN_X, SPAWN_Y, 0.0, 0.0;
      onGround, facing := false, 1;
      score, coins, lives, won := 0, 0, START_LIVES, false;
      cameraX := 0.0;
    }

    /** The tile under a world point, solid outside the level. */
    function TileAt(px: real, py: real): (t: int)
      requires Valid()
      reads data
      ensures t == LevelGrid.TileAt(Cells(), px, py)
    {
      var tx := CellOf(px);
      var ty := CellOf(py);
      if ty < 0 || ty >= HEIGHT || tx < 0 || tx >= WIDTH then SOLID else data[ty, tx]
    }

    /** Writes one tile; a write outside the level does nothing. */
    method SetTile(tx: int, ty: int, val: int)
      requires Valid()
      modifies data
      ensures Cells() == SetCell(old(Cells()), tx, ty, val)
    {
      ghost var before := Cells();
      if ty < 0 || ty >= HEIGHT || tx < 0 || tx >= WIDTH {
        return;
      }
      data[ty, tx] := val;
      SameCells(Cells(), SetCell(before, tx, ty, val));
    }

    /** Scans the points `ax, top`, `ax, top + STEP`, ... down to `bottom` for a
        solid tile, stopping at the first. */
    method ScanColumn(ax: real, top: real, bottom: real) returns (hit: bool)
      requires Valid()
      ensures hit == SolidOnColumn(Cells(), ax, top, bottom)
    {
      hit := false;
      var yy := top;
      while yy <= bottom
        invariant !hit
        invariant SolidOnColumn(Cells(), ax, top, bottom) == SolidOnColumn(Cells(), ax, yy, bottom)
        decreases bottom + STEP - yy
      {
        if TileAt(ax, yy) == SOLID {
          hit := true;
          break;
        }
        yy := yy + STEP;
      }
    }

    /** Scans the points `left, ay`, `left + STEP, ay`, ... across to `right` for
        a solid tile, stopping at the first. */
    method ScanRow(left: real, right: real, ay: real) returns (hit: bool)
      requires Valid()
      ensures hit == SolidOnRow(Cells(), left, right, ay)
    {
      hit := false;
      var xx := left;
      while xx <= right
        invariant !hit
        invariant SolidOnRow(Cells(), left, right, ay) == SolidOnRow(Cells(), xx, right, ay)
        decreases right + STEP - xx
      {
        if TileAt(xx, ay) == SOLID {
          hit := true;
          break;
        }
        xx := xx + STEP;
      }
    }

    /** Held directions, friction, the jump and gravity, in the source's order. */
    method ApplyControls(left: bool, right: bool, jumpPressed: bool)
      modifies this
      ensures Player() == JumpAndGravity(Steer(old(Player()), left, right), jumpPressed)
      ensures Tally() == old(Tally()) && cameraX == old(cameraX) && last == old(last)
    {
      if left {
        vx := vx - MOVE_SPEED;
        facing := -1;
      }
      if right {
        vx := vx + MOVE_SPEED;
        facing := 1;
      }
      if !left && !right {
        vx := vx * FRICTION;
      }
      if jumpPressed && onGround {
        vy := JUMP_VELOCITY;
        onGround := false;
      }
      vy := vy + GRAVITY;
    }

    /** Moves by `vx * dt`, scanning the leading edge for a solid tile. */
    method MoveX(dt: real)
      requires Valid()
      modifies this
      ensures Player() == SweepX(Cells(), old(Player()), Travel(old(vx), dt))
      ensures Tally() == old(Tally()) && cameraX == old(cameraX) && last == old(last)
    {
      ghost var b := Player();
      ghost var r := SweepX(Cells(), b, Travel(b.vx, dt));
      var dx := vx * dt;
      assert dx == Travel(b.vx, dt);
      var newX := x + dx;
      if vx != 0.0 {
        var dir := Sign(vx);
        var ahead := newX + (if dir > 0 then PLAYER_W else 0.0);
        var hit := ScanColumn(ahead, y + 1.0, y + PLAYER_H - 2.0);
        if hit {
          newX := StopAt(ahead, dir > 0, PLAYER_W);
          vx := 0.0;
        }
        assert hit == SolidOnColumn(Cells(), b.x + Travel(b.vx, dt) + (if Sign(b.vx) > 0 then PLAYER_W else 0.0),
                                    b.y + 1.0, b.y + PLAYER_H - 2.0);
        assert newX == r.x && vx == r.vx;
      }
      x := newX;
    }

    /** Moves by `vy * dt`, scanning the leading edge for a solid tile; only a
        downward hit leaves the player on the ground. */
    method MoveY(dt: real)
      requires Valid()
      modifies this
      ensures Player() == SweepY(Cells(), old(Player()), Travel(old(vy), dt))
      ensures Tally() == old(Tally()) && cameraX == old(cameraX) && last == old(last)
    {
      ghost var b := Player();
      ghost var r := SweepY(Cells(), b, Travel(b.vy, dt));
      var dy := vy * dt;
      assert dy == Travel(b.vy, dt);
      var newY := y + dy;
      var ground := false;
      if vy != 0.0 {
        var dir := Sign(vy);
        var ahead := newY + (if dir > 0 then PLAYER_H else 0.0);
        var hit := ScanRow(x + 2.0, x + PLAYER_W - 2.0, ahead);
        if hit {
          newY := StopAt(ahead, dir > 0, PLAYER_H);
          vy := 0.0;
          if dir > 0 {
            ground := true;
          }
        }
        assert hit == SolidOnRow(Cells(), b.x + 2.0, b.x + PLAYER_W - 2.0,
                                 b.y + Travel(b.vy, dt) + (if Sign(b.vy) > 0 then PLAYER_H else 0.0));
        assert newY == r.y && vy == r.vy && ground == r.onGround;
      }
      y, onGround := newY, ground;
    }

    /** Takes a coin or reaches the flag under the player's centre point. */
    method Collect()
      requires Valid()
      modifies this, data
      ensures (Cells(), Tally()) == Pickup(old(Cells()), old(Player()), old(Tally()))
      ensures Player() == old(Player()) && cameraX == old(cameraX) && last == old(last)
    {
      var centreX := x + PLAYER_W / 2.0;
      var centreY := y + PLAYER_H / 2.0;
      var tx := CellOf(centreX);
      var ty := CellOf(centreY);
      var t := TileAt(centreX, centreY);
      if t == COIN {
        SetTile(tx, ty, EMPTY);
        coins := coins + 1;
        score := score + COIN_VALUE;
      } else if t == FLAG && !won {
        won := true;
        score := score + GOAL_BONUS;
      }
    }

    /** One frame of `dt` with the keys in `keys` held: the state afterwards is
        exactly `Step` of the state before, and a consistent state stays so. */
    method Update(dt: real, keys: set<string>)
      requires Valid()
      modifies this, data
      ensures Abs() == Step(old(Abs()), dt, ReadInput(keys))
      ensures old(Consistent(Abs())) ==> Consistent(Abs())
      ensures last == old(last)
    {
      ghost var w := Abs();
      ghost var inp := ReadInput(keys);
      if Consistent(w) {
        StepPreservesConsistent(w, dt, inp);
      }

      var left := "ArrowLeft" in keys || "a" in keys || "A" in keys;
      var right := "ArrowRight" in keys || "d" in keys || "D" in keys;
      var jumpPressed := " " in keys || "ArrowUp" in keys || "w" in keys || "W" in keys;
      assert inp == Input(left, right, jumpPressed);

      ApplyControls(left, right, jumpPressed);
      ghost var launched := Player();
      MoveX(dt);
      ghost var across := Player();
      assert across == SweepX(w.grid, launched, Travel(launched.vx, dt));
      MoveY(dt);
      assert Player() == SweepY(w.grid, across, Travel(across.vy, dt));
      assert Player() == Moved(w, dt, inp);
      Collect();
      Conclude();
    }

    /** Falling out of the level, then the speed caps and the camera. On the
        last life the state is re-initialised and nothing else is done to it. */
    method Conclude()
      requires Valid()
      modifies this
      ensures Abs() == Simulation.Conclude(old(Cells()), old(Player()), old(Tally()))
      ensures last == old(last)
    {
      if y > FALL_LIMIT {
        lives := lives - 1;
        if lives <= 0 {
          InitState();
          return;
        }
        x, y, vx, vy, onGround := SPAWN_X, SPAWN_Y, 0.0, 0.0, false;
      }
      vx := Max(Min(vx, MAX_VX), -MAX_VX);
      vy := Max(Min(vy, MAX_VY), -MAX_VY);
      cameraX := Max(0.0, Min(x - VIEW_PX_W / 3.0, CAMERA_MAX));
    }

    /** One animation frame at time stamp `ts`: the time step since the previous
        frame, then the update. */
    method Tick(ts: real, keys: set<string>)
      requires Valid()
      modifies this, data
      ensures last == ts
      ensures Abs() == Step(old(Abs()), FrameDelta(ts, old(last)), ReadInput(keys))
      ensures old(Consistent(Abs())) ==> Consistent(Abs())
    {
      var dt := FrameDelta(ts, last);
      last := ts;
      Update(dt, keys);
    }
  }

  /** Mounting the component: the first level is built and play starts on it. */
  method Start() returns (game: Game)
    ensures fresh(game) && game.Valid() && game.last == 0.0
    ensures game.Abs() == InitWorld(Level1()) && Consistent(game.Abs())
  {
    var level := BuildLevel1();
    game := new Game(level);
  }
}
