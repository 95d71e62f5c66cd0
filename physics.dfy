/** The player's body and what one frame does to it before any pickup or death:
    input acceleration and friction, the jump, gravity, and the axis-separated
    sweep against the tile grid, X first and then Y. Speeds are capped and the
    camera is clamped after the step. World units are tile pixels, numbers are
    exact reals. */
module Physics {
  import opened LevelGrid

  const GRAVITY: real := 0.45
  const JUMP_VELOCITY: real := -7.8
  const MOVE_SPEED: real := 2.1
  const FRICTION: real := 0.85

  /** The player's size never changes. */
  const PLAYER_W: real := 12.0
  const PLAYER_H: real := 16.0

  /** Distance between the points sampled along the leading edge. */
  const STEP: real := 8.0   // TILE / 2

  const MAX_VX: real := 6.0
  const MAX_VY: real := 12.0

  /** The viewport is 24 tiles wide; the camera keeps the player a third of the
      way in and never shows past either end of the level. */
  const VIEW_PX_W: real := 384.0     // 24 * TILE
  const CAMERA_LEAD: real := 128.0   // VIEW_PX_W / 3
  const CAMERA_MAX: real := 640.0    // WIDTH * TILE - VIEW_PX_W

  /** Position of the top-left corner, velocity, ground contact and facing (1 right, -1 left). */
  datatype Body = Body(x: real, y: real, vx: real, vy: real, onGround: bool, facing: int)

  function Sign(v: real): int {
    if v > 0.0 then 1 else if v < 0.0 then -1 else 0
  }

  function Min(a: real, b: real): real { if a <= b then a else b }
  function Max(a: real, b: real): real { if a >= b then a else b }

  /** The distance covered at speed `v` over a time step of `dt` frames. */
  function Travel(v: real, dt: real): real {
    v * dt
  }

  /** `v` lies on a tile boundary. */
  predicate OnGridLine(v: real) {
    (v / 16.0).Floor as real * 16.0 == v
  }

  /** Held directions: left pushes by -MOVE_SPEED and faces left, right pushes
      by +MOVE_SPEED and faces right (applied second, so it wins the facing);
      with neither held friction slows the body. */
  function Steer(b: Body, left: bool, right: bool): (r: Body)
    ensures r.x == b.x && r.y == b.y && r.vy == b.vy && r.onGround == b.onGround
    ensures left && right ==> r.vx == b.vx && r.facing == 1
    ensures left && !right ==> r.vx == b.vx - MOVE_SPEED && r.facing == -1
    ensures !left && right ==> r.vx == b.vx + MOVE_SPEED && r.facing == 1
    ensures !left && !right ==> r.vx == b.vx * FRICTION && r.facing == b.facing
  {
    var pushedLeft := if left then b.(vx := b.vx - MOVE_SPEED, facing := -1) else b;
    var pushed := if right then pushedLeft.(vx := pushedLeft.vx + MOVE_SPEED, facing := 1) else pushedLeft;
    if !left && !right then pushed.(vx := pushed.vx * FRICTION) else pushed
  }

  /** A held jump launches the body only while it stands on the ground (on every
      such frame, there is no edge detection); gravity is then added whatever happened. */
  function JumpAndGravity(b: Body, jumpPressed: bool): (r: Body)
    ensures r.x == b.x && r.y == b.y && r.vx == b.vx && r.facing == b.facing
    ensures jumpPressed && b.onGround ==> r.vy == JUMP_VELOCITY + GRAVITY && !r.onGround
    ensures !(jumpPressed && b.onGround) ==> r.vy == b.vy + GRAVITY && r.onGround == b.onGround
  {
    var launched := if jumpPressed && b.onGround then b.(vy := JUMP_VELOCITY, onGround := false) else b;
    launched.(vy := launched.vy + GRAVITY)
  }

  // ---------------------------------------------------------------------------
  // Sweeps along the leading edge

  /** Some point `ax, yy`, `ax, yy + STEP`, ... at or above `bottom` is on a solid tile. */
  function SolidOnColumn(g: Grid, ax: real, yy: real, bottom: real): bool
    requires WellShaped(g)
    decreases bottom + STEP - yy
  {
    if yy > bottom then false
    else TileAt(g, ax, yy) == SOLID || SolidOnColumn(g, ax, yy + STEP, bottom)
  }

  /** Some point `xx, ay`, `xx + STEP, ay`, ... at or left of `right` is on a solid tile. */
  function SolidOnRow(g: Grid, xx: real, right: real, ay: real): bool
    requires WellShaped(g)
    decreases right + STEP - xx
  {
    if xx > right then false
    else TileAt(g, xx, ay) == SOLID || SolidOnRow(g, xx + STEP, right, ay)
  }

  /** The horizontal sweep scans the player's height at exactly two points, one
      and nine units below its top. */
  lemma {:induction false} ColumnSamples(g: Grid, ax: real, y: real)
    requires WellShaped(g)
    ensures SolidOnColumn(g, ax, y + 1.0, y + PLAYER_H - 2.0) <==>
      TileAt(g, ax, y + 1.0) == SOLID || TileAt(g, ax, y + 9.0) == SOLID
  {
    assert !SolidOnColumn(g, ax, y + 1.0 + STEP + STEP, y + PLAYER_H - 2.0);
  }

  /** The vertical sweep scans the player's width at exactly two points, two
      units in from either side. */
  lemma {:induction false} RowSamples(g: Grid, x: real, ay: real)
    requires WellShaped(g)
    ensures SolidOnRow(g, x + 2.0, x + PLAYER_W - 2.0, ay) <==>
      TileAt(g, x + 2.0, ay) == SOLID || TileAt(g, x + 10.0, ay) == SOLID
  {
    assert !SolidOnRow(g, x + 2.0 + STEP + STEP, x + PLAYER_W - 2.0, ay);
  }

  /** Where a sweep that hit a solid tile at `ahead` leaves the body's near side
      (size `size` along the axis). Moving forward (right, down) the far edge lands
      on the tile boundary at or before `ahead`; moving backward (left, up) the
      near edge lands one unit inside the tile that was hit, not flush against it. */
  function StopAt(ahead: real, forward: bool, size: real): (p: real)
    ensures forward ==> OnGridLine(p + size) && p + size <= ahead && ahead < p + size + TILE
    ensures !forward ==> OnGridLine(p - 1.0) && CellOf(p) == CellOf(ahead)
  {
    (ahead / 16.0).Floor as real * 16.0 - (if forward then size else -1.0)
  }

  /** Moves the body by `dx`, the frame's horizontal displacement `vx * dt`,
      unless the leading edge would meet a solid tile. A rightward hit leaves
      the right edge on the tile boundary, a leftward hit leaves the left edge
      one unit inside the tile that was hit; either way the horizontal speed
      becomes zero. Without horizontal speed nothing is scanned. */
  function SweepX(g: Grid, b: Body, dx: real): (r: Body)
    requires WellShaped(g)
    ensures r.y == b.y && r.vy == b.vy && r.onGround == b.onGround && r.facing == b.facing
    ensures r.vx == b.vx ==> r.x == b.x + dx
    ensures r.vx != b.vx ==> r.vx == 0.0
  {
    var newX := b.x + dx;
    if b.vx == 0.0 then b.(x := newX)
    else
      var dir := Sign(b.vx);
      var ahead := newX + (if dir > 0 then PLAYER_W else 0.0);
      if SolidOnColumn(g, ahead, b.y + 1.0, b.y + PLAYER_H - 2.0) then
        b.(x := StopAt(ahead, dir > 0, PLAYER_W), vx := 0.0)
      else b.(x := newX)
  }

  /** Moves the body by `dy`, the frame's vertical displacement `vy * dt`, with
      the same rule as `SweepX`, sampling along the width at the already moved
      `x`. The body is on the ground afterwards exactly when this sweep stopped
      it while it was falling. */
  function SweepY(g: Grid, b: Body, dy: real): (r: Body)
    requires WellShaped(g)
    ensures r.x == b.x && r.vx == b.vx && r.facing == b.facing
    ensures r.vy == b.vy ==> r.y == b.y + dy
    ensures r.vy != b.vy ==> r.vy == 0.0
    ensures r.onGround ==> b.vy > 0.0 && r.vy == 0.0
  {
    var newY := b.y + dy;
    if b.vy == 0.0 then b.(y := newY, onGround := false)
    else
      var dir := Sign(b.vy);
      var ahead := newY + (if dir > 0 then PLAYER_H else 0.0);
      if SolidOnRow(g, b.x + 2.0, b.x + PLAYER_W - 2.0, ahead) then
        b.(y := StopAt(ahead, dir > 0, PLAYER_H), vy := 0.0, onGround := dir > 0)
      else b.(y := newY, onGround := false)
  }

  /** The horizontal sweep stops the body exactly when a sampled point of the
      leading edge at the target position is solid; a moving body that is not
      stopped keeps its speed. A rightward stop puts the right edge on the
      boundary at or before the target edge; a leftward stop puts the left edge
      one unit inside the tile the target edge is in. */
  lemma SweepXContact(g: Grid, b: Body, dx: real)
    requires WellShaped(g)
    ensures var r := SweepX(g, b, dx);
      && (b.vx == 0.0 ==> r.x == b.x + dx && r.vx == 0.0)
      && (b.vx != 0.0 ==>
            (r.vx == 0.0 <==> SolidOnColumn(g, b.x + dx + (if b.vx > 0.0 then PLAYER_W else 0.0),
                                            b.y + 1.0, b.y + PLAYER_H - 2.0)))
      && (b.vx > 0.0 && r.vx == 0.0 ==>
            OnGridLine(r.x + PLAYER_W) && r.x <= b.x + dx && b.x + dx < r.x + TILE)
      && (b.vx < 0.0 && r.vx == 0.0 ==>
            OnGridLine(r.x - 1.0) && CellOf(r.x) == CellOf(b.x + dx))
  {
  }

  /** The same rule for the vertical sweep; in addition the body ends on the
      ground exactly when a downward sweep stopped it. */
  lemma SweepYContact(g: Grid, b: Body, dy: real)
    requires WellShaped(g)
    ensures var r := SweepY(g, b, dy);
      && (b.vy == 0.0 ==> r.y == b.y + dy && r.vy == 0.0)
      && (b.vy != 0.0 ==>
            (r.vy == 0.0 <==> SolidOnRow(g, b.x + 2.0, b.x + PLAYER_W - 2.0,
                                         b.y + dy + (if b.vy > 0.0 then PLAYER_H else 0.0))))
      && (r.onGround <==> b.vy > 0.0 && r.vy == 0.0)
      && (b.vy > 0.0 && r.vy == 0.0 ==>
            OnGridLine(r.y + PLAYER_H) && r.y <= b.y + dy && b.y + dy < r.y + TILE)
      && (b.vy < 0.0 && r.vy == 0.0 ==>
            OnGridLine(r.y - 1.0) && CellOf(r.y) == CellOf(b.y + dy))
  {
  }

  /** A falling body standing on a solid tile (its bottom on the tile's top edge)
      that would move down by less than a tile stays where it is and reports
      ground contact. */
  lemma {:induction false} GroundContact(g: Grid, b: Body, dy: real)
    requires WellShaped(g)
    requires OnGridLine(b.y + PLAYER_H)
    requires b.vy > 0.0 && 0.0 < dy < TILE
    requires TileAt(g, b.x + 2.0, b.y + PLAYER_H) == SOLID
    ensures SweepY(g, b, dy).y == b.y
    ensures SweepY(g, b, dy).vy == 0.0 && SweepY(g, b, dy).onGround
  {
    var base := b.y + PLAYER_H;
    var ahead := b.y + dy + PLAYER_H;
    var k := CellOf(base);
    assert k as real * 16.0 == base;
    CellBetween(ahead, k);
    SameRowSameTile(g, b.x + 2.0, base, ahead);
    assert SolidOnRow(g, b.x + 2.0, b.x + PLAYER_W - 2.0, ahead);
    assert StopAt(ahead, true, PLAYER_H) == b.y;
  }

  lemma SameRowSameTile(g: Grid, px: real, p: real, q: real)
    requires WellShaped(g) && CellOf(p) == CellOf(q)
    ensures TileAt(g, px, p) == TileAt(g, px, q)
  {
  }

  lemma SameColumnSameTile(g: Grid, p: real, q: real, py: real)
    requires WellShaped(g) && CellOf(p) == CellOf(q)
    ensures TileAt(g, p, py) == TileAt(g, q, py)
  {
  }

  /** Scanning a column only depends on the tile column it lies in. */
  lemma {:induction false} ColumnScanSameCell(g: Grid, p: real, q: real, yy: real, bottom: real)
    requires WellShaped(g) && CellOf(p) == CellOf(q)
    ensures SolidOnColumn(g, p, yy, bottom) == SolidOnColumn(g, q, yy, bottom)
    decreases bottom + STEP - yy
  {
    if yy <= bottom {
      SameColumnSameTile(g, p, q, yy);
      ColumnScanSameCell(g, p, q, yy + STEP, bottom);
    }
  }

  /** Scanning a row only depends on the tile row it lies in. */
  lemma {:induction false} RowScanSameCell(g: Grid, xx: real, right: real, p: real, q: real)
    requires WellShaped(g) && CellOf(p) == CellOf(q)
    ensures SolidOnRow(g, xx, right, p) == SolidOnRow(g, xx, right, q)
    decreases right + STEP - xx
  {
    if xx <= right {
      SameRowSameTile(g, xx, p, q);
      RowScanSameCell(g, xx + STEP, right, p, q);
    }
  }

  /** A leftward stop does not push the body out of the wall: its own left edge
      still meets a solid tile at one of the sampled heights. */
  lemma LeftStopOverlaps(g: Grid, b: Body, dx: real)
    requires WellShaped(g) && b.vx < 0.0 && SweepX(g, b, dx).vx == 0.0
    ensures SolidOnColumn(g, SweepX(g, b, dx).x, b.y + 1.0, b.y + PLAYER_H - 2.0)
  {
    SweepXContact(g, b, dx);
    ColumnScanSameCell(g, SweepX(g, b, dx).x, b.x + dx, b.y + 1.0, b.y + PLAYER_H - 2.0);
  }

  /** An upward stop likewise leaves the body's top edge in the ceiling tile. */
  lemma UpStopOverlaps(g: Grid, b: Body, dy: real)
    requires WellShaped(g) && b.vy < 0.0 && SweepY(g, b, dy).vy == 0.0
    ensures SolidOnRow(g, b.x + 2.0, b.x + PLAYER_W - 2.0, SweepY(g, b, dy).y)
  {
    SweepYContact(g, b, dy);
    RowScanSameCell(g, b.x + 2.0, b.x + PLAYER_W - 2.0, SweepY(g, b, dy).y, b.y + dy);
  }

  /** At the left end of the level a leftward stop leaves the body outside it:
      the wall there is column -1, and the stop lands the left edge one unit
      inside that column, at x = -15. */
  lemma LeftEdgeStop(g: Grid, b: Body, dx: real)
    requires WellShaped(g) && b.vx < 0.0 && -16.0 <= b.x + dx < 0.0
    ensures SweepX(g, b, dx).x == -15.0 && SweepX(g, b, dx).vx == 0.0
  {
    var ahead := b.x + dx;
    assert TileAt(g, ahead, b.y + 1.0) == SOLID;
    assert SolidOnColumn(g, ahead, b.y + 1.0, b.y + PLAYER_H - 2.0);
    assert (ahead / 16.0).Floor == -1;
  }

  /** Without speed along an axis the sweep leaves that coordinate as it was. */
  lemma AtRestStays(g: Grid, b: Body, dt: real)
    requires WellShaped(g)
    ensures b.vx == 0.0 ==> SweepX(g, b, Travel(b.vx, dt)) == b
    ensures b.vy == 0.0 ==> SweepY(g, b, Travel(b.vy, dt)) == b.(onGround := false)
  {
  }

  /** A point between two tile boundaries lies in the tile they enclose. */
  lemma CellBetween(v: real, k: int)
    requires k as real * 16.0 <= v < k as real * 16.0 + TILE
    ensures CellOf(v) == k
  {
  }

  /** A falling body with no solid tile under either sampled point is not on the
      ground after the vertical sweep and moves the whole way. */
  lemma {:induction false} NoGroundInMidAir(g: Grid, b: Body, dy: real)
    requires WellShaped(g)
    requires b.vy > 0.0
    requires TileAt(g, b.x + 2.0, b.y + dy + PLAYER_H) != SOLID
    requires TileAt(g, b.x + 10.0, b.y + dy + PLAYER_H) != SOLID
    ensures !SweepY(g, b, dy).onGround && SweepY(g, b, dy).y == b.y + dy
  {
    RowSamples(g, b.x, b.y + dy + PLAYER_H);
  }

  lemma MulNonneg(a: real, b: real)
    requires 0.0 <= a && 0.0 <= b
    ensures 0.0 <= a * b
  {
  }

  /** Over a time step in (0, 2] the distance has the sign of the speed and is at
      most twice the speed. */
  lemma TravelBounds(v: real, dt: real)
    requires 0.0 < dt <= 2.0
    ensures v > 0.0 ==> 0.0 < Travel(v, dt) <= 2.0 * v
    ensures v < 0.0 ==> Travel(v, dt) < 0.0
    ensures v == 0.0 ==> Travel(v, dt) == 0.0
  {
    if v > 0.0 {
      MulNonneg(v, 2.0 - dt);
      assert v * (2.0 - dt) == 2.0 * v - v * dt;
      assert 0.0 < v * dt by { MulNonneg(v, dt); assert v * dt != 0.0; }
    } else if v < 0.0 {
      MulNonneg(-v, dt);
      assert (-v) * dt == -(v * dt);
      assert v * dt != 0.0;
    }
  }

  /** The bottom edge of the grid acts as a floor: a vertical sweep that starts at
      most 16 units below the bottom row's top (y <= 256) and moves the body by
      the displacement of its speed, less than 288 units down for its bottom edge,
      ends at y <= 256. Below the top of the bottom row (y > 240) it is never
      moving down afterwards. */
  lemma {:induction false} SweepYFloor(g: Grid, b: Body, dy: real)
    requires WellShaped(g)
    requires b.y <= 256.0
    requires b.vy > 0.0 ==> 0.0 < dy && b.y + dy + PLAYER_H < 288.0
    requires b.vy < 0.0 ==> dy < 0.0
    requires b.vy == 0.0 ==> dy == 0.0
    ensures SweepY(g, b, dy).y <= 256.0
    ensures SweepY(g, b, dy).y > 240.0 ==> SweepY(g, b, dy).vy <= 0.0
  {
    var r := SweepY(g, b, dy);
    var ahead := b.y + dy + (if b.vy > 0.0 then PLAYER_H else 0.0);
    SweepYContact(g, b, dy);
    if b.vy > 0.0 {
      if r.vy == 0.0 {
        var k := CellOf(r.y + PLAYER_H);
        assert k as real * 16.0 == r.y + PLAYER_H;
        assert k < 18;
      } else {
        RowSamples(g, b.x, ahead);
        assert ahead < 256.0;
      }
    } else if b.vy < 0.0 && r.vy == 0.0 {
      assert r.y == (ahead / 16.0).Floor as real * 16.0 + 1.0;
      assert (ahead / 16.0).Floor < 16;
    }
  }

  /** Caps the horizontal speed at 6 and the vertical speed at 12 in either direction. */
  function CapSpeeds(b: Body): (r: Body)
    ensures r.x == b.x && r.y == b.y && r.onGround == b.onGround && r.facing == b.facing
    ensures -MAX_VX <= r.vx <= MAX_VX && -MAX_VY <= r.vy <= MAX_VY
    ensures -MAX_VX <= b.vx <= MAX_VX ==> r.vx == b.vx
    ensures -MAX_VY <= b.vy <= MAX_VY ==> r.vy == b.vy
    ensures (b.vx < -MAX_VX ==> r.vx == -MAX_VX) && (b.vx > MAX_VX ==> r.vx == MAX_VX)
    ensures (b.vy < -MAX_VY ==> r.vy == -MAX_VY) && (b.vy > MAX_VY ==> r.vy == MAX_VY)
  {
    b.(vx := Max(Min(b.vx, MAX_VX), -MAX_VX), vy := Max(Min(b.vy, MAX_VY), -MAX_VY))
  }

  /** The horizontal camera offset for a player at `px`. */
  function Camera(px: real): (c: real)
    ensures 0.0 <= c <= CAMERA_MAX
    ensures 0.0 <= px - CAMERA_LEAD <= CAMERA_MAX ==> c == px - CAMERA_LEAD
    ensures px - CAMERA_LEAD < 0.0 ==> c == 0.0
    ensures px - CAMERA_LEAD > CAMERA_MAX ==> c == CAMERA_MAX
  {
    Max(0.0, Min(px - CAMERA_LEAD, CAMERA_MAX))
  }

  /** The camera never moves backwards when the player moves forwards. */
  lemma CameraMonotone(p: real, q: real)
    requires p <= q
    ensures Camera(p) <= Camera(q)
  {
  }

  // ---------------------------------------------------------------------------
  // The sweeps as evidently intended

  /** `SolidOnColumn` over the lookup whose bottom edge is open. */
  function SolidOnColumnOpenBelow(g: Grid, ax: real, yy: real, bottom: real): bool
    requires WellShaped(g)
    decreases bottom + STEP - yy
  {
    if yy > bottom then false
    else TileAtOpenBelow(g, ax, yy) == SOLID || SolidOnColumnOpenBelow(g, ax, yy + STEP, bottom)
  }

  /** `SolidOnRow` over the lookup whose bottom edge is open. */
  function SolidOnRowOpenBelow(g: Grid, xx: real, right: real, ay: real): bool
    requires WellShaped(g)
    decreases right + STEP - xx
  {
    if xx > right then false
    else TileAtOpenBelow(g, xx, ay) == SOLID || SolidOnRowOpenBelow(g, xx + STEP, right, ay)
  }

  /** A stop that leaves the body flush against the tile it hit: forward as
      `StopAt`, backward with the near edge on the far boundary of that tile. */
  function StopFlush(ahead: real, forward: bool, size: real): (p: real)
    ensures forward ==> p == StopAt(ahead, true, size)
    ensures !forward ==> OnGridLine(p) && CellOf(p) == CellOf(ahead) + 1
  {
    if forward then StopAt(ahead, true, size)
    else
      var k := CellOf(ahead) + 1;
      assert (k as real * 16.0 / 16.0).Floor == k;
      k as real * 16.0
  }

  /** `SweepX` with the bottom edge of the level open and flush stops. */
  function SweepXIntended(g: Grid, b: Body, dx: real): (r: Body)
    requires WellShaped(g)
    ensures r.y == b.y && r.vy == b.vy && r.onGround == b.onGround && r.facing == b.facing
    ensures r.vx == b.vx ==> r.x == b.x + dx
    ensures r.vx != b.vx ==> r.vx == 0.0
  {
    var newX := b.x + dx;
    if b.vx == 0.0 then b.(x := newX)
    else
      var dir := Sign(b.vx);
      var ahead := newX + (if dir > 0 then PLAYER_W else 0.0);
      if SolidOnColumnOpenBelow(g, ahead, b.y + 1.0, b.y + PLAYER_H - 2.0) then
        b.(x := StopFlush(ahead, dir > 0, PLAYER_W), vx := 0.0)
      else b.(x := newX)
  }

  /** `SweepY` with the bottom edge of the level open and flush stops. */
  function SweepYIntended(g: Grid, b: Body, dy: real): (r: Body)
    requires WellShaped(g)
    ensures r.x == b.x && r.vx == b.vx && r.facing == b.facing
    ensures r.vy == b.vy ==> r.y == b.y + dy
    ensures r.vy != b.vy ==> r.vy == 0.0
    ensures r.onGround ==> b.vy > 0.0 && r.vy == 0.0
  {
    var newY := b.y + dy;
    if b.vy == 0.0 then b.(y := newY, onGround := false)
    else
      var dir := Sign(b.vy);
      var ahead := newY + (if dir > 0 then PLAYER_H else 0.0);
      if SolidOnRowOpenBelow(g, b.x + 2.0, b.x + PLAYER_W - 2.0, ahead) then
        b.(y := StopFlush(ahead, dir > 0, PLAYER_H), vy := 0.0, onGround := dir > 0)
      else b.(y := newY, onGround := false)
  }

  /** With flush stops a leftward sweep that starts inside the level, moving
      at most a tile, ends inside it; a stop at the left end puts the body's
      left edge on the level's edge. */
  lemma LeftEdgeStopIntended(g: Grid, b: Body, dx: real)
    requires WellShaped(g) && 0.0 <= b.x && b.vx < 0.0 && -16.0 <= dx < 0.0
    ensures SweepXIntended(g, b, dx).x >= 0.0
    ensures b.x + dx < 0.0 ==>
      SweepXIntended(g, b, dx).x == 0.0 && SweepXIntended(g, b, dx).vx == 0.0
  {
    var ahead := b.x + dx;
    if ahead < 0.0 {
      assert TileAtOpenBelow(g, ahead, b.y + 1.0) == SOLID;
      assert SolidOnColumnOpenBelow(g, ahead, b.y + 1.0, b.y + PLAYER_H - 2.0);
      assert CellOf(ahead) == -1;
    } else if SolidOnColumnOpenBelow(g, ahead, b.y + 1.0, b.y + PLAYER_H - 2.0) {
      assert CellOf(ahead) >= 0;
    }
  }

  /** The pit at column 14 has no floor once the bottom edge is open: a body
      falling with both sampled columns in the pit and its bottom edge headed
      into the ground strip or below moves the whole way and is not on the
      ground. */
  lemma PitNoFloorIntended(b: Body, dy: real)
    requires 222.0 <= b.x < 230.0 && b.vy > 0.0 && 176.0 <= b.y + dy
    ensures SweepYIntended(Level1(), b, dy) == b.(y := b.y + dy, onGround := false)
  {
    var ahead := b.y + dy + PLAYER_H;
    var right := b.x + PLAYER_W - 2.0;
    PitOpenBelow(b.x + 2.0, ahead);
    PitOpenBelow(b.x + 10.0, ahead);
    assert !SolidOnRowOpenBelow(Level1(), b.x + 2.0 + STEP + STEP, right, ahead);
    assert !SolidOnRowOpenBelow(Level1(), b.x + 2.0 + STEP, right, ahead);
    assert !SolidOnRowOpenBelow(Level1(), b.x + 2.0, right, ahead);
    assert Sign(b.vy) == 1;
  }
}
