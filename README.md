# Platformer simulation, modelled in Dafny

This project models the simulation core of a small browser platformer. The
core lives in the canvas component `src/components/GameCanvas.jsx`. The
component keeps one level, a 16 × 64 grid of tile codes: 0 empty, 1 solid,
2 coin, 3 flag. It also keeps a mutable state object: the player body
(position, velocity, ground contact, facing) and the run stats (score, coins,
lives, won, camera offset). Every animation frame runs `update(dt)` on that
state, in this order:

- held keys become left, right and jump;
- steering or friction;
- a jump, only while grounded;
- gravity;
- a sweep along x, then a sweep along y, each sampling the leading edge every
  half tile;
- a coin or flag pickup under the body's centre point;
- a fall-death check (a respawn, or a full re-initialisation on the last
  life), which never fires on the first level: see "## Findings";
- speed caps;
- the camera.

The model has four modules, one per file:

- `LevelGrid` (`level.dfy`): tile codes, the grid as a value, the
  bounds-checked read (`TileAt`) and write (`SetCell`), coin counting, the
  authored first level as a specification (`Level1`), and `BuildLevel1`, which
  fills a two-dimensional array the way the source does and is proved to
  produce exactly `Level1()`.
- `Physics` (`physics.dfy`): the body, steering and friction, jump and
  gravity, the two sweeps and their scans, the speed caps and the camera, as
  functions with lemmas about them.
- `Simulation` (`simulation.dfy`): the run stats, the whole world as a value,
  key reading, the pickup rule, the end of a frame (`Conclude`) and one frame
  as a function, `Step`. Also the invariants every reachable state keeps, and
  runs of many frames.
- `GameCanvas` (`game_canvas.dfy`): the component itself, as class `Game`.
  It holds the tile array and the state fields and has the source's
  operations as methods and functions that mutate them: `InitState`,
  `TileAt`, `SetTile`, `Update`, and the scan loops with their early `break`.
  `Update(dt, keys)` is proved to leave the object in exactly
  `Step(old state, dt, ReadInput(keys))`. `Tick` models the animation loop's
  time-step formula followed by `update`.

Numbers are exact reals. The source's constants appear unchanged: gravity
0.45, jump velocity −7.8, move speed 2.1, friction 0.85, tile 16, body 12 × 16,
speed caps 6 and 12, view width 24 tiles, frame length 16.67 ms, time step cap
2. JavaScript's `Math.floor` becomes `.Floor` and `Math.sign` becomes `Sign`.

Some behaviour of the code is easy to misread; the model follows the code:

- **Left and upward stops.** A leftward or upward stop places the body one
  unit inside the tile it hit, not flush against it (lines 167 and 187).
  `LeftStopOverlaps` and `UpStopOverlaps` prove that the stopped body still
  meets that solid tile. At the left end of the level this strands the player
  outside it: see "## Findings".
- **Re-initialisation.** `initState` (lines 93–116) keeps the level array as
  it is (lines 95–98), so coins taken earlier would not be put back. It is
  called on mount (line 91) and on the last-life branch of the fall check
  (line 218). `Game.InitState` models it, and `StepFallDeath` states what that
  branch would do; `Simulation.RunKeepsLives` shows that the branch is never
  reached on the first level.
- **No elapsed time.** The source keeps no elapsed time. The host page's
  `time` field starts at 0 (`src/App.jsx:8`) and nothing ever updates it.
- **Reset handle.** The `reset` handle (line 61) calls `initState`, but
  `initState` is declared at line 93, inside the `useEffect` callback that
  opens at line 64. It is not in scope at line 61, so calling the handle
  would throw a `ReferenceError`. The host page passes no ref
  (`src/App.jsx:29`), so nothing calls it. `Controls` lists an R key for
  resetting the level (`src/components/Controls.jsx:8`), but no key handler
  resets the game.
- **Jump.** A held jump fires on every grounded frame; there is no edge
  detection.
- **Line 42.** Line 42 writes `arr[14]?.[14] = 0`, which is not a valid
  assignment target in JavaScript. It is modelled as the plain writes it
  evidently means: column 14, rows 12 to 15, become empty.

## Model

| member | source | states |
|---|---|---|
| LevelGrid.TileAt | src/components/GameCanvas.jsx:118-124 | any point whose tile row or column falls outside the grid reads as solid; any other point reads the stored cell `g[floor(py/16)][floor(px/16)]` |
| LevelGrid.SetCell | src/components/GameCanvas.jsx:126-130 | an out-of-bounds write leaves the grid unchanged; an in-bounds write sets that one cell and leaves every other cell as it was |
| LevelGrid.TakeCoin | src/components/GameCanvas.jsx:202-203 | emptying a coin cell lowers the number of coins in the grid by exactly one |
| LevelGrid.Level1 | src/components/GameCanvas.jsx:21-49 | the first level has 16 rows of 64 cells; each cell is the authored code: the flag wins over the pits, the pits over the coins, and the coins over the ground and platforms |
| LevelGrid.Level1Ground | src/components/GameCanvas.jsx:24-27 | rows 12 to 15 are solid, except the pits (column 14 rows 12–15, columns 15–16 rows 12–13), which are empty |
| LevelGrid.Level1Items | src/components/GameCanvas.jsx:34-46 | coins lie at exactly the five authored cells, the flag at exactly column 60 rows 6–11, and every code is between 0 and 3 |
| LevelGrid.FillRun | src/components/GameCanvas.jsx:29-32 | a platform loop sets one row's columns `from` to `to − 1` and nothing else |
| LevelGrid.LayGround | src/components/GameCanvas.jsx:24-27 | the nested ground loops make rows 12 and below solid in every column |
| LevelGrid.PlaceCoins | src/components/GameCanvas.jsx:34-39 | exactly the five coin cells become coins |
| LevelGrid.DigGaps | src/components/GameCanvas.jsx:41-43 | exactly the eight pit cells become empty |
| LevelGrid.PlantFlag | src/components/GameCanvas.jsx:45-46 | exactly column 60, rows 6–11, becomes flag |
| LevelGrid.BuildLevel1 | src/components/GameCanvas.jsx:21-49 | a fresh 16 × 64 array whose contents are exactly `Level1()` |
| LevelGrid.PitHasFloor | src/components/GameCanvas.jsx:122 | the pit at column 14 is empty down to the last row, but the point just below the grid under it reads as solid |
| LevelGrid.TileAtOpenBelow | src/components/GameCanvas.jsx:122 | a lookup that agrees with `TileAt` everywhere except below the grid inside the level's width, where it reads empty |
| LevelGrid.PitOpenBelow | src/components/GameCanvas.jsx:41-43 | with that lookup the pit at column 14 reads empty at every depth from row 12 down |
| Physics.Steer | src/components/GameCanvas.jsx:141-145 | left alone: −2.1 and facing −1; right alone: +2.1 and facing 1; both: speed unchanged, facing 1; neither: speed times 0.85, facing kept; nothing else changes |
| Physics.JumpAndGravity | src/components/GameCanvas.jsx:147-154 | a held jump on the ground gives vy = −7.8 + 0.45 and clears ground contact; otherwise vy just gains 0.45 and ground contact is kept |
| Physics.ColumnSamples | src/components/GameCanvas.jsx:161-165 | the horizontal scan over a 16-high body samples exactly the heights y+1 and y+9 |
| Physics.RowSamples | src/components/GameCanvas.jsx:181-185 | the vertical scan over a 12-wide body samples exactly x+2 and x+10 |
| Physics.StopAt | src/components/GameCanvas.jsx:167 | a forward stop puts the far edge on the tile boundary at or before the hit point, less than a tile back; a backward stop puts the near edge one unit past a boundary, in the tile that was hit |
| Physics.SweepX | src/components/GameCanvas.jsx:156-173 | the horizontal sweep changes only x and vx; either the body keeps its speed and moves the full displacement, or vx becomes 0 |
| Physics.SweepXContact | src/components/GameCanvas.jsx:158-172 | with vx = 0 the body moves the plain displacement; otherwise it stops exactly when a sampled point of the leading edge is solid. A rightward stop puts the right edge on a tile boundary; a leftward stop puts the left edge in the tile that was hit |
| Physics.SweepY | src/components/GameCanvas.jsx:175-194 | the vertical sweep changes only y, vy and ground contact; either the body keeps its speed and moves the full displacement, or vy becomes 0; ground contact only after a downward stop |
| Physics.SweepYContact | src/components/GameCanvas.jsx:177-193 | stops exactly when a sampled point of the leading edge is solid; afterwards the body is on the ground exactly when it was moving down and stopped; the landing position is on or inside the boundary as for x |
| Physics.GroundContact | src/components/GameCanvas.jsx:176-194 | a body resting on a solid tile and falling less than a tile stays put, with vy = 0 and ground contact |
| Physics.NoGroundInMidAir | src/components/GameCanvas.jsx:176-194 | a falling body with empty tiles under both sampled points moves the full displacement and is not on the ground |
| Physics.ColumnScanSameCell | src/components/GameCanvas.jsx:164-165 | a column scan depends only on the tile column the scanned x lies in |
| Physics.RowScanSameCell | src/components/GameCanvas.jsx:184-185 | a row scan depends only on the tile row the scanned y lies in |
| Physics.LeftStopOverlaps | src/components/GameCanvas.jsx:164-168 | after a leftward stop the body's own left edge still meets a solid tile at a sampled height |
| Physics.UpStopOverlaps | src/components/GameCanvas.jsx:184-188 | after an upward stop the body's own top edge still meets a solid tile at a sampled column |
| Physics.LeftEdgeStop | src/components/GameCanvas.jsx:164-168 | on any grid, a leftward sweep whose target left edge lies in [−16, 0) stops with x = −15, outside the level, and vx = 0 |
| Physics.AtRestStays | src/components/GameCanvas.jsx:157-158 | a sweep along an axis without speed leaves the body's position on that axis unchanged |
| Physics.TravelBounds | src/components/GameCanvas.jsx:176 | over a time step in (0, 2] the displacement v·dt has the sign of v and, for v > 0, is at most 2v |
| Physics.SweepYFloor | src/components/GameCanvas.jsx:175-194 | y grows downward. A body with y ≤ 256 whose downward step cannot carry its bottom edge to y = 288 ends with y ≤ 256, and with y > 240 only when it is not moving down |
| Physics.StopFlush | src/components/GameCanvas.jsx:167 | the corrected stop: forward as `StopAt`; backward the near edge lands on the far boundary of the hit tile, in the next tile over |
| Physics.SweepXIntended | src/components/GameCanvas.jsx:156-173 | the corrected horizontal sweep changes only x and vx; either the body keeps its speed and moves the full displacement, or vx becomes 0 |
| Physics.SweepYIntended | src/components/GameCanvas.jsx:175-194 | the corrected vertical sweep changes only y, vy and ground contact; either full displacement or vy = 0; ground contact only after a downward stop |
| Physics.LeftEdgeStopIntended | src/components/GameCanvas.jsx:164-168 | with flush stops, a leftward sweep from x ≥ 0 moving at most a tile ends with x ≥ 0, and a stop at the level's left end puts x exactly at 0 |
| Physics.PitNoFloorIntended | src/components/GameCanvas.jsx:175-194 | with the bottom edge open, a body falling with both sampled columns in the pit at column 14 moves the whole way and is not on the ground |
| Physics.CapSpeeds | src/components/GameCanvas.jsx:226-228 | afterwards −6 ≤ vx ≤ 6 and −12 ≤ vy ≤ 12; a speed within its cap is kept; a speed beyond its cap becomes the cap |
| Physics.Camera | src/components/GameCanvas.jsx:230-232 | the camera offset is x − 128 clamped to [0, 640], the width of the level minus the width of the view |
| Physics.CameraMonotone | src/components/GameCanvas.jsx:230-232 | the camera offset never decreases as the player moves right |
| Simulation.ReadInput | src/components/GameCanvas.jsx:136-139 | each control is held exactly when the key set contains one of its key names |
| Simulation.Pickup | src/components/GameCanvas.jsx:196-211 | lives are untouched; coins rise by at most one; score never falls; won stays latched; the score rises by exactly 100 per coin plus 500 on the frame `won` first becomes true; the grid changes only when a coin is under the centre and `won` latches only when the flag is; any other centre tile, or a flag already won, leaves grid and stats unchanged |
| Simulation.PickupCoin | src/components/GameCanvas.jsx:202-206 | a coin under the centre point becomes empty, coins rise by 1 and score by 100 |
| Simulation.PickupGoal | src/components/GameCanvas.jsx:207-211 | the flag under the centre point latches won and pays 500 the first time; after that it does nothing |
| Simulation.PickupConservesCoins | src/components/GameCanvas.jsx:199-205 | coins left in the grid plus coins counted stays constant across a pickup |
| Simulation.Conclude | src/components/GameCanvas.jsx:213-232 | the end of the frame, through the helpers `Respawn` (line 221) and `Settle` (lines 226–232), leaves both speeds within their caps and the camera at `Camera(x)` within [0, 640] |
| Simulation.Step | src/components/GameCanvas.jsx:132-233 | one frame, composed of the helper `Moved` (input, jump, gravity and both sweeps, lines 141–194), `Pickup` and `Conclude`, leaves a well-shaped grid |
| Simulation.StepFallDeath | src/components/GameCanvas.jsx:213-224 | a body below y = 288 costs a life. On the last life the state becomes the initial one over the current grid. Otherwise the body is back at (32, 0) at rest and off the ground, and grid, score, coins and won are unchanged |
| Simulation.StepNoFall | src/components/GameCanvas.jsx:196-228 | a frame that does not fall keeps the lives and ends with the moved body, speeds capped, and the pickup's grid and stats |
| Simulation.StepStats | src/components/GameCanvas.jsx:196-224 | a frame that re-initialises gives the initial state; any other frame never lowers score or coins, keeps won latched, loses at most one life and conserves grid coins plus counted coins |
| Simulation.InitConsistent | src/components/GameCanvas.jsx:93-116 | the initial state `InitWorld` (lines 96–114) satisfies the game invariant: between 1 and 3 lives, the score exactly what coins and flag paid, facing ±1, speeds within their caps, the camera following the player |
| Simulation.StepPreservesConsistent | src/components/GameCanvas.jsx:132-233 | every frame preserves that invariant |
| Simulation.Run | src/components/GameCanvas.jsx:345-351 | running any sequence of frames keeps the grid well-shaped |
| Simulation.RunConsistent | src/components/GameCanvas.jsx:345-351 | every state reached by running frames satisfies the invariant |
| Simulation.RunWithoutReset | src/components/GameCanvas.jsx:345-351 | with more lives than frames, a run never lowers score or coins, keeps won latched, loses at most one life per frame and conserves coins between grid and counter |
| Simulation.InitInLevel | src/components/GameCanvas.jsx:93-116 | the initial state satisfies the invariant and lies inside the level: y ≤ 256, and y > 240 only when not moving down |
| Simulation.MovedStaysAboveFloor | src/components/GameCanvas.jsx:141-194 | from a state inside the level and a time step in (0, 2], the moved body has y ≤ 256, and y > 240 only when it is not moving down |
| Simulation.StepStaysInLevel | src/components/GameCanvas.jsx:132-233 | from a state inside the level, a frame with 0 < dt ≤ 2 never takes the fall branch, keeps the lives and stays inside the level |
| Simulation.RunKeepsLives | src/components/GameCanvas.jsx:213-224 | from a state inside the level, a run of frames with time steps in (0, 2] never loses a life and stays inside the level |
| Simulation.MovedStaysStranded | src/components/GameCanvas.jsx:141-173 | a body stranded left of the level (vx = 0 and x = −15 or x ≤ −28) is stranded again after any input and a time step in (0, 1] |
| Simulation.StepStaysStranded | src/components/GameCanvas.jsx:132-233 | from a state inside the level with a stranded body, a frame with a time step in (0, 1] keeps both |
| Simulation.RunStaysStranded | src/components/GameCanvas.jsx:132-233 | once stranded, the player's x stays negative for the rest of any run of frames with time steps in (0, 1] |
| Simulation.WalkOffLeftEdge | src/components/GameCanvas.jsx:164-168 | on the first level, a consistent state standing on the ground at x = 0.5 and holding left for one frame ends stranded at x = −15 |
| Simulation.StepIntended | src/components/GameCanvas.jsx:132-233 | the corrected frame: `MovedIntended` with the corrected sweeps, then the source's pickup and end of frame; it leaves a well-shaped grid |
| Simulation.PitCostsLife | src/components/GameCanvas.jsx:213-224 | with the corrected frame, a player in the pit at column 14 (x = 226, y = 239.5, vy = 12) falls to y = 264.4, then past 288 in the next frame and loses a life; on the last life the game restarts |
| GameCanvas.FrameDelta | src/components/GameCanvas.jsx:348 | the time step is at most 2; it is non-negative when time does not go backwards and positive when time moves forwards; below 33.34 ms it is the elapsed time divided by 16.67 |
| GameCanvas.Game.constructor | src/components/GameCanvas.jsx:93-116 | the game starts on the given level array in the initial state (spawn (32, 0) at rest, facing right, score 0, coins 0, 3 lives, camera 0), which satisfies the invariant |
| GameCanvas.Game.InitState | src/components/GameCanvas.jsx:93-116 | the state becomes the initial one over the level's current tiles; the level array is not rebuilt |
| GameCanvas.Game.TileAt | src/components/GameCanvas.jsx:118-124 | reading the array gives `LevelGrid.TileAt` of its contents |
| GameCanvas.Game.SetTile | src/components/GameCanvas.jsx:126-130 | the array's contents become `SetCell` of the old contents |
| GameCanvas.Game.ScanColumn | src/components/GameCanvas.jsx:164-171 | the loop with early exit reports a hit exactly when `SolidOnColumn` holds |
| GameCanvas.Game.ScanRow | src/components/GameCanvas.jsx:184-192 | the loop with early exit reports a hit exactly when `SolidOnRow` holds |
| GameCanvas.Game.ApplyControls | src/components/GameCanvas.jsx:141-154 | the body becomes `JumpAndGravity(Steer(body))`; the stats are untouched |
| GameCanvas.Game.MoveX | src/components/GameCanvas.jsx:156-173 | the body becomes `SweepX` of the old body by vx·dt; the stats are untouched |
| GameCanvas.Game.MoveY | src/components/GameCanvas.jsx:175-194 | the body becomes `SweepY` of the old body by vy·dt; the stats are untouched |
| GameCanvas.Game.Collect | src/components/GameCanvas.jsx:196-211 | grid and stats become `Pickup` of the old ones; the body is untouched |
| GameCanvas.Game.Conclude | src/components/GameCanvas.jsx:213-232 | the state becomes `Simulation.Conclude` of the old grid, body and stats |
| GameCanvas.Game.Update | src/components/GameCanvas.jsx:132-233 | the new state is exactly `Step` of the old state with the controls read from the held keys, and a state satisfying the invariant keeps it |
| GameCanvas.Game.Tick | src/components/GameCanvas.jsx:344-350 | the stored time stamp becomes `ts`, and the state becomes `Step` with time step `FrameDelta(ts, previous time stamp)` |
| GameCanvas.Start | src/components/GameCanvas.jsx:13-19 | mounting builds the first level and starts in the initial state over exactly `Level1()` |

## Findings

| source | as written | input that shows it | evidently intended | confidence | as-written member | corrected member |
|---|---|---|---|---|---|---|
| src/components/GameCanvas.jsx:122 | `tileAt` treats every point outside the grid as solid, below the grid included, so the pits have a floor at y = 256 and the fall check of line 214, `p.y > 288`, never fires | a body in the pit at column 14 (x = 226, y = 239.5, vy at its cap of 12, so 12.45 after gravity) moving with dt = 2 is stopped at y = 256 | the pits are meant to be gaps the player can fall through and lose a life, which needs the row below the grid to read as empty | not executed | Simulation.RunKeepsLives, LevelGrid.PitHasFloor | LevelGrid.TileAtOpenBelow, Simulation.StepIntended, Simulation.PitCostsLife |
| src/components/GameCanvas.jsx:167 | a leftward stop puts the left edge at `floor(ahead/16)·16 + 1`, one unit inside the tile that was hit; at the left end of the level that tile is the wall column −1, so the body lands at x = −15, outside the level. From there every move is stopped by the wall and lands the body at x = −15 or further left, so with time steps of at most one frame the player never comes back | a player on the ground at x = 0.5 holding left with dt = 1 lands at x = −15; from there, holding right with dt = 1 gives x = −28 | a stop flush against the hit tile, `(floor(ahead/16) + 1)·16`, which leaves the body at x = 0 at the left end | not executed | Physics.LeftEdgeStop, Simulation.WalkOffLeftEdge, Simulation.RunStaysStranded | Physics.StopFlush, Physics.SweepXIntended, Physics.LeftEdgeStopIntended |

`RunKeepsLives` covers runs whose time steps lie in (0, 2]. The animation
loop's increasing time stamps give such steps: `FrameDelta` is positive when
time moves forwards. `RunStaysStranded` covers time steps up to one nominal
frame. With a step of 2, pressing right from x = −15 can reach column 0 again.

Both corrections live in one corrected frame, `Simulation.StepIntended`. Its
sweeps, `SweepXIntended` and `SweepYIntended`, use the lookup with the open
bottom edge, `TileAtOpenBelow`, and the flush stop, `StopFlush`. The pickup
and the end of the frame are the source's. The class `Game` and `Step` keep
the code as written, because `Game.Update` is proved equal to it.

## Left out

- Drawing (`draw`, `drawMario`, lines 235–342): canvas painting only; it reads the state and changes nothing that is modelled.
- `resize` and the device-pixel-ratio handling: browser layout, with no effect on the simulation.
- The keydown and keyup listeners: browser input. The held keys are the `keys` parameter of `Update` and `Tick`, a set of key names.
- `requestAnimationFrame` scheduling and its cancellation: the time stamp is the `ts` parameter of `Tick`, and a run of frames is `Simulation.Run`.
- The `if (!s) return` guard in `loop`: the state object always exists once the component is mounted. `Start` and the constructor produce it, so the guard is never taken in the model.
- `sendHUD` and the `onGameUpdate` callback: a notification to the host page, which returns nothing to the simulation.
- The React hooks (`useRef`, `useEffect`, `useImperativeHandle`): framework plumbing. The `reset` handle of line 61 cannot reach `initState` (see above) and is not modelled.
- `rectsIntersect` (lines 51–53): it is never called.
- The `levelIndex` and `level` fields of the state: there is a single level, so they never change. `width` and `height` are the constants `WIDTH` and `HEIGHT`.
- The body's `w` and `h` fields: they never change, so they are the constants `PLAYER_W` and `PLAYER_H`.
- IEEE double rounding: all arithmetic is on exact reals. Equalities the source only reaches up to rounding, such as `vx + 2.1 − 2.1`, hold exactly here.
- The speed caps and camera assignment after a re-initialisation act on a state object the source has already discarded. The model therefore ends the frame right after `InitState`.
- `Game.InitState`: it does not restate the invariant. `Simulation.InitConsistent` proves it for the state `InitState` produces, and `Game.Update` carries it through every frame.
- `src/App.jsx`, `src/components/HUD.jsx`, `src/components/Controls.jsx`, `src/components/Hero.jsx`: presentation only.
