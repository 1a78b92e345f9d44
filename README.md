# MetroidLike core, modelled in Dafny

This is a model of the game logic of a small wall-jump platformer, written in
Java on top of a 2D game engine. Three parts are modelled:

- **The game screen** (`GameScreen.java`):
  - the per-frame update. Input chooses between starting and releasing a jump
    charge, the player takes its own step, then comes a scan over the left walls
    and a scan over the right walls. Each scan snaps the player to the first wall
    it overlaps and stops there. Finally the camera follows the player vertically,
    with a floor.
  - the constructor's procedural wall layout: 50 segments climbing by random
    gaps, each emitting an optional left wall and an optional right wall.
- **Wall platforms** (`Platform.java`): position and bounds come from the
  arguments and the texture size. The sprite gets a one-off random scale and a
  rotation offset, which the bounds ignore.
- **The tile map** (`TileMap.java`):
  - the constructor cuts the tileset texture into 64-pixel regions and lists
    them row by row;
  - loading takes a level's size and its grid of tile ids;
  - the renderer issues one draw per non-empty cell, in row-major order, shifted
    left by the horizontal scroll.

Modules:

- `Engine` (`engine.dfy`): the engine values the core uses. These are points,
  rectangles with the engine's strict overlap test, textures given by their size,
  and linear interpolation.
- `Platforms` (`platform.dfy`): the `Platform` class. Its fields are constants,
  because nothing in the modelled core assigns them after construction.
  `GroundPlatform`'s dispose, which is left out, sets two of them to null.
- `ScreenSpec` (`screen_spec.dfy`): the screen constants, the input dispatch and
  the camera-follow arithmetic.
- `Collision` (`collision.dfy`): the two wall scans as functions on a snapshot of
  the player's collision fields, with their first-hit-wins properties.
- `WallLayout` (`wall_layout.dfy`): the wall layout, specified segment by segment.
  It also holds the generating loop (`GenerateWalls`), proved against that
  specification.
- `Screen` (`screen.dfy`): the `Player`, `Camera` and `GameScreen` classes. The
  update's scans are `while` loops with `break`, proved equal to the scan
  functions. The camera floor is a class invariant (`Valid`).
- `Tiles` (`tilemap.dfy`): the `TileMap` class, with the tileset as an `array` of
  regions and the grid as an array of row arrays. Each of `Render`'s draws is a
  draw command appended to the result sequence. Functions that follow the same
  row-by-row scan specify it, and lemmas state what the scan yields.

Random values from the engine's random source are parameters of the model, each
within the closed range it is drawn from (`SegmentDraws`, `Jitter`). The player's
own per-frame step is also a parameter, because its body is not part of this
model. The step's result is given as the collision fields it leaves (`afterStep`)
and the texture it leaves (`afterStepTexture`). The right-wall snap reads that
texture's width each frame.

`Engine.Overlaps` is the engine's strict comparison of the two boxes' edges. It
does not rule out degenerate boxes. A zero-width box that lies strictly inside
another box's x and y ranges does overlap it. Two boxes whose widths, or whose
heights, sum to zero or less never overlap.

## Model

| member | source | states |
|---|---|---|
| Engine.Overlaps | core/src/main/java/com/mygdx/metroid/GameScreen.java:146 | the strict edge comparison that `Rectangle.overlaps` performs; two boxes whose widths, or whose heights, sum to zero or less never overlap |
| Engine.Lerp | core/src/main/java/com/mygdx/metroid/GameScreen.java:172 | `MathUtils.lerp`: the distance left to the target shrinks by the factor 1 - progress |
| Engine.Rect.SetPosition | core/src/main/java/com/mygdx/metroid/GameScreen.java:150 | `Rectangle.setPosition`, also at line 162: the corner moves to the given point and the size is kept (no contract; `Collision.SnapLeft` and `Collision.SnapRight` state the result) |
| Engine.OverlapsSymmetric | core/src/main/java/com/mygdx/metroid/GameScreen.java:146 | the overlap test used by the wall scans is symmetric |
| Engine.DisjointXNeverOverlaps | core/src/main/java/com/mygdx/metroid/GameScreen.java:146 | boxes whose x projections are disjoint or touching never overlap, whatever their y |
| Engine.OverlapsItself | core/src/main/java/com/mygdx/metroid/GameScreen.java:146 | a box with positive width and height overlaps itself |
| Platforms.Rotation | core/src/main/java/com/mygdx/metroid/Platform.java:27-34 | a left wall's sprite rotation lies in [-95, -85], a right wall's in [85, 95] |
| Platforms.Platform.constructor | core/src/main/java/com/mygdx/metroid/Platform.java:16-35 | position (x, y); bounds (x, y, texture width, texture height); the given texture; sprite at (x, y) with the drawn scale and a quarter turn plus the drawn offset |
| Platforms.NewSprite | core/src/main/java/com/mygdx/metroid/Platform.java:22 | `new Sprite(texture)`: a sprite over the whole texture at the origin, unscaled and unrotated (no contract; the constructor's `Built` states the sprite it ends with) |
| Platforms.Platform.GetTexture | core/src/main/java/com/mygdx/metroid/Platform.java:41-43 | returns exactly the texture the platform was built with |
| Platforms.SpriteJitterBounded | core/src/main/java/com/mygdx/metroid/Platform.java:22-34 | the sprite sits at (x, y), its scale lies in [0.95, 1.05], and its rotation lies in the band of its side |
| Platforms.BoundsIgnoreJitter | core/src/main/java/com/mygdx/metroid/Platform.java:17-34 | platforms built at the same place with the same texture have the same position and bounds, whatever their jitter and side; the bounds are the texture's size |
| ScreenSpec.InputDispatch | core/src/main/java/com/mygdx/metroid/GameScreen.java:130-138 | a start call iff touched and not charging; a release call iff not touched and charging; no call iff touched equals charging |
| ScreenSpec.CameraTarget | core/src/main/java/com/mygdx/metroid/GameScreen.java:170-171 | the target is max(player y, half the screen height): at least both, and equal to one of them |
| ScreenSpec.FollowY | core/src/main/java/com/mygdx/metroid/GameScreen.java:170-172 | the camera height after one frame: its distance to the target shrinks to nine tenths |
| ScreenSpec.FollowBetween | core/src/main/java/com/mygdx/metroid/GameScreen.java:170-172 | one camera step lands between the old camera height and the target, closing exactly a tenth of the distance |
| ScreenSpec.FollowKeepsFloor | core/src/main/java/com/mygdx/metroid/GameScreen.java:170-172 | a camera at or above half the screen height stays there after a step, wherever the player is |
| Collision.FirstOverlap | core/src/main/java/com/mygdx/metroid/GameScreen.java:145-155 | the index found overlaps the box and no earlier wall does; none is found iff no wall overlaps |
| Collision.SnapLeft | core/src/main/java/com/mygdx/metroid/GameScreen.java:148-152 | the player's x becomes the wall's x plus the wall's texture width, with y, the box size kept and the bounds moved to the position; ON_WALL_LEFT, no air bounce |
| Collision.SnapRight | core/src/main/java/com/mygdx/metroid/GameScreen.java:160-164 | the player's x becomes the wall's x minus the player's texture width, with y, the box size kept and the bounds moved to the position; ON_WALL_RIGHT, no air bounce |
| Collision.LeftScan | core/src/main/java/com/mygdx/metroid/GameScreen.java:145-155 | the left scan keeps y and the box size; with no overlapping wall the player is untouched; with one, the player ends ON_WALL_LEFT, no air bounce, bounds at the position |
| Collision.RightScan | core/src/main/java/com/mygdx/metroid/GameScreen.java:158-167 | the right scan keeps y and the box size; with no overlapping wall the player is untouched; with one, the player ends ON_WALL_RIGHT, no air bounce, bounds at the position |
| Collision.ResolveWalls | core/src/main/java/com/mygdx/metroid/GameScreen.java:145-167 | both scans in frame order keep y and the box size; a player they change ends on a left or a right wall, with no air bounce and bounds at the position |
| Collision.FirstOverlapAt | core/src/main/java/com/mygdx/metroid/GameScreen.java:145-155 | an overlapping wall with no overlapping wall before it is the one the scan finds |
| Collision.LeftScanFirstHitWins | core/src/main/java/com/mygdx/metroid/GameScreen.java:145-155 | the left scan snaps to the first overlapping wall whatever follows it; walls after the first hit have no effect |
| Collision.RightScanFirstHitWins | core/src/main/java/com/mygdx/metroid/GameScreen.java:158-167 | the same first-hit-wins property for the right scan |
| Collision.ResolveWallsOutcome | core/src/main/java/com/mygdx/metroid/GameScreen.java:145-167 | y and the box size never change. A right hit, tested on the bounds the left scan left, puts x at the wall's x minus the player's texture width, with ON_WALL_RIGHT, no air bounce and bounds at the position. Otherwise a left hit puts x at the wall's x plus its texture width, with ON_WALL_LEFT, no air bounce and bounds at the position. Otherwise nothing changes. |
| Collision.ResolveWallsNoHit | core/src/main/java/com/mygdx/metroid/GameScreen.java:145-167 | when no wall of either list overlaps the player, the player is left untouched |
| Collision.ResolveWallsBothHit | core/src/main/java/com/mygdx/metroid/GameScreen.java:145-167 | when the left scan snaps and the moved bounds then hit a right wall, the player ends ON_WALL_RIGHT with no air bounce |
| WallLayout.Segments | core/src/main/java/com/mygdx/metroid/GameScreen.java:71-89 | the segments emitting a wall on one side: each spawns on that side, they are listed in increasing order, and every such segment is listed |
| WallLayout.RunningHeight | core/src/main/java/com/mygdx/metroid/GameScreen.java:70-74 | `currentY` after n segments: with every gap drawn from [120, 250], between 120 × n and 250 × n |
| WallLayout.SegmentHeight | core/src/main/java/com/mygdx/metroid/GameScreen.java:73-74 | the height at which segment i places its walls: 120 to 250 above the running height before it |
| WallLayout.HeightGrowth | core/src/main/java/com/mygdx/metroid/GameScreen.java:70-74 | the running height grows by at least 120 per segment |
| WallLayout.SegmentHeightsClimb | core/src/main/java/com/mygdx/metroid/GameScreen.java:70-74 | within one side, each later segment's height is at least 120 above each earlier one |
| WallLayout.LeftLayoutStep | core/src/main/java/com/mygdx/metroid/GameScreen.java:83-85 | appending what segment n emits on the left extends the left layout of n segments to one of n + 1 |
| WallLayout.RightLayoutStep | core/src/main/java/com/mygdx/metroid/GameScreen.java:87-89 | the same for the right layout |
| WallLayout.LeftLayoutClimbs | core/src/main/java/com/mygdx/metroid/GameScreen.java:68-89 | a complete left layout has at most one wall per segment, every wall at x = 0, each later wall at least 120 above each earlier one |
| WallLayout.RightLayoutPlaced | core/src/main/java/com/mygdx/metroid/GameScreen.java:81-88 | a complete right layout has at most one wall per segment, every wall at x = screen width minus wall width, each within [-60, 80] of its segment's height |
| WallLayout.GenerateWalls | core/src/main/java/com/mygdx/metroid/GameScreen.java:68-90 | the lists the loop builds are the left and right layouts of all segments, with the placement and climbing properties above |
| Screen.Player.constructor | core/src/main/java/com/mygdx/metroid/GameScreen.java:59 | the player starts at the given position; its texture stands for the one the player loads for itself |
| Screen.Camera.constructor | core/src/main/java/com/mygdx/metroid/GameScreen.java:41-44 | the camera starts at the given position |
| Screen.GameScreen.constructor | core/src/main/java/com/mygdx/metroid/GameScreen.java:44-90 | camera at (200, 400), so the floor invariant holds; player centred horizontally on the ground by the width of the separately loaded character image, with its own texture kept apart; both wall lists are the layouts of the 50 segments, at most 50 walls each |
| Screen.GameScreen.Update | core/src/main/java/com/mygdx/metroid/GameScreen.java:128-173 | the call is the input dispatch of the touch and the old charging flag. The player's texture is the one its step leaves. The player ends as both scans leave the state after its own step, with the right snap using that texture's width. The camera x is unchanged and its y takes one follow step. The camera floor is kept. |
| Screen.GameScreen.ResolveLeftWalls | core/src/main/java/com/mygdx/metroid/GameScreen.java:145-155 | the loop with break leaves the player exactly as the left scan function does |
| Screen.GameScreen.ResolveRightWalls | core/src/main/java/com/mygdx/metroid/GameScreen.java:158-167 | the loop with break leaves the player exactly as the right scan function does |
| Screen.GameScreen.FollowPlayer | core/src/main/java/com/mygdx/metroid/GameScreen.java:170-172 | camera x unchanged; camera y takes one follow step towards max(player y, 400); the floor invariant is kept |
| Tiles.TileMap.constructor | core/src/main/java/com/mygdx/metroid/TileMap.java:24-45 | columns = texture width / 64 and rows = texture height / 64 (integer division); a fresh region array of rows × columns entries holding the tileset's regions row by row; no level loaded and no scroll |
| Tiles.SplitRegion | core/src/main/java/com/mygdx/metroid/TileMap.java:37 | the region `TextureRegion.split` cuts at (row, col): 64 × 64, with x and y multiples of 64 whose quotients by 64 are col and row |
| Tiles.Flattened | core/src/main/java/com/mygdx/metroid/TileMap.java:38-44 | the tileset's regions listed row by row; its length and entries are stated by `Tiles.FlattenedLength` and `Tiles.FlattenedAt` |
| Tiles.RowRegions | core/src/main/java/com/mygdx/metroid/TileMap.java:41-42 | the regions one pass of the inner loop stores for tileset row `row`: one per column, n in all; `Tiles.RowRegionsAt` gives each entry |
| Tiles.FlattenedLength | core/src/main/java/com/mygdx/metroid/TileMap.java:38-44 | the row-by-row list of regions has rows × columns entries |
| Tiles.FlattenedAt | core/src/main/java/com/mygdx/metroid/TileMap.java:37-44 | entry row × columns + col of that list is the region the split cuts at (row, col) |
| Tiles.RowRegionsAt | core/src/main/java/com/mygdx/metroid/TileMap.java:41-42 | entry col of one tileset row is the region at (row, col) |
| Tiles.TileMap.LoadFromLevel | core/src/main/java/com/mygdx/metroid/TileMap.java:48-52 | width, height and grid are the level's (the same grid array, not a copy); no other field changes |
| Tiles.TileMap.Render | core/src/main/java/com/mygdx/metroid/TileMap.java:57-70 | under the in-bounds precondition, the draws issued are those of the row-by-row scan of the grid |
| Tiles.ScanCells | core/src/main/java/com/mygdx/metroid/TileMap.java:59-62 | the non-empty cells the nested loop has visited up to row y, column x, in visiting order (no contract; `Tiles.ScanCellsSound`, `Tiles.ScanCellsOrdered` and `Tiles.ScanCellsComplete` state it) |
| Tiles.RenderCells | core/src/main/java/com/mygdx/metroid/TileMap.java:59-62 | the non-empty cells a whole render visits (no contract; `Tiles.RenderCellsExact` characterises it) |
| Tiles.ScanCellsSound | core/src/main/java/com/mygdx/metroid/TileMap.java:59-62 | every cell the scan lists lies in the first w columns, comes before the scan position and holds a non-zero id |
| Tiles.ScanCellsOrdered | core/src/main/java/com/mygdx/metroid/TileMap.java:59-60 | the scan lists cells in strictly increasing row-major order |
| Tiles.ScanCellsComplete | core/src/main/java/com/mygdx/metroid/TileMap.java:59-62 | every occupied cell before the scan position is listed |
| Tiles.RenderCellsExact | core/src/main/java/com/mygdx/metroid/TileMap.java:59-62 | a cell is listed iff it lies in the mapWidth × mapHeight grid and its id is non-zero; the list is strictly row-major, so each cell appears once |
| Tiles.RenderCellsValid | core/src/main/java/com/mygdx/metroid/TileMap.java:61-64 | when the grid covers the map and the ids are in range, every listed cell indexes the grid and names a region |
| Tiles.DrawFor | core/src/main/java/com/mygdx/metroid/TileMap.java:65 | the `batch.draw` call for a cell: the region at (x × 64 - scrollX, y × 64), size 64 × 64 (no contract; `Tiles.ScanDrawsAt` states the draws in these terms) |
| Tiles.CellDraw | core/src/main/java/com/mygdx/metroid/TileMap.java:61-65 | what one inner-loop step issues: at most one draw, and one exactly when the cell holds an id naming a region, then region id - 1 |
| Tiles.ScanDraws | core/src/main/java/com/mygdx/metroid/TileMap.java:59-65 | the draws of a row-by-row scan up to a position, in issue order: at most one per occupied cell passed |
| Tiles.RenderDraws | core/src/main/java/com/mygdx/metroid/TileMap.java:59-65 | the draws of a whole render: at most one per occupied cell, exactly one each under the in-bounds conditions (`Tiles.RenderDrawsAt`) |
| Tiles.ScanDrawsAt | core/src/main/java/com/mygdx/metroid/TileMap.java:62-65 | the scan issues one draw per listed cell; draw i is region id - 1 of cell i at (x × 64 - scrollX, y × 64), size 64 × 64 |
| Tiles.RenderDrawsAt | core/src/main/java/com/mygdx/metroid/TileMap.java:59-65 | under the in-bounds conditions, rendering issues exactly one draw per occupied cell, in row-major order, and draw i is that cell's region at its scrolled position |
| Tiles.ScrollShiftsOnlyX | core/src/main/java/com/mygdx/metroid/TileMap.java:65 | two scrolls give the same number of draws; each draw differs only in x, by the scroll difference |
| Tiles.TileMap.Dispose | core/src/main/java/com/mygdx/metroid/TileMap.java:72-74 | disposing changes no state |

## Left out

- The player's own behaviour: its constructor, `Player.update`, `startJumpCharge` and `releaseJumpCharge`. The `Player` class the screen uses is not part of this model; `Player.java` beside it is a different, parameterless class. The model's player takes its starting texture as a parameter. After that, its texture is whatever its own step leaves. Its constructor also gives the player a starting box, state and flags, which no contract claims. `Update` returns the jump-charge call it makes and takes the state the player's step leaves as the parameters `afterStep` and `afterStepTexture`.
- Screen.GameScreen.Update: makes no claim about the charging flag after the frame, because the effect of the start and release calls is not part of this model.
- Drawing: `GameScreen.render`, `Platform.draw`, `camera.update`, the fixed background camera, `batch.begin` and `batch.end`. These are engine work. The tile map's draws are modelled as a returned sequence of draw commands.
- Texture and asset loading and disposal: file names, the asset manager and the sprite batch fields of the tile map. A texture is modelled by its pixel size. Regions are modelled without a reference to their texture.
- The random source: each random value is supplied within the closed range it is drawn from. The 90% spawn probabilities become arbitrary booleans.
- Floating point: positions, gaps and the camera step are exact reals, so float rounding is not modelled.
- Tiles.TileMap.Render: does not model 32-bit wrap-around of `x * 64 - scrollX`, because the integers are unbounded. It requires the grid to cover mapHeight rows of mapWidth ids and every non-zero id to name a region. Where the Java code would throw an index or null-pointer exception, no behaviour is given.
- Aliasing of the engine's mutable vectors and rectangles: positions and bounds are values here.
- The camera's z coordinate and its projection matrix.
- The fields of the player that the frame update does not touch, such as velocity, foot bounds and timers.
- `Main.java`, `GroundPlatform.java` and `LevelJson.java`. The level is modelled as a value holding its size and its grid array.
