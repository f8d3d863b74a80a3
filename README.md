# Tiling demo: tile grid model

This project models the tile grid behind the animated tiling demo. The surface is made of
interlocking hexagon and diamond cells, each rising and falling over time. The demo object
owns:

- two fixed-size phase tables: 12×12 for the hexagons and 11×11 for the diamonds;
- a scene clock.

Every frame renders the grid twice, first as a depth-only shadow pass from the light and then
as a colour pass from the camera, and then advances the clock.

The model covers what the demo computes, leaving out the graphics calls:

- **Layout** (`layout.dfy`): the grid dimensions, the centre of each tile, and the two outline
  meshes (6 points for a hexagon, 4 for a diamond) with the vertex count each draw passes.
  cos(30°) is an uninterpreted positive real constant `Cos30`, and all arithmetic is on exact
  reals.
- **Heights** (`heights.dfy`): the phase a random draw gives a tile, `2.5 · r / RAND_MAX`, and
  the elevation `2.5 · (1 + sin(t + phase))`. `Sin` is an uninterpreted function known only to
  lie in [-1, 1]. `RandMax` is the glibc value 2147483647.
- **Grid** (`grid.dfy`): the visiting order that seeding and every pass share (all hexagons row
  by row, then all diamonds row by row), the phase tables as values, and `FrameDraws`, the
  sequence of draw records one pass issues.
- **Tiling** (`demo.dfy`): the class `Demo`.
  - Its fields are the two tables (`array2<real>`) and the clock `curTime`.
  - The constructor seeds the tables.
  - `InitializeHeights` fills the tables from a stream of random draws. Its two loop nests,
    one per shape, are the methods `SeedHexagons` and `SeedDiamonds`.
  - `DrawGrid` builds the draw records. Its two loop nests are `DrawHexagons` and
    `DrawDiamonds`.
  - `Render` runs the shadow pass and then the colour pass.
  - `RenderAndStep` renders and then advances the clock.

  Each method is proved against the Grid functions.

The C library's `rand()` is an input sequence of integers; the demo consumes the first 265 of
them. One draw record stands for each line-loop draw call together with the uniforms set just
before it: the tile, the translation of its model matrix (its centre), its height and its
vertex count.

The code divides `2.5 · rand()` by `RAND_MAX`, so a draw equal to `RAND_MAX` gives exactly
2.5: the phase interval is closed, [0, 2.5] (`Heights.PhaseRange`).

## Model

| member | source | states |
|---|---|---|
| `Layout.CentreSymmetric` | tiling/main.cc:164-185 | Reflecting tile (i, j) to (R-1-i, C-1-j) keeps it in its own shape's grid, in both directions. Its centre becomes the negated centre. For diamonds R-1 = GridRows-2 and C-1 = GridColumns-2. |
| `Layout.CentresClosedUnderNegation` | tiling/main.cc:164-185 | The set of centres of each shape's grid is symmetric about the origin: the negation of every centre is also a centre. |
| `Layout.DiamondAtHexagonMidpoint` | tiling/main.cc:164-185 | Diamond (i, j) is in the grid iff hexagons (i, j) and (i+1, j+1) both are. Its centre is their midpoint, equal to hexagon (i, j)'s centre plus (cos30, 1). |
| `Layout.VertexCountMatchesOutline` | tiling/main.cc:69-84 | The vertex count each draw passes (6 for hexagons at line 175, 4 for diamonds at line 193) equals the length of that shape's outline list. |
| `Layout.OutlineCentrallySymmetric` | tiling/main.cc:69-84 | In both outline lists, the vertex half-way round the loop is the negation of the starting vertex. |
| `Layout.DiamondCornersOnHexagons` | tiling/main.cc:65-85 | Each corner of a diamond in the grid, placed at its centre, coincides with a corner of some hexagon in the grid. This is the sense in which the diamonds fill the gaps. |
| `Heights.Phase` | tiling/main.cc:92 | A random draw in [0, RAND_MAX] gives a phase in [0, 2.5]. |
| `Heights.PhaseRange` | tiling/main.cc:92 | Draw 0 gives phase 0 and draw RAND_MAX gives exactly 2.5, so the interval is closed. In exact arithmetic, larger draws give larger phases. |
| `Heights.Elevation` | tiling/main.cc:172 | The elevation 2.5·(1+sin(t+phase)) lies in [0, 5] for every time and phase. |
| `Heights.ElevationShift` | tiling/main.cc:172 | Advancing the clock by d gives the same elevation as shifting the phase by d. `Grid.FrameClockShift` lifts this to a whole pass. |
| `Grid.TileAt` | tiling/main.cc:164-195 | The k-th tile visited is in the grid, and it is a hexagon exactly when k < 144. |
| `Grid.TileIndexRoundTrip` | tiling/main.cc:164-195 | Every tile in the grid has a place in [0, 265) in the visiting order, and the tile at that place is the same tile. |
| `Grid.TileAtRoundTrip` | tiling/main.cc:164-195 | The tile at place k has index k. |
| `Grid.TileAtOrdered` | tiling/main.cc:164-195 | k < k' holds iff tile k precedes tile k'. Preceding means: every hexagon before every diamond, and row-major (row, then column) within a shape. |
| `Grid.VisitOrderStep` | tiling/main.cc:88-97 | When the tiles visited so far are the order up to a tile, visiting that tile next gives the order up to and including it. |
| `Grid.VisitOrderEachTileOnce` | tiling/main.cc:88-97 | The visiting order contains exactly the tiles of both grids, each at its index, with no repeats. |
| `Grid.Seeded` | tiling/main.cc:88-97 | In the tables seeded from a random stream, the phase of every tile is `Phase` of the draw at that tile's index in the visiting order. |
| `Grid.SeededPhasesInRange` | tiling/main.cc:88-97 | When every draw is in [0, RAND_MAX], every seeded phase is in [0, 2.5]. |
| `Grid.FrameDrawAt` | tiling/main.cc:157-196 | The draw at a tile's place in a pass is that tile's draw. The pass up to that place extends the pass before it by exactly that draw. |
| `Grid.FrameDrawOrder` | tiling/main.cc:163-204 | A pass issues 144 hexagon draws, then 121 diamond draws. The draws follow the visiting order, so within each shape they are row-major. |
| `Grid.FrameDrawsEachTileOnce` | tiling/main.cc:157-196 | A pass draws each tile of the grid at exactly one place, its index. |
| `Grid.FrameDrawContents` | tiling/main.cc:163-195 | Every draw: is of a tile in the grid; sits at that tile's centre; passes the full outline length; has height 2.5·(1+sin(t+phase)), which lies in [0, 5]. |
| `Grid.FrameGeometryFixed` | tiling/main.cc:164-193 | Two passes at any two times, over any two tables, draw the same tiles at the same centres with the same vertex counts. Only the heights vary. |
| `Grid.FrameClockShift` | tiling/main.cc:45-49 | A pass drawn after the clock has advanced by dt equals, draw for draw, a pass at the old clock over tables whose every phase is moved forward by dt. |
| `Grid.SeededFrameUsesDrawInOrder` | tiling/main.cc:88-196 | With freshly seeded tables, the k-th draw of a pass is animated by the k-th random draw. |
| `Tiling.Demo.constructor` | tiling/main.cc:35-43 | Allocates the tables and seeds them from the random stream (they equal `Seeded(draws)`). Starts the clock at 0. |
| `Tiling.Demo.InitializeHeights` | tiling/main.cc:88-97 | After both loop nests the tables equal `Seeded(draws)`. The cells are written in exactly the visiting order, so each once. |
| `Tiling.Demo.SeedHexagons` | tiling/main.cc:90-92 | Hexagon (i, j) gets the phase of draw 12·i + j. The hexagons are written in the order that heads the visiting order. |
| `Tiling.Demo.SeedDiamonds` | tiling/main.cc:94-96 | Diamond (i, j) gets the phase of draw 144 + 11·i + j, continuing the stream after the hexagons. With the hexagons before them, the cells written are the whole visiting order. |
| `Tiling.Demo.FullySeeded` | tiling/main.cc:88-97 | Once every row of both tables holds those draws' phases, the tables equal `Seeded(draws)`. |
| `Tiling.Demo.DrawGrid` | tiling/main.cc:157-196 | The two loop nests together emit exactly `FrameDraws(curTime, tables)`. |
| `Tiling.Demo.DrawHexagons` | tiling/main.cc:163-177 | The hexagon loop nest emits exactly the first 144 draws of the pass. |
| `Tiling.Demo.DrawDiamonds` | tiling/main.cc:181-195 | Given the hexagon draws, the diamond loop nest completes them to the whole pass. |
| `Tiling.Demo.Render` | tiling/main.cc:99-155 | The shadow pass and the colour pass both emit `FrameDraws` at the current clock value, so they are identical. Rendering changes nothing. |
| `Tiling.Demo.RenderAndStep` | tiling/main.cc:45-49 | The frame is drawn at the clock value before the step. The clock then becomes old clock + dt, and the tables are unchanged. |

## Left out

- The OpenGL and GLFW calls are foreign calls with no visible meaning here. This covers shader
  compilation and binding, uniform setting, vertex upload, the shadow depth target, viewport,
  clearing, depth and polygon-offset state, the draw call itself, and buffer swap and polling.
  A pass is only the sequence of draw records it issues.
- The light and camera matrices (orthographic and perspective projections, look-at views) and
  the global scene rotation by π/4 about z are library matrix code. A tile's model transform is
  represented by its centre only. `Layout.DiamondCornersOnHexagons` is stated before the
  rotation, which every tile shares.
- Window width and height are left out. The source reads them only for the colour pass's
  viewport and aspect ratio, which belong to the matrices above.
- Float and double rounding of the layout, the phases, the heights and the accumulated clock.
  The model uses exact reals.
- Periodicity of the elevation in time is left out: `Sin` is known only by its range.
- The random source was `std::rand`; here it is a finite input sequence. The constructor
  requires at least the 265 draws that seeding consumes.
- The `main` loop: wall-clock `dt`, the escape-key callback, and the frame-dump mode with its
  frame counter. These are timing and I/O. `RenderAndStep` takes `dt` as a parameter.
- `draw_grid` ignores its `program` argument and always sets uniforms on the colour program.
  That concerns which GL object receives the data, so it is outside the model.
- The unused constant `NumStrips`.
