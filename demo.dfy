/** The demo object: the two phase tables and the scene clock it owns, the
    seeding of the tables, the pass over the grid that both render passes
    run, and one rendered frame followed by a clock step.

    Graphics calls are not modelled: a pass is the sequence of draw records
    it issues, one per line-loop draw. */
module Tiling {
  import opened Layout
  import opened Heights
  import opened Grid

  /** What one frame draws: the shadow pass (depth only, from the light),
      then the colour pass (from the camera). */
  datatype Frame = Frame(shadowPass: seq<Draw>, colourPass: seq<Draw>)

  class Demo {
    /** Phase of every hexagon, indexed [row, column]. */
    const hexagonHeights: array2<real>
    /** Phase of every diamond, indexed [row, column]. */
    const diamondHeights: array2<real>
    /** The scene clock. */
    var curTime: real

    ghost predicate Valid()
      reads this
    {
      && hexagonHeights.Length0 == GridRows && hexagonHeights.Length1 == GridColumns
      && diamondHeights.Length0 == GridRows - 1 && diamondHeights.Length1 == GridColumns - 1
    }

    /** The two tables as values. */
    ghost function Phases(): (p: PhaseTables)
      reads this, hexagonHeights, diamondHeights
      requires Valid()
      ensures p.WellFormed()
      ensures forall i, j :: 0 <= i < GridRows && 0 <= j < GridColumns ==>
                p.At(Tile(Hexagon, i, j)) == hexagonHeights[i, j]
      ensures forall i, j :: 0 <= i < GridRows - 1 && 0 <= j < GridColumns - 1 ==>
                p.At(Tile(Diamond, i, j)) == diamondHeights[i, j]
    {
      PhaseTables(
        seq(GridRows, i requires 0 <= i < GridRows reads hexagonHeights =>
          seq(GridColumns, j requires 0 <= j < GridColumns reads hexagonHeights =>
            hexagonHeights[i, j])),
        seq(GridRows - 1, i requires 0 <= i < GridRows - 1 reads diamondHeights =>
          seq(GridColumns - 1, j requires 0 <= j < GridColumns - 1 reads diamondHeights =>
            diamondHeights[i, j])))
    }

    /** Builds the tables, seeds them from the random stream `draws` and
        starts the clock at 0. */
    constructor (draws: seq<int>)
      requires |draws| >= TileCount
      ensures Valid() && fresh(hexagonHeights) && fresh(diamondHeights)
      ensures Phases() == Seeded(draws)
      ensures curTime == 0.0
    {
      hexagonHeights := new real[GridRows, GridColumns];
      diamondHeights := new real[GridRows - 1, GridColumns - 1];
      curTime := 0.0;
      new;
      ghost var written := InitializeHeights(draws);
    }

    /** Fills every hexagon cell, then every diamond cell, row by row, each
        with the phase of the next random draw. `written` lists the cells in
        the order they are written: every tile once (VisitOrderEachTileOnce). */
    method InitializeHeights(draws: seq<int>) returns (ghost written: seq<Tile>)
      requires Valid() && |draws| >= TileCount
      modifies hexagonHeights, diamondHeights
      ensures Phases() == Seeded(draws)
      ensures written == VisitOrder()
    {
      written := SeedHexagons(draws);
      written := SeedDiamonds(draws, written);
      FullySeeded(draws);
    }

    /** The first loop nest: hexagon (i, j) gets the phase of draw
        i * GridColumns + j, and the hexagons are written in the order they
        head the visiting order. */
    method SeedHexagons(draws: seq<int>) returns (ghost written: seq<Tile>)
      requires Valid() && |draws| >= TileCount
      modifies hexagonHeights
      ensures HexagonRowsSeeded(draws, GridRows)
      ensures written == VisitOrder()[..HexagonCount]
    {
      var next := 0;
      written := [];
      for i := 0 to GridRows
        invariant next == i * GridColumns
        invariant written == VisitOrder()[..next]
        invariant HexagonRowsSeeded(draws, i)
      {
        for j := 0 to GridColumns
          invariant next == i * GridColumns + j
          invariant written == VisitOrder()[..next]
          invariant HexagonRowsSeeded(draws, i)
          invariant forall j' :: 0 <= j' < j ==>
                      hexagonHeights[i, j'] == Phase(draws[i * GridColumns + j'])
        {
          hexagonHeights[i, j] := Phase(draws[next]);
          VisitOrderStep(written, Tile(Hexagon, i, j));
          written := written + [Tile(Hexagon, i, j)];
          next := next + 1;
        }
      }
    }

    /** The second loop nest, continuing the random stream where the
        hexagons left it: diamond (i, j) gets the phase of draw
        HexagonCount + i * (GridColumns - 1) + j, and once it is done the
        cells written so far are the whole visiting order. */
    method SeedDiamonds(draws: seq<int>, ghost hexagonsWritten: seq<Tile>)
      returns (ghost written: seq<Tile>)
      requires Valid() && |draws| >= TileCount
      requires hexagonsWritten == VisitOrder()[..HexagonCount]
      modifies diamondHeights
      ensures DiamondRowsSeeded(draws, GridRows - 1)
      ensures written == VisitOrder()
    {
      var next := HexagonCount;
      written := hexagonsWritten;
      for i := 0 to GridRows - 1
        invariant next == HexagonCount + i * (GridColumns - 1)
        invariant written == VisitOrder()[..next]
        invariant DiamondRowsSeeded(draws, i)
      {
        for j := 0 to GridColumns - 1
          invariant next == HexagonCount + i * (GridColumns - 1) + j
          invariant written == VisitOrder()[..next]
          invariant DiamondRowsSeeded(draws, i)
          invariant forall j' :: 0 <= j' < j ==>
                      diamondHeights[i, j'] == Phase(draws[HexagonCount + i * (GridColumns - 1) + j'])
        {
          diamondHeights[i, j] := Phase(draws[next]);
          VisitOrderStep(written, Tile(Diamond, i, j));
          written := written + [Tile(Diamond, i, j)];
          next := next + 1;
        }
      }
      assert VisitOrder()[..TileCount] == VisitOrder();
    }

    /** The first n hexagon rows hold the phases of the draws at their
        places in the visiting order. */
    ghost predicate HexagonRowsSeeded(draws: seq<int>, n: int)
      reads this, hexagonHeights
      requires Valid() && 0 <= n <= GridRows && |draws| >= TileCount
    {
      forall i, j :: 0 <= i < n && 0 <= j < GridColumns ==>
        hexagonHeights[i, j] == Phase(draws[i * GridColumns + j])
    }

    /** The first n diamond rows hold the phases of the draws at their
        places in the visiting order. */
    ghost predicate DiamondRowsSeeded(draws: seq<int>, n: int)
      reads this, diamondHeights
      requires Valid() && 0 <= n <= GridRows - 1 && |draws| >= TileCount
    {
      forall i, j :: 0 <= i < n && 0 <= j < GridColumns - 1 ==>
        diamondHeights[i, j] == Phase(draws[HexagonCount + i * (GridColumns - 1) + j])
    }

    /** Once every row of both tables is seeded, the tables are the seeded
        tables. */
    lemma FullySeeded(draws: seq<int>)
      requires Valid() && |draws| >= TileCount
      requires HexagonRowsSeeded(draws, GridRows)
      requires DiamondRowsSeeded(draws, GridRows - 1)
      ensures Phases() == Seeded(draws)
    {
      forall t | InGrid(t)
        ensures Phases().At(t) == Seeded(draws).At(t)
      {
        TileIndexRoundTrip(t);
      }
      PhaseTablesEqual(Phases(), Seeded(draws));
    }

    /** One pass over the grid: every hexagon, then every diamond, row by
        row, each drawn at its centre with its current elevation. */
    method DrawGrid() returns (draws: seq<Draw>)
      requires Valid()
      ensures draws == FrameDraws(curTime, Phases())
    {
      draws := DrawHexagons();
      draws := DrawDiamonds(draws);
    }

    /** The hexagon loop nest: it issues the draws that head the pass. */
    method DrawHexagons() returns (draws: seq<Draw>)
      requires Valid()
      ensures draws == FrameDraws(curTime, Phases())[..HexagonCount]
    {
      ghost var p := Phases();
      ghost var all := FrameDraws(curTime, p);
      ghost var n := 0;
      draws := [];
      for i := 0 to GridRows
        invariant n == i * GridColumns
        invariant draws == all[..n]
      {
        for j := 0 to GridColumns
          invariant n == i * GridColumns + j
          invariant draws == all[..n]
        {
          var tile := Tile(Hexagon, i, j);
          var height := Elevation(curTime, hexagonHeights[i, j]);
          FrameDrawAt(curTime, p, tile);
          assert n == TileIndex(tile) && p.At(tile) == hexagonHeights[i, j];
          draws := draws + [Draw(tile, Centre(tile), height, 6)];
          n := n + 1;
        }
      }
    }

    /** The diamond loop nest: it extends the hexagon draws to the whole pass. */
    method DrawDiamonds(hexagonDraws: seq<Draw>) returns (draws: seq<Draw>)
      requires Valid()
      requires hexagonDraws == FrameDraws(curTime, Phases())[..HexagonCount]
      ensures draws == FrameDraws(curTime, Phases())
    {
      ghost var p := Phases();
      ghost var all := FrameDraws(curTime, p);
      ghost var n := HexagonCount;
      draws := hexagonDraws;
      for i := 0 to GridRows - 1
        invariant n == HexagonCount + i * (GridColumns - 1)
        invariant draws == all[..n]
      {
        for j := 0 to GridColumns - 1
          invariant n == HexagonCount + i * (GridColumns - 1) + j
          invariant draws == all[..n]
        {
          var tile := Tile(Diamond, i, j);
          var height := Elevation(curTime, diamondHeights[i, j]);
          FrameDrawAt(curTime, p, tile);
          assert n == TileIndex(tile) && p.At(tile) == diamondHeights[i, j];
          draws := draws + [Draw(tile, Centre(tile), height, 4)];
          n := n + 1;
        }
      }
      assert all[..TileCount] == all;
    }

    /** One frame: the shadow pass and then the colour pass, both over the
        same grid at the same clock value, so they draw the same tiles. */
    method Render() returns (frame: Frame)
      requires Valid()
      ensures frame.shadowPass == FrameDraws(curTime, Phases())
      ensures frame.colourPass == frame.shadowPass
    {
      var shadow := DrawGrid();
      var colour := DrawGrid();
      frame := Frame(shadow, colour);
    }

    /** Renders a frame at the current time, then advances the clock by dt;
        the tables are left as they were. */
    method RenderAndStep(dt: real) returns (frame: Frame)
      requires Valid()
      modifies this
      ensures Valid()
      ensures frame.shadowPass == FrameDraws(old(curTime), Phases())
      ensures frame.colourPass == frame.shadowPass
      ensures curTime == old(curTime) + dt
      ensures Phases() == old(Phases())
    {
      frame := Render();
      curTime := curTime + dt;
    }
  }
}
