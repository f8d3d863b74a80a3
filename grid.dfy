/** The order in which the demo visits its tiles and the draw records one
    pass over the grid emits.

    Both the seeding of the phase tables and every pass over the grid visit
    all hexagons row by row, then all diamonds row by row; TileIndex and
    TileAt translate between a tile and its place in that order. */
module Grid {
  import opened Layout
  import opened Heights

  const HexagonCount: int := GridRows * GridColumns
  const DiamondCount: int := (GridRows - 1) * (GridColumns - 1)
  const TileCount: int := HexagonCount + DiamondCount

  /** Place of a tile in the visiting order. */
  function TileIndex(t: Tile): int {
    match t.shape
    case Hexagon => t.row * GridColumns + t.column
    case Diamond => HexagonCount + t.row * (GridColumns - 1) + t.column
  }

  /** The tile visited k-th. */
  function TileAt(k: int): (t: Tile)
    requires 0 <= k < TileCount
    ensures InGrid(t)
    ensures t.shape == Hexagon <==> k < HexagonCount
  {
    if k < HexagonCount then
      Tile(Hexagon, k / GridColumns, k % GridColumns)
    else
      Tile(Diamond, (k - HexagonCount) / (GridColumns - 1), (k - HexagonCount) % (GridColumns - 1))
  }

  /** A tile in the grid has a place in the order, and that place leads back to it. */
  lemma TileIndexRoundTrip(t: Tile)
    requires InGrid(t)
    ensures 0 <= TileIndex(t) < TileCount
    ensures TileAt(TileIndex(t)) == t
  {
  }

  /** Every place in the order holds a tile whose index is that place. */
  lemma TileAtRoundTrip(k: int)
    requires 0 <= k < TileCount
    ensures TileIndex(TileAt(k)) == k
  {
  }

  /** The visiting order: every hexagon before every diamond, and within a
      shape row-major (row first, then column). */
  predicate Precedes(a: Tile, b: Tile) {
    || (a.shape == Hexagon && b.shape == Diamond)
    || (a.shape == b.shape && (a.row < b.row || (a.row == b.row && a.column < b.column)))
  }

  /** TileAt lists the tiles exactly in the visiting order. */
  lemma TileAtOrdered(k: int, k': int)
    requires 0 <= k < TileCount && 0 <= k' < TileCount
    ensures k < k' <==> Precedes(TileAt(k), TileAt(k'))
  {
  }

  /** The sequence of tiles in visiting order. */
  function VisitOrder(): (v: seq<Tile>)
    ensures |v| == TileCount
  {
    seq(TileCount, k requires 0 <= k < TileCount => TileAt(k))
  }

  /** The visiting order lists every tile of both grids, exactly once, and
      nothing outside them. */
  lemma VisitOrderEachTileOnce(t: Tile)
    ensures t in VisitOrder() <==> InGrid(t)
    ensures InGrid(t) ==> VisitOrder()[TileIndex(t)] == t
    ensures forall k, k' :: 0 <= k < k' < TileCount ==> VisitOrder()[k] != VisitOrder()[k']
  {
    var v := VisitOrder();
    if InGrid(t) {
      TileIndexRoundTrip(t);
      assert v[TileIndex(t)] == t;
    }
    forall k, k' | 0 <= k < k' < TileCount
      ensures v[k] != v[k']
    {
      TileAtRoundTrip(k);
      TileAtRoundTrip(k');
    }
  }

  /** Visiting a tile right after the tiles that precede it in the order
      extends the visited prefix of the order by one. */
  lemma VisitOrderStep(visited: seq<Tile>, t: Tile)
    requires InGrid(t)
    requires visited == VisitOrder()[..TileIndex(t)]
    ensures 0 <= TileIndex(t) < TileCount
    ensures visited + [t] == VisitOrder()[..TileIndex(t) + 1]
  {
    TileIndexRoundTrip(t);
    var v, n := VisitOrder(), TileIndex(t);
    assert v[..n + 1] == v[..n] + [v[n]];
  }

  /** The per-tile phases, one table per shape, indexed [row][column]. */
  datatype PhaseTables = PhaseTables(hexagon: seq<seq<real>>, diamond: seq<seq<real>>) {
    predicate WellFormed() {
      && |hexagon| == GridRows
      && (forall i :: 0 <= i < GridRows ==> |hexagon[i]| == GridColumns)
      && |diamond| == GridRows - 1
      && (forall i :: 0 <= i < GridRows - 1 ==> |diamond[i]| == GridColumns - 1)
    }

    function At(t: Tile): real
      requires WellFormed() && InGrid(t)
    {
      match t.shape
      case Hexagon => hexagon[t.row][t.column]
      case Diamond => diamond[t.row][t.column]
    }
  }

  /** Two well-formed tables are equal when they agree on every tile. */
  lemma PhaseTablesEqual(p: PhaseTables, q: PhaseTables)
    requires p.WellFormed() && q.WellFormed()
    requires forall t :: InGrid(t) ==> p.At(t) == q.At(t)
    ensures p == q
  {
    forall i | 0 <= i < GridRows
      ensures p.hexagon[i] == q.hexagon[i]
    {
      forall j | 0 <= j < GridColumns
        ensures p.hexagon[i][j] == q.hexagon[i][j]
      {
        assert p.At(Tile(Hexagon, i, j)) == q.At(Tile(Hexagon, i, j));
      }
    }
    forall i | 0 <= i < GridRows - 1
      ensures p.diamond[i] == q.diamond[i]
    {
      forall j | 0 <= j < GridColumns - 1
        ensures p.diamond[i][j] == q.diamond[i][j]
      {
        assert p.At(Tile(Diamond, i, j)) == q.At(Tile(Diamond, i, j));
      }
    }
  }

  /** The tables seeded from a stream of random draws: the tiles take the
      draws in visiting order. */
  function Seeded(draws: seq<int>): (p: PhaseTables)
    requires |draws| >= TileCount
    ensures p.WellFormed()
    ensures forall t :: InGrid(t) ==> p.At(t) == Phase(draws[TileIndex(t)])
  {
    PhaseTables(
      seq(GridRows, i requires 0 <= i < GridRows =>
        seq(GridColumns, j requires 0 <= j < GridColumns =>
          Phase(draws[i * GridColumns + j]))),
      seq(GridRows - 1, i requires 0 <= i < GridRows - 1 =>
        seq(GridColumns - 1, j requires 0 <= j < GridColumns - 1 =>
          Phase(draws[HexagonCount + i * (GridColumns - 1) + j]))))
  }

  /** Seeding from draws in [0, RandMax] gives every tile a phase in [0, 2.5]. */
  lemma SeededPhasesInRange(draws: seq<int>, t: Tile)
    requires |draws| >= TileCount && InGrid(t)
    requires forall k :: 0 <= k < |draws| ==> 0 <= draws[k] <= RandMax
    ensures 0.0 <= Seeded(draws).At(t) <= PhaseScale
  {
    TileIndexRoundTrip(t);
  }

  /** The tables with every phase moved forward by d. */
  function Shifted(p: PhaseTables, d: real): (q: PhaseTables)
    requires p.WellFormed()
    ensures q.WellFormed()
    ensures forall t :: InGrid(t) ==> q.At(t) == p.At(t) + d
  {
    PhaseTables(
      seq(GridRows, i requires 0 <= i < GridRows =>
        seq(GridColumns, j requires 0 <= j < GridColumns => p.hexagon[i][j] + d)),
      seq(GridRows - 1, i requires 0 <= i < GridRows - 1 =>
        seq(GridColumns - 1, j requires 0 <= j < GridColumns - 1 => p.diamond[i][j] + d)))
  }

  /** What one draw call of a pass is given: which tile, the translation
      of its model matrix, its height and the number of outline vertices. */
  datatype Draw = Draw(tile: Tile, centre: Point, height: real, vertexCount: nat)

  function TileDraw(t: Tile, time: real, phase: real): Draw {
    Draw(t, Centre(t), Elevation(time, phase), VertexCount(t.shape))
  }

  /** The draws of one pass over the grid at a given time. */
  function FrameDraws(time: real, p: PhaseTables): (d: seq<Draw>)
    requires p.WellFormed()
    ensures |d| == TileCount
  {
    seq(TileCount, k requires 0 <= k < TileCount => TileDraw(TileAt(k), time, p.At(TileAt(k))))
  }

  /** The draw at a tile's place in a pass is that tile's draw, so the pass
      up to and including the tile extends the pass before it by that draw. */
  lemma FrameDrawAt(time: real, p: PhaseTables, t: Tile)
    requires p.WellFormed() && InGrid(t)
    ensures 0 <= TileIndex(t) < TileCount
    ensures FrameDraws(time, p)[TileIndex(t)] == TileDraw(t, time, p.At(t))
    ensures FrameDraws(time, p)[..TileIndex(t) + 1] ==
              FrameDraws(time, p)[..TileIndex(t)] + [TileDraw(t, time, p.At(t))]
  {
    TileIndexRoundTrip(t);
    var d, n := FrameDraws(time, p), TileIndex(t);
    assert d[..n + 1] == d[..n] + [d[n]];
  }

  /** A pass issues 144 hexagon draws followed by 121 diamond draws, in the
      visiting order. */
  lemma FrameDrawOrder(time: real, p: PhaseTables)
    requires p.WellFormed()
    ensures HexagonCount == 144 && DiamondCount == 121
    ensures forall k :: 0 <= k < TileCount ==>
              FrameDraws(time, p)[k].tile == VisitOrder()[k] &&
              (FrameDraws(time, p)[k].tile.shape == Hexagon <==> k < HexagonCount)
    ensures forall k, k' :: 0 <= k < k' < TileCount ==>
              Precedes(FrameDraws(time, p)[k].tile, FrameDraws(time, p)[k'].tile)
  {
    var d := FrameDraws(time, p);
    forall k, k' | 0 <= k < k' < TileCount
      ensures Precedes(d[k].tile, d[k'].tile)
    {
      TileAtOrdered(k, k');
    }
  }

  /** A pass draws every tile of the grid once: the draw at the tile's place
      is that tile, and no other draw is. */
  lemma FrameDrawsEachTileOnce(time: real, p: PhaseTables, t: Tile)
    requires p.WellFormed() && InGrid(t)
    ensures 0 <= TileIndex(t) < TileCount
    ensures FrameDraws(time, p)[TileIndex(t)].tile == t
    ensures forall k :: 0 <= k < TileCount && FrameDraws(time, p)[k].tile == t ==> k == TileIndex(t)
  {
    TileIndexRoundTrip(t);
    forall k | 0 <= k < TileCount && FrameDraws(time, p)[k].tile == t
      ensures k == TileIndex(t)
    {
      TileAtRoundTrip(k);
    }
  }

  /** Every draw is placed at its tile's centre, closes its shape's whole
      outline, and is raised to 2.5 * (1 + sin(time + phase)) for its tile's
      phase, which lies in [0, 5]. */
  lemma FrameDrawContents(time: real, p: PhaseTables, k: int)
    requires p.WellFormed() && 0 <= k < TileCount
    ensures var d := FrameDraws(time, p)[k];
      && InGrid(d.tile)
      && d.centre == Centre(d.tile)
      && d.vertexCount == |Outline(d.tile.shape)|
      && d.height == PhaseScale * (1.0 + Sin(time + p.At(d.tile)))
      && 0.0 <= d.height <= 5.0
  {
    VertexCountMatchesOutline(TileAt(k).shape);
  }

  /** Only the heights change with time: two passes at any two times over
      any two tables draw the same tiles at the same places with the same
      outlines. */
  lemma FrameGeometryFixed(time: real, time': real, p: PhaseTables, q: PhaseTables, k: int)
    requires p.WellFormed() && q.WellFormed() && 0 <= k < TileCount
    ensures FrameDraws(time, p)[k].tile == FrameDraws(time', q)[k].tile
    ensures FrameDraws(time, p)[k].centre == FrameDraws(time', q)[k].centre
    ensures FrameDraws(time, p)[k].vertexCount == FrameDraws(time', q)[k].vertexCount
  {
  }

  /** With freshly seeded tables, the k-th draw of a pass is animated by the
      k-th random draw. */
  lemma SeededFrameUsesDrawInOrder(draws: seq<int>, time: real, k: int)
    requires |draws| >= TileCount && 0 <= k < TileCount
    ensures FrameDraws(time, Seeded(draws))[k].height == Elevation(time, Phase(draws[k]))
  {
    TileAtRoundTrip(k);
  }

  /** Advancing the clock by dt draws the same frame as keeping the clock
      and shifting every phase by dt: the clock step only moves each tile
      along its own wave. */
  lemma FrameClockShift(time: real, dt: real, p: PhaseTables)
    requires p.WellFormed()
    ensures FrameDraws(time + dt, p) == FrameDraws(time, Shifted(p, dt))
  {
    var q := Shifted(p, dt);
    var a, b := FrameDraws(time + dt, p), FrameDraws(time, q);
    forall k | 0 <= k < TileCount
      ensures a[k] == b[k]
    {
      var t := TileAt(k);
      assert q.At(t) == p.At(t) + dt;
      ElevationShift(time, p.At(t), dt);
      assert a[k] == TileDraw(t, time + dt, p.At(t));
      assert b[k] == TileDraw(t, time, q.At(t));
    }
  }
}
