/** Placement of the tiles: the grid dimensions, the centre of every tile
    and the two outline meshes shared by all tiles of a shape.

    Coordinates are exact reals.  cos(30 degrees) is left uninterpreted: the
    only fact the model uses about it is that it is positive. */
module Layout {

  /** Rows and columns of the hexagon grid; the diamond grid has one fewer
      of each. */
  const GridRows: int := 12
  const GridColumns: int := 12

  type PositiveReal = r: real | r > 0.0 witness 1.0

  /** cos(pi / 6), as the demo computes it before laying out the tiles. */
  const Cos30: PositiveReal

  datatype Shape = Hexagon | Diamond

  datatype Point = Point(x: real, y: real) {
    function Plus(d: Point): Point { Point(x + d.x, y + d.y) }
    function Negated(): Point { Point(-x, -y) }
  }

  function Midpoint(p: Point, q: Point): Point {
    Point((p.x + q.x) / 2.0, (p.y + q.y) / 2.0)
  }

  /** Dimensions of the grid a shape is laid out on. */
  function Rows(s: Shape): int {
    match s
    case Hexagon => GridRows
    case Diamond => GridRows - 1
  }

  function Columns(s: Shape): int {
    match s
    case Hexagon => GridColumns
    case Diamond => GridColumns - 1
  }

  /** One tile: its shape and its grid coordinate. */
  datatype Tile = Tile(shape: Shape, row: int, column: int)

  predicate InGrid(t: Tile) {
    0 <= t.row < Rows(t.shape) && 0 <= t.column < Columns(t.shape)
  }

  /** World-space centre of a tile, before the global scene rotation.
      Hexagons are offset from the middle of a GridRows x GridColumns grid,
      diamonds from the middle of the grid one smaller in each direction. */
  function Centre(t: Tile): Point {
    var i, j := t.row as real, t.column as real;
    match t.shape
    case Hexagon =>
      Point(2.0 * Cos30 * (j - 0.5 * (GridColumns - 1) as real),
            2.0 * (i - 0.5 * (GridRows - 1) as real))
    case Diamond =>
      Point(2.0 * Cos30 * (j - 0.5 * (GridColumns - 2) as real),
            2.0 * (i - 0.5 * (GridRows - 2) as real))
  }

  /** The tile reached by reflecting (i, j) through the middle of its grid. */
  function Mirror(t: Tile): Tile {
    Tile(t.shape, Rows(t.shape) - 1 - t.row, Columns(t.shape) - 1 - t.column)
  }

  /** Every tile centre is symmetric about the origin: the mirrored tile is
      in the grid exactly when the tile is, and sits at the negated centre. */
  lemma CentreSymmetric(t: Tile)
    ensures InGrid(Mirror(t)) <==> InGrid(t)
    ensures Centre(Mirror(t)) == Centre(t).Negated()
  {
  }

  /** The set of centres of one shape's grid. */
  function Centres(s: Shape): set<Point> {
    set i, j | 0 <= i < Rows(s) && 0 <= j < Columns(s) :: Centre(Tile(s, i, j))
  }

  /** The centres of each shape form a set closed under negation, so every
      x-coordinate and every y-coordinate of the layout has its opposite. */
  lemma CentresClosedUnderNegation(s: Shape, p: Point)
    requires p in Centres(s)
    ensures p.Negated() in Centres(s)
  {
    var i, j :| 0 <= i < Rows(s) && 0 <= j < Columns(s) && p == Centre(Tile(s, i, j));
    var m := Mirror(Tile(s, i, j));
    CentreSymmetric(Tile(s, i, j));
    assert Centre(Tile(s, m.row, m.column)) == p.Negated();
  }

  /** Diamond (i, j) lies in the gap between hexagons (i, j), (i, j+1),
      (i+1, j) and (i+1, j+1): at the midpoint of the diagonal from (i, j)
      to (i+1, j+1), which is hexagon (i, j)'s centre moved by (cos30, 1). */
  lemma DiamondAtHexagonMidpoint(i: int, j: int)
    ensures InGrid(Tile(Diamond, i, j)) <==>
              InGrid(Tile(Hexagon, i, j)) && InGrid(Tile(Hexagon, i + 1, j + 1))
    ensures Centre(Tile(Diamond, i, j)) ==
              Midpoint(Centre(Tile(Hexagon, i, j)), Centre(Tile(Hexagon, i + 1, j + 1)))
    ensures Centre(Tile(Diamond, i, j)) == Centre(Tile(Hexagon, i, j)).Plus(Point(Cos30, 1.0))
  {
  }

  /** The outline of each shape in its local frame, in the order given to
      the vertex buffer. */
  function Outline(s: Shape): seq<Point> {
    match s
    case Hexagon =>
      [Point(Cos30, 0.5), Point(0.0, 1.0), Point(-(Cos30 as real), 0.5),
       Point(-(Cos30 as real), -0.5), Point(0.0, -1.0), Point(Cos30, -0.5)]
    case Diamond =>
      [Point(Cos30, 0.0), Point(0.0, 0.5), Point(-(Cos30 as real), 0.0), Point(0.0, -0.5)]
  }

  /** The vertex count passed to each line-loop draw of a shape. */
  function VertexCount(s: Shape): nat {
    match s
    case Hexagon => 6
    case Diamond => 4
  }

  /** Every draw closes the whole outline of its shape: no vertex is left
      out and none is read past the end. */
  lemma VertexCountMatchesOutline(s: Shape)
    ensures VertexCount(s) == |Outline(s)|
    ensures s == Hexagon ==> VertexCount(s) == 6
    ensures s == Diamond ==> VertexCount(s) == 4
  {
  }

  /** Each outline is symmetric about its centre: the vertex half-way round
      the loop is the opposite of a vertex. */
  lemma OutlineCentrallySymmetric(s: Shape, k: int)
    requires 0 <= k < |Outline(s)|
    ensures Outline(s)[(k + |Outline(s)| / 2) % |Outline(s)|] == Outline(s)[k].Negated()
  {
  }

  /** World-space position (before the scene rotation) of vertex k of a tile. */
  function Corner(t: Tile, k: int): Point
    requires 0 <= k < |Outline(t.shape)|
  {
    Centre(t).Plus(Outline(t.shape)[k])
  }

  /** The diamonds fill the gaps exactly: every corner of a diamond in the
      grid is also a corner of a hexagon in the grid. */
  lemma DiamondCornersOnHexagons(i: int, j: int, k: int)
    requires InGrid(Tile(Diamond, i, j))
    requires 0 <= k < |Outline(Diamond)|
    ensures exists h: Tile, m: int ::
              h.shape == Hexagon && InGrid(h) && 0 <= m < |Outline(Hexagon)| &&
              Corner(Tile(Diamond, i, j), k) == Corner(h, m)
  {
    var (h, m) :=
      if k == 0 then (Tile(Hexagon, i, j + 1), 1)
      else if k == 1 then (Tile(Hexagon, i + 1, j), 5)
      else if k == 2 then (Tile(Hexagon, i, j), 1)
      else (Tile(Hexagon, i, j), 0);
    assert Corner(Tile(Diamond, i, j), k) == Corner(h, m);
  }
}
