/**
 * The integer geometry of the track drawer: which pixels the AI, overlay,
 * start-position and tile-selection overlays cover, the corrections applied
 * to AI triangles, and the tests that decide what gets painted. The painting
 * itself (bitmaps, pens, brushes, zoom) is not modelled.
 */
module Drawing {
  import opened Common
  import TrackObjectTable

  /** Width and height of a tile, in pixels. */
  const TileSize := 8

  /** Tiles per side of one cell of the AI and object-area grids. */
  const Precision := 2

  datatype Point = Point(x: int, y: int)

  /** A GDI rectangle: it holds the points with Left <= x < Right and Top <= y < Bottom. */
  datatype Rectangle = Rectangle(x: int, y: int, width: int, height: int)
  {
    function Left(): int { x }
    function Top(): int { y }
    function Right(): int { x + width }
    function Bottom(): int { y + height }

    predicate Contains(px: int, py: int) {
      x <= px < x + width && y <= py < y + height
    }

    predicate IsEmpty() { width <= 0 || height <= 0 }
  }

  /** Every point of `inner` is a point of `outer`, stated on the edges. */
  predicate Covers(outer: Rectangle, inner: Rectangle) {
    inner.IsEmpty() ||
    (outer.Left() <= inner.Left() && inner.Right() <= outer.Right() &&
     outer.Top() <= inner.Top() && inner.Bottom() <= outer.Bottom())
  }

  /** `Covers` is inclusion of the point sets. */
  lemma CoversIffContainsAll(outer: Rectangle, inner: Rectangle)
    ensures Covers(outer, inner) <==>
      forall px, py :: inner.Contains(px, py) ==> outer.Contains(px, py)
  {
    if !Covers(outer, inner) {
      // some corner of `inner` lies outside `outer`
      if outer.x > inner.x || outer.y > inner.y {
        assert inner.Contains(inner.x, inner.y);
      } else if inner.Right() > outer.Right() {
        assert inner.Contains(inner.Right() - 1, inner.y);
      } else {
        assert inner.Contains(inner.x, inner.Bottom() - 1);
      }
    }
  }

  /** A pixel coordinate lies in tiles `c` to `c + n - 1` exactly when its tile does. */
  lemma TileOfPixel(c: int, n: int, p: int)
    ensures c * TileSize <= p < (c + n) * TileSize <==> c <= p / TileSize < c + n
  {
    var q := p / TileSize;
    assert q * TileSize <= p < q * TileSize + TileSize;
  }

  /** The pixel rectangle of a rectangle of tiles. */
  function Scale(tiles: Rectangle): Rectangle {
    Rectangle(tiles.x * TileSize, tiles.y * TileSize, tiles.width * TileSize, tiles.height * TileSize)
  }

  /** A pixel is in the scaled rectangle exactly when its tile is in the tile rectangle. */
  lemma ScaleContains(tiles: Rectangle, px: int, py: int)
    ensures Scale(tiles).Contains(px, py) <==> tiles.Contains(px / TileSize, py / TileSize)
  {
    TileOfPixel(tiles.x, tiles.width, px);
    TileOfPixel(tiles.y, tiles.height, py);
  }

  // ---------------------------------------------------------------------
  // Clip rectangles

  /** The outline drawn around a tile selection: one pixel out on the left and top. */
  function VisibleTileSelectionRectangle(selection: Rectangle): Rectangle {
    Rectangle(selection.x * TileSize - 1, selection.y * TileSize - 1,
              selection.width * TileSize + 1, selection.height * TileSize + 1)
  }

  /**
   * Every pixel of a selected tile is inside the outline, and the outline adds
   * only the pixel column just left of the selection and the row just above it.
   */
  lemma VisibleSelectionFramesTiles(selection: Rectangle, px: int, py: int)
    ensures selection.Contains(px / TileSize, py / TileSize) ==>
      VisibleTileSelectionRectangle(selection).Contains(px, py)
    ensures (VisibleTileSelectionRectangle(selection).Contains(px, py) &&
             px != selection.x * TileSize - 1 && py != selection.y * TileSize - 1) ==>
      selection.Contains(px / TileSize, py / TileSize)
  {
    ScaleContains(selection, px, py);
  }

  /** The pixels an overlay tile pattern of `width` x `height` tiles placed at `location` covers. */
  function OverlayClipRectangle(width: int, height: int, location: Point): Rectangle {
    Scale(Rectangle(location.x, location.y, width, height))
  }

  /** A pixel is clipped in exactly when its tile is one of the pattern's tiles. */
  lemma OverlayClipIsPatternPixels(width: int, height: int, location: Point, px: int, py: int)
    ensures OverlayClipRectangle(width, height, location).Contains(px, py) <==>
      location.x <= px / TileSize < location.x + width &&
      location.y <= py / TileSize < location.y + height
  {
    ScaleContains(Rectangle(location.x, location.y, width, height), px, py);
  }

  /** The square around a battle start position: four pixels each way from its point. */
  function BattleStartClipRectangle(position: Point): (r: Rectangle)
    ensures forall px, py :: r.Contains(px, py) <==>
      -4 <= px - position.x <= 4 && -4 <= py - position.y <= 4
  {
    Rectangle(position.x - 4, position.y - 4, TileSize + 1, TileSize + 1)
  }

  // ---------------------------------------------------------------------
  // AI elements

  datatype AreaShape =
    | Rectangular
    | TriangleTopLeft
    | TriangleTopRight
    | TriangleBottomRight
    | TriangleBottomLeft

  /** An AI element: its area and its target, both in tiles, and the shape of the area. */
  datatype AIElement = AIElement(area: Rectangle, target: Point, shape: AreaShape)

  /**
   * On one axis: the first tile and the number of tiles covering an area that
   * starts at `start` and spans `size` tiles, and the target tile `t`.
   */
  function CoverSpan(start: int, size: int, t: int): (r: (int, int))
    ensures r.0 <= start && r.0 <= t && (r.0 == start || r.0 == t)
    ensures size >= 0 ==>
      && start + size <= r.0 + r.1 && t + 1 <= r.0 + r.1
      && (r.0 + r.1 == start + size || r.0 + r.1 == t + 1)
  {
    if start <= t then
      (start, if t >= start + size then t - start + 1 else size)
    else
      (t, start + size - t)
  }

  /** The tiles GetAIClipRectangle covers, before they are scaled to pixels. */
  function AIClipTiles(e: AIElement): Rectangle {
    var (x, width) := CoverSpan(e.area.x, e.area.width, e.target.x);
    var (y, height) := CoverSpan(e.area.y, e.area.height, e.target.y);
    Rectangle(x, y, width, height)
  }

  /** The AI clip in pixels: the clip tiles scaled by the tile size. */
  function AIClipRectangle(e: AIElement): Rectangle {
    Scale(AIClipTiles(e))
  }

  /** The clip tiles contain the whole area and the target tile. */
  lemma AIClipCoversElement(e: AIElement)
    requires e.area.width >= 0 && e.area.height >= 0
    ensures Covers(AIClipTiles(e), e.area)
    ensures AIClipTiles(e).Contains(e.target.x, e.target.y)
  {
  }

  /** Any rectangle holding the (non-empty) area and the target tile holds the clip tiles. */
  lemma AIClipIsSmallest(e: AIElement, q: Rectangle)
    requires !e.area.IsEmpty()
    requires Covers(q, e.area) && q.Contains(e.target.x, e.target.y)
    ensures Covers(q, AIClipTiles(e))
  {
  }

  /** A pixel is in the AI clip rectangle exactly when its tile is one of the clip tiles. */
  lemma AIClipPixels(e: AIElement, px: int, py: int)
    ensures AIClipRectangle(e).Contains(px, py) <==>
      AIClipTiles(e).Contains(px / TileSize, py / TileSize)
  {
    ScaleContains(AIClipTiles(e), px, py);
  }

  /** The outline of an AI area: its width and height are one pixel less than the area's. */
  function AIAreaRectangle(e: AIElement): Rectangle {
    Rectangle(e.area.x * TileSize, e.area.y * TileSize,
              e.area.width * TileSize - 1, e.area.height * TileSize - 1)
  }

  /**
   * The outline runs along the first and the last pixel of the area's tiles:
   * a pixel column lies between its left and right edges (both included)
   * exactly when its tile column belongs to the area, and likewise for rows.
   */
  lemma AIAreaOutlineEdges(e: AIElement, px: int, py: int)
    ensures AIAreaRectangle(e).Left() <= px <= AIAreaRectangle(e).Right() <==>
      e.area.Left() <= px / TileSize < e.area.Right()
    ensures AIAreaRectangle(e).Top() <= py <= AIAreaRectangle(e).Bottom() <==>
      e.area.Top() <= py / TileSize < e.area.Bottom()
  {
    TileOfPixel(e.area.x, e.area.width, px);
    TileOfPixel(e.area.y, e.area.height, py);
  }

  /** The centre pixel of the target tile, where the side triangles meet. */
  function TargetCentre(e: AIElement): Point {
    Point(e.target.x * TileSize + TileSize / 2, e.target.y * TileSize + TileSize / 2)
  }

  datatype Side = TopSide | RightSide | BottomSide | LeftSide

  /** The guard of each Paint*Side: whether that side's triangle to the target is filled. */
  predicate SideShown(side: Side, area: Rectangle, target: Point) {
    match side
    case TopSide => target.y > area.Top()
    case RightSide => target.x < area.Right()
    case BottomSide => target.y < area.Bottom()
    case LeftSide => target.x > area.Left()
  }

  /** The sides DrawAIElement considers for each shape of area. */
  function ShapeSides(shape: AreaShape): set<Side> {
    match shape
    case Rectangular => {TopSide, RightSide, BottomSide, LeftSide}
    case TriangleTopLeft => {TopSide, LeftSide}
    case TriangleTopRight => {TopSide, RightSide}
    case TriangleBottomRight => {BottomSide, RightSide}
    case TriangleBottomLeft => {BottomSide, LeftSide}
  }

  /** The sides of an AI element that get painted. */
  function PaintedSides(e: AIElement): set<Side> {
    set s | s in ShapeSides(e.shape) && SideShown(s, AIAreaRectangle(e), TargetCentre(e))
  }

  /** A side is shown exactly when the target tile is on the area's side of that edge. */
  lemma SideShownIffTargetInward(e: AIElement, s: Side)
    ensures SideShown(s, AIAreaRectangle(e), TargetCentre(e)) <==>
      match s
      case TopSide => e.area.Top() <= e.target.y
      case RightSide => e.target.x < e.area.Right()
      case BottomSide => e.target.y < e.area.Bottom()
      case LeftSide => e.area.Left() <= e.target.x
  {
  }

  /** A rectangular area gets all four sides painted exactly when its target tile is inside it. */
  lemma RectangleAllSidesIffTargetInside(e: AIElement)
    requires e.shape == Rectangular
    ensures PaintedSides(e) == ShapeSides(Rectangular) <==> e.area.Contains(e.target.x, e.target.y)
  {
    SideShownIffTargetInward(e, TopSide);
    SideShownIffTargetInward(e, RightSide);
    SideShownIffTargetInward(e, BottomSide);
    SideShownIffTargetInward(e, LeftSide);
    if !e.area.Contains(e.target.x, e.target.y) {
      var missing :|
        missing in ShapeSides(Rectangular) &&
        !SideShown(missing, AIAreaRectangle(e), TargetCentre(e));
      assert missing !in PaintedSides(e);
    }
  }

  /** The least number of corners the end corrections of each shape index into. */
  function MinCorners(shape: AreaShape): nat {
    match shape
    case TriangleTopRight => 2
    case TriangleBottomRight => 3
    case TriangleBottomLeft => 3
    case _ => 0
  }

  /** The (x, y) pixel pulled back from a scaled corner not on the area's left or top edge. */
  function CorrectionStep(shape: AreaShape): (int, int) {
    match shape
    case TriangleTopRight => (0, 1)
    case TriangleBottomRight => (0, 0)
    case TriangleBottomLeft => (1, 0)
    case _ => (1, 1)
  }

  /** One corner scaled to pixels, pulled back by the step unless it lies on the area's left or top edge. */
  function CorrectCorner(p: Point, area: Rectangle, shape: AreaShape): Point {
    var (xStep, yStep) := CorrectionStep(shape);
    Point(p.x * TileSize - (if p.x == area.Left() then 0 else xStep),
          p.y * TileSize - (if p.y == area.Top() then 0 else yStep))
  }

  function Shift(p: Point, dx: int, dy: int): Point {
    Point(p.x + dx, p.y + dy)
  }

  /** The fixed per-shape nudges, indexed from both ends of the corner list, applied in order. */
  function EndFix(s: seq<Point>, shape: AreaShape): (r: seq<Point>)
    requires MinCorners(shape) <= |s|
    ensures |r| == |s|
  {
    var n := |s|;
    match shape
    case TriangleTopRight =>
      var s1 := s[0 := Shift(s[0], -1, 0)];
      var s2 := s1[n - 2 := Shift(s1[n - 2], -1, 0)];
      s2[n - 1 := Shift(s2[n - 1], -1, 0)]
    case TriangleBottomRight =>
      var s1 := s[0 := Shift(s[0], -1, 0)];
      var s2 := s1[n - 3 := Shift(s1[n - 3], 0, -1)];
      var s3 := s2[n - 2 := Shift(s2[n - 2], -1, -1)];
      s3[n - 1 := Shift(s3[n - 1], -1, 0)]
    case TriangleBottomLeft =>
      var s1 := s[n - 3 := Shift(s[n - 3], 0, -1)];
      s1[n - 2 := Shift(s1[n - 2], 0, -1)]
    case _ => s
  }

  /** Every corner scaled and corrected, before the end nudges. */
  function CorrectedCorners(corners: seq<Point>, e: AIElement): (r: seq<Point>)
    ensures |r| == |corners|
    ensures forall i :: 0 <= i < |corners| ==> r[i] == CorrectCorner(corners[i], e.area, e.shape)
  {
    seq(|corners|, i requires 0 <= i < |corners| => CorrectCorner(corners[i], e.area, e.shape))
  }

  /** The polygon GetAIAreaTriangle makes of the triangle's corners, in tiles. */
  function TriangleOutline(corners: seq<Point>, e: AIElement): (r: seq<Point>)
    requires MinCorners(e.shape) <= |corners|
    ensures |r| == |corners|
  {
    EndFix(CorrectedCorners(corners, e), e.shape)
  }

  /**
   * For a triangle of at least three corners, every corner ends up on its
   * scaled pixel or at most one pixel left of it and one pixel above it.
   */
  lemma TriangleCornersMoveAtMostOnePixel(corners: seq<Point>, e: AIElement, i: nat)
    requires 3 <= |corners| && i < |corners|
    ensures TriangleOutline(corners, e)[i].x in {corners[i].x * TileSize - 1, corners[i].x * TileSize}
    ensures TriangleOutline(corners, e)[i].y in {corners[i].y * TileSize - 1, corners[i].y * TileSize}
  {
    var c := CorrectedCorners(corners, e);
    var n := |corners|;
    assert c[i] == CorrectCorner(corners[i], e.area, e.shape);
    match e.shape {
      case TriangleTopRight =>
        assert i == 0 || i == n - 2 || i == n - 1 ==> TriangleOutline(corners, e)[i] == Shift(c[i], -1, 0);
      case TriangleBottomRight =>
        if i == 0 && i == n - 3 {
          assert TriangleOutline(corners, e)[i] == Shift(c[i], -1, -1);
        }
      case TriangleBottomLeft =>
      case _ =>
    }
  }

  /**
   * For a top-left triangle no end nudge applies: a corner keeps its scaled
   * x exactly when it lies on the area's left edge, and its scaled y exactly
   * when it lies on the top edge.
   */
  lemma TopLeftCornerAnchoredIffOnEdge(corners: seq<Point>, e: AIElement, i: nat)
    requires e.shape == TriangleTopLeft && i < |corners|
    ensures TriangleOutline(corners, e)[i].x == corners[i].x * TileSize <==> corners[i].x == e.area.Left()
    ensures TriangleOutline(corners, e)[i].y == corners[i].y * TileSize <==> corners[i].y == e.area.Top()
  {
    assert TriangleOutline(corners, e) == CorrectedCorners(corners, e);
  }

  /**
   * GetAIAreaTriangle: scales and corrects the triangle's corners in place,
   * then nudges the corners its shape needs.
   */
  method GetAIAreaTriangle(e: AIElement, points: array<Point>)
    requires MinCorners(e.shape) <= points.Length
    modifies points
    ensures points[..] == TriangleOutline(old(points[..]), e)
  {
    var (xStep, yStep) := CorrectionStep(e.shape);
    for i := 0 to points.Length
      invariant points[i..] == old(points[i..])
      invariant forall k :: 0 <= k < i ==> points[k] == CorrectCorner(old(points[k]), e.area, e.shape)
    {
      var xCorrection := if points[i].x == e.area.Left() then 0 else xStep;
      var yCorrection := if points[i].y == e.area.Top() then 0 else yStep;
      points[i] := Point(points[i].x * TileSize - xCorrection, points[i].y * TileSize - yCorrection);
    }
    assert points[..] == CorrectedCorners(old(points[..]), e);
    var n := points.Length;
    match e.shape {
      case TriangleTopRight =>
        points[0] := Shift(points[0], -1, 0);
        points[n - 2] := Shift(points[n - 2], -1, 0);
        points[n - 1] := Shift(points[n - 1], -1, 0);
      case TriangleBottomRight =>
        points[0] := Shift(points[0], -1, 0);
        points[n - 3] := Shift(points[n - 3], 0, -1);
        points[n - 2] := Shift(points[n - 2], -1, -1);
        points[n - 1] := Shift(points[n - 1], -1, 0);
      case TriangleBottomLeft =>
        points[n - 3] := Shift(points[n - 3], 0, -1);
        points[n - 2] := Shift(points[n - 2], 0, -1);
      case _ =>
    }
  }

  // ---------------------------------------------------------------------
  // Object areas

  /** Each row of `grid` is no longer than the row at the same index of `cached`. */
  predicate FitsIn(grid: seq<seq<byte>>, cached: seq<seq<byte>>) {
    |grid| <= |cached| && forall y :: 0 <= y < |grid| ==> |grid[y]| <= |cached[y]|
  }

  /** Some cell of `grid` differs from the cell at the same place in `cached`. */
  predicate SomeCellDiffers(cached: seq<seq<byte>>, grid: seq<seq<byte>>)
    requires FitsIn(grid, cached)
  {
    exists y, x :: 0 <= y < |grid| && 0 <= x < |grid[y]| && cached[y][x] != grid[y][x]
  }

  /**
   * Whether the object-area grid must be redrawn: always when none is cached,
   * otherwise when some cell of the new grid differs from the cached one.
   */
  method ObjectAreasChanged(cached: Option<seq<seq<byte>>>, grid: seq<seq<byte>>) returns (changed: bool)
    requires cached.Some? ==> FitsIn(grid, cached.value)
    ensures changed <==> cached.None? || SomeCellDiffers(cached.value, grid)
  {
    if cached.None? {
      return true;
    }
    var previous := cached.value;
    for y := 0 to |grid|
      invariant forall y', x :: 0 <= y' < y && 0 <= x < |grid[y']| ==> previous[y'][x] == grid[y'][x]
    {
      for x := 0 to |grid[y]|
        invariant forall x' :: 0 <= x' < x ==> previous[y][x'] == grid[y][x']
      {
        if previous[y][x] != grid[y][x] {
          return true;
        }
      }
    }
    return false;
  }

  /** For grids of the same shape, no cell differs exactly when the grids are equal. */
  lemma NoCellDiffersIffSameGrid(cached: seq<seq<byte>>, grid: seq<seq<byte>>)
    requires |cached| == |grid| && forall y :: 0 <= y < |grid| ==> |grid[y]| == |cached[y]|
    ensures !SomeCellDiffers(cached, grid) <==> cached == grid
  {
    if !SomeCellDiffers(cached, grid) {
      forall y | 0 <= y < |grid| ensures cached[y] == grid[y] {
        assert forall x :: 0 <= x < |grid[y]| ==> cached[y][x] == grid[y][x];
      }
    }
  }

  /**
   * The area group of object `i`: objects come in groups of four consecutive
   * ones, so the sixteen regular objects fall in groups 0 to 3.
   */
  function AreaGroup(i: nat): (g: nat)
    ensures 4 * g <= i < 4 * g + 4
    ensures i < TrackObjectTable.RegularObjectCount ==> g < 4
  {
    i / 4
  }

  /** The object at tile `tile` lies in a grid cell that is not an area of its group. */
  predicate OutOfArea(areas: seq<seq<byte>>, i: nat, tile: Point)
    requires 0 <= tile.y / Precision < |areas| && 0 <= tile.x / Precision < |areas[tile.y / Precision]|
  {
    areas[tile.y / Precision][tile.x / Precision] as int != AreaGroup(i)
  }

  /**
   * The grid cell (cx, cy) that holds the object's tile decides: the object is
   * out of its area exactly when that cell's group is not `i / 4`.
   */
  lemma OutOfAreaIffCellOfOtherGroup(areas: seq<seq<byte>>, i: nat, tile: Point, cx: int, cy: int)
    requires cx * Precision <= tile.x < cx * Precision + Precision
    requires cy * Precision <= tile.y < cy * Precision + Precision
    requires 0 <= cy < |areas| && 0 <= cx < |areas[cy]|
    ensures 0 <= tile.y / Precision < |areas| && 0 <= tile.x / Precision < |areas[tile.y / Precision]|
    ensures OutOfArea(areas, i, tile) <==> areas[cy][cx] as int != i / 4
  {
    assert tile.x / Precision == cx;
    assert tile.y / Precision == cy;
  }

  // ---------------------------------------------------------------------
  // GP start grid

  /** The arrows of the GP start grid in drawing order: two columns, each arrow three tiles below the last. */
  function GPStartArrows(x: int, y: int, secondRowOffset: int): (r: seq<Point>)
    ensures |r| == 8
  {
    seq(8, j => Point(if j % 2 == 0 then x else x + secondRowOffset, y + 3 * j * TileSize))
  }

  /** The arrow positions DrawGPStartPositions draws, in order. */
  method DrawGPStartPositions(x: int, y: int, secondRowOffset: int) returns (arrows: seq<Point>)
    ensures arrows == GPStartArrows(x, y, secondRowOffset)
  {
    arrows := [];
    var pos := 0;
    while pos <= 18
      invariant pos % 6 == 0 && 0 <= pos <= 24
      invariant arrows == GPStartArrows(x, y, secondRowOffset)[..pos / 3]
    {
      arrows := arrows + [Point(x, y + pos * TileSize)];
      arrows := arrows + [Point(x + secondRowOffset, y + (3 + pos) * TileSize)];
      pos := pos + 6;
    }
  }
}
