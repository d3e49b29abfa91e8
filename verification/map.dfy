/** The terrain grid of the game server: a fixed glyph -> terrain table, the
    terrain type predicates, and a 256 x 256 map chunk with a half-open
    bounding rectangle that guards every grid lookup.

    The source shares one Terrain object per glyph between all the cells that
    use it; the model keeps terrain as values, which is the same as long as
    nothing mutates a shared Terrain (nothing here does). */
module GoLandMap {
  import opened Basics
  import opened Termbox

  /** TerrainType: an unsigned 32-bit word. */
  newtype TerrainType = t: int | 0 <= t < 0x1_0000_0000

  const MapWidth: Int64 := 256
  const MapHeight: Int64 := 256

  /** The type constants continue the iota count of the const block that
      starts with the two map dimensions, so they are 2, 3 and 4. */
  const TEmpty: TerrainType := 2
  const TWall: TerrainType := 3   // can't pass or see through
  const TFloor: TerrainType := 4  // passable and visible

  const MapEmptyCell: Cell := Cell(' ', ColorDefault, ColorDefault)
  const MapWallCell: Cell := Cell('#', ColorDefault, ColorDefault)
  const MapFloorCell: Cell := Cell('.', ColorWhite, ColorDefault)

  /** Terrain: its glyph, its type and three flags. */
  datatype Terrain = Terrain(glyph: Cell, kind: TerrainType, edge: bool, seen: bool, lit: bool)

  const EmptyTerrain: Terrain := Terrain(MapEmptyCell, TEmpty, false, false, true)
  const WallTerrain: Terrain := Terrain(MapWallCell, TWall, true, false, true)
  const FloorTerrain: Terrain := Terrain(MapFloorCell, TFloor, false, false, true)

  const GlyphTable: map<char, Terrain> :=
    map[' ' := EmptyTerrain, '#' := WallTerrain, '.' := FloorTerrain]

  /** The terrain a map glyph stands for; None (nil) for any other rune. */
  function GlyphToTerrain(g: char): (r: Option<Terrain>)
    ensures g == ' ' ==> r.Some? && IsEmpty(r.value) && r.value.glyph.ch == g
    ensures g == '#' ==> r.Some? && IsWall(r.value) && r.value.glyph.ch == g
    ensures g == '.' ==> r.Some? && IsFloor(r.value) && r.value.glyph.ch == g
    ensures g != ' ' && g != '#' && g != '.' ==> r == None
  {
    Get(GlyphTable, g)
  }

  predicate IsEmpty(t: Terrain) { t.kind == TEmpty }
  predicate IsWall(t: Terrain) { t.kind == TWall }
  predicate IsFloor(t: Terrain) { t.kind == TFloor }

  /** The type constants are pairwise distinct, so no terrain satisfies two
      of the type predicates. */
  lemma TypePredicatesExclusive(t: Terrain)
    ensures !(IsEmpty(t) && IsWall(t))
    ensures !(IsEmpty(t) && IsFloor(t))
    ensures !(IsWall(t) && IsFloor(t))
  {
  }

  /** Every terrain of the glyph table satisfies exactly one type predicate,
      its glyph is the glyph it is filed under, only the wall is an edge,
      none is seen and all are lit. */
  lemma GlyphTableEntries(g: char)
    requires g in GlyphTable
    ensures var t := GlyphTable[g];
            && (IsEmpty(t) || IsWall(t) || IsFloor(t))
            && t.glyph.ch == g
            && (t.edge <==> IsWall(t))
            && !t.seen && t.lit
  {
  }

  /** image.Point */
  datatype Point = Point(x: Int64, y: Int64)

  /** image.Rectangle: Min inclusive, Max exclusive. */
  datatype Rectangle = Rectangle(min: Point, max: Point)

  /** image.Point.In: p lies in the half-open rectangle r. */
  predicate In(p: Point, r: Rectangle)
  {
    r.min.x <= p.x && p.x < r.max.x && r.min.y <= p.y && p.y < r.max.y
  }

  /** MapChunk: Locations[x][y] is the terrain of column x, row y; a cell
      may be nil. The object, monster and player lists are not modelled. */
  datatype MapChunk = MapChunk(size: Point, rect: Rectangle, locations: seq<seq<Option<Terrain>>>)

  /** The grid covers the rectangle: every point of the rectangle indexes
      Locations directly, so Min must be non-negative and the columns long
      enough. */
  ghost predicate WellFormed(mc: MapChunk)
  {
    && 0 <= mc.rect.min.x && 0 <= mc.rect.min.y
    && mc.rect.max.x <= |mc.locations|
    && forall x :: mc.rect.min.x <= x < mc.rect.max.x ==> mc.rect.max.y <= |mc.locations[x]|
  }

  /** What NewMapChunk promises: 256 x 256, rectangle [0,256) x [0,256),
      256 columns of 256 cells each, every cell the floor terrain. */
  ghost predicate IsFreshChunk(mc: MapChunk)
  {
    && mc.size == Point(MapWidth, MapHeight)
    && mc.rect == Rectangle(Point(0, 0), Point(MapWidth, MapHeight))
    && |mc.locations| == MapWidth as int
    && (forall x :: 0 <= x < MapWidth ==> |mc.locations[x]| == MapHeight as int)
    && (forall x, y :: 0 <= x < MapWidth && 0 <= y < MapHeight ==> mc.locations[x][y] == Some(FloorTerrain))
  }

  /** NewMapChunk: allocate 256 columns of 256 nil cells, then fill every
      cell with the floor glyph's terrain. */
  method NewMapChunk() returns (mc: MapChunk)
    ensures IsFreshChunk(mc)
    ensures WellFormed(mc)
  {
    var nilColumn: seq<Option<Terrain>> := seq(MapHeight, _ => None);
    var locations := seq(MapWidth, _ => nilColumn);
    var floor := GlyphToTerrain('.');
    assert floor == Some(FloorTerrain);
    var x := 0;
    while x < MapWidth
      invariant 0 <= x <= MapWidth
      invariant |locations| == MapWidth as int
      invariant forall c :: 0 <= c < MapWidth ==> |locations[c]| == MapHeight as int
      invariant forall c, r :: 0 <= c < x && 0 <= r < MapHeight ==> locations[c][r] == floor
    {
      var y := 0;
      while y < MapHeight
        invariant 0 <= y <= MapHeight
        invariant |locations| == MapWidth as int
        invariant forall c :: 0 <= c < MapWidth ==> |locations[c]| == MapHeight as int
        invariant forall c, r :: 0 <= c < x && 0 <= r < MapHeight ==> locations[c][r] == floor
        invariant forall r :: 0 <= r < y ==> locations[x][r] == floor
      {
        locations := locations[x := locations[x][y := floor]];
        y := y + 1;
      }
      x := x + 1;
    }
    mc := MapChunk(Point(MapWidth, MapHeight), Rectangle(Point(0, 0), Point(MapWidth, MapHeight)), locations);
  }

  /** HasCell: the chunk has a cell at pt exactly when pt lies in its
      half-open rectangle. */
  function HasCell(mc: MapChunk, pt: Point): (r: bool)
    ensures r <==> mc.rect.min.x <= pt.x < mc.rect.max.x && mc.rect.min.y <= pt.y < mc.rect.max.y
  {
    In(pt, mc.rect)
  }

  /** GetTerrain: (nil, false) outside the rectangle, otherwise the stored
      cell and true. Never indexes outside the grid of a well-formed chunk. */
  function GetTerrain(mc: MapChunk, pt: Point): (r: (Option<Terrain>, bool))
    requires WellFormed(mc)
    ensures r.1 <==> HasCell(mc, pt)
    ensures !r.1 ==> r.0 == None
    ensures r.1 ==> 0 <= pt.x < |mc.locations| && 0 <= pt.y < |mc.locations[pt.x]|
                    && r.0 == mc.locations[pt.x][pt.y]
  {
    if !HasCell(mc, pt) then (None, false)
    else (mc.locations[pt.x][pt.y], true)
  }

  /** A fresh chunk is well formed, and looking a point up in it yields the
      floor terrain inside [0,256) x [0,256) and (nil, false) elsewhere. */
  lemma FreshChunkLookup(mc: MapChunk, pt: Point)
    requires IsFreshChunk(mc)
    ensures WellFormed(mc)
    ensures (0 <= pt.x < 256 && 0 <= pt.y < 256) ==> GetTerrain(mc, pt) == (Some(FloorTerrain), true)
    ensures !(0 <= pt.x < 256 && 0 <= pt.y < 256) ==> GetTerrain(mc, pt) == (None, false)
  {
  }
}
