/**
  The tile grid of the world: a fixed 5 x 5 grid of purchasable tiles.
  `BuildGrid` hands out ids 1..25 with a nested loop, the outer index
  giving the x coordinate and the inner index the z coordinate, and
  records each tile's position in an id -> position map.
 */
module TileGrid {

  /** Tiles per side of the grid. */
  const GridSize: int := 5
  /** Both loops run from -GridHalf to GridHalf inclusive. */
  const GridHalf: int := 2
  /** World units per tile. */
  const TileSize: int := 4
  /** Height at which every tile sits. */
  const TileY: real := 0.1

  /** A world-space position, as the [x, y, z] triple of the source. */
  datatype Position = Position(x: real, y: real, z: real)

  /** One rendered tile: its id, its position and whether it is shown as owned. */
  datatype Tile = Tile(id: int, position: Position, purchased: bool)

  predicate ValidId(id: int) {
    1 <= id <= GridSize * GridSize
  }

  predicate ValidIndex(i: int) {
    -GridHalf <= i <= GridHalf
  }

  /** The id the loop counter holds when the outer index is `i` and the inner index is `j`. */
  function CellId(i: int, j: int): (id: int)
    requires ValidIndex(i) && ValidIndex(j)
    ensures ValidId(id)
  {
    (i + GridHalf) * GridSize + (j + GridHalf) + 1
  }

  /** The outer loop index (x axis) of tile `id`. */
  function OuterIndex(id: int): (i: int)
    requires ValidId(id)
    ensures ValidIndex(i)
  {
    (id - 1) / GridSize - GridHalf
  }

  /** The inner loop index (z axis) of tile `id`. */
  function InnerIndex(id: int): (j: int)
    requires ValidId(id)
    ensures ValidIndex(j)
  {
    (id - 1) % GridSize - GridHalf
  }

  /** The position the grid gives to tile `id`. */
  function TilePosition(id: int): (p: Position)
    requires ValidId(id)
    ensures p.y == TileY
    ensures -(GridHalf * TileSize) as real <= p.x <= (GridHalf * TileSize) as real
    ensures -(GridHalf * TileSize) as real <= p.z <= (GridHalf * TileSize) as real
  {
    Position((OuterIndex(id) * TileSize) as real, TileY, (InnerIndex(id) * TileSize) as real)
  }

  /** Reading the loop indices back from the id the loop gave them. */
  lemma CellIdRoundTrip(i: int, j: int)
    requires ValidIndex(i) && ValidIndex(j)
    ensures OuterIndex(CellId(i, j)) == i && InnerIndex(CellId(i, j)) == j
  {
    var k := (i + GridHalf) * GridSize + (j + GridHalf);
    assert CellId(i, j) - 1 == k;
    assert 0 <= j + GridHalf < GridSize;
    assert k / GridSize == i + GridHalf && k % GridSize == j + GridHalf;
  }

  /** Every id in range is the one the loop gives to its own indices. */
  lemma IdRoundTrip(id: int)
    requires ValidId(id)
    ensures CellId(OuterIndex(id), InnerIndex(id)) == id
  {
    var k := id - 1;
    assert k == (k / GridSize) * GridSize + k % GridSize;
  }

  /** Distinct tiles never share a position: the id -> position map is injective. */
  lemma TilePositionInjective(a: int, b: int)
    requires ValidId(a) && ValidId(b)
    requires a != b
    ensures TilePosition(a) != TilePosition(b)
  {
    IdRoundTrip(a);
    IdRoundTrip(b);
    assert OuterIndex(a) != OuterIndex(b) || InnerIndex(a) != InnerIndex(b);
  }

  /** Every position on the 4-unit lattice of the grid belongs to exactly one tile. */
  lemma TilePositionSurjective(i: int, j: int)
    requires ValidIndex(i) && ValidIndex(j)
    ensures TilePosition(CellId(i, j)) == Position((i * TileSize) as real, TileY, (j * TileSize) as real)
  {
    CellIdRoundTrip(i, j);
  }

  /** Concrete corners and centre of the grid. */
  lemma GridLandmarks()
    ensures TilePosition(1) == Position(-8.0, 0.1, -8.0)
    ensures TilePosition(2) == Position(-8.0, 0.1, -4.0)
    ensures TilePosition(13) == Position(0.0, 0.1, 0.0)
    ensures TilePosition(25) == Position(8.0, 0.1, 8.0)
  {
  }

  /**
    The TileGrid component body: the nested loops give ids 1..25 in order,
    store each id's position in the map and emit one tile per id, marked as
    purchased exactly when its id is in `purchasedTiles`.
   */
  method BuildGrid(purchasedTiles: seq<int>) returns (tiles: seq<Tile>, positionMap: map<int, Position>)
    ensures |tiles| == GridSize * GridSize
    ensures forall k :: 0 <= k < |tiles| ==>
      tiles[k].id == k + 1 &&
      tiles[k].position == TilePosition(k + 1) &&
      (tiles[k].purchased <==> k + 1 in purchasedTiles)
    ensures forall id :: id in positionMap <==> ValidId(id)
    ensures forall id :: id in positionMap ==> positionMap[id] == TilePosition(id)
  {
    tiles := [];
    positionMap := map[];
    var id := 1;
    for i := -GridHalf to GridHalf + 1
      invariant id == (i + GridHalf) * GridSize + 1
      invariant |tiles| == id - 1
      invariant forall k :: 0 <= k < |tiles| ==>
        tiles[k].id == k + 1 &&
        tiles[k].position == TilePosition(k + 1) &&
        (tiles[k].purchased <==> k + 1 in purchasedTiles)
      invariant forall n :: n in positionMap <==> 1 <= n < id
      invariant forall n :: n in positionMap ==> 1 <= n < id && positionMap[n] == TilePosition(n)
    {
      for j := -GridHalf to GridHalf + 1
        invariant id == (i + GridHalf) * GridSize + (j + GridHalf) + 1
        invariant |tiles| == id - 1
        invariant forall k :: 0 <= k < |tiles| ==>
          tiles[k].id == k + 1 &&
          tiles[k].position == TilePosition(k + 1) &&
          (tiles[k].purchased <==> k + 1 in purchasedTiles)
        invariant forall n :: n in positionMap <==> 1 <= n < id
        invariant forall n :: n in positionMap ==> 1 <= n < id && positionMap[n] == TilePosition(n)
      {
        var x := i * TileSize;
        var z := j * TileSize;
        var position := Position(x as real, TileY, z as real);
        TilePositionSurjective(i, j);
        assert id == CellId(i, j);
        positionMap := positionMap[id := position];
        tiles := tiles + [Tile(id, position, id in purchasedTiles)];
        id := id + 1;
      }
    }
  }
}
