/**
  Scenery placement, run once when the world mounts: rejection sampling
  of up to 100 decorative items in the square [-20, 20) x [-20, 20),
  outside the square that holds the tile grid and at least two units
  from every item placed before. The platform's random number source is
  an injected stream `rand` whose every value lies in [0, 1); a cursor
  counts how many values have been drawn. Exact reals stand for
  floating point, and "distance < d" is written as "squared distance < d * d".
 */
module Scenery {
  import TileGrid
  import opened Optional

  /** Passes of the placement loop, one per wanted item. */
  const TotalAssets: nat := 100
  /** Candidates are drawn from [-WorldRadius, WorldRadius) on each axis. */
  const WorldRadius: real := 20.0
  /** Candidates drawn per item before it is given up. */
  const MaxTries: nat := 30
  /** Collision radius of every scenery item. */
  const AssetRadius: real := 1.0
  /**
    Half-width of the excluded square: half the grid's width plus a buffer
    of one unit, (5 / 2) * 4 + 1 (ExcludedZoneFromGrid).
   */
  const ExcludedZone: real := 11.0

  /** A point on the ground plane (its height is always 0). */
  datatype Point = Point(x: real, z: real)

  /** An entry of the asset catalog: a model and the range its scale is drawn from. */
  datatype AssetType = AssetType(model: string, scaleMin: real, scaleMax: real)

  /** A placed scenery item. */
  datatype SceneryItem = SceneryItem(pos: Point, radius: real, model: string, scale: real)

  /** The catalog the world draws its scenery from. */
  const AssetTypes: seq<AssetType> := [
    AssetType("/models/tree_oak.glb", 1.0, 3.0),
    AssetType("/models/tree_cone.glb", 1.0, 3.0),
    AssetType("/models/tree_thin.glb", 1.0, 3.0),
    AssetType("/models/tree_palmDetailedTall.glb", 1.0, 3.0),
    AssetType("/models/tent_detailedOpen.glb", 1.0, 3.0),
    AssetType("/models/tent_detailedClosed.glb", 1.0, 3.0),
    AssetType("/models/tent_detailedOpen.glb", 4.0, 6.0),
    AssetType("/models/tree_oak.glb", 3.5, 5.0),
    AssetType("/models/tree_cone.glb", 1.0, 3.0),
    AssetType("/models/tree_thin.glb", 1.0, 3.0),
    AssetType("/models/tree_palmDetailedTall.glb", 1.0, 3.0),
    AssetType("/models/tree_blocks_fall.glb", 1.0, 3.0),
    AssetType("/models/tree_cone_fall.glb", 1.0, 3.0),
    AssetType("/models/tree_default.glb", 1.0, 3.0),
    AssetType("/models/tree_detailed.glb", 1.0, 3.0),
    AssetType("/models/tree_fat.glb", 1.0, 3.0),
    AssetType("/models/tree_palm.glb", 1.0, 3.0),
    AssetType("/models/tree_palmBend.glb", 1.0, 3.0),
    AssetType("/models/tree_palmTall.glb", 1.0, 3.0),
    AssetType("/models/tree_pineDefaultA.glb", 1.0, 3.0),
    AssetType("/models/tree_pineGroundA.glb", 1.0, 3.0),
    AssetType("/models/tree_pineRoundB.glb", 1.0, 3.0),
    AssetType("/models/tree_pineTallA.glb", 1.0, 3.0),
    AssetType("/models/tree_plateau.glb", 1.0, 3.0),
    AssetType("/models/tree_tall.glb", 1.0, 3.0),
    AssetType("/models/tree_pineTallD.glb", 1.0, 3.0)
  ]

  /** A catalog the generator can draw from: not empty, and every scale range non-empty. */
  predicate WellFormedCatalog(catalog: seq<AssetType>) {
    |catalog| > 0 &&
    forall k :: 0 <= k < |catalog| ==> catalog[k].scaleMin < catalog[k].scaleMax
  }

  /** Every value the random source yields lies in [0, 1). */
  ghost predicate ValidRandom(rand: nat -> real) {
    forall n: nat :: 0.0 <= rand(n) < 1.0
  }

  function Abs(x: real): real {
    if x < 0.0 then -x else x
  }

  function SqDist(p: Point, q: Point): real {
    (p.x - q.x) * (p.x - q.x) + (p.z - q.z) * (p.z - q.z)
  }

  /**
    Inside the open square (-11, 11) x (-11, 11) around the tile grid,
    where no scenery may stand; it covers every point of every tile.
   */
  predicate InExcludedZone(p: Point): (b: bool)
    ensures b <==> -ExcludedZone < p.x < ExcludedZone && -ExcludedZone < p.z < ExcludedZone
    ensures forall id ::
      (TileGrid.ValidId(id) &&
       Abs(p.x - TileGrid.TilePosition(id).x) <= TileGrid.TileSize as real / 2.0 &&
       Abs(p.z - TileGrid.TilePosition(id).z) <= TileGrid.TileSize as real / 2.0) ==> b
  {
    Abs(p.x) < ExcludedZone && Abs(p.z) < ExcludedZone
  }

  /** Inside the sampling square [-WorldRadius, WorldRadius) on both axes. */
  predicate InWorld(p: Point) {
    -WorldRadius <= p.x < WorldRadius && -WorldRadius <= p.z < WorldRadius
  }

  /**
    A new item at `p` would overlap one of the items already placed.
    Nothing collides with an empty list, and a point that collides with
    none of the items of the fixed radius is two radii from each of them.
   */
  predicate Collides(placed: seq<SceneryItem>, p: Point): (b: bool)
    ensures b ==> |placed| > 0
    ensures !b ==> forall k :: 0 <= k < |placed| && placed[k].radius == AssetRadius ==>
      SqDist(placed[k].pos, p) >= (2.0 * AssetRadius) * (2.0 * AssetRadius)
  {
    exists k | 0 <= k < |placed| ::
      SqDist(placed[k].pos, p) < (placed[k].radius + AssetRadius) * (placed[k].radius + AssetRadius)
  }

  /**
    A candidate the placement loop keeps. An accepted candidate of the
    sampling square lies in the band between the excluded square and the
    border; with nothing placed yet, leaving the excluded square is enough.
   */
  predicate Accepted(placed: seq<SceneryItem>, p: Point): (b: bool)
    ensures b && InWorld(p) ==>
      (ExcludedZone <= Abs(p.x) <= WorldRadius || ExcludedZone <= Abs(p.z) <= WorldRadius)
    ensures placed == [] ==> (b <==> !InExcludedZone(p))
  {
    !InExcludedZone(p) && !Collides(placed, p)
  }

  /** `(Math.random() - 0.5) * worldRadius * 2`: one coordinate drawn from random value `r`. */
  function Coordinate(r: real): (c: real)
    ensures 0.0 <= r < 1.0 ==> -WorldRadius <= c < WorldRadius
  {
    (r - 0.5) * WorldRadius * 2.0
  }

  /**
    The candidate whose x is drawn at cursor `c` of the stream and whose z
    at `c + 1`; from a valid stream it lies in the sampling square.
   */
  function CandidateAt(rand: nat -> real, c: nat): (p: Point)
    ensures ValidRandom(rand) ==> InWorld(p)
  {
    Point(Coordinate(rand(c)), Coordinate(rand(c + 1)))
  }

  /** `Math.random() * w`: a random value spread over [0, w). */
  function Fraction(r: real, w: real): (f: real)
    requires 0.0 <= r < 1.0
    requires 0.0 < w
    ensures 0.0 <= f < w
  {
    r * w
  }

  /** `Math.floor(Math.random() * n)`: the catalog index picked by random value `r`. */
  function PickIndex(r: real, n: nat): (k: int)
    requires 0.0 <= r < 1.0
    requires n > 0
    ensures 0 <= k < n
  {
    Fraction(r, n as real).Floor
  }

  /** `min + Math.random() * (max - min)`: the scale drawn by random value `r` for asset type `t`. */
  function ScaleFrom(r: real, t: AssetType): (s: real)
    requires 0.0 <= r < 1.0
    requires t.scaleMin < t.scaleMax
    ensures t.scaleMin <= s < t.scaleMax
  {
    t.scaleMin + Fraction(r, t.scaleMax - t.scaleMin)
  }

  /**
    The search for a free spot among the candidates drawn from cursor
    `cursor` on, two draws per try, while a whole try still fits before
    `end`: the cursor of the first accepted candidate, or None when every
    one is rejected.
   */
  function FirstFree(placed: seq<SceneryItem>, rand: nat -> real, cursor: nat, end: nat): (found: Option<nat>)
    decreases end - cursor
    ensures found.Some? ==> cursor <= found.value && found.value + 2 <= end
    ensures found.Some? ==> Accepted(placed, CandidateAt(rand, found.value))
  {
    if end < cursor + 2 then None
    else if Accepted(placed, CandidateAt(rand, cursor)) then Some(cursor)
    else FirstFree(placed, rand, cursor + 2, end)
  }

  /** A search that finds nothing has rejected every candidate it drew. */
  lemma {:induction false} FirstFreeNone(placed: seq<SceneryItem>, rand: nat -> real, cursor: nat, end: nat)
    requires FirstFree(placed, rand, cursor, end).None?
    ensures forall d :: cursor <= d && d + 2 <= end && (d - cursor) % 2 == 0 ==>
      !Accepted(placed, CandidateAt(rand, d))
    decreases end - cursor
  {
    if cursor + 2 <= end {
      FirstFreeNone(placed, rand, cursor + 2, end);
    }
  }

  /** A search that finds a spot has rejected every candidate drawn before it. */
  lemma {:induction false} FirstFreeSome(placed: seq<SceneryItem>, rand: nat -> real, cursor: nat, end: nat)
    requires FirstFree(placed, rand, cursor, end).Some?
    ensures (FirstFree(placed, rand, cursor, end).value - cursor) % 2 == 0
    ensures forall d :: cursor <= d < FirstFree(placed, rand, cursor, end).value && (d - cursor) % 2 == 0 ==>
      !Accepted(placed, CandidateAt(rand, d))
    decreases end - cursor
  {
    if FirstFree(placed, rand, cursor, end).value != cursor {
      FirstFreeSome(placed, rand, cursor + 2, end);
    }
  }

  /**
    The inner `while (tries < 30)` loop: one candidate per try, drawn from
    the stream at `start`, stopping at the first one outside the excluded
    zone that collides with no placed item. Returns that candidate, if
    any, and the number of tries used.
   */
  method FindSpot(placed: seq<SceneryItem>, rand: nat -> real, start: nat) returns (pos: Option<Point>, tries: nat)
    ensures 1 <= tries <= MaxTries
    ensures match FirstFree(placed, rand, start, start + 2 * MaxTries)
      case Some(c) => pos == Some(CandidateAt(rand, c)) && start + 2 * tries == c + 2
      case None => pos == None && tries == MaxTries
  {
    pos := None;
    tries := 0;
    var cursor := start;
    while tries < MaxTries
      invariant 0 <= tries <= MaxTries
      invariant cursor == start + 2 * tries
      invariant FirstFree(placed, rand, start, start + 2 * MaxTries) == FirstFree(placed, rand, cursor, start + 2 * MaxTries)
    {
      tries := tries + 1;
      var x := (rand(cursor) - 0.5) * WorldRadius * 2.0;
      var z := (rand(cursor + 1) - 0.5) * WorldRadius * 2.0;
      var newPos := Point(x, z);
      assert newPos == CandidateAt(rand, cursor);
      cursor := cursor + 2;

      if Abs(x) < ExcludedZone && Abs(z) < ExcludedZone {
        continue;
      }

      var collision := exists k | 0 <= k < |placed| ::
        SqDist(placed[k].pos, newPos) < (placed[k].radius + AssetRadius) * (placed[k].radius + AssetRadius);
      if !collision {
        pos := Some(newPos);
        break;
      }
    }
  }

  /** The items placed so far and how many random values have been drawn. */
  datatype Placed = Placed(items: seq<SceneryItem>, drawn: nat)

  /**
    One pass of the outer loop: draw the asset type, search for a spot
    with the next draws, and, when one is found, draw the scale and keep
    the item. A pass without a spot keeps nothing and raises no error.
   */
  function PlacePass(catalog: seq<AssetType>, rand: nat -> real, p: Placed): (r: Placed)
    requires WellFormedCatalog(catalog)
    requires ValidRandom(rand)
    ensures |p.items| <= |r.items| <= |p.items| + 1
    ensures r.items[..|p.items|] == p.items
    ensures |r.items| == |p.items| + 1 <==> FirstFree(p.items, rand, p.drawn + 1, p.drawn + 1 + 2 * MaxTries).Some?
    ensures p.drawn < r.drawn <= p.drawn + 2 + 2 * MaxTries
  {
    var assetType := catalog[PickIndex(rand(p.drawn), |catalog|)];
    var start := p.drawn + 1;
    match FirstFree(p.items, rand, start, start + 2 * MaxTries)
    case None => Placed(p.items, start + 2 * MaxTries)
    case Some(c) =>
      var item := SceneryItem(CandidateAt(rand, c), AssetRadius, assetType.model, ScaleFrom(rand(c + 2), assetType));
      Placed(p.items + [item], c + 3)
  }

  /** The outcome of the first `passes` passes of the outer loop, from nothing placed. */
  function Placement(catalog: seq<AssetType>, rand: nat -> real, passes: nat): (r: Placed)
    requires WellFormedCatalog(catalog)
    requires ValidRandom(rand)
    ensures |r.items| <= passes
    ensures r.drawn <= passes * (2 + 2 * MaxTries)
  {
    if passes == 0 then Placed([], 0)
    else PlacePass(catalog, rand, Placement(catalog, rand, passes - 1))
  }

  /** Every item lies in the sampling square and outside the excluded zone, with the fixed radius. */
  predicate WellPlaced(items: seq<SceneryItem>) {
    forall k :: 0 <= k < |items| ==>
      InWorld(items[k].pos) && !InExcludedZone(items[k].pos) && items[k].radius == AssetRadius
  }

  /** No two items overlap: centres at least two radii apart. */
  predicate Separated(items: seq<SceneryItem>) {
    forall a, b :: 0 <= a < b < |items| ==>
      SqDist(items[a].pos, items[b].pos) >= (2.0 * AssetRadius) * (2.0 * AssetRadius)
  }

  /** Every item shows a catalog model at a scale from that model's range. */
  predicate FromCatalog(items: seq<SceneryItem>, catalog: seq<AssetType>) {
    forall k :: 0 <= k < |items| ==>
      exists c :: 0 <= c < |catalog| &&
        items[k].model == catalog[c].model &&
        catalog[c].scaleMin <= items[k].scale < catalog[c].scaleMax
  }

  /** All that the placement promises about a list of items. */
  predicate GoodScenery(items: seq<SceneryItem>, catalog: seq<AssetType>) {
    WellPlaced(items) && Separated(items) && FromCatalog(items, catalog)
  }

  /** Appending an item that collides with nothing keeps the items pairwise separated. */
  lemma NewItemSeparated(items: seq<SceneryItem>, item: SceneryItem)
    requires WellPlaced(items)
    requires Separated(items)
    requires !Collides(items, item.pos)
    ensures Separated(items + [item])
  {
    var all := items + [item];
    forall a, b | 0 <= a < b < |all|
      ensures SqDist(all[a].pos, all[b].pos) >= (2.0 * AssetRadius) * (2.0 * AssetRadius)
    {
      if b == |items| {
        assert all[a] == items[a];
        assert !(SqDist(items[a].pos, item.pos) < (items[a].radius + AssetRadius) * (items[a].radius + AssetRadius));
      } else {
        assert all[a] == items[a] && all[b] == items[b];
      }
    }
  }

  /** A pass keeps the placement guarantees. */
  lemma PlacePassGood(catalog: seq<AssetType>, rand: nat -> real, p: Placed)
    requires WellFormedCatalog(catalog)
    requires ValidRandom(rand)
    requires GoodScenery(p.items, catalog)
    ensures GoodScenery(PlacePass(catalog, rand, p).items, catalog)
  {
    var start := p.drawn + 1;
    match FirstFree(p.items, rand, start, start + 2 * MaxTries)
    case None =>
    case Some(c) =>
      var k := PickIndex(rand(p.drawn), |catalog|);
      var r := PlacePass(catalog, rand, p);
      var item := r.items[|p.items|];
      assert r.items == p.items + [item];
      assert item.model == catalog[k].model;
      assert catalog[k].scaleMin <= item.scale < catalog[k].scaleMax;
      NewItemSeparated(p.items, item);
  }

  /**
    Whatever the random stream, the placement keeps every item in the
    sampling square and out of the excluded zone, keeps items at least
    two units apart, and draws every model and scale from the catalog.
   */
  lemma {:induction false} PlacementGood(catalog: seq<AssetType>, rand: nat -> real, passes: nat)
    requires WellFormedCatalog(catalog)
    requires ValidRandom(rand)
    ensures GoodScenery(Placement(catalog, rand, passes).items, catalog)
  {
    if passes > 0 {
      PlacementGood(catalog, rand, passes - 1);
      PlacePassGood(catalog, rand, Placement(catalog, rand, passes - 1));
    }
  }

  /** Items are only ever added: the first `passes` passes' items are a prefix of a longer run's. */
  lemma {:induction false} PlacementGrows(catalog: seq<AssetType>, rand: nat -> real, passes: nat, more: nat)
    requires WellFormedCatalog(catalog)
    requires ValidRandom(rand)
    requires passes <= more
    ensures |Placement(catalog, rand, passes).items| <= |Placement(catalog, rand, more).items|
    ensures Placement(catalog, rand, more).items[..|Placement(catalog, rand, passes).items|]
         == Placement(catalog, rand, passes).items
    decreases more
  {
    if passes < more {
      PlacementGrows(catalog, rand, passes, more - 1);
      var a := Placement(catalog, rand, passes).items;
      var b := Placement(catalog, rand, more - 1).items;
      var c := Placement(catalog, rand, more).items;
      assert c[..|b|] == b;
      assert c[..|a|] == c[..|b|][..|a|];
    }
  }

  /**
    One pass of the outer loop, on the items placed so far and the count
    of values drawn: it does what PlacePass describes.
   */
  method PlaceOne(catalog: seq<AssetType>, rand: nat -> real, assets: seq<SceneryItem>, cursor: nat)
    returns (assets': seq<SceneryItem>, cursor': nat)
    requires WellFormedCatalog(catalog)
    requires ValidRandom(rand)
    ensures Placed(assets', cursor') == PlacePass(catalog, rand, Placed(assets, cursor))
  {
    var assetType := catalog[PickIndex(rand(cursor), |catalog|)];
    var start := cursor + 1;
    var pos, tries := FindSpot(assets, rand, start);
    cursor' := start + 2 * tries;
    assets' := assets;
    if pos.Some? {
      var scale := ScaleFrom(rand(cursor'), assetType);
      assets' := assets + [SceneryItem(pos.value, AssetRadius, assetType.model, scale)];
      cursor' := cursor' + 1;
    }
  }

  /**
    The mount effect: `totalAssets` passes of the outer loop (the world
    runs TotalAssets of them). Returns the placed items and how many
    random values were drawn; both are fixed by the catalog and the
    stream, so the same stream gives the same scenery.
   */
  method PlaceScenery(catalog: seq<AssetType>, rand: nat -> real, totalAssets: nat) returns (assets: seq<SceneryItem>, drawn: nat)
    requires WellFormedCatalog(catalog)
    requires ValidRandom(rand)
    ensures Placed(assets, drawn) == Placement(catalog, rand, totalAssets)
    ensures |assets| <= totalAssets
    ensures GoodScenery(assets, catalog)
  {
    assets := [];
    drawn := 0;
    for i := 0 to totalAssets
      invariant Placed(assets, drawn) == Placement(catalog, rand, i)
    {
      assets, drawn := PlaceOne(catalog, rand, assets, drawn);
    }
    PlacementGood(catalog, rand, totalAssets);
  }

  /**
    The effect as the world runs it: the source's catalog, TotalAssets
    passes. At most TotalAssets items, all well placed, separated and
    drawn from the catalog.
   */
  method MountScenery(rand: nat -> real) returns (assets: seq<SceneryItem>)
    requires ValidRandom(rand)
    ensures |assets| <= TotalAssets
    ensures GoodScenery(assets, AssetTypes)
  {
    AssetTypesWellFormed();
    var drawn;
    assets, drawn := PlaceScenery(AssetTypes, rand, TotalAssets);
  }

  /**
    A stream whose every value is 0.5 puts every candidate at the origin,
    inside the excluded zone, so the placement keeps nothing: an empty
    result does not mean the excluded zone covers the sampling square.
   */
  lemma {:induction false} CentredStreamPlacesNothing(catalog: seq<AssetType>, passes: nat)
    requires WellFormedCatalog(catalog)
    ensures Placement(catalog, (n: nat) => 0.5, passes).items == []
  {
    var rand := (n: nat) => 0.5;
    if passes > 0 {
      CentredStreamPlacesNothing(catalog, passes - 1);
      var p := Placement(catalog, rand, passes - 1);
      var start := p.drawn + 1;
      var found := FirstFree(p.items, rand, start, start + 2 * MaxTries);
    }
  }

  /** The excluded zone is the one computed from the grid's constants. */
  lemma ExcludedZoneFromGrid()
    ensures ExcludedZone == (TileGrid.GridSize as real / 2.0) * TileGrid.TileSize as real + 1.0
  {
  }

  /** The excluded square covers the whole tile grid, tiles included, with one unit to spare. */
  lemma GridInsideExcludedZone(id: int)
    requires TileGrid.ValidId(id)
    ensures Abs(TileGrid.TilePosition(id).x) + TileGrid.TileSize as real / 2.0 + 1.0 <= ExcludedZone
    ensures Abs(TileGrid.TilePosition(id).z) + TileGrid.TileSize as real / 2.0 + 1.0 <= ExcludedZone
  {
  }

  /** The source's catalog meets the generator's requirement. */
  lemma AssetTypesWellFormed()
    ensures WellFormedCatalog(AssetTypes)
    ensures |AssetTypes| == 26
  {
  }
}
