# kot3d world core, in Dafny

kot3d is a browser 3D "land tile" sandbox. Its one live piece of logic is the
`World` component (`src/components/World.tsx`), and this project models three
parts of it:

- **The tile grid** (`tile_grid.dfy`, module `TileGrid`). The `TileGrid`
  component builds a 5 x 5 grid of tiles with a nested loop. Ids 1..25 are
  handed out in loop order. The outer index `i` gives `x = 4i` and the inner
  index `j` gives `z = 4j`, so z varies fastest. Every tile sits at height
  0.1. Each id's position is stored in an id -> position map, and each tile is
  shown as owned exactly when its id is in the purchased list. `BuildGrid`
  keeps the loops and is proved against `TilePosition`. Lemmas show the id ->
  position map is a bijection onto the 4-unit lattice.
- **The tile interaction state** (`tile_interaction.dfy`, module
  `TileInteraction`). The state is:
  - the purchased tile ids, as a list;
  - the building per tile, a `{type, model}` record;
  - the tile of the open purchase prompt (`selectedTile`);
  - the tile of the open build prompt (`showBuildModal`).

  The `World` class keeps these as fields. Its handler methods are each proved
  equal to a pure transition on `Session` values (`Click`, `Buy`, `Build`,
  `CloseBuy`, `CloseBuild`). `Step` and `Run` replay user inputs through the
  buttons that are on screen. Lemmas prove two things over every input
  sequence:
  - no tile is owned twice;
  - a building only ever stands on an owned tile, even though `handleBuild`
    itself checks nothing.
- **Scenery placement** (`scenery.dfy`, module `Scenery`). This is the
  rejection sampling run once at mount. It makes 100 passes. Each pass picks
  a catalog entry and then draws up to 30 candidates in [-20, 20)², rejecting
  a candidate in either of these cases:
  - it lies inside the square |x| < 11 and |z| < 11 around the grid;
  - it lies closer than `radius + 1` to an item already placed.

  A pass that finds a spot keeps one item, with a scale drawn from the
  entry's range; a pass that finds none keeps nothing. The loops are the
  methods `FindSpot`, `PlaceOne` and `PlaceScenery`, proved against the
  functions `FirstFree`, `PlacePass` and `Placement`. The lemmas prove that
  every placed item:
  - lies in the sampling square and outside the grid square;
  - is at least two units from every other item;
  - uses a catalog model at a scale in that model's range.

Modelling choices:

- `Math.random()` is an injected stream `rand: nat -> real` whose every value
  lies in [0, 1) (`ValidRandom`). A cursor counts the values drawn, in the
  source's order: the catalog pick, two per try, then the scale.
- Numbers are exact reals, not IEEE doubles.
- `a.distanceTo(b) < d` is written `SqDist(a, b) < d * d`, which is the same
  test for non-negative `d`.
- `PlaceScenery` takes the catalog and the pass count as parameters.
  `MountScenery` runs it with the source's own catalog (`AssetTypes`, proved
  well formed) and `TotalAssets` = 100.
- Each React handler is one atomic transition on the current state.

Notes on the code's behaviour that the model keeps:

- The grid is filled with `x` from the outer loop index and `z` from the
  inner one, so consecutive ids run along z (`OuterIndex`, `InnerIndex`).
- `handleBuild` does not check ownership. Only the routing gates it: the
  build prompt opens only for owned tiles (`BuildsOnlyOnOwnedTiles`).
- The handlers accept any tile id; none rejects an id outside 1..25.
- The two prompts are independent fields. A click sets one of them and
  never clears the other.
- Scenery is sampled in a square and a square is excluded; a stream can
  leave the scenery empty (`CentredStreamPlacesNothing`).

## Model

| member | source | states |
|---|---|---|
| TileGrid.CellId | src/components/World.tsx:208-227 | the id the counter holds at loop indices (i, j) lies in 1..25 |
| TileGrid.OuterIndex | src/components/World.tsx:212-214 | the outer index of a tile id lies in -2..2 |
| TileGrid.InnerIndex | src/components/World.tsx:213-215 | the inner index of a tile id lies in -2..2 |
| TileGrid.TilePosition | src/components/World.tsx:212-216 | a tile's position has y = 0.1 and x, z in [-8, 8] |
| TileGrid.CellIdRoundTrip | src/components/World.tsx:208-227 | the loop indices are recovered from the id the loop assigned them |
| TileGrid.IdRoundTrip | src/components/World.tsx:208-227 | every id 1..25 is the one the loop assigns to its own indices (no gaps) |
| TileGrid.TilePositionInjective | src/components/World.tsx:212-217 | distinct ids never share a position (no overwrite in the map) |
| TileGrid.TilePositionSurjective | src/components/World.tsx:212-216 | the tile at loop indices (i, j) stands at (4i, 0.1, 4j) |
| TileGrid.GridLandmarks | src/components/World.tsx:208-216 | id 1 at (-8, 0.1, -8), id 2 at (-8, 0.1, -4), id 13 at the centre, id 25 at (8, 0.1, 8) |
| TileGrid.BuildGrid | src/components/World.tsx:207-229 | 25 tiles with ids 1..25 in order, each at its TilePosition, owned iff its id is purchased; the map's keys are exactly 1..25, each mapped to its TilePosition |
| TileInteraction.Click | src/components/World.tsx:412-419 | an owned tile opens the build prompt on that tile and any other tile opens the purchase prompt on it; the other prompt, purchases and buildings are unchanged; consistency is kept |
| TileInteraction.Buy | src/components/World.tsx:430-435 | the tile is owned afterwards and nothing else is added; the old list is a prefix; no duplicates are introduced; the purchase prompt closes; buildings and the build prompt are unchanged |
| TileInteraction.Build | src/components/World.tsx:421-426 | the tile's entry becomes {type, model}, every other entry is kept and no other key appears; consistency is kept when the tile is owned |
| TileInteraction.CloseBuy | src/components/World.tsx:545 | the purchase prompt closes and nothing else changes |
| TileInteraction.CloseBuild | src/components/World.tsx:553 | the build prompt closes and nothing else changes |
| TileInteraction.Step | src/components/World.tsx:542-556 | a purchase-prompt button does nothing unless that prompt is open and a build-prompt button nothing unless that one is; "Buy Now" owns the prompt's tile and closes the prompt; a build option sets the prompt tile's building and closes the prompt; only a build option changes buildings; no purchase is lost; the session invariant (no tile owned twice, buildings and the build prompt on owned tiles, the purchase prompt on an unowned tile) is kept |
| TileInteraction.Run | src/components/World.tsx:412-435 | any input sequence keeps the session invariant and every purchase, and leaves buildings unchanged when no build option is chosen |
| TileInteraction.RunKeepsPurchases | src/components/World.tsx:430-435 | purchases are never removed or reordered: the old list is a prefix of the new one |
| TileInteraction.BuildsOnlyOnOwnedTiles | src/components/World.tsx:412-426 | from the mount state, any inputs leave buildings only on owned tiles and no tile owned twice |
| TileInteraction.BuyIdempotent | src/components/World.tsx:430-435 | buying an owned tile leaves the purchases unchanged; buying twice equals buying once |
| TileInteraction.BuildReplaces | src/components/World.tsx:421-426 | a second build on a tile replaces the first; the number of entries grows only for a new tile |
| TileInteraction.PurchaseThenBuildScenario | src/components/World.tsx:412-435 | click 7, buy, click 7, build twice: 7 owned once, carrying only the last building, both prompts closed |
| TileInteraction.World.constructor | src/components/World.tsx:241-245 | the mount state: nothing owned or built, no prompt open |
| TileInteraction.World.HandleTileClick | src/components/World.tsx:412-419 | the fields change exactly as Click says |
| TileInteraction.World.HandleBuild | src/components/World.tsx:421-426 | the fields change exactly as Build says |
| TileInteraction.World.HandleBuy | src/components/World.tsx:430-435 | the fields change exactly as Buy says |
| TileInteraction.World.ClosePurchasePrompt | src/components/World.tsx:545 | the fields change exactly as CloseBuy says |
| TileInteraction.World.CloseBuildPrompt | src/components/World.tsx:553 | the fields change exactly as CloseBuild says |
| TileInteraction.World.ConfirmPurchase | src/components/World.tsx:54 | "Buy Now" buys the prompt's tile, as Step says, keeping consistency |
| TileInteraction.World.ChooseBuildOption | src/components/World.tsx:330-332 | a build option builds on the prompt's tile and closes the prompt, as Step says, keeping consistency |
| Scenery.InExcludedZone | src/components/World.tsx:381 | the rejected region is the open square (-11, 11)², and it covers every point of every tile |
| Scenery.Collides | src/components/World.tsx:386-388 | nothing collides with an empty list; a point colliding with no item of radius 1 is at squared distance at least 4 from each |
| Scenery.Accepted | src/components/World.tsx:381-389 | an accepted candidate of the sampling square lies in the band between the excluded square and the border; the first item only has to leave the excluded square |
| Scenery.CandidateAt | src/components/World.tsx:378-379 | the candidate drawn from a valid stream lies in the sampling square |
| Scenery.Coordinate | src/components/World.tsx:378-379 | a coordinate drawn from [0, 1) lies in [-20, 20) |
| Scenery.PickIndex | src/components/World.tsx:368-369 | the catalog index lies in 0..n-1 |
| Scenery.ScaleFrom | src/components/World.tsx:397-399 | the scale lies in [min, max) of the asset type's range |
| Scenery.FirstFree | src/components/World.tsx:376-392 | a found candidate lies in the try window and is accepted (outside the grid square, no collision) |
| Scenery.FirstFreeNone | src/components/World.tsx:376-392 | a failed search rejected every candidate it drew |
| Scenery.FirstFreeSome | src/components/World.tsx:376-392 | a successful search rejected every candidate before the one it kept |
| Scenery.FindSpot | src/components/World.tsx:372-393 | at most 30 tries, at least one; returns the first accepted candidate and the tries it took, or nothing after 30 tries |
| Scenery.PlacePass | src/components/World.tsx:366-408 | a pass keeps earlier items, adds at most one, and adds one iff its search found a spot |
| Scenery.Placement | src/components/World.tsx:362-409 | n passes place at most n items |
| Scenery.PlaceOne | src/components/World.tsx:366-408 | one pass of the loop computes exactly PlacePass |
| Scenery.PlaceScenery | src/components/World.tsx:362-409 | the loop computes exactly Placement, returns at most totalAssets items, and every item is well placed, separated and from the catalog |
| Scenery.MountScenery | src/components/World.tsx:354-410 | the mount effect yields at most 100 items, well placed, separated and from the source's catalog |
| Scenery.NewItemSeparated | src/components/World.tsx:386-392 | adding a non-colliding item keeps all items at least two units apart |
| Scenery.PlacePassGood | src/components/World.tsx:366-408 | a pass keeps the placement guarantees |
| Scenery.PlacementGood | src/components/World.tsx:362-409 | for every random stream, every item lies in the sampling square and outside the grid square, items are at least two units apart, and models and scales come from the catalog |
| Scenery.PlacementGrows | src/components/World.tsx:395-407 | items are only appended: a shorter run's items are a prefix of a longer run's |
| Scenery.CentredStreamPlacesNothing | src/components/World.tsx:376-395 | a stream of 0.5s puts every candidate at the origin, so no item is placed, without error |
| Scenery.ExcludedZoneFromGrid | src/components/World.tsx:111-115 | the excluded half-width is (5 / 2) * 4 + 1 = 11 |
| Scenery.GridInsideExcludedZone | src/components/World.tsx:111-115 | every tile, with its half-width and one unit to spare, lies inside the excluded square |
| Scenery.AssetTypesWellFormed | src/components/World.tsx:252-281 | the catalog has 26 entries, each with a non-empty scale range |

## Left out

- Rendering: the canvas, lights, sky, environment, ground plane, contact
  shadows and camera controls. These are calls into the 3D library.
- `Asset`'s model loading, cloning and material rewrite. These are calls into
  the model loader.
- The markup and styling of the two prompts, the hover colour of a tile, and
  the page bootstrap in `src/pages/index.tsx`. They hold no state logic.
- Rendering of buildings at their tile's position. It only looks up the id ->
  position map, which `BuildGrid` and the grid lemmas cover.
- Rendering of the scenery list.
- The `useEffect` that hands the position map to the parent. `BuildGrid`
  returns the map instead.
- Commented-out code: the alternate generator and the row/column structure
  positioning.
- Floating point. Reals are exact, and `Math.sqrt` inside `distanceTo` is
  replaced by comparing squares.
- `Math.random` itself. Its values are an injected stream assumed to lie in
  [0, 1).
- React's state scheduling and batching, and handlers that read a stale
  `purchasedTiles` closure. Each handler is one atomic transition on the
  current state.
- The fixed list of build options in the build prompt. `BuildChosen` accepts
  any `{type, model}` pair, which covers that list.
- Scenery.MountScenery: states the guarantees of the 100-pass run on the
  26-entry catalog, not its equality with `Placement`; that equality is
  stated by `PlaceScenery` for any pass count and well-formed catalog.
