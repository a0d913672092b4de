/**
  The tile interaction state of the World component: which tiles are
  owned, what stands on each tile, and which of the two prompts (the
  purchase prompt and the build prompt) is open. Each handler is one
  atomic transition. The pure functions below give the transitions on
  values; the `World` class holds the state in fields and its methods
  are proved to follow those functions.
 */
module TileInteraction {
  import opened Optional

  /** What stands on a tile: the source's `{type, model}` record. */
  datatype Building = Building(kind: string, model: string)

  /**
    A snapshot of the session state: the purchased tile ids in purchase
    order, the building per tile id, the tile of the open purchase prompt
    and the tile of the open build prompt.
   */
  datatype Session = Session(
    purchased: seq<int>,
    built: map<int, Building>,
    selectedTile: Option<int>,
    buildPrompt: Option<int>)

  /** The state when the world mounts. */
  const Initial: Session := Session([], map[], None, None)

  predicate NoDuplicates(s: seq<int>) {
    forall a, b :: 0 <= a < b < |s| ==> s[a] != s[b]
  }

  /**
    The session invariant: ownership is a set (no id twice), something is
    built only on an owned tile, the build prompt is only ever open on
    an owned tile and the purchase prompt only on a tile not yet owned.
   */
  predicate Consistent(s: Session) {
    && NoDuplicates(s.purchased)
    && (forall id :: id in s.built ==> id in s.purchased)
    && (s.buildPrompt.Some? ==> s.buildPrompt.value in s.purchased)
    && (s.selectedTile.Some? ==> s.selectedTile.value !in s.purchased)
  }

  /**
    Clicking tile `id`: the build prompt opens for an owned tile, the
    purchase prompt for any other; nothing else changes.
   */
  function Click(s: Session, id: int): (r: Session)
    ensures r.purchased == s.purchased && r.built == s.built
    ensures id in s.purchased ==> r.buildPrompt == Some(id) && r.selectedTile == s.selectedTile
    ensures id !in s.purchased ==> r.selectedTile == Some(id) && r.buildPrompt == s.buildPrompt
    ensures Consistent(s) ==> Consistent(r)
  {
    if id in s.purchased then s.(buildPrompt := Some(id))
    else s.(selectedTile := Some(id))
  }

  /**
    Buying tile `id`: the tile is owned afterwards, no id is added twice,
    the purchase prompt closes, and buildings and the build prompt are
    untouched.
   */
  function Buy(s: Session, id: int): (r: Session)
    ensures forall t :: t in r.purchased <==> t in s.purchased || t == id
    ensures |s.purchased| <= |r.purchased| <= |s.purchased| + 1
    ensures r.purchased[..|s.purchased|] == s.purchased
    ensures NoDuplicates(s.purchased) ==> NoDuplicates(r.purchased)
    ensures r.selectedTile == None
    ensures r.built == s.built && r.buildPrompt == s.buildPrompt
    ensures Consistent(s) ==> Consistent(r)
  {
    var purchased := if id !in s.purchased then s.purchased + [id] else s.purchased;
    s.(purchased := purchased, selectedTile := None)
  }

  /**
    Building on tile `tileId`: the tile's entry becomes `{kind, model}`,
    replacing whatever stood there, and every other tile keeps its entry.
    No ownership check is made here.
   */
  function Build(s: Session, tileId: int, kind: string, model: string): (r: Session)
    ensures r.built.Keys == s.built.Keys + {tileId}
    ensures r.built[tileId] == Building(kind, model)
    ensures forall t :: t in s.built && t != tileId ==> r.built[t] == s.built[t]
    ensures r.purchased == s.purchased
    ensures r.selectedTile == s.selectedTile && r.buildPrompt == s.buildPrompt
    ensures Consistent(s) && tileId in s.purchased ==> Consistent(r)
  {
    s.(built := s.built[tileId := Building(kind, model)])
  }

  /** Dismissing the purchase prompt. */
  function CloseBuy(s: Session): (r: Session)
    ensures r.selectedTile == None
    ensures r.purchased == s.purchased && r.built == s.built && r.buildPrompt == s.buildPrompt
    ensures Consistent(s) ==> Consistent(r)
  {
    s.(selectedTile := None)
  }

  /** Dismissing the build prompt. */
  function CloseBuild(s: Session): (r: Session)
    ensures r.buildPrompt == None
    ensures r.purchased == s.purchased && r.built == s.built && r.selectedTile == s.selectedTile
    ensures Consistent(s) ==> Consistent(r)
  {
    s.(buildPrompt := None)
  }

  /** The user inputs that reach the state: a tile click and the buttons of the two prompts. */
  datatype Event =
    | TileClicked(id: int)
    | BuyConfirmed
    | PurchaseDismissed
    | BuildChosen(kind: string, model: string)
    | BuildDismissed

  /**
    One user input. The purchase prompt's buttons exist only while it is
    open, and "Buy Now" buys the prompt's tile; a build option exists only
    while the build prompt is open, and it builds on the prompt's tile and
    then closes the prompt. A button that is not on screen cannot be
    pressed, so such an event leaves the state as it is.
   */
  function Step(s: Session, e: Event): (r: Session)
    ensures (e.BuyConfirmed? || e.PurchaseDismissed?) && s.selectedTile.None? ==> r == s
    ensures (e.BuildChosen? || e.BuildDismissed?) && s.buildPrompt.None? ==> r == s
    ensures e.BuyConfirmed? && s.selectedTile.Some? ==>
      s.selectedTile.value in r.purchased && r.selectedTile == None
    ensures e.BuildChosen? && s.buildPrompt.Some? ==>
      r.built == s.built[s.buildPrompt.value := Building(e.kind, e.model)] && r.buildPrompt == None
    ensures !e.BuildChosen? ==> r.built == s.built
    ensures forall t :: t in s.purchased ==> t in r.purchased
    ensures Consistent(s) ==> Consistent(r)
  {
    match e
    case TileClicked(id) => Click(s, id)
    case BuyConfirmed =>
      if s.selectedTile.Some? then Buy(s, s.selectedTile.value) else s
    case PurchaseDismissed =>
      if s.selectedTile.Some? then CloseBuy(s) else s
    case BuildChosen(kind, model) =>
      if s.buildPrompt.Some? then CloseBuild(Build(s, s.buildPrompt.value, kind, model)) else s
    case BuildDismissed =>
      if s.buildPrompt.Some? then CloseBuild(s) else s
  }

  /**
    The state after a sequence of user inputs: every input sequence keeps
    the session invariant, no purchase is ever lost, and without a build
    option chosen the buildings stay as they were.
   */
  function Run(s: Session, events: seq<Event>): (r: Session)
    ensures Consistent(s) ==> Consistent(r)
    ensures forall t :: t in s.purchased ==> t in r.purchased
    ensures (forall k :: 0 <= k < |events| ==> !events[k].BuildChosen?) ==> r.built == s.built
    decreases |events|
  {
    if events == [] then s
    else
      assert forall k :: 0 <= k < |events| - 1 ==> events[1..][k] == events[k + 1];
      Run(Step(s, events[0]), events[1..])
  }

  /** Purchases are never taken back: the old purchase list is a prefix of the new one. */
  lemma {:induction false} RunKeepsPurchases(s: Session, events: seq<Event>)
    ensures |s.purchased| <= |Run(s, events).purchased|
    ensures Run(s, events).purchased[..|s.purchased|] == s.purchased
    decreases |events|
  {
    if events != [] {
      var s' := Step(s, events[0]);
      assert |s.purchased| <= |s'.purchased| && s'.purchased[..|s.purchased|] == s.purchased;
      RunKeepsPurchases(s', events[1..]);
      var r := Run(s', events[1..]);
      assert r.purchased[..|s.purchased|] == r.purchased[..|s'.purchased|][..|s.purchased|];
    }
  }

  /**
    Whatever the user does from the start, a building stands only on an
    owned tile and no tile is owned twice, although `Build` itself never
    checks ownership: the build prompt, the only way to reach it, opens
    only for owned tiles.
   */
  lemma BuildsOnlyOnOwnedTiles(events: seq<Event>)
    ensures forall id :: id in Run(Initial, events).built ==> id in Run(Initial, events).purchased
    ensures NoDuplicates(Run(Initial, events).purchased)
  {
  }

  /** Buying an owned tile changes no purchase, so buying twice is buying once. */
  lemma BuyIdempotent(s: Session, id: int)
    ensures id in s.purchased ==> Buy(s, id).purchased == s.purchased
    ensures Buy(Buy(s, id), id) == Buy(s, id)
  {
  }

  /** A second build on the same tile replaces the first: still one entry per tile. */
  lemma BuildReplaces(s: Session, id: int, kind1: string, model1: string, kind2: string, model2: string)
    ensures Build(Build(s, id, kind1, model1), id, kind2, model2) == Build(s, id, kind2, model2)
    ensures |Build(s, id, kind1, model1).built.Keys| == |s.built.Keys| + (if id in s.built then 0 else 1)
  {
    var m := Build(s, id, kind1, model1).built;
    if id in s.built {
      assert m.Keys == s.built.Keys;
    } else {
      assert m.Keys == s.built.Keys + {id};
    }
  }

  /**
    Click tile 7, buy it, click it again, build a farm on it, then build
    something else on it: 7 is owned once and carries only the last build.
   */
  lemma PurchaseThenBuildScenario()
    ensures Run(Initial, [TileClicked(7)]) == Initial.(selectedTile := Some(7))
    ensures Run(Initial, [TileClicked(7), BuyConfirmed]) == Initial.(purchased := [7])
    ensures Run(Initial, [TileClicked(7), BuyConfirmed, TileClicked(7)]).buildPrompt == Some(7)
    ensures Run(Initial, [TileClicked(7), BuyConfirmed, TileClicked(7), BuildChosen("farm", "/models/crop_carrot.glb")])
         == Session([7], map[7 := Building("farm", "/models/crop_carrot.glb")], None, None)
    ensures Run(Initial, [TileClicked(7), BuyConfirmed, TileClicked(7), BuildChosen("farm", "/models/crop_carrot.glb"),
                          TileClicked(7), BuildChosen("farm", "/models/crop_pumpkin.glb")])
         == Session([7], map[7 := Building("farm", "/models/crop_pumpkin.glb")], None, None)
  {
  }

  /** The World component's session state, updated in place by its handlers. */
  class World {
    var purchasedTiles: seq<int>
    var builtOnTile: map<int, Building>
    var selectedTile: Option<int>
    var showBuildModal: Option<int>

    function Snapshot(): Session
      reads this
    {
      Session(purchasedTiles, builtOnTile, selectedTile, showBuildModal)
    }

    constructor ()
      ensures Snapshot() == Initial
      ensures Consistent(Snapshot())
    {
      purchasedTiles := [];
      builtOnTile := map[];
      selectedTile := None;
      showBuildModal := None;
    }

    /** `handleTileClick`. */
    method HandleTileClick(id: int)
      modifies this
      ensures Snapshot() == Click(old(Snapshot()), id)
    {
      if id in purchasedTiles {
        showBuildModal := Some(id);
      } else {
        selectedTile := Some(id);
      }
    }

    /** `handleBuild`: no ownership check, as in the source. */
    method HandleBuild(tileId: int, kind: string, model: string)
      modifies this
      ensures Snapshot() == Build(old(Snapshot()), tileId, kind, model)
    {
      builtOnTile := builtOnTile[tileId := Building(kind, model)];
    }

    /** `handleBuy`. */
    method HandleBuy(id: int)
      modifies this
      ensures Snapshot() == Buy(old(Snapshot()), id)
    {
      if id !in purchasedTiles {
        purchasedTiles := purchasedTiles + [id];
      }
      selectedTile := None;
    }

    /** The purchase prompt's close button and backdrop. */
    method ClosePurchasePrompt()
      modifies this
      ensures Snapshot() == CloseBuy(old(Snapshot()))
    {
      selectedTile := None;
    }

    /** The build prompt's backdrop. */
    method CloseBuildPrompt()
      modifies this
      ensures Snapshot() == CloseBuild(old(Snapshot()))
    {
      showBuildModal := None;
    }

    /** "Buy Now" in the purchase prompt, shown only while a tile is selected. */
    method ConfirmPurchase()
      requires selectedTile.Some?
      modifies this
      ensures Snapshot() == Step(old(Snapshot()), BuyConfirmed)
      ensures Consistent(old(Snapshot())) ==> Consistent(Snapshot())
    {
      HandleBuy(selectedTile.value);
    }

    /** A build option in the build prompt: build on the prompt's tile, then close the prompt. */
    method ChooseBuildOption(kind: string, model: string)
      requires showBuildModal.Some?
      modifies this
      ensures Snapshot() == Step(old(Snapshot()), BuildChosen(kind, model))
      ensures Consistent(old(Snapshot())) ==> Consistent(Snapshot())
    {
      HandleBuild(showBuildModal.value, kind, model);
      CloseBuildPrompt();
    }
  }
}
