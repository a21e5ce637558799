/** Small games played against the contracts alone: each method sets up fresh
    players and items, uses them, and states the outcome it must reach. */
module Scenarios {
  import opened Lists
  import opened Catalog
  import opened Ledger
  import opened Effects

  /** A Knight (10 gold) uses a Thief's Glove on a Wizard holding 3 gold and a
      Mushroom Stew: only 3 change hands, the glove is spent and the Wizard
      keeps the stew. */
  method KnightRobsWizard() returns (knightGold: int, wizardGold: int, knightItems: nat, wizardItems: nat)
    ensures knightGold == 13 && wizardGold == 0
    ensures knightItems == 0 && wizardItems == 1
  {
    var knight := new Player(1, Knight);
    var wizard := new Player(2, Wizard);
    wizard.GoldCount := 3;
    var stew := new Item.MushroomStew();
    wizard.Inventory := wizard.Inventory + [stew];
    var glove := new Item.ThiefsGlove();
    knight.Inventory := knight.Inventory + [glove];
    var gm := new GameManager();
    Use(glove, knight, gm, wizard);
    knightGold, wizardGold := knight.GoldCount, wizard.GoldCount;
    knightItems, wizardItems := |knight.Inventory|, |wizard.Inventory|;
  }

  /** A King who steals with the glove gets no blue-space bonus on the loot. */
  method KingStealsWithoutBonus() returns (kingGold: int, kingTotal: int, priestGold: int)
    ensures kingGold == 10 && kingTotal == 10 && priestGold == 5
  {
    var king := new Player(1, King);
    var priest := new Player(2, Priest);
    priest.AddGold(15);
    var glove := new Item.ThiefsGlove();
    king.Inventory := [glove];
    var gm := new GameManager();
    Use(glove, king, gm, priest);
    kingGold, kingTotal, priestGold := king.GoldCount, king.TotalGoldCollected, priest.GoldCount;
  }

  /** A King landing on a blue space worth 5 gold receives 6, in both counters;
      a Wizard on the same space receives 5. */
  method BlueSpaceBonus() returns (kingGold: int, kingTotal: int, wizardGold: int)
    ensures kingGold == 6 && kingTotal == 6 && wizardGold == 5
  {
    var king := new Player(1, King);
    king.AddGold(5, true);
    var wizard := new Player(2, Wizard);
    wizard.AddGold(5, true);
    kingGold, kingTotal, wizardGold := king.GoldCount, king.TotalGoldCollected, wizard.GoldCount;
  }

  /** Debits that exceed the balance are refused and change nothing. */
  method OverdraftRefused() returns (paid: bool, secondPaid: bool, gold: int, total: int)
    ensures paid && !secondPaid && gold == 4 && total == 10
  {
    var knight := new Player(1, Knight);
    paid := knight.RemoveGold(6);
    secondPaid := knight.RemoveGold(5);
    gold, total := knight.GoldCount, knight.TotalGoldCollected;
  }

  /** With no opponent the glove and the idol do nothing, yet both are spent. */
  method NoOpponentStillConsumes() returns (gold: int, items: nat, requests: nat)
    ensures gold == 10 && items == 0 && requests == 0
  {
    var knight := new Player(1, Knight);
    var glove := new Item.ThiefsGlove();
    var idol := new Item.CursedIdol();
    knight.Inventory := [glove, idol];
    var gm := new GameManager();
    Use(glove, knight, gm, null);
    assert IndexOf([glove, idol], glove) == 0;
    assert knight.Inventory == [idol];
    Use(idol, knight, gm, null);
    assert IndexOf([idol], idol) == 0;
    gold, items := knight.GoldCount, |knight.Inventory|;
    requests := |gm.Requests|;
  }

  /** Items are removed by identity: using the second of two stews removes that
      one, and using a stew the player does not hold removes nothing. */
  method RemovalByIdentity() returns (first: Item, inventory: seq<Item>)
    ensures inventory == [first]
  {
    var player := new Player(1, Priest);
    first := new Item.MushroomStew();
    var second := new Item.MushroomStew();
    var stranger := new Item.MushroomStew();
    player.Inventory := [first, second];
    var gm := new GameManager();
    Use(second, player, gm, null);
    Use(stranger, player, gm, null);
    inventory := player.Inventory;
  }
}
