/** What happens when a player uses an item: the variant's effect on gold or
    on the game manager's roll modifiers, then the item leaves the user's
    inventory, whether or not the effect found a target. */
module Effects {
  import opened Lists
  import opened Catalog
  import opened Ledger

  /** A roll modifier an item asked the game manager to apply. The Cursed
      Idol's 0.5 multiplier is recorded as the tag HalvedRoll. */
  datatype RollRequest =
    | RollBonus(player: Player, bonus: int)
    | DoubleRoll(player: Player)
    | HalvedRoll(player: Player)

  /** Stand-in for the game manager, whose roll bookkeeping lives outside
      this model: it only records, in order, the modifiers requested of it. */
  class GameManager {
    var Requests: seq<RollRequest>

    constructor ()
      ensures Requests == []
    {
      Requests := [];
    }

    method ApplyRollBonus(player: Player, bonus: int)
      modifies this`Requests
      ensures Requests == old(Requests) + [RollBonus(player, bonus)]
    {
      Requests := Requests + [RollBonus(player, bonus)];
    }

    method ApplyDoubleRoll(player: Player)
      modifies this`Requests
      ensures Requests == old(Requests) + [DoubleRoll(player)]
    {
      Requests := Requests + [DoubleRoll(player)];
    }

    method ApplyRollPenalty(player: Player)
      modifies this`Requests
      ensures Requests == old(Requests) + [HalvedRoll(player)]
    {
      Requests := Requests + [HalvedRoll(player)];
    }
  }

  /** Gold the Thief's Glove takes: ten, or the target's whole balance when
      it holds less. Never more than the target holds, so the debit cannot
      be refused. */
  function StolenAmount(targetGold: int): (n: int)
    ensures n <= 10 && n <= targetGold
    ensures n == 10 || n == targetGold
    ensures targetGold >= 0 ==> n >= 0
  {
    if targetGold < 10 then targetGold else 10
  }

  /** Uses item on behalf of user. randomOpponent is what the game manager's
      opponent selection returns for user (null when user has no opponent);
      only the Thief's Glove and the Cursed Idol consult it. */
  method Use(item: Item, user: Player, gm: GameManager, randomOpponent: Player?)
    requires randomOpponent != user
    modifies user`Inventory, user`GoldCount, user`TotalGoldCollected
    modifies (if randomOpponent == null then {} else {randomOpponent})`GoldCount
    modifies gm`Requests
    // every variant consumes exactly this instance, and nothing else of the inventory
    ensures user.Inventory == RemoveFirst(old(user.Inventory), item)
    // roll modifiers requested of the game manager
    ensures item.Kind == MushroomStew ==> gm.Requests == old(gm.Requests) + [RollBonus(user, 3)]
    ensures item.Kind == DoubleDicePotion ==> gm.Requests == old(gm.Requests) + [DoubleRoll(user)]
    ensures item.Kind == CursedIdol && randomOpponent != null ==>
              gm.Requests == old(gm.Requests) + [HalvedRoll(randomOpponent)]
    ensures item.Kind == CursedIdol && randomOpponent == null ==> gm.Requests == old(gm.Requests)
    ensures item.Kind == ThiefsGlove || item.Kind == SkeletonKey ==> gm.Requests == old(gm.Requests)
    // the glove's transfer, credited without the King's blue-space bonus
    ensures item.Kind == ThiefsGlove && randomOpponent != null ==>
              var stolen := StolenAmount(old(randomOpponent.GoldCount));
              randomOpponent.GoldCount == old(randomOpponent.GoldCount) - stolen &&
              user.GoldCount == old(user.GoldCount) + stolen &&
              user.TotalGoldCollected == old(user.TotalGoldCollected) + stolen
    ensures item.Kind == ThiefsGlove && randomOpponent != null ==>
              user.GoldCount + randomOpponent.GoldCount ==
              old(user.GoldCount) + old(randomOpponent.GoldCount)
    ensures item.Kind == ThiefsGlove && randomOpponent != null && old(randomOpponent.GoldCount) >= 0 ==>
              0 <= randomOpponent.GoldCount && user.GoldCount >= old(user.GoldCount)
    // no transfer of gold in every other case
    ensures item.Kind != ThiefsGlove || randomOpponent == null ==>
              user.GoldCount == old(user.GoldCount) &&
              user.TotalGoldCollected == old(user.TotalGoldCollected)
    ensures item.Kind != ThiefsGlove && randomOpponent != null ==>
              randomOpponent.GoldCount == old(randomOpponent.GoldCount)
  {
    match item.Kind {
      case MushroomStew =>
        gm.ApplyRollBonus(user, 3);
      case DoubleDicePotion =>
        gm.ApplyDoubleRoll(user);
      case ThiefsGlove =>
        var target := randomOpponent;
        if target != null {
          var stolenAmount := 10;
          if target.GoldCount < 10 {
            stolenAmount := target.GoldCount;
          }
          var debited := target.RemoveGold(stolenAmount);
          assert debited;
          user.AddGold(stolenAmount);
        }
      case CursedIdol =>
        var target := randomOpponent;
        if target != null {
          gm.ApplyRollPenalty(target);
        }
      case SkeletonKey =>
        // a passive item: using it only spends it
    }
    user.Inventory := RemoveFirst(user.Inventory, item);
  }
}
