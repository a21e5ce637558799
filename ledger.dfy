/** A player's gold ledger, stat counters and inventory. */
module Ledger {
  import opened Catalog

  datatype CharacterClass = Knight | Wizard | Priest | King

  class Player {
    const PlayerID: int
    var PlayerName: string
    /** Fixed at creation. */
    const Class: CharacterClass
    /** Publicly settable, so nothing in the class itself keeps it non-negative. */
    var GoldCount: int
    var ScepterCount: int
    /** The owned items, in acquisition order; duplicates are distinct objects. */
    var Inventory: seq<Item>

    // Stats for end-game bonuses
    var TotalGoldCollected: int
    var MiniGamesWon: int
    var EventSpacesLandedOn: int

    /** Starting gold comes from the class's passive ability: a Knight starts
        with 10, every other class with none, and the starting gold counts as
        collected. */
    constructor (id: int, characterClass: CharacterClass)
      ensures PlayerID == id && Class == characterClass
      ensures characterClass == Knight ==> GoldCount == 10
      ensures characterClass != Knight ==> GoldCount == 0
      ensures TotalGoldCollected == GoldCount
      ensures Inventory == []
      ensures PlayerName == "" && ScepterCount == 0 && MiniGamesWon == 0 && EventSpacesLandedOn == 0
    {
      PlayerID := id;
      Class := characterClass;
      Inventory := [];
      PlayerName := "";
      ScepterCount := 0;
      MiniGamesWon := 0;
      EventSpacesLandedOn := 0;
      var gold: int;
      match characterClass {
        case Knight => gold := 10;
        case Wizard => gold := 0;  // wizards get a shop discount instead
        case Priest => gold := 0;
        case King => gold := 0;    // kings get a bonus on blue spaces instead
      }
      GoldCount := gold;
      TotalGoldCollected := gold;
    }

    /** Credits gold to both the balance and the lifetime total; a King gets
        one extra gold when it comes from a blue space. */
    method AddGold(amount: int, isFromBlueSpace: bool := false)
      modifies this`GoldCount, this`TotalGoldCollected
      ensures isFromBlueSpace && Class == King ==>
                GoldCount == old(GoldCount) + amount + 1 &&
                TotalGoldCollected == old(TotalGoldCollected) + amount + 1
      ensures !(isFromBlueSpace && Class == King) ==>
                GoldCount == old(GoldCount) + amount &&
                TotalGoldCollected == old(TotalGoldCollected) + amount
      ensures amount >= 0 ==> GoldCount >= old(GoldCount) && TotalGoldCollected >= old(TotalGoldCollected)
    {
      var credited := amount;
      if isFromBlueSpace && Class == King {
        credited := credited + 1;  // the King's passive ability
      }
      GoldCount := GoldCount + credited;
      TotalGoldCollected := TotalGoldCollected + credited;
    }

    /** Debits gold only when the balance covers it; reports whether it did.
        The lifetime total is never reduced. */
    method RemoveGold(amount: int) returns (removed: bool)
      modifies this`GoldCount
      ensures removed <==> amount <= old(GoldCount)
      ensures removed ==> GoldCount == old(GoldCount) - amount
      ensures !removed ==> GoldCount == old(GoldCount)
      ensures amount >= 0 && old(GoldCount) >= 0 ==> 0 <= GoldCount <= old(GoldCount)
    {
      if GoldCount >= amount {
        GoldCount := GoldCount - amount;
        return true;
      }
      return false;
    }
  }
}
