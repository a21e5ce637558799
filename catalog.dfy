/** The item catalog: every item is an object with a fixed name, description
    and shop cost, and one of five effect variants. Items are compared by
    identity, so two Mushroom Stews in one inventory are two distinct items. */
module Catalog {

  /** The five concrete item variants (the subclasses of the abstract Item). */
  datatype ItemKind = MushroomStew | DoubleDicePotion | ThiefsGlove | CursedIdol | SkeletonKey

  class Item {
    const Kind: ItemKind
    const Name: string
    const Description: string
    const Cost: int

    constructor MushroomStew()
      ensures Kind == ItemKind.MushroomStew && Cost == 5
      ensures Name == "Mushroom Stew" && Description == "Adds +3 to your next dice roll."
    {
      Kind := ItemKind.MushroomStew;
      Name := "Mushroom Stew";
      Description := "Adds +3 to your next dice roll.";
      Cost := 5;
    }

    constructor DoubleDicePotion()
      ensures Kind == ItemKind.DoubleDicePotion && Cost == 8
      ensures Name == "Double Dice Potion" && Description == "Roll two D10 dice for movement."
    {
      Kind := ItemKind.DoubleDicePotion;
      Name := "Double Dice Potion";
      Description := "Roll two D10 dice for movement.";
      Cost := 8;
    }

    constructor ThiefsGlove()
      ensures Kind == ItemKind.ThiefsGlove && Cost == 10
      ensures Name == "Thief's Glove" && Description == "Steal 10 Gold from a random opponent."
    {
      Kind := ItemKind.ThiefsGlove;
      Name := "Thief's Glove";
      Description := "Steal 10 Gold from a random opponent.";
      Cost := 10;
    }

    constructor CursedIdol()
      ensures Kind == ItemKind.CursedIdol && Cost == 7
      ensures Name == "Cursed Idol" && Description == "Target an opponent. Their next dice roll is halved."
    {
      Kind := ItemKind.CursedIdol;
      Name := "Cursed Idol";
      Description := "Target an opponent. Their next dice roll is halved.";
      Cost := 7;
    }

    constructor SkeletonKey()
      ensures Kind == ItemKind.SkeletonKey && Cost == 6
      ensures Name == "SkeletonKey" && Description == "Automatically opens a locked door on the board."
    {
      Kind := ItemKind.SkeletonKey;
      Name := "SkeletonKey";
      Description := "Automatically opens a locked door on the board.";
      Cost := 6;
    }
  }
}
