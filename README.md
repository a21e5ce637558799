# Player ledger and item effects of a board-game session

This project models the core of a turn-based board game's economy. It covers
each player's gold ledger (balance, lifetime total collected, class-based
bonuses), the player's inventory, and the five consumable items that read and
write them: Mushroom Stew, Double Dice Potion, Thief's Glove, Cursed Idol and
Skeleton Key. Using an item applies its effect and then removes that item
from the user's inventory. The item is spent even when the effect finds no
opponent.

Modules, one per concern:

- `Lists` (lists.dfy): the two list operations the items rely on. `IndexOf` finds the first occurrence. `RemoveFirst` drops the first occurrence and does nothing when the element is absent. It is proved equal to an independent recursive definition, `WithoutFirst` (lemma `RemoveFirstIsWithoutFirst`).
- `Catalog` (catalog.dfy): the `Item` class. Its five named constructors fix each variant's name, description and cost. Items are objects, so two stews in one inventory are two distinct items.
- `Ledger` (ledger.dfy): the `Player` class with its gold, stat and inventory fields, its constructor, `AddGold` and `RemoveGold`.
- `Effects` (effects.dfy): the game manager's roll-modifier interface, recorded as a log of requests. It also holds the Thief's Glove amount and the `Use` dispatcher over the five variants.
- `Scenarios` (scenarios.dfy): short games that set up fresh players and items and state the outcome the contracts force.

In these places the model follows the code as written, including behaviour a caller might not expect:

- The code does not reject negative gold amounts. `AddGold` and `RemoveGold` take any integer, and their contracts give the exact result for every amount. Non-negativity of the balance is stated only under the hypothesis that the amount and the old balance are non-negative.
- `GoldCount` has a public setter, so the class does not keep the balance non-negative.
- Using an item that is not in the inventory is not an error. `List.Remove` does nothing in that case, and so does the model.
- Skeleton Key sets no "has key" flag. Using it only removes it.
- A Thief's Glove used on a target with a negative balance takes that negative amount. The target ends at 0 and the user loses gold. This follows from the two lines that compute `stolenAmount`.

The opponent that the game manager picks at random is a parameter of `Use`
(`randomOpponent`, `null` when there is none). `Use` requires that it is not
the user.

## Model

| member | source | states |
|---|---|---|
| `Lists.IndexOf` | HackNotts25/item.cs:26 | The index is -1 exactly when the item is absent; otherwise it holds the item and no earlier position does. This is how `List.Remove` locates `this`. |
| `Lists.RemoveFirst` | HackNotts25/item.cs:26 | Removing an absent item leaves the list unchanged. Removing a present one shortens it by exactly one. |
| `Lists.RemoveFirstMultiset` | HackNotts25/item.cs:26 | The multiset of items loses exactly one copy of the removed item when there is one, and nothing else. |
| `Lists.RemoveFirstSkipsHead` | HackNotts25/item.cs:26 | When the head is a different item, removal keeps the head and removes from the tail, so the order of the remaining items is kept. |
| `Lists.RemoveFirstIsWithoutFirst` | HackNotts25/item.cs:26 | Index-based removal equals the recursive "drop the first occurrence" definition on every list. |
| `Catalog.Item.MushroomStew` | HackNotts25/item.cs:15-20 | A new Mushroom Stew costs 5 and carries its name and description. |
| `Catalog.Item.DoubleDicePotion` | HackNotts25/item.cs:32-37 | A new Double Dice Potion costs 8. |
| `Catalog.Item.ThiefsGlove` | HackNotts25/item.cs:49-54 | A new Thief's Glove costs 10. |
| `Catalog.Item.CursedIdol` | HackNotts25/item.cs:78-83 | A new Cursed Idol costs 7. |
| `Catalog.Item.SkeletonKey` | HackNotts25/item.cs:102-107 | A new Skeleton Key costs 6. |
| `Ledger.Player.constructor` | player.cs:73-98 | A Knight starts with 10 gold and every other class with 0. The total collected equals the starting gold. The inventory is empty. Id and class are as given. |
| `Ledger.Player.AddGold` | player.cs:103-112 | A King crediting blue-space gold gains `amount + 1` in both balance and total. In every other case both rise by exactly `amount`. Nothing else changes: the frame is the two counters. |
| `Ledger.Player.RemoveGold` | player.cs:117-125 | It returns true exactly when the balance covers the amount, and then lowers the balance by exactly that amount. Otherwise nothing changes. It never touches the total or any other field. A non-negative balance stays non-negative. |
| `Effects.GameManager.ApplyRollBonus` | HackNotts25/item.cs:25 | Appends a roll-bonus request for the player to the manager's log. |
| `Effects.GameManager.ApplyDoubleRoll` | HackNotts25/item.cs:42 | Appends a double-roll request for the player. |
| `Effects.GameManager.ApplyRollPenalty` | HackNotts25/item.cs:93 | Appends a halved-roll request for the player. |
| `Effects.StolenAmount` | HackNotts25/item.cs:62-66 | The glove takes the minimum of 10 and the target's gold: at most both, and equal to one of them. It never exceeds the target's gold, so the debit always succeeds. It is non-negative when the target's gold is. |
| `Effects.Use` | HackNotts25/item.cs:22-118 | Every variant leaves `user.Inventory` as the old inventory with this instance's first occurrence removed, even when there is no opponent. Stew logs a +3 bonus for the user and Potion logs a double roll for the user. Idol logs a halved roll for the opponent only when there is one. Glove with an opponent moves exactly `StolenAmount(target gold)` from target to user, with no King bonus, so the combined gold is conserved and a non-negative target stays non-negative. In every other case no gold moves. Only the user's inventory, gold and total collected, the opponent's gold and the log can change. |
| `Scenarios.KnightRobsWizard` | HackNotts25/item.cs:56-73 | A Knight with 10 gold robs a Wizard holding 3 gold and a stew. The Knight ends at 13 with the glove spent, and the Wizard ends at 0 and keeps the stew. |
| `Scenarios.KingStealsWithoutBonus` | HackNotts25/item.cs:69 | A King stealing 10 from a Priest holding 15 ends with 10 gold and 10 collected, with no bonus. The Priest keeps 5. |
| `Scenarios.BlueSpaceBonus` | player.cs:103-112 | Five blue-space gold gives a King 6 in both counters and a Wizard 5. |
| `Scenarios.OverdraftRefused` | player.cs:117-125 | A Knight pays 6 of 10. A further debit of 5 is refused, leaving 4 gold and 10 collected. |
| `Scenarios.NoOpponentStillConsumes` | HackNotts25/item.cs:60-96 | With no opponent, a glove and an idol change no gold and log nothing, but both leave the inventory. |
| `Scenarios.RemovalByIdentity` | HackNotts25/item.cs:26 | Using the second of two stews removes that instance and keeps the first. Using a stew the player does not hold removes nothing. |

## Left out

- `PlayerPawn`, its `Draw` method and the `PlayerPawn` and `CurrentBoardSpace` fields of `Player` are left out. They are rendering and board geometry, and no modelled operation reads them.
- The debug logging in every `Use` is left out. It is output only.
- The game manager's own handling of roll bonuses, double rolls and penalties is left out because it is defined outside these files. The model records only which requests were made, in order.
- The random choice of an opponent is left out. The chosen opponent is an input of `Use`, and no randomness is modelled.
- The Cursed Idol's `0.5f` multiplier is a float. It is recorded as the tag `HalvedRoll` and no float arithmetic is done.
- Ledger.Player.AddGold: does not model 32-bit wrap-around of `int` for the balance, the total or `amount + 1`, because integers here are unbounded.
- Ledger.Player.RemoveGold: does not model 32-bit wrap-around of `GoldCount - amount` for very negative amounts, because integers here are unbounded.
- Effects.Use: requires that the injected opponent is not the user. The random opponent selection excludes the user, and the model does not cover aliasing of user and target.
- `PlayerName` starts as the empty string, where the original starts with no name (null). The serialization attribute and namespace plumbing have no counterpart.
- `ScepterCount`, `MiniGamesWon` and `EventSpacesLandedOn` are plain fields. No modelled operation changes them.
