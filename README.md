# Loot sheet for Pathfinder 1e NPCs — a verified model

This project models the trading core of the "Loot Sheet NPC" module for the
Pathfinder 1e system of Foundry VTT. An NPC sheet becomes a loot container or
a merchant. Players loot items and coins from it, buy items with their coins,
and sell or drop items into it. The game master splits the sheet's coins among
the players who own the sheet.

The model is split into these modules:

- `Money` (money.dfy): coin ledgers (a count per denomination: pp, gp, sp, cp), the
  rate table with each coin's weight as a power of ten relative to gold, and the
  worth of a ledger. `SpendingPower` counts the whole reference units (weight 1; whole
  gold pieces at the standard rates) the ledger can spend, each denomination
  rounded down on its own; `Value` is the exact worth as a real.
- `Items` (items.dfy): items, their identified/unidentified names and prices, and
  the recursive sale value of an item and everything it contains.
- `Conversion` (conversion.dfy): the conversion that pays a cost out of a purse.
  It pays from the smallest coin upwards, breaking a larger coin when needed, and
  then returns change from the largest coin downwards. Also the split of a
  fractional gold amount into gp/sp/cp.
- `Inventory` (inventory.dfy): the `Actor` class, whose item list and two purses
  (`currency` and the weightless `altCurrency`) the operations update in place.
  Also moving items and coins between actors, looting and giving.
- `Trade` (trade.dfy): buying from a merchant (the decimal scaling of a
  fractional price, the split of a payment over the two purses), and dropping
  or selling an item.
- `Sheet` (sheet.dfy): the sheet itself. This covers item labels, the items the
  sheet shows, the totals and warnings, the permission cycling and batch setting,
  and the split of the sheet's coins among its owners.

Rates are modelled as powers of ten. Money is modelled with unbounded integers
and exact reals, not JavaScript floating point.

## Model

| member | source | states |
|---|---|---|
| Items.ItemName | modules/actions.js:394-397 | A missing item gives the empty name. Otherwise the result is the item's real name exactly when it is identified or has no non-empty, different unidentified name; else it is the unidentified name. |
| Items.ItemCost | modules/actions.js:402-412 | A missing item costs 0. An identified item, or one without unidentified data, costs its price. An unidentified one costs its unidentified price. |
| Items.GetItemSaleValue | modules/actions.js:417-441 | The loop-and-recursion method returns 0 for no item, and otherwise the sale value specification `SaleValue` of the item at the given ratio. |
| Items.SaleValueOf | modules/actions.js:417-441 | For a present item, the loop over a container's contents computes exactly `SaleValue`. |
| Items.SaleValueBounds | modules/actions.js:417-441 | With non-negative prices and a ratio in [0,1], an item (container or not) sells for between 0 and its full listed cost. |
| Items.ContentsBounds | modules/actions.js:425-433 | The sum over the first n contents of a container lies between 0 and their listed cost. |
| Items.FullRatioSale | modules/actions.js:417-441 | At ratio 1 every item, however deeply nested, sells for exactly its listed cost. |
| Items.ListedSale | modules/actions.js:434-440 | A listed item sells at the ratio times its cost, except trade goods, which sell at full cost. |
| Items.CostNonNegative | modules/actions.js:402-412 | With non-negative prices an item's cost is non-negative. |
| Money.WorthIsFloor | modules/actions.js:247-255 | The integer worth of a coin count at rate 10^e is the floor of count × 10^e. |
| Money.FundsAsGold | modules/actions.js:247-255 | The loop over the rates returns the spending power of the ledger at those rates. |
| Money.SpendingPowerAppend | modules/actions.js:247-255 | Adding a rate adds exactly that coin's worth to the spending power. |
| Money.ValueUpdate | modules/actions.js:300-355 | Changing one coin count by delta changes the exact worth by delta × that coin's weight. |
| Money.ValueTenfold | modules/actions.js:266-272 | Raising every rate's exponent by one multiplies the exact worth by ten. |
| Money.SpendingPowerTenfold | modules/actions.js:266-272 | Raising every exponent never loses spending power: it becomes at least ten times larger. |
| Conversion.RemoveCostFromFunds | modules/actions.js:300-355 | The two-pass method returns the conversion `RemoveCost`. For non-negative funds and cost, it fails with a conversion error exactly when the cost exceeds the spending power. On success the purse stays non-negative and loses exactly the cost in value. |
| Conversion.PayFromLowest | modules/actions.js:305-326 | The pay-from-lowest loop computes the specification `PayDown` from the first rate. |
| Conversion.RemoveCostCorrect | modules/actions.js:300-355 | The conversion error is thrown if and only if the cost exceeds the spending power. A successful removal is worth exactly the cost. When a rate of weight at most 1 exists, every affordable cost succeeds. |
| Conversion.PayDownSound | modules/actions.js:305-326 | The paying pass keeps coins and change non-negative and preserves value + change − cost. |
| Conversion.PayDownCost | modules/actions.js:305-326 | After the paying pass the cost still owed is max(0, cost − spending power of the rates not yet visited). |
| Conversion.ChangeUpToSound | modules/actions.js:336-345 | The change pass keeps coins and the owed change non-negative and preserves value + owed change. |
| Conversion.ChangeAbsorbed | modules/actions.js:336-345 | Once a coin of weight at most 1 has been visited, no change is left owed. |
| Conversion.ChangeOwedNonNegative | modules/actions.js:336-345 | The change still owed never becomes negative. |
| Conversion.SpreadFunds | modules/actions.js:101-111 | Only gp, sp and cp change; sp and cp each gain 0 to 9; the value added is within one copper (0.01 gp) below the total. |
| Inventory.Find | modules/actions.js:48-97 | A found index holds an item with that id; nothing is found exactly when no item has the id. |
| Inventory.MovedQuantity | modules/actions.js:58-65 | No quantity, or 0, moves the whole stack; otherwise the smaller of the stack and the request moves. It never exceeds the stack. |
| Inventory.MoveItem | modules/actions.js:48-97 | A missing item moves nothing. Otherwise the source's stack shrinks by the moved quantity (or is removed, or kept when infinite), and the destination receives a copy with that quantity under a fresh id. Both actors stay valid. |
| Inventory.RemainingUnique | modules/actions.js:74-87 | Taking from a stack keeps item ids unique. |
| Inventory.StockAfterMove | modules/actions.js:74-87 | After taking q from a finite stack, the source's quantity of that id drops by q. Other ids, and infinite stacks, are unaffected. |
| Inventory.StockAfterReceive | modules/actions.js:89-90 | The received copy adds its quantity under its new id and changes no other id's quantity. |
| Inventory.QuantityOfSplit | modules/actions.js:74-87 | The quantity of an id is the sum over a prefix, one item and a suffix. |
| Inventory.TransferCoins | modules/actions.js:116-158 | Exactly min(available, requested) coins move: nothing when that is 0, otherwise the source loses and the destination gains that many. No other denomination changes, the coins of that denomination are conserved, and a non-negative purse stays non-negative. |
| Inventory.MoveCoins | modules/actions.js:116-158 | A "wl_" id moves weightless coins and leaves the weighted purses unchanged, and vice versa, each as `TransferCoins` states. |
| Inventory.MoveCoinsAsWritten | modules/actions.js:116-158 | As written, the update targets purse paths that do not exist on the update object. It either moves nothing (min 0) or fails, and never moves coins. |
| Inventory.MoveCoinsCounterexample | modules/actions.js:139-154 | 5 gp, taking 3: as written the update fails; corrected, 3 gp move and 2 remain. |
| Inventory.LootItem | modules/actions.js:165-186 | Only items and the two purses change. A two-letter or "wl_" id moves coins only: the purse the id names becomes the `TransferCoins` result on both actors, the other purse is unchanged, and the result reports the coins moved or nothing. Any other id moves items only. A missing item changes nothing; otherwise the container keeps `Remaining`, and the looter receives a copy of min(stack, quantity) under the new id (the whole stack for quantity 0), which is also the result. |
| Inventory.GiveItem | modules/actions.js:360-388 | Neither actor's purses, ownership or flags change. A quantity ≤ 0, a missing actor or a missing item changes no items. Otherwise the giver keeps `Remaining` and the receiver gets a copy of min(stack, quantity) under the new id, which is also the result. |
| Trade.ScaleCost | modules/actions.js:266-272 | The scaling loop multiplies the cost by ten until it is whole. It returns the shifted cost, the number of steps (the least such number), the factor 10^steps and the rates with every exponent raised by that number. |
| Trade.StandardScaled | modules/actions.js:266-272 | Scaled standard rates still cover every denomination and stay distinct. |
| Trade.ScaleStepsIndependent | modules/actions.js:266-272 | The number of scaling steps depends only on the cost, not on the digit bound used to reason about it. |
| Trade.PayAsWritten | modules/actions.js:247-284 | The payment as written compares the scaled cost with the unscaled gold of the main purse. Every successful payment leaves full ledgers. |
| Trade.PayCorrected | modules/actions.js:247-284 | The payment with the threshold scaled like the cost. Every successful payment leaves full ledgers. |
| Trade.CorrectedSettles | modules/actions.js:247-284 | When affordable, the corrected payment is the split settlement with threshold gold × 10^k. |
| Trade.AsWrittenSettles | modules/actions.js:275-284 | When affordable, the as-written payment is the split settlement with the unscaled gold as threshold. |
| Trade.SettleSound | modules/actions.js:275-284 | When each purse can cover its part, the split never fails to convert. With at most two scaling steps (a cost in whole copper) it always pays. A payment takes exactly the cost's value out of the two purses together. |
| Trade.SettleSolvent | modules/actions.js:275-284 | With the scaled gold threshold, any cost within both purses' gold settles as `SettleSound` states. |
| Trade.PayCorrectedSound | modules/actions.js:247-284 | The corrected purchase refuses exactly when the cost exceeds both purses' gold, and never fails to convert. Costs in whole copper within the gold are always paid. A payment removes exactly the cost's value. |
| Trade.PayAsWrittenWholeCost | modules/actions.js:247-284 | For whole-gold costs the code as written behaves correctly: it refuses exactly when unaffordable, and otherwise pays exactly the cost. |
| Trade.WholeCostPaysAsCorrected | modules/actions.js:266-272 | For whole-gold costs the as-written and corrected payments coincide. |
| Trade.ScaledValueLoss | modules/actions.js:266-284 | A loss of the shifted cost at scaled rates is a loss of the cost at the base rates. |
| Trade.TransactionCounterexample | modules/actions.js:257-284 | 10 gp buying at 1.5 gp: as written the conversion fails; corrected, 8 gp 5 sp remain. |
| Trade.SubCopperChangeLost | modules/actions.js:336-351 | A price of 0.363 gp paid from 100 cp cannot have its sub-copper change returned, so the corrected payment reports `ChangeLost`. |
| Trade.HundredCopperPaysThousandths | modules/actions.js:300-351 | At thousandth rates, 100 cp paying 363 units ends in the change-not-returned error. |
| Trade.SixtyThreeCopperNoChange | modules/actions.js:336-345 | With no coin finer than the change owed, the change pass returns nothing. |
| Trade.EffectiveModifier | modules/actions.js:233-238 | A missing or zero price modifier counts as 1; any other modifier is used as is. |
| Trade.FundsInGold | modules/actions.js:247-255 | Returns the whole-gold worth of a purse. |
| Trade.PayCost | modules/actions.js:239-284 | The method computes the corrected payment `PayCorrected`. The buyer's purses become its ledgers when it pays, and are unchanged otherwise. |
| Trade.Transaction | modules/actions.js:222-295 | The quantity is clamped to the stack and the cost is paid as `PayCorrected` states. On payment the buyer's purses hold the payment's result, the item moves as `MoveItem` does and the cost is reported. Otherwise nothing changes and the payment outcome is reported. |
| Trade.ZeroQuantityPurchase | modules/actions.js:229-231 | A purchase of quantity 0 costs nothing yet moves the whole stack. |
| Trade.ProceedsAreSaleValue | modules/actions.js:196-205 | The proceeds of a sale are the item's sale value at ratio 1/2 times the quantity. |
| Trade.CreditSale | modules/actions.js:200-208 | The proceeds are credited by `SpreadFunds` when the item has a positive cost, and the purse is unchanged otherwise. |
| Trade.DropOrSellItem | modules/actions.js:191-217 | A missing item does nothing. Otherwise the whole stack moves into the container. It is a sale exactly when the container is a merchant, and then the giver is credited the proceeds; a drop leaves the purse unchanged. |
| Sheet.DigitsRoundTrip | modules/lootsheet-npc.js:34-41 | Reading back the printed quantity gives the quantity. |
| Sheet.LootsheetName | modules/lootsheet-npc.js:34-41 | The label ends with the name. It equals the name exactly when the item is finite with quantity at most 1. |
| Sheet.LabelShowsCount | modules/lootsheet-npc.js:34-41 | A quantity above 1 is shown as "(digits) " before the name, and the digits read back as the quantity. |
| Sheet.LabelShowsInfinity | modules/lootsheet-npc.js:34-41 | An infinite item's label is exactly "(∞) " followed by the name, whatever its quantity. |
| Sheet.LootPrice | modules/lootsheet-npc.js:62-69 | The game master sees the real price; a player sees `ItemCost`. |
| Sheet.LootName | modules/lootsheet-npc.js:74-81 | The game master sees the real name; a player sees `ItemName`. |
| Sheet.PrepareItems | modules/lootsheet-npc.js:914-1007 | A hidden sheet shows nothing. Visible items that include a tool make the preparation fail. Otherwise the features are the visible items placed by kind, in order. |
| Sheet.VisibleSound | modules/lootsheet-npc.js:964-972 | A player never sees a secret item, and every infinite item is shown with quantity 1. |
| Sheet.MasterSeesAll | modules/lootsheet-npc.js:964-967 | The game master sees every item. |
| Sheet.OfKindSound | modules/lootsheet-npc.js:974-1002 | A kind's section holds exactly the shown items of that kind. |
| Sheet.SheetTotals | modules/lootsheet-npc.js:135-146 | The totals loop computes `TotalsOf` over the feature rows and flags exactly the empty rows. |
| Sheet.AdjustedBelowFull | modules/lootsheet-npc.js:135-146 | With a sale ratio in [0,1], the adjusted total lies between 0 and the full-price total. |
| Sheet.RowBelowFull | modules/lootsheet-npc.js:138-145 | The same bound holds for one row. |
| Sheet.Warning | modules/lootsheet-npc.js:156-159 | A warning is raised exactly when a positive limit is exceeded. |
| Sheet.Ceil | modules/lootsheet-npc.js:157 | Returns the least integer not below x. |
| Sheet.Summarize | modules/lootsheet-npc.js:130-162 | The item count, price and adjusted price are the totals'. The item and weight warnings fire exactly when a positive limit is exceeded. The weight is rounded up. The sale value shown is the sale percentage (50 when unset or 0) clamped at 0. The viewer can act exactly when their ownership entry is level 2. |
| Sheet.NextLevel | modules/lootsheet-npc.js:871-874 | The level after a click is always one of 0, 1, 2: the next in the cycle 0→1→2→0, or 0 for an unknown level. |
| Sheet.CycleReturns | modules/lootsheet-npc.js:871-874 | Three clicks bring a permission level back to itself. |
| Sheet.CyclePermission | modules/lootsheet-npc.js:856-889 | Only the player's entry changes, to the next level in the cycle. |
| Sheet.BatchPermissions | modules/lootsheet-npc.js:892-906 | Every player gets the new level; every other entry is kept. |
| Sheet.OnBatchPermissionChange | modules/lootsheet-npc.js:892-906 | The sheet's ownership becomes that batch setting. |
| Sheet.BatchIdempotent | modules/lootsheet-npc.js:892-906 | Applying the same batch setting twice changes nothing more. |
| Sheet.BatchKeepsMasters | modules/lootsheet-npc.js:892-906 | A game master's level is never changed by a batch setting. |
| Sheet.OwnerSource | modules/lootsheet-npc.js:743-760 | Every selected owner is the character of an eligible user with owner permission. |
| Sheet.OwnerFound | modules/lootsheet-npc.js:743-760 | Every eligible owner's character is selected. |
| Sheet.OwnersExact | modules/lootsheet-npc.js:743-760 | When the key order lists every ownership key, the selected owners are exactly the characters of the eligible keys: each eligible key's character is selected, and each selected actor belongs to an eligible key. |
| Sheet.SelectOwners | modules/lootsheet-npc.js:743-760 | The selection loop computes the owner list `Owners`. |
| Sheet.ShareIsFloor | modules/lootsheet-npc.js:774-789 | Each owner's share is the floor of total / owners. |
| Sheet.ShareBounds | modules/lootsheet-npc.js:774-789 | What is left after the shares is at least 0 and less than the number of owners. |
| Sheet.SplitLedger | modules/lootsheet-npc.js:768-789 | Per denomination, share × owners + remainder is the sheet's count, and the remainder is below the number of owners. |
| Sheet.SplitConserves | modules/lootsheet-npc.js:768-789 | The split conserves every denomination. |
| Sheet.CreditOne | modules/lootsheet-npc.js:802-829 | One owner's purses gain the shares. |
| Sheet.CreditOwners | modules/lootsheet-npc.js:792-847 | Every owner's purses gain the shares, and nothing else about them changes. |
| Sheet.ShareOut | modules/lootsheet-npc.js:768-847 | The sheet keeps only the remainders, and each owner gains the shares. |
| Sheet.DistributeCoins | modules/lootsheet-npc.js:734-848 | The owners are exactly the characters of the eligible ownership keys: every eligible key's character receives a share, and no one else does. With no owners nothing changes. Otherwise the sheet keeps the remainders and each owner gains the shares. The owners stay valid and keep their items, ownership and flags. The sheet keeps its items, ownership and flags, and every other actor is unchanged. |

## Left out

- Chat messages, notifications, localisation strings, console logging and
  rendering are not modelled; the operations return outcome values instead.
- JavaScript number coercion, NaN and floating-point rounding are not modelled.
  Counts are integers and prices exact reals. `SpreadFunds` floors exactly where
  the code multiplies floats.
- The asynchronous document updates are modelled as immediate assignments.
  Source and destination must be distinct actors (`source != destination`). The
  model does not capture an actor trading with itself.
- `DistributeCoins` requires the selected owners to be distinct and different
  from the sheet. Under immediate updates the code would credit a duplicated
  owner twice. With the unawaited update, the second visit would read the
  unchanged purse, so the owner would be credited once while two shares leave
  the sheet.
- Sheet.DistributeCoins: takes a user's `character` to be the id of the
  player's actor, so the lookup at modules/lootsheet-npc.js:752 finds the actor
  whenever that id is in `actors`. Elsewhere the code treats `character` as the
  actor document itself (modules/lootsheet-npc.js:1072 reads `character.id`,
  modules/actions.js:368 reads `character._id`). Read that way, the lookup
  finds no actor, no owner is selected, and the early return at
  modules/lootsheet-npc.js:763-766 leaves every purse unchanged. That outcome
  is the no-owner case, which `DistributeCoins` states.
  The model does not decide which reading holds at run time.
- The enumeration order of the ownership keys is a parameter (`order`) of the
  owner selection, which lists every ownership key exactly once.
- `DistributeCoins` assigns the sheet's remaining coins once after crediting.
  The code writes the sheet inside the owner loop with the same final values.
- Conversion.RemoveCostFromFunds: when change cannot be handed back, the model
  returns the outcome `ChangeNotReturned`, and `Trade.Transaction` then commits
  nothing and reports `ChangeLost`. The code returns the value of the error
  notification instead of the funds, since its `throw` follows a `return`. The
  purchase then writes that value as the buyer's purse and still moves the item.
  The model does not capture this, because what the notification returns is
  outside the code.
- `Trade.ScaleCost`, `Trade.Transaction` and the payment functions take a ghost
  digit bound that the cost is assumed to be a decimal within. The code's loop
  would not stop on a cost that is not a finite decimal.
- Rates are restricted to powers of ten, the only rates the conversion uses.
- `Trade.Transaction` requires the item to exist in the seller's inventory. The
  code would fail on a missing item, so this is a precondition and not an error
  path.
- `_merchantInventoryUpdate` and the display-only values (item and weight
  limits as text, the weight unit, the rounding of `lootsheetprice`,
  `lootsheetweight`) are not modelled. `Sheet.Summarize` takes the limits and
  the sale ratio as optional parameters, where the code falls back to defaults.
  The price-modifier and sheet-type defaults of the sheet data are not modelled.
- The legacy update keys (`permission`, `data.altCurrency`) are modelled by
  their effect on `ownership` and `altCurrency`.
- `Sheet.PrepareItems` models the failure of the code on a tool item, which has
  no section in the sheet, as the outcome `ToolFailure`.
- Inventory.LootItem: requires a coin id to name one of pp, gp, sp and cp, as
  `Inventory.MoveCoins` does. The code reads an undefined count for any other
  two-letter id. It moves coins as the corrected `Inventory.MoveCoins` does (see
  Findings); the code calls the as-written move, which throws on any non-zero
  amount.
- Inventory.MoveCoins: models the corrected coin move. The code as written is
  `Inventory.MoveCoinsAsWritten` (see Findings).
- Trade.Transaction: pays with the corrected split (`Trade.PayCorrected`). The
  code as written is `Trade.PayAsWritten` (see Findings). The two coincide for
  whole-gold costs (`Trade.WholeCostPaysAsCorrected`).

## Findings

| source | as written | input that shows it | evidently intended | confidence | as-written member | corrected member |
|---|---|---|---|---|---|---|
| modules/actions.js:257-284 | The split of a payment compares the cost scaled by 10^k with the main purse's gold, which is not scaled. It then converts the scaled difference from the main purse. | 10 gp in the main purse, nothing weightless, price 1.5 gp: k = 1 and 15 > 10, so 10 tenths (1 gp) are taken from the main purse and the other 5 tenths from the empty weightless purse, whose conversion fails. | Compare with gold × 10^k, so 8 gp 5 sp remain. | not executed | Trade.PayAsWritten (Trade.TransactionCounterexample) | Trade.PayCorrected (Trade.PayCorrectedSound) |
| modules/actions.js:147-153 | The coin move writes the new counts through `srcUpdate.currency` (`srcUpdate.altCurrency` for weightless coins), which is undefined on the update object, so the assignment throws and no coins move. | 5 gp at the source, taking 3. | The source keeps 2 gp and the destination gains 3. | not executed | Inventory.MoveCoinsAsWritten (Inventory.MoveCoinsCounterexample) | Inventory.TransferCoins (Inventory.MoveCoins) |
