# Narivia simulation kernel in Dafny

This project models the simulation kernel of Narivia, a turn-based conquest game. The kernel has two parts:

- **The world store (`WorldManager`).** It holds keyed catalogs of regions, factions, holdings, units and armies, and the border graph. It answers queries per faction: its regions, holdings, armies, troop total and capital. It moves a region to a new occupier. It derives the border graph from the tile grid by sampling every fifth cell and scanning the 5x5 window around each sample, clipped at the map's edges.
- **The turn engine (`GameManager`).** It holds the player's faction and the turn counter. It computes each faction's income, upkeep ("outcome") and recruitment. `NextTurn` visits the factions in the store's order:
  - a faction without regions dies;
  - a surviving faction collects its income, pays its upkeep and receives recruits into its "militia" army;
  - a computer faction with enough troops then attacks a region;
  - a "player region attacked" notification is raised when the attacked region belonged to the player.

  The engine also adds and buys troops, changes the relations between two factions, and resolves the player's own attack before playing a turn.

Modules:

- `Models` (models.dfy) holds the entities as datatypes.
- `World` (world.dfy) holds the store queries as functions and the class `WorldManager`. The class's fields are the catalogs, the tile grid (an `array2`), the armies and borders in insertion order, and the relations.
- `Economy` (economy.dfy) holds the income, upkeep and recruitment formulas and the purchase rule of `RecruitUnits`.
- `Turn` (turn.dfy) specifies a faction's step and a whole turn as functions on a `TurnState`, and proves what a step and a turn do.
- `Game` (game.dfy) holds the class `GameManager`. Its imperative `NextTurn` loop is proved to compute exactly `Turn.Steps` over the store's faction order.

The attack manager is not part of this model. Its choice of target and its combat result are an input, a `Planner` that gives each faction an `AttackDecision` (target region and battle result). On a victory the target passes to the attacker. The C# event is modelled as the sequence of notifications that `NextTurn` returns.

## Model

| member | source | states |
|---|---|---|
| Economy.Income | Narivia.GameLogic/GameManagers/GameManager.cs:262-272 | Income is regions × base region income plus 5 per castle, 15 per city and 10 per temple owned, so it is at least regions × base |
| Economy.HoldingsOfType | Narivia.GameLogic/GameManagers/GameManager.cs:267-269 | The holdings of one kind counted for a faction are holdings of that faction, all of that kind |
| Economy.IncomeAfterTransfer | Narivia.GameLogic/GameManagers/GameManager.cs:262-272 | Conquering a region adds exactly that region's yield (base plus its holdings) to the conqueror's income and removes it from the previous occupier's |
| Economy.HoldingsOfTypeAfterTransfer | Narivia.GameLogic/GameManagers/GameManager.cs:267-269 | After a conquest, the castle/city/temple counts of conqueror and loser change by exactly the count in the conquered region |
| Economy.Outcome | Narivia.GameLogic/GameManagers/GameManager.cs:279-287 | Only the faction's own army entries need a known unit, as in the source's lookup; a faction without army entries pays no upkeep |
| Economy.OutcomeUpdate | Narivia.GameLogic/GameManagers/GameManager.cs:279-287 | Adding n troops to one army entry raises that faction's upkeep by n × the unit's maintenance and leaves other factions' upkeep unchanged |
| Economy.OutcomeNonNegative | Narivia.GameLogic/GameManagers/GameManager.cs:279-287 | With no negative army, upkeep is never negative |
| Economy.Recruitment | Narivia.GameLogic/GameManagers/GameManager.cs:294-303 | Recruitment is at least the per-faction base, and at least both bases when the faction holds a region; holdings do not count |
| Economy.RecruitmentAfterTransfer | Narivia.GameLogic/GameManagers/GameManager.cs:294-303 | A conquest moves exactly one per-region recruitment base from the loser to the conqueror |
| Economy.TruncDiv | Narivia.GameLogic/GameManagers/GameManager.cs:425 | C# integer division by a positive price, truncating toward zero, for both signs of the dividend |
| Economy.RecruitAmount | Narivia.GameLogic/GameManagers/GameManager.cs:419-426 | An affordable order is met in full; otherwise, with non-negative wealth, the troops bought are the most the wealth pays for and fewer than ordered; with negative wealth the result is the truncated (non-positive) quotient |
| World.FactionRegions | Narivia.GameLogic/GameManagers/WorldManager.cs:290-293 | The regions of a faction are known regions, each occupied by that faction |
| World.FactionHoldings | Narivia.GameLogic/GameManagers/WorldManager.cs:279-283 | A faction's holdings are never Empty and lie in regions the faction occupies |
| World.RegionHoldings | Narivia.GameLogic/GameManagers/WorldManager.cs:300-304 | A region's holdings are never Empty and lie in that region |
| World.HoldingsFollowRegions | Narivia.GameLogic/GameManagers/WorldManager.cs:279-283 | A faction's holdings are exactly the union of the holdings of the regions it occupies |
| World.FactionCapital | Narivia.GameLogic/GameManagers/WorldManager.cs:257-262 | A capital found is occupied by the faction, has it as sovereign and is of type Capital; None (the null dereference) exactly when no region qualifies |
| World.Transfer | Narivia.GameLogic/GameManagers/WorldManager.cs:236-239 | The region's occupier becomes f; its id, sovereign and type and every other region are unchanged |
| World.TransferMovesOneRegion | Narivia.GameLogic/GameManagers/WorldManager.cs:236-239 | A transfer adds the region to the new occupier's regions, removes it from the old occupier's, and changes no other faction's regions |
| World.TransferRegionCounts | Narivia.GameLogic/GameManagers/WorldManager.cs:236-239 | A transfer between two different factions changes their region counts by +1 and -1 |
| World.FindArmy | Narivia.GameLogic/GameManagers/GameManager.cs:407-408 | Finds the first army entry of (faction, unit) in insertion order, and finds none exactly when no entry exists |
| World.AddToArmy | Narivia.GameLogic/GameManagers/GameManager.cs:405-409 | Only the first matching army entry changes, and its size grows by the amount; the table keeps its keys |
| World.FactionArmies | Narivia.GameLogic/GameManagers/WorldManager.cs:269-272 | The armies of a faction all belong to it, are no more than the table holds, and are none when the table has no entry of it |
| World.FactionArmiesExact | Narivia.GameLogic/GameManagers/WorldManager.cs:269-272 | The armies of a faction are exactly the entries that belong to it |
| World.TroopsCount | Narivia.GameLogic/GameManagers/WorldManager.cs:246-250 | A faction without army entries has no troops |
| World.TroopsCountUpdate | Narivia.GameLogic/GameManagers/WorldManager.cs:246-250 | Changing one army entry's size by n changes its faction's troop total by n and no other faction's |
| World.AddToArmyTroops | Narivia.GameLogic/GameManagers/WorldManager.cs:246-250 | Adding n troops to a (faction, unit) entry raises that faction's troop total by n and leaves all others |
| World.TroopsCountNonNegative | Narivia.GameLogic/GameManagers/WorldManager.cs:246-250 | With no negative army, no troop total is negative |
| World.RegionHasBorderStoredOnce | Narivia.GameLogic/GameManagers/WorldManager.cs:188-192 | In a border list without duplicates in either orientation, two entries that join the same two regions are the same entry, so the lookup finds at most one border |
| World.RegionHasBorderAppend | Narivia.GameLogic/GameManagers/WorldManager.cs:188-192 | After a border (c, d) is appended, the lookup holds for (a, b) exactly when it held before or (c, d) joins a and b in either orientation |
| World.RegionHasBorderSymmetric | Narivia.GameLogic/GameManagers/WorldManager.cs:188-192 | The border lookup gives the same answer for (a, b) and (b, a) |
| World.FactionsAdjacent | Narivia.GameLogic/GameManagers/WorldManager.cs:200-218 | Two adjacent factions each occupy at least one region |
| World.FactionsAdjacentSymmetric | Narivia.GameLogic/GameManagers/WorldManager.cs:200-218 | Faction adjacency is symmetric |
| World.DetectedBorderAdded | Narivia.GameLogic/GameManagers/WorldManager.cs:417-423 | A border registered between a sample's region and a different region of its window is a detected, non-self border |
| World.BordersExact | Narivia.GameLogic/GameManagers/WorldManager.cs:394-429 | Sound, complete, self-free sampling makes the border lookup true exactly for two different regions, one of which occurs in a sample window of the other |
| World.WorldManager.FactionIdAtPosition | Narivia.GameLogic/GameManagers/WorldManager.cs:226-229 | The faction returned occupies the region of cell (x, y) |
| World.WorldManager.TransferRegion | Narivia.GameLogic/GameManagers/WorldManager.cs:236-239 | The region map becomes `Transfer` of the old one, and exactly the cells of that region now report the new faction |
| World.WorldManager.SetBorder | Narivia.GameLogic/GameManagers/WorldManager.cs:431-446 | An existing border, in either orientation, leaves the table unchanged; otherwise (region1, region2) is appended. No pair is ever stored twice in either orientation, and the lookup holds afterwards |
| World.WorldManager.ScanSample | Narivia.GameLogic/GameManagers/WorldManager.cs:400-426 | After scanning the clipped 5x5 window of a sample, the sample's region borders every other region in the window; existing borders stay, and every stored border stays detected and non-self |
| World.WorldManager.ScanWindowColumn | Narivia.GameLogic/GameManagers/WorldManager.cs:403-425 | After scanning one window column, clipped to the grid, the sample's region borders every other region in that column; existing borders stay, every stored border stays detected and non-self, and every visited region is bordered |
| World.WorldManager.LoadBorders | Narivia.GameLogic/GameManagers/WorldManager.cs:394-429 | Afterwards there are no self-borders and no duplicates in either orientation, and two regions share a border exactly when they differ and one occurs in the clipped window of a stride-5 sample lying in the other |
| World.WorldManager.FactionHasBorder | Narivia.GameLogic/GameManagers/WorldManager.cs:200-218 | True exactly when some region of the first faction borders some region of the second |
| Turn.Earn | Narivia.GameLogic/GameManagers/GameManager.cs:144-145 | Only the faction's wealth changes; regions, armies, notifications, other factions and its own id and alive flag are unchanged |
| Turn.Enlist | Narivia.GameLogic/GameManagers/GameManager.cs:151-153 | Only the faction's army entries can change; the table keeps its keys and every other faction's entries |
| Turn.Grow | Narivia.GameLogic/GameManagers/GameManager.cs:143-153 | The economy part of a step keeps the regions, the notifications and the set of factions |
| Turn.GrowFrame | Narivia.GameLogic/GameManagers/GameManager.cs:143-153 | The economy part of a step yields a successor state and changes no other faction's record or army entry |
| Turn.Campaign | Narivia.GameLogic/GameManagers/GameManager.cs:156-174 | The attack part of a step leaves every faction record and army unchanged |
| Turn.CampaignAttacks | Narivia.GameLogic/GameManagers/GameManager.cs:156-174 | A computer faction with at least the attack minimum of troops attacks the planned region: the region passes to it exactly on a victory, and a notification with region, attacker and result is appended exactly when the player occupied the region |
| Turn.CampaignFrame | Narivia.GameLogic/GameManagers/GameManager.cs:156-174 | The attack part of a step yields a successor state |
| Turn.Step | Narivia.GameLogic/GameManagers/GameManager.cs:135-174 | A step never drops a notification and appends at most one |
| Turn.StepFrame | Narivia.GameLogic/GameManagers/GameManager.cs:135-175 | A faction's step yields a successor state (same keys, identities kept, no one revived, notifications only appended) and touches no other faction's record or armies |
| Turn.Steps | Narivia.GameLogic/GameManagers/GameManager.cs:135-175 | Every state reached during a turn still satisfies what the steps need (militia present, holdings placed, armies priced, targets known) |
| Turn.StepsSuccessor | Narivia.GameLogic/GameManagers/GameManager.cs:135-175 | The state after a whole turn is a successor of the state before it |
| Turn.StepSkipsDead | Narivia.GameLogic/GameManagers/GameManager.cs:135 | A dead faction's step changes nothing |
| Turn.StepEliminates | Narivia.GameLogic/GameManagers/GameManager.cs:137-141 | A living faction with no region is set dead, and nothing else changes: no income, upkeep, recruits, attack or notification |
| Turn.StepEconomy | Narivia.GameLogic/GameManagers/GameManager.cs:144-145 | A surviving faction's wealth becomes old wealth + income − upkeep, both taken before recruiting; it stays alive and no other faction changes |
| Turn.StepRecruits | Narivia.GameLogic/GameManagers/GameManager.cs:151-153 | A surviving faction's militia grows by exactly its recruitment, no other army entry changes, and its troop total grows by the recruitment |
| Turn.StepNoAttack | Narivia.GameLogic/GameManagers/GameManager.cs:156-160 | The player's faction, and a faction whose troops after recruiting are below the attack minimum, change no region and raise no notification |
| Turn.StepAttack | Narivia.GameLogic/GameManagers/GameManager.cs:162-174 | A step changes at most the planned region, only to the attacker and only on a victory; a notification is raised only by a non-player attacker on a region the player occupied before, with that region, attacker and result |
| Turn.StepAttacks | Narivia.GameLogic/GameManagers/GameManager.cs:156-174 | A surviving computer faction whose troops after recruiting reach the minimum does attack: the planned region passes to it exactly on a victory, and a notification is appended exactly when the player occupied the region |
| Turn.StepSparesLandless | Narivia.GameLogic/GameManagers/GameManager.cs:135-175 | Another faction's step leaves a landless faction landless, with its record and armies unchanged |
| Turn.TurnSkipsDead | Narivia.GameLogic/GameManagers/GameManager.cs:135 | A faction dead at the start of a turn ends the turn unchanged |
| Turn.TurnEliminatesLandless | Narivia.GameLogic/GameManagers/GameManager.cs:135-141 | A faction landless at the start of a turn is dead after it if its step comes up, keeping its wealth and armies, and is unchanged otherwise |
| Turn.TurnNotificationsFromOthers | Narivia.GameLogic/GameManagers/GameManager.cs:166-174 | Every notification raised in a turn names an attacker that is not the player and whose step belongs to the turn |
| Game.ClampRelations | Narivia.GameLogic/GameManagers/GameManager.cs:464 | The value is forced into [-100, 100]: unchanged inside the range, saturated at the nearer bound outside it |
| Game.Relate | Narivia.GameLogic/GameManagers/GameManager.cs:456-466 | The source → target value becomes `ClampRelations` of old + delta, the target → source value becomes equal to it, and every other relation is unchanged |
| Game.RelateKeepsConsistent | Narivia.GameLogic/GameManagers/GameManager.cs:456-466 | Changing relations keeps every relation bounded and equal to its reverse |
| Game.GameManager.constructor | Narivia.GameLogic/GameManagers/GameManager.cs:120-128 | A new game over a world with loaded catalogs and grid derives the border graph (two regions border exactly when one is detected in a sample window of the other) and is played by the given faction from turn 0 |
| Game.GameManager.InitializeGame | Narivia.GameLogic/GameManagers/GameManager.cs:444-448 | Sets the player's faction and sets the turn to 0 |
| Game.GameManager.EliminateFaction | Narivia.GameLogic/GameManagers/GameManager.cs:139 | Only the faction's alive flag changes, to false |
| Game.GameManager.EarnIncome | Narivia.GameLogic/GameManagers/GameManager.cs:144-145 | The store afterwards is `Turn.Earn` of the store before |
| Game.GameManager.EnlistRecruits | Narivia.GameLogic/GameManagers/GameManager.cs:151-153 | The store afterwards is `Turn.Enlist` of the store before |
| Game.GameManager.CampaignFaction | Narivia.GameLogic/GameManagers/GameManager.cs:156-174 | The store and notifications afterwards are `Turn.Campaign` of those before, so by `Turn.CampaignAttacks` a computer faction with enough troops takes the target on a victory and notifies the player when it held the target |
| Game.GameManager.PlayFaction | Narivia.GameLogic/GameManagers/GameManager.cs:135-174 | The store and notifications afterwards are `Turn.Step` of those before, whose elimination, economy, recruitment and attack are stated by `Turn.StepEliminates`, `Turn.StepEconomy`, `Turn.StepRecruits`, `Turn.StepNoAttack` and `Turn.StepAttacks` |
| Game.GameManager.PlayNextFaction | Narivia.GameLogic/GameManagers/GameManager.cs:135-175 | After the step of the i-th faction of the order, the store is `Turn.Steps` over the first i+1 factions |
| Game.GameManager.PlayFactions | Narivia.GameLogic/GameManagers/GameManager.cs:135-175 | The loop over the faction order leaves the store and notifications equal to `Turn.Steps` over the whole order |
| Game.GameManager.NextTurn | Narivia.GameLogic/GameManagers/GameManager.cs:133-178 | Regions, factions, armies and notifications are `Turn.Steps` of the store before over the faction order, each step behaving as `Turn.Step` is proved to (elimination, economy, recruitment, attack and notification), and the turn counter grows by exactly 1 |
| Game.GameManager.AddUnits | Narivia.GameLogic/GameManagers/GameManager.cs:405-409 | Only the first (faction, unit) army entry changes, and it grows by the amount |
| Game.GameManager.RecruitUnits | Narivia.GameLogic/GameManagers/GameManager.cs:417-429 | The (faction, unit) entry grows by `Economy.RecruitAmount` of wealth, price and order; the wealth is not charged |
| Game.GameManager.ChangeRelations | Narivia.GameLogic/GameManagers/GameManager.cs:456-466 | The relations afterwards are `Game.Relate` of those before |
| Game.GameManager.PlayerAttackRegion | Narivia.GameLogic/GameManagers/GameManager.cs:435-442 | Returns the battle result; on a victory the region passes to the player; then one turn is played on that store, so the turn counter grows by exactly 1 |

## Left out

- File, XML and bitmap loading (`LoadEntities`, `LoadMap`, the world and border repositories) is not modelled. The `WorldManager` constructor takes the tile grid, the catalogs, the armies and the relations as inputs.
- The armies and the relations are inputs that the code shown never fills: `LoadMap` creates both tables empty (Narivia.GameLogic/GameManagers/WorldManager.cs:343-345), and nothing in `WorldManager` or `GameManager` adds to them. With empty tables `NextTurn` dereferences null for the first living faction with land (Narivia.GameLogic/GameManagers/GameManager.cs:151-153) and `ChangeRelations` does so too (Narivia.GameLogic/GameManagers/GameManager.cs:463). The model requires the entries `Turn.Ready` and `ChangeRelations` need and does not model those failures.
- World.HoldingsPlaced: the constructor requires every non-Empty holding to name a known region. `LoadEntities` (Narivia.GameLogic/GameManagers/WorldManager.cs:306-339) never checks this; a non-Empty holding with an unknown region makes `GetFactionHoldings` throw (an Empty one is filtered out before the lookup, Narivia.GameLogic/GameManagers/WorldManager.cs:281) a missing-key error (Narivia.GameLogic/GameManagers/WorldManager.cs:282), which is not modelled.
- World.ArmiesPriced: `WorldManager.Valid`, and so every `GameManager` method, and `Turn.Ready` and `Turn.Earn` require every army entry to name a known unit. The source looks a unit up only for the entries of the faction whose upkeep it computes, a living faction with land (Narivia.GameLogic/GameManagers/GameManager.cs:283-284), so the model refuses a store in which, for example, a dead faction's entry names an unknown unit.
- The pixel loops of `LoadMap` (Narivia.GameLogic/GameManagers/WorldManager.cs:368-370) run `y` up to the width and `x` up to the height. They are correct only on square maps. The model starts from a grid that is already filled and does not reproduce this.
- The attack manager's target choice and combat formula are not part of this model. They are an input `Planner`, and on a victory the target passes to the attacker.
- The C# event and its subscribers are not modelled. The notifications are returned as a sequence, in the order they are raised.
- Rendering, widgets, input, timing, and `Equals`/`GetHashCode` on the model classes are not modelled.
- Integers are unbounded. The 32-bit overflow of wealth, income, upkeep, army sizes and `price * amount` in C# is not modelled. Nor are two more: `sourceRelation.Value + delta` (Narivia.GameLogic/GameManagers/GameManager.cs:464) wraps before the clamp, so a delta near the 32-bit maximum saturates to the opposite bound; and `Enumerable.Sum` (Narivia.GameLogic/GameManagers/GameManager.cs:284, Narivia.GameLogic/GameManagers/WorldManager.cs:249) throws on overflow instead of wrapping.
- Regions and factions are immutable values in maps, so the aliasing of the source's shared `Region` and `Faction` objects is not modelled. Only their field updates are.
- Relations are a map keyed by (source, target). The source's `FirstOrDefault` over a dictionary of `Relation` objects could hold duplicate pairs; the model assumes it holds none.
- Turn.Ready: requires a militia entry for every living faction and a known target region for every faction. The source fails (null or missing key) only for the factions that reach those lines, so this precondition is slightly stronger than the code's.
- Turn.Step: an id missing from the faction store is skipped. The turn never visits one, because the order covers exactly the store's factions.
- World.FactionCapital: picks some qualifying region when there are several, not necessarily the first in dictionary order.
- World.FactionHasBorder: visits regions in an unspecified set order, not dictionary order. The answer does not depend on the order.
- AddUnits, RecruitUnits: require an army entry for the (faction, unit) pair. Without one the source dereferences null (Narivia.GameLogic/GameManagers/GameManager.cs:407-408), and that failure is not modelled.
- RecruitUnits: requires non-negative wealth when the unit's price is 0. With price 0 and negative wealth the source divides by zero (Narivia.GameLogic/GameManagers/GameManager.cs:425), and that failure is not modelled.
- ChangeRelations: requires both relation pairs to exist. Without them the source dereferences null (Narivia.GameLogic/GameManagers/GameManager.cs:463-465), and that failure is not modelled.
- TransferRegion: requires a known region. The source's missing-key failure (Narivia.GameLogic/GameManagers/WorldManager.cs:238) is not modelled.
- FactionIdAtPosition: requires a cell inside the grid. The source's out-of-range failure (Narivia.GameLogic/GameManagers/WorldManager.cs:228) is not modelled.
- The attack manager is assumed to change only the target region's occupier: no troop losses, no wealth change. The frame results `Turn.StepFrame`, `Turn.StepRecruits` (militia size after the whole step) and `Turn.StepEconomy` rely on this.
- The `GameManager` constructor derives the border graph from an already filled grid. The rest of the world loading stays outside the model.
- RegionHasBorder: carries no contract of its own. What it answers is stated by `World.RegionHasBorderSymmetric`, `World.RegionHasBorderAppend`, `World.RegionHasBorderStoredOnce`, `World.BordersExact` and the `SetBorder` and `LoadBorders` contracts.
- Economy.RecruitAmount: with negative wealth the truncated quotient is non-positive: it is 0 while -price < wealth < 0, and negative once wealth <= -price, so from then on `RecruitUnits` removes troops. This is modelled as written.
- RecruitUnits: requires the unit and the faction to be in their catalogs. Otherwise the source throws a missing-key error (Narivia.GameLogic/GameManagers/GameManager.cs:419-420), which is not modelled.
