# Clots game-state engine in Dafny

A verified model of the rules engine of the idle game "clots": the resource
ledger (day, clots, plasma, essence, energy, threat, masking, integrity,
experience), the stat aggregate built from the player's level, the adopted
doctrine and the unlocked modules, the map of nodes that are discovered and
cleared for rewards, turn-based fights against the enemy of a battle or boss
node, the passive tick, the bounded narrative log and the save payload. A
second, small model covers the resource-upgrade shop.

How the model is laid out:

- `common.dfy`: `Option` with `GetOr` (the source's `??`), `Min`, `Max`, and
  `Round` (`Math.round`).
- `game_types.dfy`: the entities as datatypes, the look-ups by id, and the
  base node, module and doctrine tables.
- `progression.dfy`: the pure derived values. These are the level (the
  `reduce` over the thresholds), `levelInfo`, the level, doctrine and module
  bonuses, the stat aggregate (the `reduce` over the modules) with its
  maxima, and `canAfford`.
- `combat.dfy`: enemy intents and their roll, the damage of an enemy turn,
  and the damage of a player strike.
- `event_log.dfy`: log entries as an `Event` datatype, and `logEvent`'s
  40-entry window.
- `map_rules.dfy`: discovery of the next node, what a node reward grants,
  and the enemy a battle node sends.
- `game_state.dfy`: class `Game`. It has one field per reactive value of
  `useGameState`; the two `combatState` flags are the fields `guarded` and
  `focused`. There is one method per operation, changing the fields as the
  source does. Reference functions (`EnemyTurn`, `Victory`) state what an
  enemy turn and a won fight do. Methods whose source function does
  several things in a row are split along those steps: `ClaimNode`,
  `StrikeRound`, `FinishRound`, `LoadLedger`, `LoadWorld` and so on.
- `upgrades.dfy`: class `UpgradeStore` for `useUpgrades`. It holds the
  upgrade list and the `clots` and `autoRate` counters the shop shares
  with the clot store.

Every `Math.random()` draw is a parameter in [0, 1) (`intentRoll`,
`critRoll`, `bonusRoll`, and `roll` of `scanFlow`). Fractional quantities are
`real`. An absent cost, reward or effect entry is the value 0, because the
source treats a missing entry and a zero entry alike.

Where the code and the design prose differ, the model follows the code:

- Doctrines and modules have no level and no prerequisites.
  `adoptDoctrine` charges on every call, even for the doctrine already
  selected.
- `spendEnergy` emits no notice.
- There is no "vault" node type.
- `applySavePayload` does not check the version. A null or missing
  `selectedDoctrineId` keeps the current doctrine. A missing encounter
  ends the fight. A log longer than 40 entries that comes in through a
  payload stays longer, since each new entry drops only one old one.
- `exploreNode` does not check that the selected node is discovered.
- The selected node is not part of the save payload.

## Model

| member | source | states |
|---|---|---|
| Common.Round | src/composables/useGameState.ts:495 | `Math.round` as the integer within half a unit of x, halves rounding up |
| GameTypes.ModuleIndex | src/composables/useGameState.ts:472 | a found index is in range and names a module with that id |
| GameTypes.ModuleIndexFirst | src/composables/useGameState.ts:472 | `find` returns the first module with the id; none is returned only when no module has it |
| GameTypes.NodeIndex | src/composables/useGameState.ts:671 | a found index is in range and names a node with that id |
| GameTypes.NodeIndexFirst | src/composables/useGameState.ts:671 | the first node with the id is found; none only when no node has it |
| GameTypes.FirstUndiscovered | src/composables/useGameState.ts:582 | a found index is in range and names an undiscovered node |
| GameTypes.FirstUndiscoveredFirst | src/composables/useGameState.ts:582 | every earlier node is discovered; none is found only when all are discovered |
| GameTypes.ModuleIndexIgnoresNonIdFields | src/composables/useGameState.ts:475 | changing module fields other than ids (as unlocking does) keeps every look-up by id |
| GameTypes.NodeIndexIgnoresNonIdFields | src/composables/useGameState.ts:584 | changing node flags keeps every look-up by id |
| Progression.LevelScanResult | src/composables/useGameState.ts:355-357 | the threshold `reduce` ends one past the last threshold reached, with every later threshold out of reach, or keeps its start value |
| Progression.LevelOfRange | src/composables/useGameState.ts:354-357 | the level lies in 1..9; its threshold is reached for non-negative experience, and no higher threshold is |
| Progression.LevelMonotone | src/composables/useGameState.ts:354-357 | more experience never gives a lower level |
| Progression.ThresholdsIncrease | src/composables/useGameState.ts:82 | the thresholds strictly increase |
| Progression.LevelOf | src/composables/useGameState.ts:354-357 | the level of any experience lies in 1..9 |
| Progression.Progress | src/composables/useGameState.ts:363-367 | progress is 1 when the two thresholds coincide, and in [0, 1) between them |
| Progression.LevelInfoOf | src/composables/useGameState.ts:354-374 | `levelInfo`: its level, the threshold reached, the next threshold still ahead, progress in [0, 1] (below 1 except at the top level) |
| Progression.LevelEffects | src/composables/useGameState.ts:383-393 | the level bonuses are non-negative from level 1 up |
| Progression.DoctrineIndex | src/composables/useGameState.ts:377-379 | the first doctrine with the id, or none when no doctrine has it |
| Progression.DoctrineIndexIgnoresNonIdFields | src/composables/useGameState.ts:377-379 | changing doctrine fields other than ids keeps every look-up by id |
| Progression.WithDoctrineIgnoresOtherDoctrines | src/composables/useGameState.ts:376-381 | `doctrineEffects` depends on the selected doctrine alone: tables with the same ids that agree on its effects give the same bonus |
| Progression.WithDoctrineNonNegative | src/composables/useGameState.ts:376-381 | with non-negative doctrine effects, adopting a doctrine never lowers a stat, and non-negative bonuses stay non-negative |
| Progression.StatsFoldIsSum | src/composables/useGameState.ts:396-406 | the left-to-right module `reduce` adds exactly the unlocked modules' effects to its start value |
| Progression.UnlockAddsEffects | src/composables/useGameState.ts:398-404 | unlocking a locked module adds exactly its effects to the module sum |
| Progression.UnlockedSumNonNegative | src/composables/useGameState.ts:396-406 | non-negative module effects give a non-negative sum |
| Progression.StatsIsSum | src/composables/useGameState.ts:395-419 | `Stats`, the left-to-right module `reduce` over the level and doctrine bonuses, equals the level bonus plus the selected doctrine's plus every unlocked module's effects |
| Progression.StatsNonNegative | src/composables/useGameState.ts:395-425 | with non-negative effects no stat is negative, `maxEnergy` is at least 6 and `maxIntegrity` at least 100 |
| Progression.DerivedStatsBounds | src/composables/useGameState.ts:421-425 | the maxima and powers (`MaxEnergy`, `PlasmaRate`, `AttackPower`, `DefensePower`, `MaxIntegrity`) of a game with non-negative effects: energy cap at least 6, plasma rate at least 1.2, attack at least 6, defense at least 0, integrity cap at least 100 |
| Progression.AffordedCostLeavesNoDebt | src/composables/useGameState.ts:455-469 | paying a cost that `canAfford` accepts leaves non-negative balances non-negative, whatever the sign of its entries |
| Progression.CanAffordMonotone | src/composables/useGameState.ts:455-463 | a cost affordable with some balances stays affordable with larger ones |
| Combat.IntentIndex | src/composables/useGameState.ts:625-627 | the sampled intent index is in [0, 3], never below the unbiased index, and equal to it at difficulty below 2 |
| Combat.IntentIndexMonotone | src/composables/useGameState.ts:625-627 | a harder node never rolls a lower intent index from the same roll |
| Combat.RollEnemyIntent | src/composables/useGameState.ts:606-629 | below difficulty 2 each of the four intents takes a quarter of the roll; the top quarter of the roll always prepares a drain |
| Combat.MitigatedDamage | src/composables/useGameState.ts:673-678 | the mitigated blow is at least 1 |
| Combat.MitigatedDamageBounds | src/composables/useGameState.ts:673-678 | with non-negative defense the mitigation lies between the raw blow less the defense and the raw blow |
| Combat.FinalDamage | src/composables/useGameState.ts:680-686 | the damage dealt is at least 1 |
| Combat.FinalDamageBounds | src/composables/useGameState.ts:680-686 | the damage dealt is the guarded amount (times 0.55 when guarded) rounded down, or 1 below that |
| Combat.GuardNeverHurts | src/composables/useGameState.ts:680-686 | a raised guard never lets more damage through |
| Combat.StrikeDamage | src/composables/useGameState.ts:660-667 | a strike is critical exactly when the roll is under 0.1 + 0.02 × level; non-negative base damage gives non-negative damage |
| Combat.StrikeDamageBounds | src/composables/useGameState.ts:664 | the damage is the base times the focus and crit factors, rounded down |
| Combat.FocusNeverWeakens | src/composables/useGameState.ts:661-664 | focus never weakens a strike |
| Combat.AttackBonus | src/composables/useGameState.ts:712-713 | the random bonus of a plain attack is a whole number from 0 to 4 |
| EventLog.AppendLog | src/composables/useGameState.ts:433-445 | the log grows by one entry below 40 and keeps its length from 40 up, so it never goes past 40 once within it |
| EventLog.AppendLogWindow | src/composables/useGameState.ts:434-444 | the new entry is last, the earlier ones keep their order, and only the oldest one is dropped when the log is full |
| MapRules.DiscoverNextEffect | src/composables/useGameState.ts:581-589 | `DiscoverNext` discovers a node exactly when one is undiscovered; it is the first such node, and no other node and no id or cleared flag changes |
| MapRules.DiscoverKeepsLookup | src/composables/useGameState.ts:581-589 | discovery keeps every look-up of a node by id |
| MapRules.ClaimKeepsNode | src/composables/useGameState.ts:653-655 | after clearing node k and discovering the next node, node k is in its place, cleared, and found again by its id |
| MapRules.UnlockedStaysFound | src/composables/useGameState.ts:471-477 | after a module is unlocked its id finds it again, now unlocked, so a second purchase is refused |
| MapRules.FreeModule | src/composables/useGameState.ts:597-599 | a reward unlocks the first module with the id it names, only when that id is non-empty and the module is still locked |
| MapRules.RewardModulesEffect | src/composables/useGameState.ts:597-602 | a reward unlocks at most that module and changes no module's id, cost or effects |
| MapRules.RewardKeepsNonNegative | src/composables/useGameState.ts:597-602 | a reward keeps every module's effects non-negative |
| MapRules.RewardModulesOnce | src/composables/useGameState.ts:597-602 | the same reward granted again unlocks nothing |
| MapRules.EnemyFor | src/composables/useGameState.ts:636-646 | the enemy has hp = maxHp = (80 for a boss, 38 otherwise) + 8 × difficulty, attack 7 + 2.4 × difficulty, and the node's id and reward |
| GameState.GatherYield | src/composables/useGameState.ts:495 | a gathering yields at least 14 plasma at a non-negative plasma rate |
| GameState.SelectedIndex | src/composables/useGameState.ts:427-429 | the selected node is one whose id the selection names |
| GameState.ExploreClearsSelection | src/composables/useGameState.ts:653-655 | after a peaceful node is explored, the selection still names it and it is cleared, so exploring it again does nothing |
| GameState.EnemyDamage | src/composables/useGameState.ts:673-686 | an enemy turn deals at least 1 damage |
| GameState.GuardedDamageNoWorse | src/composables/useGameState.ts:680-686 | guarding never makes an enemy turn hurt more |
| GameState.Rerolled | src/composables/useGameState.ts:697-699 | the enemy turn changes only the encounter's intent |
| GameState.Struck | src/composables/useGameState.ts:715 | a strike changes only the enemy's health, which never drops below 0, never rises under a non-negative blow, and reaches 0 exactly when the damage covers it |
| GameState.EnemyTurnBounds | src/composables/useGameState.ts:669-700 | on `EnemyTurn`, the reference enemy turn: integrity stays at least 0 and drops by at least 1 unless it hits 0; threat rises but stays at most 100; energy stays in [0, energy]; the log stays bounded; only the intent of the encounter changes |
| GameState.GuardedTurnNoWorse | src/composables/useGameState.ts:680-687 | a raised guard never leaves less integrity after the enemy's turn |
| GameState.VictoryEffect | src/composables/useGameState.ts:717-729 | on `Victory`, the reference won fight: at an existing node it clears the node, keeps it findable and grants at least the experience gain; with the node gone it grants nothing and only reports the threat; the log stays bounded and module effects non-negative |
| GameState.Game.constructor | src/composables/useGameState.ts:317-352 | the starting ledger, the base tables, no fight, no doctrine, an empty log, and the first node selected |
| GameState.Game.Restored | src/composables/useGameState.ts:317-352 | the game built over a stored save: present entries replace the new-game values, missing combat flags are off, nothing is logged, and the first node of the restored map is selected |
| GameState.Game.LogEvent | src/composables/useGameState.ts:433-445 | the log becomes the 40-entry window with the event appended |
| GameState.Game.GainExperience | src/composables/useGameState.ts:447-453 | only a positive amount is added; experience never decreases |
| GameState.Game.SpendCost | src/composables/useGameState.ts:465-469 | every cost entry is debited, with no affordability check |
| GameState.Game.SpendEnergy | src/composables/useGameState.ts:487-491 | succeeds exactly when energy covers the amount, and then debits exactly it, never below 0; on failure energy is unchanged |
| GameState.Game.BuyModule | src/composables/useGameState.ts:471-477 | a no-op for an unknown id, an unlocked module or an unaffordable cost; otherwise the cost is debited once, that module alone unlocked, and the purchase reported; non-negative balances stay non-negative |
| GameState.Game.AdoptDoctrine | src/composables/useGameState.ts:479-485 | a known, affordable doctrine is paid for and selected, whatever was selected before; otherwise nothing changes; non-negative balances stay non-negative |
| GameState.Game.GatherPlasma | src/composables/useGameState.ts:493-499 | one energy buys the gathering yield in plasma and 3 experience; without the energy nothing changes |
| GameState.Game.RefineClots | src/composables/useGameState.ts:501-512 | 18 plasma become 6 clots and 4 experience; short of plasma the energy is still spent and nothing else but the log changes |
| GameState.Game.TransmuteEssence | src/composables/useGameState.ts:514-524 | 12 clots become 3 essence and 6 experience for two energy; short of clots the energy is still spent |
| GameState.Game.ReinforceMasking | src/composables/useGameState.ts:526-537 | 2 essence raise masking by 6 (at most 100) and lower threat by 8 (at least 0); short of essence the energy is still spent |
| GameState.Game.UnlockNextNode | src/composables/useGameState.ts:581-589 | returns true exactly when a node was undiscovered; the nodes and log become those of discovering the first one |
| GameState.Game.ScanFlow | src/composables/useGameState.ts:539-548 | one energy lowers threat by 6 (at least 0) and gives 5 experience; a roll above 0.7 also discovers the next node |
| GameState.Game.StabilizeCore | src/composables/useGameState.ts:550-561 | 20 plasma and 1 essence restore 10 integrity up to the maximum; unaffordable, the energy is still spent and the resources untouched; non-negative balances stay non-negative |
| GameState.Game.AdvanceFront | src/composables/useGameState.ts:563-579 | 4 essence try to discover a node, raise threat by 6 (at most 100) and give 8 experience, and the outcome is reported; short of essence the energy is still spent; non-negative balances stay non-negative |
| GameState.Game.ResolveNodeReward | src/composables/useGameState.ts:591-604 | each resource of the reward is added, its experience when positive, and its module unlocked for free when found and still locked |
| GameState.Game.UnlockRewardModule | src/composables/useGameState.ts:597-603 | the named module, found and still locked, is unlocked and reported |
| GameState.Game.ExploreNode | src/composables/useGameState.ts:631-658 | a no-op with no energy spent without a selection, on a cleared node or without 2 energy; a battle or boss node starts a fresh fight with both flags reset; any other node is cleared, rewarded, the next node discovered and 10 experience given |
| GameState.Game.StartEncounter | src/composables/useGameState.ts:636-650 | the battle branch: the node's enemy, both combat flags reset, contact reported |
| GameState.Game.StabilizeSector | src/composables/useGameState.ts:653-657 | the peaceful branch: the node is claimed for 10 experience and reported |
| GameState.Game.ClaimNode | src/composables/useGameState.ts:720-724 | node k is cleared, the reward granted, the next node discovered and the experience given, the log bounded |
| GameState.Game.ApplyCombatDamage | src/composables/useGameState.ts:660-667 | the strike of the current focus and level, and the focus is spent |
| GameState.Game.ResolveEnemyTurn | src/composables/useGameState.ts:669-700 | a no-op without a fight; otherwise the new integrity, threat, energy, encounter and log are those of the enemy turn, and the guard is spent |
| GameState.Game.TakeBlow | src/composables/useGameState.ts:687-695 | integrity loses the damage (at least 0), threat gains the intent's amount (at most 100), a drain takes its energy (at least 0) and is reported |
| GameState.Game.DefeatEnemy | src/composables/useGameState.ts:718-729 | the state becomes that of the won fight; the fight is closed and both flags reset |
| GameState.Game.FinishRound | src/composables/useGameState.ts:718-731 | an enemy at no health is defeated; any other takes its turn with every other field unchanged |
| GameState.Game.Strike | src/composables/useGameState.ts:711-716 | the strike's damage lowers the enemy's health (at least 0), the focus is spent, the strike reported |
| GameState.Game.StrikeRound | src/composables/useGameState.ts:711-731 | a strike, then victory when the enemy has no health left, otherwise the enemy's turn |
| GameState.Game.AttackEnemy | src/composables/useGameState.ts:708-732 | without a fight or an energy, nothing changes; otherwise one energy buys a strike of the attack power plus 0 to 4, then victory for 24 experience or the enemy's turn |
| GameState.Game.PulseAttack | src/composables/useGameState.ts:711-731 | the paid part of an attack: a strike of the attack power plus 0 to 4, then victory for 24 experience or the enemy's turn |
| GameState.Game.Burst | src/composables/useGameState.ts:734-760 | without a fight or two energy, nothing changes; short of 6 clots the energy is lost and the shortage reported; otherwise 6 clots buy a strike of the attack power plus 12, then victory for 30 experience or the enemy's turn |
| GameState.Game.PayForBurst | src/composables/useGameState.ts:737-760 | the clot check of a burst, then the paid strike |
| GameState.Game.BurstStrike | src/composables/useGameState.ts:741-760 | 6 clots are debited, then the strike round of a burst |
| GameState.Game.Focus | src/composables/useGameState.ts:762-768 | one energy sets the focus, which survives the enemy turn that follows |
| GameState.Game.Guard | src/composables/useGameState.ts:770-776 | one energy raises the guard for the enemy turn that follows, which spends it |
| GameState.Game.Retreat | src/composables/useGameState.ts:778-783 | the fight closes for 8 threat (at most 100) and no energy; without a fight nothing changes |
| GameState.Game.Tick | src/composables/useGameState.ts:785-800 | a game that is over stays unchanged; otherwise day + 1, plasma + rate, energy at most the maximum, masking at least 0, threat at most 100, and 4 integrity lost (at least 0) once threat is 90 or more |
| GameState.Game.SavePayload | src/composables/useGameState.ts:802-819 | the save has version 3 and an entry for every ledger field, the registries, the log and both combat flags |
| GameState.Game.ApplySavePayload | src/composables/useGameState.ts:826-856 | no document changes nothing; otherwise present entries replace fields and missing ones keep them, except the encounter (missing ends the fight) and the combat flags; loading the state's own save changes nothing but the log |
| GameState.Game.LoadLedger | src/composables/useGameState.ts:828-836 | each present ledger entry replaces its field, each missing one keeps it |
| GameState.Game.LoadWorld | src/composables/useGameState.ts:837-855 | present registries and log replace their fields; a missing doctrine keeps it; the encounter is replaced; a present combat entry sets both flags; the load is reported |
| GameState.Game.LoadFromCode | src/composables/useGameState.ts:858-866 | a code that does not decode is reported as corrupt and changes nothing else; a non-object changes nothing; any other document is applied field by field as by `ApplySavePayload`, so the state's own save changes nothing but the log |
| GameState.Game.CloseEncounter | src/composables/useGameState.ts:702-706 | no fight, and both combat flags reset |
| Upgrades.UpgradeIndex | src/composables/useUpgrades.ts:63 | a found index is in range and names an upgrade with that id |
| Upgrades.UpgradeIndexFirst | src/composables/useUpgrades.ts:63 | the first upgrade with the id is found; none only when no upgrade has it |
| Upgrades.ActivatedKeepsLookup | src/composables/useUpgrades.ts:66 | activating an upgrade keeps every look-up by id |
| Upgrades.RepurchaseFindsSameOffer | src/composables/useUpgrades.ts:63-70 | nothing checks `active`: after a purchase the same id finds the same upgrade at the same cost and rate, so buying it again charges again and adds the rate again |
| Upgrades.BaseRateGains | src/composables/useUpgrades.ts:17-54 | of the shipped upgrades, only hemoseed (0.1) and autocollector (0.2) raise the income |
| Upgrades.UpgradeStore.constructor | src/composables/useUpgrades.ts:17-54 | the shop starts from the stored upgrade list, or the four shipped upgrades, none active, when none is stored |
| Upgrades.UpgradeStore.BuyUpgrade | src/composables/useUpgrades.ts:56-71 | a no-op for an unknown id or too few clots; otherwise the cost is debited, that upgrade alone becomes active, and a positive rate is added to the income; clots never go negative and the income never falls |
| Upgrades.UpgradeStore.BuyUpgradeTwice | src/composables/useUpgrades.ts:61-71 | nothing refuses a second purchase of the same upgrade: with clots for both, the cost is charged twice and a positive rate added twice, while the list ends as after one purchase |

## Left out

- Storage: `loadState`/`saveState`, the deep `watch` that saves after every
  change, `localStorage`, and the persistence of `useClots`. None of these
  has rules of its own. Reading the stored save is a parameter:
  `Game.Restored` builds the game over it, and the plain constructor is the
  game without one. The start-up restore differs from `ApplySavePayload`: it
  logs nothing, selects the first node of the restored map, and takes a
  present `nodes` or `modules` entry whatever its type.
- The persistence of the upgrade list (`useStorage`). The stored list is a
  parameter of the `UpgradeStore` constructor; writing it back is not
  modelled.
- The share-code codec (`encodeSave`/`decodeSave`: JSON, percent-encoding,
  base64). `LoadFromCode` takes the decoding's outcome instead: decoding
  failed, or a parsed value (none when it is not an object).
  `generateSaveCode` is `SavePayload` plus that codec.
- Payload entries of the wrong type. A non-array `nodes`, `modules` or
  `log` is modelled as a missing entry, which is how the loader treats it.
  A non-numeric ledger entry would pass through `Number()`, and the
  model has no such value.
- Log entry ids, timestamps and display text (`Date.now`,
  `toLocaleTimeString`, the Russian messages). An entry is the event it
  reports, and it names nodes and modules by id.
- Enemy names. They only appear in log messages.
- The level-up `watch`. It is reactive machinery rather than an
  operation.
- `gainExperience`'s `reason` argument. No caller of the modelled code
  passes one.
- IEEE-754 rounding. Quantities are exact reals, and `Math.floor` and
  `Math.round` are `.Floor` on reals.
- The selected node is a field that no modelled operation changes. The
  UI sets it.
- Doctrines are the fixed base table. No operation changes them.
- The `name`, `icon` and `description` fields of upgrades, modules and
  nodes. No rule reads them.
