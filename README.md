# The Final Battle: combat and turn engine

A Dafny model of the engine of a console party-versus-party battle game. A hero party fights a
sequence of monster waves; the sides take turns, each character choosing an attack, an item, a
piece of gear or a skip, until one party list is empty.

The model follows the program's own structure:

- `GameObjects` (game_objects.dfy): the catalog of attacks, gear, modifiers and consumables as
  values, and the Cannon of Consolas damage rule.
- `Characters` (character.dfy): the combatant record, its health clamp and death
  predicates, and the fixed hero and monster constructors.
- `Registry` (registry.dfy): the poison registry, its tick (every entry hits its character for
  one point and loses one turn) and its prune loop (which skips the neighbour of a removed
  entry, as the source's forward-indexing loop does).
- `Combat` (rules.dfy): the state of both managers as one value, `World(party, turn)`, and every
  operation of the engine as a function on it: the damage pipeline, death and loot, the wave
  queue, the round boundary, a character's turn, a roster pass, and the main loop.
- `Battle` (battle.dfy): the classes `PartyManager`, `TurnManager` and `InputManager`. Their
  fields are the source's fields; their methods update them in place, with the source's loops.
  Each method is proved to leave the two objects in the state the matching `Combat` function
  computes from the old state (`WorldOf(party, turn) == Combat.F(old(WorldOf(party, turn)))`).
  The properties are proved about the functions.
- `Game` (game.dfy): `Game.Run`, which builds the two managers, sets up the parties, and runs the
  `while (!party.CheckForEmptyParties())` loop.

Randomness and player input become parameters:

- A hit is `roll < probability` with `roll` in [0, 100), which is `Random.Next(100) < p * 100` with
  `p` held as a whole percentage.
- A steal draws a chance and a coin, which together select the gear that is taken.
- Bone Crunch and Unraveling damages are rolls in their ranges.
- What a character does on its turn is `choose(w)`, a `Choice` picked from the state: skip,
  attack with a tag, target and roll, use item `k`, or equip gear `k`. For a human player, a
  choice the menu would reject (a missing option, an index out of range) counts as menu
  choice 0, the skip. For a Computer player, a choice `Computer.MenuOption` could not return
  counts as its option 0, which does nothing. A Computer's attack uses only the target and
  the rolls of the choice.
- The C# events become entries appended to a log in `TurnManager`.
- Object identity becomes a character id. The nine characters created at setup get ids 0..8.

Behaviour of the code that the model keeps as written:

- The damage pipeline has no offensive-modifier step (PartyManager.cs:167-179). `DamageTaken`
  never adds weapon or armor modifiers.
- `ClampDamage` is never called (PartyManager.cs:167-185), so damage is never clamped to zero
  before the health clamp. A modifier can make the damage negative, which then heals the
  target up to MaxHP.
- An area attack hits only `CurrentTarget` (InputManager.cs:93-99). `UpdateHealth` has no area
  branch, and `ChooseTarget` only forces the index to 0.
- A Scratch (rot plague) does nothing in `ApplyTemporaryEffect` (PartyManager.cs:277-287):
  there is no plague case.
- A poison entry hits for 1 point per tick, not for its stored damage (PartyManager.cs:51-71).
  It is removed only when its turns reach 0, whether or not its character is still alive.
- A Computer player never chooses its attack (InputManager.cs:217-227). `ComputerAction`
  discards the value `ExecuteAction` returns. `ExecuteAction` only draws `CurrentTarget`
  (Character.cs:40-47), and the damage pipeline then runs on the `CurrentAttack`,
  `CurrentDamage` and `CurrentProbability` of the last attack anyone chose. Before any attack
  has been chosen the probability is 0, so a Computer's attack always misses. Its option 0
  calls no `CurrentMenu`, so it raises no skip event and leaves the attack unchanged.

## Model

| member | source | states |
|---|---|---|
| GameObjects.Value | GameObjects.cs:289-309 | every defensive modifier has a negative value |
| GameObjects.BinaryValue | GameObjects.cs:316-325 | `Random.Next(1)` can only be 0, so the Binary offensive modifier's value is always 0 |
| GameObjects.Action | GameObjects.cs:48-56 | an attack built from the defaults: Normal type, no side or temporary effect, not an area attack |
| GameObjects.AttackOf | GameObjects.cs:58-182 | the attack table: Grapple is the only steal, Whip the only poison and Scratch the only rot plague; SmartRockets is the only area attack; Unraveling the only Decoding attack; Bone Crunch deals 0..1, Unraveling 0..4, Nothing 0 with certainty, the Cannon its turn damage |
| GameObjects.GetTurnDamage | GameObjects.cs:248-255 | the Cannon's damage is always one of 1, 2, 5 |
| GameObjects.FifteenDividesBoth | GameObjects.cs:248-255 | a round divisible by both 3 and 5 is exactly a round divisible by 15 |
| GameObjects.TurnDamageEveryFifteenth | GameObjects.cs:248-255 | damage 5 exactly on multiples of 15, 2 exactly when one of 3 and 5 divides the round, 1 otherwise |
| GameObjects.TurnDamagePeriodic | GameObjects.cs:248-255 | the Cannon's damage repeats every 15 rounds |
| GameObjects.GearExecuteTags | GameObjects.cs:197-274 | Sword executes Slash, Dagger Stab, Vin's Bow QuickShot, the Cannon CannonBall, the Binary Helm Nothing; the Helm is the only armor |
| GameObjects.CatalogValues | GameObjects.cs:24-46 | Stone Armor is -1, Object Sight -2, the Helm carries a Binary modifier of 0; a potion heals 10 and Simula's soup 999 |
| Characters.Clamp | Character.cs:12 | `Math.Clamp`: the result lies in [lo, hi] and is x whenever x is already inside |
| Characters.HealthClamp | Character.cs:12 | the clamped health lies in [0, MaxHP]; an in-range health is returned unchanged |
| Characters.TakeDamage | PartyManager.cs:181-185 | subtracting damage then clamping changes only CurrentHP and always leaves it in [0, MaxHP] |
| Characters.AliveOrDead | Character.cs:13-14 | for a clamped health, IsDeath holds iff CurrentHP is 0, IsAlive iff it is positive, and exactly one holds |
| Characters.DefaultCharacter | Character.cs:3-24 | the field initialisers: both standard attacks Nothing, SoulsValue 0, no weapon, armor or modifiers |
| Characters.Create | Character.cs:134-245 | every concrete combatant starts at full, positive health, SoulsValue 0, without armor, with a standard attack; heroes carry no soul XP |
| Characters.HeroStats | Character.cs:139-183 | TrueProgrammer 25 HP with Sword, Object Sight and Punch; Vin Fletcher 15 HP with Vin's Bow and Punch; Mylara and Skorin 10 HP with Punch |
| Characters.MonsterStats | Character.cs:190-245 | Skeleton 5 HP, Bone Crunch, 1 soul XP; Stone Amarok 4 HP, Bite, Stone Armor, 0; Uncoded One 15 HP, Unraveling, 999; Shadow Octopoid 15 HP, Grapple and Whip, 2 |
| Registry.Opponent | TurnManager.cs:150-151 | the opposing side is always the other side |
| Registry.RemoveFirst | PartyManager.cs:55 | `List.Remove` on a struct list: nothing changes when the entry is absent, one element goes when it is present |
| Registry.RemoveFirstMultiset | PartyManager.cs:55 | `Remove` takes exactly one copy of the entry out of the list |
| Registry.RemoveFirstAt | PartyManager.cs:51-56 | when the entry at index k is the first equal one, `Remove` deletes position k |
| Registry.Live | PartyManager.cs:49-58 | the entries with turns left keep their order and are all unexpired |
| Registry.LiveAppend | PartyManager.cs:49-58 | the live entries of a concatenation are the concatenation of the live entries |
| Registry.LiveRemoveExpired | PartyManager.cs:49-58 | removing an expired entry keeps every live entry |
| Registry.PruneFromKeepsLive | PartyManager.cs:49-58 | the prune loop from any index keeps every entry with turns left, in order, and never adds an entry |
| Registry.PruneKeepsLive | PartyManager.cs:49-58 | CheckForPoisonedCharacter's prune never drops an entry with turns left |
| Registry.NoAdjacentSuffix | PartyManager.cs:49-58 | a registry with no two adjacent expired entries keeps that property in every suffix |
| Registry.PruneFromCompleteExpired | PartyManager.cs:49-58 | reaching an expired entry, the loop removes it and all later expired entries, provided no two expired entries are adjacent |
| Registry.PruneFromComplete | PartyManager.cs:49-58 | from any index the loop leaves the prefix and removes every later expired entry, when no two expired entries are adjacent |
| Registry.PruneComplete | PartyManager.cs:49-58 | with no two adjacent expired entries, the prune leaves exactly the entries with turns left |
| Registry.PruneSkipsNeighbour | PartyManager.cs:51-56 | the forward loop skips the element after a removal: two adjacent expired entries leave one behind |
| Registry.Ticked | PartyManager.cs:61-71 | the tick lowers every entry's turns by one and keeps the list's length |
| Registry.HitRoster | PartyManager.cs:65-67 | a tick hits only the characters with the entry's id, each down by 1 and clamped |
| Registry.TickedStep | PartyManager.cs:61-71 | one loop step of PoisonCharacter moves the boundary of the ticked prefix by one entry |
| Registry.PoisonRosterSnoc | PartyManager.cs:61-71 | poisoning with one more entry is one more hit on the roster |
| Registry.Hits | PartyManager.cs:61-71 | the number of hits on a character is at most the number of entries |
| Registry.PoisonRosterAt | PartyManager.cs:61-71 | after a full tick, each character's health is its old health minus the number of entries naming it, floored at 0; nothing else changes |
| Registry.PoisonKeepsRange | PartyManager.cs:61-71 | poisoning keeps every health in [0, MaxHP] |
| Combat.SideOf | TurnManager.cs:165-169 | an even RoundCounter selects the heroes, an odd one the monsters |
| Combat.SidesAlternate | TurnManager.cs:135 | one step of the counter switches the side and two steps restore it |
| Combat.CurrentParty | TurnManager.cs:171-172 | an even RoundCounter gives the hero list, an odd one the monster list |
| Combat.CurrentPlayerType | TurnManager.cs:174 | an even RoundCounter gives the hero player, an odd one the monster player |
| Combat.OpponentPlayer | TurnManager.cs:252-258 | the opponent player is the one that is not current |
| Combat.OpponentIsOtherList | TurnManager.cs:150-151 | the opponent list is always the list that is not current |
| Combat.CurrentPartyName | TurnManager.cs:153 | the party name is "Hero" exactly on the heroes' side |
| Combat.OpponentPartyName | TurnManager.cs:154 | the opponent's name is "Monster" exactly on the heroes' side, and always differs from the current name |
| Combat.ClampDamage | TurnManager.cs:16-19 | the clamped damage is never negative and a non-negative damage is unchanged |
| Combat.NextBattle | TurnManager.cs:125 | a queued wave raises NumberBattleRounds by one and changes nothing else |
| Combat.AdditionalBattleRoundUsed | TurnManager.cs:136 | using a wave lowers NumberBattleRounds by one and changes nothing else |
| Combat.AdvanceToNextParty | TurnManager.cs:135 | RoundCounter goes up by one and the side switches |
| Combat.CharacterNumberStaysZero | TurnManager.cs:122-123 | `n + n++` doubles an in-range number, so CharacterNumber 0 stays 0 and an index past the roster becomes 0 |
| Combat.UpdateCharacterNumber | TurnManager.cs:122-123 | only CharacterNumber changes, to the doubled (or reset) value |
| Combat.SucceedsBounds | PartyManager.cs:232 | an attack with probability 1 always hits and one with probability 0 always misses |
| Combat.StealSucceeds | PartyManager.cs:264-266 | the steal roll succeeds exactly when the chance drawn is at least 1 |
| Combat.AttackManager | PartyManager.cs:187-199 | a hit logs AttackSuccessful and a miss logs AttackMissed; no character, inventory or counter changes |
| Combat.ManageModifier | PartyManager.cs:234-252 | Stone Armor adds -1 for every attack type, Object Sight adds -2 only against a Decoding attack, any other target leaves damage and log unchanged |
| Combat.ModifierValues | PartyManager.cs:234-252 | the damage change is -1 for Stone Armor, -2 or 0 for Object Sight by attack type, 0 without modifier |
| Combat.CheckModifier | PartyManager.cs:212-216 | the defensive-modifier guard only skips calls that would change nothing: the result is the one ManageModifier gives |
| Combat.StealGear | PartyManager.cs:289-295 | the stolen gear is appended to the acting side's gear inventory and nothing else changes |
| Combat.RemoveGearFromTarget | PartyManager.cs:296-299 | only the target's Weapon slot changes, to empty |
| Combat.ManageSideEffect | PartyManager.cs:256-274 | without a successful steal nothing changes; a steal appends the gear to the thief's inventory (length +1), clears the target's Weapon and logs GearStolen, and touches no other character |
| Combat.StealOfArmorClearsWeapon | PartyManager.cs:296-299 | stealing the armor still clears the Weapon slot and leaves the armor on |
| Combat.StealOfMissingWeapon | PartyManager.cs:256-274 | stealing a missing weapon appends an empty slot to the thief's inventory and leaves the target as it was |
| Combat.CheckSideEffect | PartyManager.cs:218-222 | the side-effect guard only skips calls that would change nothing: the result is the one ManageSideEffect gives |
| Combat.ApplyTemporaryEffect | PartyManager.cs:277-287 | a Poison attack appends exactly one entry with 3 turns for the target's id and logs it; any other attack changes nothing |
| Combat.PoisonTwice | PartyManager.cs:277-287 | there is no duplicate guard: poisoning twice registers two equal entries |
| Combat.CheckTemporaryEffect | PartyManager.cs:224-228 | the temporary-effect guard only skips calls that would change nothing: the result is the one ApplyTemporaryEffect gives |
| Combat.CheckSoulValue | PartyManager.cs:203-211 | with SoulsValue >= 3 the damage goes up by exactly one and SoulsValue becomes 0; otherwise nothing changes |
| Combat.UpdateHealth | PartyManager.cs:181-185 | only the target changes, to clamp(HP - damage, 0, MaxHP), which is in range |
| Combat.DamageTaken | PartyManager.cs:167-179 | a missed roll only logs the miss; no health, damage or inventory changes |
| Combat.DamageBeforeHealth | PartyManager.cs:167-179 | on a hit, the modifier, side effect, temporary effect and soul bonus run in that order and bring the damage to its final value; other opponents are unchanged |
| Combat.DamageTakenHit | PartyManager.cs:167-179 | on a hit the target's HP becomes clamp(HP - final damage, 0, MaxHP); only its HP and (by a steal) its weapon change; other opponents are unchanged |
| Combat.DamageTakenLog | PartyManager.cs:167-179 | on a hit the notifications come in pipeline order |
| Combat.DamageTakenMiss | PartyManager.cs:187-199 | a miss changes nothing but the log |
| Combat.CheckDeath | PartyManager.cs:313-319 | false whenever CurrentTarget is out of range; otherwise true exactly when the target's HP is 0 |
| Combat.ManageDeathCharacterGear | PartyManager.cs:378-382 | a dead target's weapon, if any, is appended to the current gear inventory |
| Combat.ManageDeathCharacterSoul | PartyManager.cs:384-389 | a soul XP of at least 1 is added to the attacker's SoulsValue, whatever the attacker's side |
| Combat.RemoveCharacter | PartyManager.cs:373-376 | the target is removed from the opponent list, which shrinks by exactly one |
| Combat.ManageDeath | PartyManager.cs:366-371 | on a death the weapon is looted, the soul XP passed and the target removed; nothing else changes |
| Combat.CheckMonsterDefeat | PartyManager.cs:397 | true exactly when the monster list is empty, and then the parties count as empty |
| Combat.TransferDeathMonsterPartyGear | PartyManager.cs:331-340 | the monster gear is appended to the hero gear, and the monster gear is not cleared |
| Combat.TransferDeathMonsterPartyItems | PartyManager.cs:342-351 | the monster items are appended to the hero items, and the monster items are not cleared |
| Combat.NextMonsterParty | PartyManager.cs:353-364 | with budget and a queued wave, wave 0 joins the monsters and leaves the queue; the budget goes down by one in every case |
| Combat.ManageMonsterDefeated | PartyManager.cs:321-329 | with monsters left nothing happens; otherwise the loot, then the wave release, then one budget decrement |
| Combat.DeathManager | PartyManager.cs:303-311 | death handling keeps the side, the selected position, the acting roster's length, RoundCounter, Round and the turn tallies |
| Combat.DeathLoot | PartyManager.cs:303-311 | a hero's kill with more monsters left shrinks the monster list by one, loots the weapon and passes the soul XP |
| Combat.LastMonsterReleasesWave | PartyManager.cs:303-311 | killing the last monster loots both monster inventories and releases the next wave against the budget |
| Combat.UpdateCharacterHealth | PartyManager.cs:72-78 | the user's HP becomes clamp(HP + heal, 0, MaxHP) and the selected item is removed (length -1); nothing else changes |
| Combat.CheckSelectedCharacterGear | TurnManager.cs:222-245 | the equipped weapon and then the equipped armor, when present, are appended to the acting side's gear inventory |
| Combat.EquipGear | PartyManager.cs:424-443 | armor goes into the Armor slot and any other gear into the Weapon slot; the selected gear is removed (length -1) |
| Combat.EquipArmorDuplicatesWeapon | TurnManager.cs:222-245 | equipping armor after the gear check keeps the weapon in its slot and also copies it into the inventory |
| Combat.GearOptionAvailable | PartyManager.cs:399-401 | a gear choice the selector may make needs the gear menu open; with the inventory empty a human's gear choice is a skip and a Computer's does nothing |
| Combat.ActionGearAvailable | PartyManager.cs:403-410 | true exactly when the character holds a weapon whose Execute() is the action |
| Combat.ActionAvailable | PartyManager.cs:412-422 | an action is available exactly when it is not Nothing and is one of the character's standard attacks |
| Combat.CurrentMenu | TurnManager.cs:73-94 | choice 0 or any unlisted choice sets the attack to Nothing and logs the skip; the choice is returned |
| Combat.ManageTaunt | TurnManager.cs:207-218 | the taunt fires only for a character not yet taunted, who then is in the list |
| Combat.CheckTaunt | TurnManager.cs:218 | true exactly when the selected character's id is not yet in the taunted list |
| Combat.TauntAtMostOnce | TurnManager.cs:207-218 | the taunted list only grows, holds no duplicates, and a second taunt does nothing |
| Combat.GetGear | InputManager.cs:42-52 | a fresh copy of the same kind of weapon; armor yields none |
| Combat.GetAttackAction | InputManager.cs:26-40 | a standard attack's tag gives that attack, and every other tag gives Nothing |
| Combat.RetriveAttackProperties | InputManager.cs:54-61 | the attack, its damage and its probability become current; the parties are unchanged |
| Combat.RetriveGearProperties | InputManager.cs:54-61 | a gear attack also becomes the character's Weapon |
| Combat.InputAction | InputManager.cs:15-24 | a standard attack wins; else an available weapon attack is taken with a fresh weapon copy; else nothing changes |
| Combat.ChooseTarget | InputManager.cs:93-99 | the target is in range, and it is 0 for an area attack or a sole opponent |
| Combat.AskInputAction | InputManager.cs:68-77 | after choosing, the target index is in range |
| Combat.ManageInputItem | InputManager.cs:9-13 | using an item keeps the side, the selected position, the acting roster's length, RoundCounter, Round and the turn tallies |
| Combat.ManageInputGear | InputManager.cs:203-211 | the chosen gear goes into the Armor slot if it is armor and into the Weapon slot otherwise; the inventory becomes the old one plus the copied-back equipped gear, minus the chosen entry; only selectedGear changes in the turn state |
| Combat.UserManager | InputManager.cs:171-177 | a Computer side takes ComputerAction and a human side HumanAction; either keeps the side, the selected position, the acting roster's length, RoundCounter, Round and the turn tallies |
| Combat.HumanAction | InputManager.cs:179-213 | a human's action, whatever the choice, keeps the side, the selected position, the acting roster's length, RoundCounter, Round and the turn tallies |
| Combat.ExecuteAction | Character.cs:40-47 | only CurrentTarget changes, to an opponent in range |
| Combat.ComputerAction | InputManager.cs:217-238 | a Computer's action keeps the side, the selected position, the acting roster's length, RoundCounter, Round and the turn tallies |
| Combat.ComputerAttackKeepsAttackData | InputManager.cs:223-227 | a Computer's attack runs the pipeline on the stored attack, damage and probability against the drawn target, and with probability 0 it only logs a miss |
| Combat.SkipChangesOnlyAttack | TurnManager.cs:73-94 | a human's skip changes only the current attack and the log; a Computer's option 0 changes nothing |
| Combat.BeginTurn | TurnManager.cs:185-200 | the pass selects the character at the loop index of the current list |
| Combat.CharacterTurn | TurnManager.cs:185-200 | a character's turn keeps the side, the selected position, the acting roster's length, RoundCounter, Round and the turn tallies |
| Combat.RunFrom | TurnManager.cs:185-200 | the pass keeps the side, the roster length, the counters and the turns played |
| Combat.RunFromStops | TurnManager.cs:185-200 | the pass visits positions in list order and ends on the last one, or earlier only when a party is empty |
| Combat.ManagePartyTurns | TurnManager.cs:102-108 | only the current side's turns-played counter goes up by one |
| Combat.RunCurrentParty | TurnManager.cs:185-200 | a roster pass adds one turn to the side CurrentParty selects and none to the other, and keeps the side, the roster length, RoundCounter and Round |
| Combat.PoisonCharacter | PartyManager.cs:61-71 | every entry hits its character and loses one turn |
| Combat.CheckForPoisonedCharacter | PartyManager.cs:49-58 | only the registry changes, to its pruned form |
| Combat.ManagePoisoned | TurnManager.cs:110-114 | the registry is pruned; when entries remain each hits its character for one point and loses a turn, and otherwise nothing else changes |
| Combat.ManageTurnEnd | TurnManager.cs:96-100 | the turn end changes only the poison registry and the two rosters, and an empty registry changes nothing |
| Combat.CheckForNextRound | TurnManager.cs:126-133 | nothing changes unless hero turns equal monster turns; then the turn end runs and Round goes up by one |
| Combat.RoundBoundary | TurnManager.cs:96-133 | at a boundary the registry is pruned, then ticked if entries are left, each health drops by its live hit count, and Round goes up by exactly one |
| Combat.InitialTurn | TurnManager.cs:3-30 | the turn manager starts with zero counters and empty registries |
| Combat.InitialParty | PartyManager.cs:13-33 | the starting inventories: a Binary Helm and three potions for the heroes, a Dagger and one potion for the monsters |
| Combat.PartyState.EmptyParties | PartyManager.cs:163-165 | true exactly when the hero list or the monster list is empty |
| Combat.GearFor | PartyManager.cs:122-142 | the gear keyed to the character, found when the dictionary holds its id |
| Combat.Outfitted | PartyManager.cs:122-142 | each keyed character receives its gear as its weapon; the others are unchanged |
| Combat.SetupWavesOutfitted | PartyManager.cs:88-99 | the three queued waves: two Skeletons armed with Daggers, two Stone Amaroks, the Uncoded One |
| Combat.StartWorld | PartyManager.cs:88-99 | the chosen player kinds, three heroes, one monster, three queued waves and a wave budget equal to the queue's length; zero counters, no poison entries and an empty log |
| Combat.StartWorldFacts | PartyManager.cs:88-99 | after setup there are 3 heroes at full health, one Skeleton, 3 waves and a budget of 3, the ids are distinct and neither party is empty |
| Combat.CurrentPartyTurnSetUp | TurnManager.cs:176-181 | the side, player and list follow RoundCounter's parity; an out-of-range index is reset to 0, so the selected character is a member |
| Combat.Iteration | Game.cs:13-21 | one pass of the loop raises RoundCounter by exactly one |
| Combat.StepCounts | Game.cs:13-21 | the loop body counts one alternation per pass |
| Combat.Repeat | Game.cs:13-21 | the loop stops at once when a party is empty |
| Combat.RepeatCounts | Game.cs:13-21 | while parties are non-empty, RoundCounter has gone up by exactly the number of passes |
| Combat.RunLoop | Game.cs:13-21 | the loop does nothing once a party is empty |
| Combat.RunLoopStep | Game.cs:13-21 | with both parties non-empty the loop runs one iteration and continues |
| Combat.RunLoopCounts | Game.cs:13-21 | a loop that has not ended has passed RoundCounter forward by exactly the iteration budget |
| Combat.TraceRepeat | Game.cs:13-21 | a recorded run of passes agrees with the loop over the same number of passes |
| Battle.PartyManager.CheckForPoisonedCharacter | PartyManager.cs:49-58 | the index loop leaves the pruned registry and answers whether entries are left |
| Battle.PartyManager.PoisonCharacter | PartyManager.cs:61-71 | the index loop ticks every registry entry and hits every roster character it names |
| Battle.PartyManager.constructor | PartyManager.cs:44-47 | a new party manager holds the starting inventories and empty party lists |
| Battle.PartyManager.CheckForEmptyParties | PartyManager.cs:163-165 | true exactly when the state's hero list or monster list is empty |
| Battle.PartyManager.UpdateCharacterHealth | PartyManager.cs:72-78 | the state UpdateCharacterHealth computes |
| Battle.PartyManager.EquipGear | PartyManager.cs:424-443 | the state EquipGear computes |
| Battle.PartyManager.AttackManager | PartyManager.cs:187-199 | reports a hit exactly when the roll is below the probability |
| Battle.PartyManager.ManageModifier | PartyManager.cs:234-252 | the state ManageModifier computes |
| Battle.PartyManager.StealGear | PartyManager.cs:289-295 | the state StealGear computes |
| Battle.PartyManager.RemoveGearFromTarget | PartyManager.cs:296-299 | the state RemoveGearFromTarget computes |
| Battle.PartyManager.ManageSideEffect | PartyManager.cs:256-274 | the state ManageSideEffect computes |
| Battle.PartyManager.ApplyTemporaryEffect | PartyManager.cs:277-287 | the state ApplyTemporaryEffect computes |
| Battle.PartyManager.CheckModifier | PartyManager.cs:212-216 | the state CheckModifier computes |
| Battle.PartyManager.CheckSideEffect | PartyManager.cs:218-222 | the state CheckSideEffect computes |
| Battle.PartyManager.CheckTemporaryEffect | PartyManager.cs:224-228 | the state CheckTemporaryEffect computes |
| Battle.PartyManager.CheckSoulValue | PartyManager.cs:203-211 | the state CheckSoulValue computes |
| Battle.PartyManager.UpdateHealth | PartyManager.cs:181-185 | the state UpdateHealth computes |
| Battle.PartyManager.DamageTaken | PartyManager.cs:167-179 | the state the damage pipeline computes |
| Battle.PartyManager.ManageDeathCharacterGear | PartyManager.cs:378-382 | the state ManageDeathCharacterGear computes |
| Battle.PartyManager.ManageDeathCharacterSoul | PartyManager.cs:384-389 | the state ManageDeathCharacterSoul computes |
| Battle.PartyManager.RemoveCharacter | PartyManager.cs:373-376 | the state RemoveCharacter computes |
| Battle.PartyManager.ManageDeath | PartyManager.cs:366-371 | the state ManageDeath computes |
| Battle.PartyManager.TransferDeathMonsterPartyGear | PartyManager.cs:331-340 | the copy loop appends every monster gear entry to the hero gear |
| Battle.PartyManager.TransferDeathMonsterPartyItems | PartyManager.cs:342-351 | the copy loop appends every monster item to the hero items |
| Battle.PartyManager.NextMonsterParty | PartyManager.cs:353-364 | the state NextMonsterParty computes |
| Battle.PartyManager.ManageMonsterDefeated | PartyManager.cs:321-329 | the state ManageMonsterDefeated computes |
| Battle.PartyManager.DeathManager | PartyManager.cs:303-311 | the state DeathManager computes |
| Battle.PartyManager.CreateHeroParty | PartyManager.cs:101-107 | the hero list holds exactly the given characters, in order |
| Battle.PartyManager.CreateMonsterParty | PartyManager.cs:109-115 | the monster list holds exactly the given characters, in order |
| Battle.PartyManager.SetUpCharacterWithGear | PartyManager.cs:144-152 | one entry per character, in order, each with the given gear |
| Battle.PartyManager.RetriveCharactersWithGear | PartyManager.cs:154-161 | the keys, in insertion order |
| Battle.PartyManager.AddMonsterRound | PartyManager.cs:122-142 | the outfitted wave is queued and NumberBattleRounds goes up by one |
| Battle.PartyManager.PartySetUpSettings | PartyManager.cs:88-99 | three heroes, one Skeleton, three queued waves, and the budget raised by 3 |
| Battle.PartyManager.QueueSetupWaves | PartyManager.cs:94-98 | the three setup waves are queued in order and the budget rises by 3 |
| Battle.TurnManager.NextBattle | TurnManager.cs:125 | NumberBattleRounds goes up by one |
| Battle.TurnManager.constructor | TurnManager.cs:62-67 | a new turn manager starts with zero counters and empty registries |
| Battle.TurnManager.AdditionalBattleRoundUsed | TurnManager.cs:136 | NumberBattleRounds goes down by one |
| Battle.TurnManager.AdvanceToNextParty | TurnManager.cs:135 | RoundCounter goes up by one |
| Battle.TurnManager.UpdateCharacterNumber | TurnManager.cs:122-123 | the state UpdateCharacterNumber computes |
| Battle.TurnManager.CurrentPartyTurnData | TurnManager.cs:165-169 | the side and player type follow RoundCounter's parity |
| Battle.TurnManager.CurrentSelectedCharacter | TurnManager.cs:138-142 | an index at or past the roster's end is reset to 0, so a character is selected |
| Battle.TurnManager.CurrentPartyTurnSetUp | TurnManager.cs:176-181 | the state CurrentPartyTurnSetUp computes |
| Battle.TurnManager.CurrentMenu | TurnManager.cs:73-94 | the skip branch: choice 0 or an unlisted one sets Nothing and logs the skip; the choice is returned |
| Battle.TurnManager.ManageTaunt | TurnManager.cs:207-218 | the state ManageTaunt computes |
| Battle.TurnManager.CheckSelectedCharacterGear | TurnManager.cs:222-245 | the state CheckSelectedCharacterGear computes |
| Battle.TurnManager.ManagePartyTurns | TurnManager.cs:102-108 | the state ManagePartyTurns computes |
| Battle.TurnManager.ManagePoisoned | TurnManager.cs:110-114 | the state ManagePoisoned computes |
| Battle.TurnManager.CheckForNextRound | TurnManager.cs:126-133 | the state CheckForNextRound computes |
| Battle.TurnManager.PlayCharacter | TurnManager.cs:187-198 | one character's turn in the pass, as CharacterTurn computes |
| Battle.TurnManager.RunCurrentParty | TurnManager.cs:185-200 | the for-loop leaves the state the roster pass computes |
| Battle.InputManager.RetriveAttackProperties | InputManager.cs:54-61 | the attack, its damage and its probability become current |
| Battle.InputManager.RetriveGearProperties | InputManager.cs:54-61 | the state RetriveGearProperties computes |
| Battle.InputManager.InputAction | InputManager.cs:15-24 | the state InputAction computes |
| Battle.InputManager.AskInputAction | InputManager.cs:68-77 | the state AskInputAction computes |
| Battle.InputManager.ManageInputItem | InputManager.cs:9-13 | the state ManageInputItem computes |
| Battle.InputManager.ManageInputGear | InputManager.cs:203-211 | the state ManageInputGear computes |
| Battle.InputManager.UserManager | InputManager.cs:171-177 | the state UserManager computes |
| Battle.InputManager.ExecuteAction | Character.cs:40-47 | the state ExecuteAction computes |
| Battle.InputManager.ComputerAction | InputManager.cs:217-238 | the state ComputerAction computes |
| Battle.InputManager.HumanAction | InputManager.cs:179-213 | the state HumanAction computes |
| Game.SetUp | Game.cs:5-11 | the two managers are new and hold the starting battle |
| Game.Pass | Game.cs:15-20 | one pass of the loop, as Iteration computes |
| Game.Loop | Game.cs:13-21 | the while-loop leaves the state RunLoop computes: it runs while neither party is empty |
| Game.Run | Game.cs:3-24 | the game ends in the state RunLoop computes from the starting battle |

## Left out

- DisplayInformation.cs, the console prompts and menus of InputManager.cs, and `Thread.Sleep` pacing: they are presentation and input only.
- The choice of game mode and the player kinds: `SetUpParties` asks the user, so its answer is a parameter of `Game.Run`.
- The Computer AI and the human prompt loop, including their retries: decisions come from the `choose` parameter. For a human, a choice the menu would refuse counts as the skip. For a Computer, a choice outside what `Computer.MenuOption` and its selectors can return counts as option 0. The random target, item and gear indices become the choice's indices.
- `Computer.ComputerMenuOption`, `ComputerSelectItem` and `ComputerSelectGear` (InputManager.cs:221, 230, 235) are not defined in the repository's files. They are read as the `Computer` members `MenuOption`, `SelectItem` and `SelectGear` (Character.cs:96-130), and `Combat.ValidComputerChoice` gives the options `MenuOption` can return. The attack that `ExecuteAction` computes is discarded by `ComputerAction`, so only its random target is modelled.
- `Random`: hit, steal and damage rolls are parameters, and the double probability is a whole percentage.
- The C# events: each becomes a log entry with no handler behind it, except the turn-end, poison and taunt handlers the engine itself runs.
- The plague handlers, `RemoveInvalidSickCharacter`, `RemoveInvalidPlagueCharacter` and `ManagePartyDefeated`: the repository's files call them but never define them, so they are not part of this model, and the sickness registry is a field that nothing changes. The other members that the files call without defining are read as follows.
- `party.HeroParty.TurnsPlayed` and `AddTurns` (TurnManager.cs:104-106, 128) become the `heroTurns` and `monsterTurns` counters of `Combat.PartyState`, and `Combat.ManagePartyTurns` adds one to the acting side's counter.
- `HeroParty.GearInventory` and `AddGear` (TurnManager.cs:230-248) become the `heroGear` and `monsterGear` fields of `PartyManager`, appended to at the end.
- `turn.TargetHasModifier` (PartyManager.cs:214) is read as `Combat.TargetHasDefensiveModifier` (TurnManager.cs:156), the defensive modifier of the current target.
- `turn.CurrentItemInventory(this)` (PartyManager.cs:77) and `turn.Current.*` (InputManager.cs:18, 57-60) become the acting side's item list and the `TurnManager` fields `currentAttack`, `currentDamage` and `currentProbability`, with the character being the selected one.
- `party.ManageEquipGear` (InputManager.cs:211) is read as the equip step `Combat.EquipGear` that `TurnManager` defines.
- `turn.Round.CurrentRound` (GameObjects.cs:251-252) is read as the `round` field of `TurnManager`.
- The three-argument `new PoisonedCharacterInfo(...)` (PartyManager.cs:283) has no poison-damage argument; the model stores a poison damage of 0, which nothing reads.
- The events `ModifierApplied` (PartyManager.cs:241, 246) and `MonstersDefeated` (PartyManager.cs:362) are raised without `?.`, and none of the repository's files subscribes to them (the only subscriptions are PartyManager.cs:46, TurnManager.cs:64-66 and DisplayInformation.cs:11-30). As written, a Stone Armor or Object Sight hit and a cleared monster list would throw `NullReferenceException`; the model assumes each raised event has a subscriber, logs it and carries on.
- Combat.RunLoop: the source's loop has no bound, so the model runs at most `fuel` passes. A run that ends without an empty party has used the whole budget (`Combat.RunLoopCounts`).
- Guid identities: a character's identity is its `id`. Two characters with equal fields and different ids are different, as distinct objects are.
- Battle.PartyManager.SetUpCharacterWithGear: the dictionary's duplicate-key exception is a precondition of distinct ids.
- Registry.PruneComplete: the prune loop is proved to leave only the live entries only when no two expired entries are adjacent. `Registry.PruneSkipsNeighbour` shows the loop keeps one of two adjacent expired entries.
- Dictionary order: `RetriveCharactersWithGear` reads the keys in insertion order, which .NET does not promise but does for a dictionary that nothing was removed from.
