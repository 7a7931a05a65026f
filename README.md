# Quest Chronicles rules engine, modelled in Dafny

This project models the rules engine of a turn-based text RPG. It covers:

- characters: creation from a class table, experience and the level-up loop, gold, healing, death and revival;
- the text format of save files;
- the block-structured quest and item data files;
- a twenty-slot inventory with consumables, one weapon slot and one armor slot, and buying and selling;
- battles in which the character and an enemy trade blows, and the class special abilities;
- quests: accepting, completing and abandoning them, prerequisite chains, and statistics.

The engine stores a character as a dictionary that its functions update in place. Here that dictionary is the class `CharacterManager.Character`, with one field per key. `Snapshot()` reads it as a `Record` value.

Each operation that changes a character is a method with `modifies c`. Its postcondition equates the result and the new state to a pure step function of the old state (`AddGoldStep`, `EquipWeaponStep`, …). The step functions return `Step(result, after)`. On an error path, `after` shows whatever the operation had already changed before it raised. The rules the engine promises are stated and proved on those step functions.

The battle (`SimpleBattle`) is the class `CombatSystem.Battle`. It holds a `Character`, an `Enemy` and the `combatActive` flag. Its methods are proved against step functions on an `Arena` value.

The loops of the engine are methods with loop invariants, each proved equal to a recursive function or a quantified predicate of the specification:

- the level-up loop;
- the field checks of `validate_character_data`;
- the line loop of `load_quests`/`load_items`;
- the quest listings and reward totals;
- the prerequisite walk and the prerequisite check.

Python exceptions are the constructors of `Wrappers.Error`, with no messages. A Python `dict` whose key order shows in results is `Dicts.OrderedMap`: the entries plus their insertion order.

Modules, one per source file plus shared helpers:

| module | file | scope |
|---|---|---|
| `Wrappers` | `wrappers.dfy` | Option, Result and the error constructors |
| `Text` | `text.dfy` | The Python string operations the engine uses, on `seq<char>`: `strip`, `upper`, `lower`, `title`, `split`, `join`, `int()` and `str()` of an int |
| `Lists` | `lists.dfy` | `count`, `remove` (first occurrence) and `reversed` |
| `Dicts` | `dicts.dfy` | Insertion-ordered dictionaries |
| `CharacterManager` | `character_manager.dfy` | `character_manager.py` without file access |
| `SaveFormat` | `save_format.dfy` | The text written by `save_character` and read back by `load_character` |
| `GameData` | `game_data.dfy` | `game_data.py` without file access |
| `InventorySystem` | `inventory_system.dfy` | `inventory_system.py` |
| `CombatSystem` | `combat_system.dfy` | `combat_system.py` |
| `QuestHandler` | `quest_handler.dfy` | `quest_handler.py` |

Behaviours of the code a reader might not expect:

- **Prerequisite sentinel.** The prerequisite "none" is the exact string `NONE`. A quest whose prerequisite is `none` or `None` names a quest of that id.
- **Weapons and armor.** `equip_weapon` and `equip_armor` take off the old item's bonus before putting the old item back into the inventory. When the inventory is full, that put-back raises InventoryFullError. The character is then left without the old item and without its bonus: the old item is lost (`EquipWeaponFullDropsOldWeapon`).
- **`complete_quest`.** It moves the quest id between the lists before it grants the rewards, and `gain_experience` raises CharacterDeadError for a dead character. `CompleteQuestStep` therefore ends such a call with the move already made and no reward granted.
- **`start_battle`.**
  - It never checks `combat_active` on entry.
  - On a battle that is already over, the loop does not run and `result` is read unassigned. The model gives this case its own error, `UnboundResult`.
  - `use_special_ability` is not tied to a battle at all.
- **`in_battle`.** Only an item effect naming `in_battle` creates this key, through the generic branch of `apply_stat_effect`. `can_character_fight` then reads it as a truth value (0 is false), but `start_battle` never looks at it (`CombatSystem.InBattleEffect`).
- **Completion percentage.** `get_quest_completion_percentage` divides by the number of quests in the registry. A character with more completed ids than the registry has quests gets more than 100 (`PercentageCanPassHundred`).
- **`get_quest_prerequisite_chain` on a cycle.** On a cycle of prerequisites, this function loops forever.
  - The model's walk (`Walk`) keeps a visited set and returns `PrerequisiteCycle` instead.
  - `ChainMatchesSource` ties the two together. Where no cycle is found, the source's loop, run with enough steps, returns the same result. Where a cycle is found, the source's loop never returns.
- **What a save file keeps.** A save file does not hold the equipment slots or the bonuses. Loading a saved character therefore gives the character without equipment. It also drops any extra keys that stat effects created on the character (`SaveFormat.Reloaded`).

## Model

| member | source | states |
|---|---|---|
| CharacterManager.CreateCharacter | character_manager.py:25-77 | Succeeds exactly when the stripped, title-cased class is Warrior, Mage, Rogue or Cleric, else InvalidCharacterClassError; a new character has that class's health (also as max health), strength and magic, level 1, no experience, 100 gold and empty lists |
| CharacterManager.CreatedIsWellFormed | character_manager.py:45-75 | Every created character is well formed: level at least 1, 0 ≤ health ≤ max health, 0 ≤ experience < level × 100, no negative strength, magic or gold, quest lists without duplicates and with no quest both active and completed |
| CharacterManager.CreateFromStoredClass | character_manager.py:38-42 | Creating again from the class a character was given yields the same character: normalising the class is idempotent |
| CharacterManager.CreateNormalisesClass | character_manager.py:38 | Surrounding blanks and letter case in the class name do not matter ("  rOGUE " creates a Rogue) |
| CharacterManager.CreateRejectsUnknownClass | character_manager.py:38-42 | Every class whose stripped, lower-cased form is not warrior, mage, rogue or cleric raises InvalidCharacterClassError, whatever its letter case and surrounding blanks |
| CharacterManager.CreateRogue | character_manager.py:53-56 | The example "Rogue" is created, with 90 health as its max health |
| CharacterManager.CreateRejectsPaladin | character_manager.py:40-42 | The example "Paladin" raises InvalidCharacterClassError |
| CharacterManager.LevelUps | character_manager.py:250-260 | The level-up loop ends with experience below the threshold of the final level (`Settled`), and the level never drops |
| CharacterManager.LevelUpsLaws | character_manager.py:250-260 | After the level-up loop, experience is below level × 100 and the level never drops; each level gained costs that level × 100 experience and adds 10 max health, 2 strength and 2 magic; health is refilled when a level was gained; nothing changes otherwise |
| CharacterManager.GainExperienceStep | character_manager.py:228-262 | A dead character raises CharacterDeadError with nothing changed; a living one succeeds, never loses a level and ends with experience below its level's threshold |
| CharacterManager.GainExperienceLaws | character_manager.py:228-262 | A dead character raises CharacterDeadError with nothing changed; otherwise the amount is added and the level-up laws hold for the levels gained, with only the level stats changed |
| CharacterManager.GainExperienceJumpsLevels | character_manager.py:250-260 | 350 experience at level 1 gains two levels at once and leaves 50 experience |
| CharacterManager.NegativeExperienceIsAdded | character_manager.py:246-247 | A negative amount is added to experience as it is and gains no level |
| CharacterManager.GainExperiencePreservesWellFormed | character_manager.py:228-262 | A non-negative amount keeps a character well formed |
| CharacterManager.GainExperience | character_manager.py:228-262 | The method's effect is the step function's |
| CharacterManager.RunLevelUps | character_manager.py:250-260 | The method's loop leaves the character exactly as the level-up function does |
| CharacterManager.IsCharacterDead | character_manager.py:302-309 | Health at 0 or below; its partners are `ReviveStep`, which revives exactly such a character, and `GainExperienceLaws`, which refuses it |
| CharacterManager.AddGoldStep | character_manager.py:264-282 | ValueError with gold unchanged when the new total would be negative; otherwise the gold becomes that total, which is returned |
| CharacterManager.AddGoldUndo | character_manager.py:264-282 | Adding an amount and then its negation restores the character |
| CharacterManager.AddGoldPreservesWellFormed | character_manager.py:264-282 | Gold never becomes negative |
| CharacterManager.AddGold | character_manager.py:264-282 | The method's effect is the step function's |
| CharacterManager.HealStep | character_manager.py:284-300 | A non-positive amount heals 0 and changes nothing; otherwise the returned amount is at most the request, health grows by it and stays at or below max health, and either the full request was healed or health reached max health |
| CharacterManager.HealPreservesWellFormed | character_manager.py:284-300 | Healing keeps a character well formed and never lowers health |
| CharacterManager.HealCharacter | character_manager.py:284-300 | The method's effect is the step function's |
| CharacterManager.ReviveStep | character_manager.py:302-324 | Returns whether the character was dead (health ≤ 0); a living character is unchanged; a dead one gets health max(1, max health // 2) and is no longer dead |
| CharacterManager.RevivePreservesWellFormed | character_manager.py:311-324 | Revival keeps a character well formed |
| CharacterManager.ReviveExamples | character_manager.py:320-322 | Max health 9 revives to 4, max health 1 revives to 1 |
| CharacterManager.ReviveCharacter | character_manager.py:311-324 | The method's effect is the step function's |
| CharacterManager.ValidateCharacterData | character_manager.py:330-366 | Passes exactly when every required field is present, every numeric field is an int (a bool counts) and every list field is a list; otherwise InvalidSaveDataError |
| SaveFormat.SerialiseParse | character_manager.py:109-187 | Loading the text a save writes gives back the character without equipment and without the extra keys of stat effects, provided no list element is empty or holds a comma, and no list element or text field holds a line break or surrounding blanks |
| SaveFormat.Serialise | character_manager.py:100-126 | The twelve `KEY: value` lines of a save file, lists joined by commas; its partner is `SerialiseParse`, the round trip through `Parse` |
| SaveFormat.Parse | character_manager.py:129-190 | Every failure of a load of a text is InvalidSaveDataError |
| SaveFormat.CollectRejectsLineWithoutColon | character_manager.py:158-160 | Any non-blank line without ":" makes the load fail, wherever it stands |
| SaveFormat.LoadedBagIsValid | character_manager.py:165-190 | The field check at the end of a load always passes on the dictionary a load builds |
| SaveFormat.ListValueShape | character_manager.py:119-121 | A list joined by commas splits back into the same list, and it is written as the empty value exactly when it is empty |
| GameData.Blocks | game_data.py:51-67 | Every block is non-empty and holds only stripped, non-blank lines, and the blocks together are the non-blank stripped lines of the file, in order |
| GameData.BlocksKeepLines | game_data.py:51-67 | Splitting a file into blocks keeps every non-blank stripped line, in order, and nothing else |
| GameData.BlocksAreBlocks | game_data.py:51-67 | Every block is non-empty and holds only stripped, non-blank lines |
| GameData.BlocksAtBlank | game_data.py:53-58 | A blank line closes the block before it: the blocks of `xs + [blank] + ys` are the blocks of `xs` followed by the blocks of `ys` |
| GameData.OneBlockWithoutBlanks | game_data.py:60-67 | Lines without a blank one form a single block, including a last block with no blank line after it |
| GameData.Store | game_data.py:240-253 | A recognised key stores its value under its field, as an int for a numeric field (ValueError exactly when it is not a number); any other key leaves the dictionary alone |
| GameData.ReadPartsRejects | game_data.py:233-235 | A block line without ": " makes the block fail, wherever it stands |
| GameData.ReadPartsLastWins | game_data.py:240-253 | A key seen more than once keeps the value of its last line |
| GameData.ReadPartsIgnores | game_data.py:240-253 | Lines whose keys are not recognised change nothing |
| GameData.LinePartsFirstSeparator | game_data.py:236-238 | A line is split at its first ": ", the key stripped and upper-cased, the value stripped |
| GameData.ValidateQuestData | game_data.py:129-156 | Passes exactly when the seven fields are present and the three numeric ones are numbers; a failure is InvalidDataFormatError; a non-number leaves the fields before it converted |
| GameData.ValidateQuestPartial | game_data.py:149-154 | A bad reward_gold fails after reward_xp has been converted |
| GameData.ValidateQuestIdempotent | game_data.py:149-154 | Validating a validated quest again passes and changes nothing |
| GameData.ValidateQuestKeepsInts | game_data.py:149-154 | The int coercion leaves fields that are already ints as they are |
| GameData.ParseQuestBlock | game_data.py:222-256 | A failure is InvalidDataFormatError or ValueError |
| GameData.ParsedQuestIsQuest | game_data.py:222-256 | A block that parses holds all seven quest fields with int values where the quest needs them, and validating it again passes unchanged |
| GameData.ValidateItemData | game_data.py:159-182 | Passes exactly when the six fields are present, the type is weapon, armor or consumable and the cost is a number; any failure is InvalidDataFormatError |
| GameData.ValidateItemIdempotent | game_data.py:177-180 | Validating a validated item again passes and changes nothing |
| GameData.ValidateItemKeepsInts | game_data.py:177-180 | The cost coercion leaves an int cost as it is |
| GameData.ParseItemBlock | game_data.py:259-291 | A failure is InvalidDataFormatError or ValueError |
| GameData.ParsedItemIsItem | game_data.py:259-291 | A block that parses holds all six item fields with a valid type and an int cost, and validating it again passes unchanged |
| GameData.FileAll | game_data.py:51-72 | Any failure of the block loop is InvalidDataFormatError |
| GameData.FileAllFails | game_data.py:51-72 | Loading fails exactly when some block fails to parse, and then with InvalidDataFormatError |
| GameData.LastBlockWins | game_data.py:58 | A later record with the same id overwrites an earlier one |
| GameData.FileAllKeeps | game_data.py:58 | A record whose id no later block uses stays in the result |
| GameData.LoadRecords | game_data.py:51-72 | The line loop with its current block computes exactly the blocks filed by id |
| GameData.LoadQuests | game_data.py:23-74 | Loading quest lines is the quest blocks filed by quest id |
| GameData.LoadItems | game_data.py:77-126 | Loading item lines is the item blocks filed by item id |
| InventorySystem.AddItemStep | inventory_system.py:26-42 | InventoryFullError with nothing changed on a list of twenty or more; otherwise the id is appended and True returned |
| InventorySystem.AddItemKeepsCapacity | inventory_system.py:37-42 | Adding never takes a list of at most twenty past twenty, and a success adds one copy |
| InventorySystem.AddItemToInventory | inventory_system.py:26-42 | The method's effect is the step function's |
| InventorySystem.RemoveItemStep | inventory_system.py:45-61 | ItemNotFoundError with nothing changed when the id is absent; otherwise only its first occurrence is removed |
| InventorySystem.AddThenRemove | inventory_system.py:37-61 | Adding an id the list does not hold and removing it restores the character |
| InventorySystem.RemoveItemFromInventory | inventory_system.py:45-61 | The method's effect is the step function's |
| InventorySystem.SpaceRemaining | inventory_system.py:82-88 | Space plus length is twenty, and lies in 0..20 for a list within capacity |
| InventorySystem.HasItem | inventory_system.py:64-70 | Whether the id is in the inventory; its partner is `HasItemIffCounted` |
| InventorySystem.CountItem | inventory_system.py:73-79 | The number of copies of the id; its partner is `HasItemIffCounted` |
| InventorySystem.HasItemIffCounted | inventory_system.py:64-88 | `has_item` holds exactly when the count is positive, and adding succeeds exactly when space remains |
| InventorySystem.ClearInventoryStep | inventory_system.py:91-99 | Returns the old list and empties it, changing nothing else |
| InventorySystem.ClearInventory | inventory_system.py:91-99 | The method's effect is the step function's |
| InventorySystem.ParseItemEffect | inventory_system.py:337-353 | A failure is ValueError; a stat name is stripped and holds no ":" |
| InventorySystem.ParseItemEffectFails | inventory_system.py:347-352 | Parsing fails exactly when there is no ":" or the stripped text after the first ":" is not a number |
| InventorySystem.ParseItemEffectRoundTrip | inventory_system.py:350-353 | A stripped stat name without ":" joined to a number by ":" parses back to both |
| InventorySystem.ParseHealthTwenty | inventory_system.py:345 | "health:20" parses to ("health", 20) |
| InventorySystem.KeyOfStats | inventory_system.py:364 | The four main stats are selected by their own names only |
| InventorySystem.AdjustStep | inventory_system.py:356-378 | health and max_health are added to and health is then capped at max health; strength, magic, level, experience, gold and the two bonuses are each added to with nothing else changed; a new key holds the value; a key holding text or a list raises TypeError with nothing changed |
| InventorySystem.ApplyStatEffectStep | inventory_system.py:356-378 | Only a TypeError can fail it, with nothing changed; health and max_health never fail and leave health at most max health, health capped after the add and max_health capping health; strength, magic and gold are added to |
| InventorySystem.ApplyStatEffectKeeps | inventory_system.py:356-378 | A stat effect never touches the inventory, the equipment slots or the quest lists |
| InventorySystem.HealingEffectBounded | inventory_system.py:373-376 | A healing effect raises health by at most its value and never past max health |
| InventorySystem.ApplyStatEffect | inventory_system.py:356-378 | The method's effect is the step function's |
| InventorySystem.Adjust | inventory_system.py:364-378 | The method's effect is the step function's for each kind of key |
| InventorySystem.UseItemStep | inventory_system.py:105-135 | ItemNotFoundError, then InvalidItemTypeError for a non-consumable; every error leaves the character unchanged; a held consumable is used exactly when its effect parses and names a number-valued stat, and a use applies the parsed effect and removes one copy |
| InventorySystem.UseHealthPotion | inventory_system.py:129-135 | Using a held "health:20" consumable succeeds, raises health by 20 up to max health and removes one copy, nothing else changing |
| InventorySystem.UseItemRemovesOne | inventory_system.py:131-134 | A use removes exactly one copy of the item and no other item |
| InventorySystem.UseItem | inventory_system.py:105-135 | The method's effect is the step function's |
| InventorySystem.StripWeaponStep | inventory_system.py:165-171 | Taking off the old weapon subtracts its bonus and empties the slot before the put-back, which fails exactly on a full list |
| InventorySystem.WeaponEffectStep | inventory_system.py:173-179 | A strength effect adds to strength and becomes the weapon bonus; any other effect is applied as a stat effect |
| InventorySystem.EquipWeaponStep | inventory_system.py:138-183 | ItemNotFoundError, then InvalidItemTypeError for a non-weapon, both with nothing changed; a success fills the weapon slot with the id |
| InventorySystem.EquipWeapon | inventory_system.py:138-183 | The method's effect is the step function's |
| InventorySystem.StripArmorStep | inventory_system.py:213-221 | Taking off the old armor subtracts its bonus from max health, caps health, and empties the slot before the put-back, which fails exactly on a full list |
| InventorySystem.ArmorEffectStep | inventory_system.py:223-230 | A max_health effect adds to max health, becomes the armor bonus and caps health; any other effect is applied as a stat effect |
| InventorySystem.EquipArmorStep | inventory_system.py:186-234 | ItemNotFoundError, then InvalidItemTypeError for a non-armor, both with nothing changed; a success fills the armor slot with the id |
| InventorySystem.EquipArmor | inventory_system.py:186-234 | The method's effect is the step function's |
| InventorySystem.UnequipWeaponStep | inventory_system.py:237-256 | Nothing equipped returns None with no change; a full list raises InventoryFullError with no change; otherwise the bonus is subtracted and the weapon goes back to the inventory and is returned |
| InventorySystem.UnequipWeapon | inventory_system.py:237-256 | The method's effect is the step function's |
| InventorySystem.UnequipArmorStep | inventory_system.py:259-281 | As for the weapon, with the bonus taken off max health and health capped |
| InventorySystem.UnequipArmor | inventory_system.py:259-281 | The method's effect is the step function's |
| InventorySystem.WearStrengthWeapon | inventory_system.py:173-183 | Wearing a strength weapon adds the bonus, records it, fills the slot and removes one copy |
| InventorySystem.EquipFreshWeapon | inventory_system.py:158-183 | With the slot empty, equipping a held strength weapon succeeds with exactly that effect |
| InventorySystem.EquipOverWornWeapon | inventory_system.py:158-183 | Over a worn weapon with room in the list, equipping a strength weapon succeeds: strength loses the old bonus and gains the new one, the new bonus is kept, and the old weapon goes back to the list before one copy of the new one leaves it |
| InventorySystem.StripWornWeapon | inventory_system.py:165-171 | With room in the list, taking off the worn weapon succeeds with its bonus gone, the slot empty and the weapon appended |
| InventorySystem.EquipThenUnequipWeapon | inventory_system.py:158-256 | Equipping a strength weapon and then unequipping it restores strength and the bonus, and gives the weapon back |
| InventorySystem.WearMaxHealthArmor | inventory_system.py:223-234 | Wearing max_health armor adds the bonus to max health, records it, caps health, fills the slot and removes one copy |
| InventorySystem.EquipFreshArmor | inventory_system.py:206-234 | With the slot empty, equipping held max_health armor succeeds with exactly that effect |
| InventorySystem.EquipOverWornArmor | inventory_system.py:206-234 | Over worn armor with room in the list, equipping max_health armor succeeds: max health loses the old bonus and health is capped, then the new bonus is added and kept and caps health again; the old armor goes back to the list before one copy of the new one leaves it |
| InventorySystem.StripWornArmor | inventory_system.py:213-221 | With room in the list, taking off worn armor succeeds with its bonus gone from max health, health capped, the slot empty and the armor appended |
| InventorySystem.EquipThenUnequipArmor | inventory_system.py:206-281 | Equipping max_health armor and then unequipping it restores max health and the bonus, and gives the armor back |
| InventorySystem.EquipWeaponFullDropsOldWeapon | inventory_system.py:165-171 | On a full list, equipping over an old weapon raises InventoryFullError after the old weapon and its bonus are gone |
| InventorySystem.PurchaseItemStep | inventory_system.py:287-310 | InsufficientResourcesError is checked before InventoryFullError, both with nothing changed; a success pays the cost and appends the id |
| InventorySystem.PurchaseItem | inventory_system.py:287-310 | The method's effect is the step function's |
| InventorySystem.SellItemStep | inventory_system.py:313-331 | ItemNotFoundError with nothing changed; otherwise one copy is removed and cost // 2 gold is paid and returned |
| InventorySystem.BuyThenSell | inventory_system.py:301-331 | Buying an item and selling it back costs the character the cost less half of it, and restores the inventory |
| InventorySystem.SellItem | inventory_system.py:313-331 | The method's effect is the step function's |
| CombatSystem.Template | combat_system.py:37-49 | Every enemy template starts at full, positive health with positive strength and rewards |
| CombatSystem.CreateEnemy | combat_system.py:24-50 | Fails with InvalidTargetError exactly for a lower-cased name outside goblin, orc and dragon; an enemy starts at full positive health |
| CombatSystem.CreateEnemyIgnoresCase | combat_system.py:36 | Upper- and lower-casing the name does not change the result |
| CombatSystem.EnemyTable | combat_system.py:37-49 | The stats of the goblin, the orc and the dragon |
| CombatSystem.EnemyForLevel | combat_system.py:53-68 | Levels up to 2 meet a goblin, up to 5 an orc, above that a dragon |
| CombatSystem.EnemyForLevelMonotone | combat_system.py:53-68 | A higher level never meets a weaker or less rewarding enemy |
| CombatSystem.Damage | combat_system.py:160-174 | Damage is the attacker's strength less a quarter (floored) of the defender's, but at least 1 |
| CombatSystem.DamageExamples | combat_system.py:169-174 | 15 against 8 deals 13; 8 against 15 deals 5; the minimum is 1; floor division on a negative defender |
| CombatSystem.AfterDamage | combat_system.py:176-182 | Health after damage is health less damage, but never below 0 |
| CombatSystem.AfterDamageLowers | combat_system.py:182 | Non-negative damage never raises health, and positive damage lowers positive health |
| CombatSystem.CheckBattleEnd | combat_system.py:184-194 | The player wins when the enemy is at 0 or less, even when the character is too; the enemy wins when only the character is; otherwise no winner |
| CombatSystem.Fight | combat_system.py:100-114 | The exchange of blows ends; the winner is the player exactly when the enemy ends at 0; neither health grows; the loser ends at 0 |
| CombatSystem.WarriorBeatsGoblin | combat_system.py:100-114 | A fresh warrior beats a goblin with 105 health left |
| CombatSystem.StartBattleStep | combat_system.py:88-122 | CharacterDeadError exactly for a dead character; an error when combat is already over; otherwise the fight ends with combat inactive, a player win pays the enemy's rewards with the enemy at 0, an enemy win pays nothing with the character at 0, and only the two health values change |
| CombatSystem.PlayerTurnStep | combat_system.py:124-142 | CombatNotActiveError outside a battle; otherwise the enemy takes one hit and nothing else changes |
| CombatSystem.EnemyTurnStep | combat_system.py:144-158 | CombatNotActiveError outside a battle; otherwise the character takes one hit and nothing else changes |
| CombatSystem.AttemptEscapeStep | combat_system.py:196-210 | CombatNotActiveError outside a battle; otherwise the coin is returned and a success ends the battle, a failure leaves it running |
| CombatSystem.TurnsOnlyLower | combat_system.py:139-156 | A turn never raises health and never takes it below 0, and lowers positive health |
| CombatSystem.InactiveIsFinal | combat_system.py:97-210 | Once combat is inactive, every battle operation fails and changes nothing |
| CombatSystem.StartBattleOnce | combat_system.py:88-122 | A battle that has run cannot be run again |
| CombatSystem.Battle.constructor | combat_system.py:81-86 | A new battle holds the character and the enemy and is active |
| CombatSystem.Battle.StartBattle | combat_system.py:88-122 | The method's loop computes the step function's result and new state |
| CombatSystem.Battle.PlayerTurn | combat_system.py:124-142 | The method's effect is the step function's |
| CombatSystem.Battle.EnemyTurn | combat_system.py:144-158 | The method's effect is the step function's |
| CombatSystem.Battle.AttemptEscape | combat_system.py:196-210 | The method's effect is the step function's |
| CombatSystem.AbilityStep | combat_system.py:216-277 | An unknown class changes nothing and says "Nothing happens."; Warrior, Mage and Rogue change only the enemy's health; Cleric changes only the character's health |
| CombatSystem.AbilityNeverHealsFoe | combat_system.py:243-269 | An ability never raises the enemy's health or takes it below 0 |
| CombatSystem.ClericHealBounded | combat_system.py:272-277 | The heal adds at most 30 and never goes past max health |
| CombatSystem.ClericHealPreservesWellFormed | combat_system.py:272-277 | The heal keeps a character well formed |
| CombatSystem.PowerStrikeOnGoblin | combat_system.py:243-247 | A strength-15 warrior's Power Strike leaves a goblin at 20 |
| CombatSystem.WarriorPowerStrike | combat_system.py:243-247 | The enemy loses twice the strength, down to 0 at most |
| CombatSystem.MageFireball | combat_system.py:250-254 | The enemy loses twice the magic, down to 0 at most |
| CombatSystem.RogueCriticalStrike | combat_system.py:257-269 | The enemy loses three times the strength on a critical coin and the strength otherwise, down to 0 at most |
| CombatSystem.ClericHeal | combat_system.py:272-277 | Health becomes the smaller of max health and health plus 30, and nothing else changes |
| CombatSystem.UseSpecialAbility | combat_system.py:216-240 | The method's effect is the step function's |
| CombatSystem.CanCharacterFight | combat_system.py:283-289 | Health above 0 and no non-zero `in_battle` entry; its partners are `CanFightIffBattleRuns` and `InBattleEffect` |
| CombatSystem.GetVictoryRewards | combat_system.py:292-302 | The enemy's experience and gold rewards; its partner is `StartBattleStep`, which pays exactly these to a winning player |
| CombatSystem.CanFightIffBattleRuns | combat_system.py:283-289 | A character without a non-zero `in_battle` entry can fight exactly when a fresh battle runs instead of raising CharacterDeadError |
| CombatSystem.InBattleEffect | inventory_system.py:364-366 | An `in_battle:v` effect adds v to the entry in the generic branch and leaves health alone; afterwards the character can fight exactly when it is alive and the entry is 0, while `start_battle` still runs for any living character |
| CombatSystem.InBattleOneBlocksFight | combat_system.py:283-289 | A consumable effect `in_battle:1` on a character without the entry leaves it unable to fight |
| QuestHandler.RemoveFirstNoDuplicates | quest_handler.py:70 | Removing an id from a list without duplicates takes it out entirely and keeps the list without duplicates |
| QuestHandler.AcceptQuestStep | quest_handler.py:25-53 | QuestNotFoundError, InsufficientLevelError, QuestRequirementsNotMetError and QuestAlreadyCompletedError in that order, each exactly when its check is the first to fail; an active quest returns False; otherwise the id is appended and True returned |
| QuestHandler.AcceptQuest | quest_handler.py:25-53 | The method's effect is the step function's |
| QuestHandler.CanAcceptQuest | quest_handler.py:158-183 | The four checks of `accept_quest` as a boolean; its partner is `CanAcceptIffAccepts` |
| QuestHandler.CanAcceptIffAccepts | quest_handler.py:158-183 | `can_accept_quest` holds exactly when `accept_quest` would append the quest |
| QuestHandler.AcceptOnce | quest_handler.py:49-53 | An accepted quest is in the active list exactly once, and accepting it again returns False with no change |
| QuestHandler.AcceptPreservesWellFormed | quest_handler.py:25-53 | Accepting keeps a character well formed |
| QuestHandler.MoveToCompleted | quest_handler.py:69-71 | The first occurrence leaves the active list and the id is appended to the completed list, nothing else changing |
| QuestHandler.CompleteQuestStep | quest_handler.py:56-79 | QuestNotFoundError, then QuestNotActiveError, both with nothing changed; otherwise the quest is moved and its rewards are granted through `gain_experience` and `add_gold` and returned |
| QuestHandler.CompleteQuest | quest_handler.py:56-79 | The method's effect is the step function's |
| QuestHandler.CompletePreservesWellFormed | quest_handler.py:56-79 | Completing a quest with a non-negative experience reward keeps a character well formed |
| QuestHandler.AbandonQuestStep | quest_handler.py:82-93 | QuestNotActiveError with nothing changed when the quest is not active; otherwise one occurrence leaves the active list, nothing else changing |
| QuestHandler.AbandonQuest | quest_handler.py:82-93 | The method's effect is the step function's |
| QuestHandler.AcceptThenAbandon | quest_handler.py:25-93 | Abandoning a just-accepted quest restores the character |
| QuestHandler.AbandonPreservesWellFormed | quest_handler.py:82-93 | Abandoning keeps a character well formed |
| QuestHandler.IsQuestCompleted | quest_handler.py:140-146 | Whether the id is in the completed list; its partner is `LifecycleQueries` |
| QuestHandler.IsQuestActive | quest_handler.py:149-155 | Whether the id is in the active list; its partner is `LifecycleQueries` |
| QuestHandler.LifecycleQueries | quest_handler.py:140-155 | After an accept the quest is active; after a complete it is completed; for a well-formed character it is no longer active after a complete or an abandon |
| QuestHandler.QuestsOfAllKnown | quest_handler.py:96-119 | When every id is known, the listing is the quests of the ids, in order |
| QuestHandler.QuestsOfFromIds | quest_handler.py:96-119 | Every listed quest is the quest of some known id of the list |
| QuestHandler.QuestsOfKnownListed | quest_handler.py:96-119 | The quest of every known id of the list is listed, even with unknown ids beside it |
| QuestHandler.GetActiveQuests | quest_handler.py:96-106 | The method's loop computes the listing of the active ids |
| QuestHandler.GetCompletedQuests | quest_handler.py:109-119 | The method's loop computes the listing of the completed ids |
| QuestHandler.PickMembers | quest_handler.py:122-134 | A filtered listing holds every registry quest that passes the criterion and nothing else |
| QuestHandler.ListingOfRegistry | quest_handler.py:130-134 | A registry quest that passes the criterion is listed |
| QuestHandler.GetAvailableQuests | quest_handler.py:122-134 | The method's loop computes the registry filtered by `can_accept_quest`, in registry order |
| QuestHandler.GetQuestsByLevel | quest_handler.py:241-252 | The method's loop computes the registry filtered by min level ≤ required level ≤ max level, in registry order |
| QuestHandler.Walk | quest_handler.py:194-205 | A failure of the walk is a missing quest or a cycle |
| QuestHandler.PrerequisiteChain | quest_handler.py:186-206 | An unknown quest raises QuestNotFoundError; any failure is a missing quest or a cycle |
| QuestHandler.GetQuestPrerequisiteChain | quest_handler.py:186-206 | The method's loop computes the prerequisite chain |
| QuestHandler.ChainShape | quest_handler.py:186-206 | A returned chain ends with the quest, starts with a quest without prerequisite, and each element is the prerequisite of the next |
| QuestHandler.ChainMatchesSource | quest_handler.py:196-203 | Where the model finds no cycle, the source's unguarded loop returns the same result; where it finds one, the source's loop never returns |
| QuestHandler.ValidateQuestPrerequisites | quest_handler.py:309-318 | Passes exactly when every prerequisite is NONE or a known quest, otherwise QuestNotFoundError |
| QuestHandler.ValidatedChainsHaveNoMissingLinks | quest_handler.py:191-202 | In a registry whose prerequisites pass the check, the walk never raises QuestNotFoundError |
| QuestHandler.CompletionPercentage | quest_handler.py:212-222 | 0 for an empty registry, otherwise exactly 100 × completed / registry size |
| QuestHandler.PercentageInRange | quest_handler.py:212-222 | With no more completed ids than quests, the percentage lies in 0..100 |
| QuestHandler.PercentageCanPassHundred | quest_handler.py:218-222 | Two completed ids against a one-quest registry give 200 |
| QuestHandler.GetTotalQuestRewardsEarned | quest_handler.py:225-238 | The method's loop computes the sums of the rewards of the completed ids that are known |
| QuestHandler.CompleteAddsToTotals | quest_handler.py:56-79 | Completing a quest adds its rewards to the totals |

## Left out

- File access is not modelled:
  - the directory and file operations of `save_character` and `load_character`;
  - all of `list_saved_characters`, `delete_character` and `create_default_data_files`;
  - the opening and reading in `load_quests`/`load_items`.
  
  The model keeps the text written and the lines read. CharacterNotFoundError, SaveFileCorruptedError, MissingDataFileError and CorruptedDataError arise only from file access, so they do not occur.
- Console output (`display_*` and `display_battle_log`) and the turn log messages are not modelled.
- `random.random()` in `attempt_escape` and `rogue_critical_strike` is a boolean coin parameter. Probabilities are not modelled.
- The float of `get_quest_completion_percentage` is an exact fraction (`Ratio`). Float rounding is not modelled.
- `str.title`, `upper` and `lower` map the case of ASCII letters only. `strip` removes every character Python's `str.isspace` accepts. `int()` accepts an optional sign and ASCII digits: no underscores, no other Unicode digits.
- Exceptions are error constructors without their messages.
- Missing dictionary keys and `.get` defaults are not modelled:
  - The character is a full record; the `.get(..., default)` reads of keys a character always has are plain reads.
  - Quests and items are the loaded `Quest` and `Item` records, with every field present.
- `turn_count` is set in `SimpleBattle.__init__` and never read, so it is left out.
- InventorySystem.AdjustStep: raises TypeError for a non-int key. This includes an empty `equipped_weapon`/`equipped_armor` slot, where Python would instead create an int entry; that case is not modelled.
- CombatSystem.StartBattleStep: an already-finished battle returns the error constructor `UnboundResult` in place of Python's UnboundLocalError.
