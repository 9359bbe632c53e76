# D&D 3.5e character manager — a Dafny model of its core

The application keeps Dungeons & Dragons 3.5e characters on a phone. This project models six parts of it:

- **The rules calculator** (`dnd35Utils.ts`):
  - dice and 4d6-drop-lowest ability scores;
  - ability modifiers;
  - the experience table;
  - hit points, base attack bonus and saving throws;
  - the spell catalog;
  - the default character and the random character generator.
- **The storage service** (`characterStorage.ts`). It keeps three buckets: the characters, their profiles for the list screen, and the id of the current character.
- **The character form** (`CharacterForm.tsx`):
  - the modifier-sync effect;
  - ability, skill, feat, equipment and attack edits;
  - the skill totals it shows.
- **The creation screen** (`CreateCharacter.tsx`):
  - the creation modes;
  - the randomize toggles;
  - partial randomization with starting spells;
  - the guarded save.
- **The spell screen** (`SpellsScreen.tsx`):
  - preparing, adding and removing spells;
  - the filtered, sorted list (`getFilteredSpells`, which the screen defines but never calls: it draws only the spells grouped by level, so its level-filter buttons change only their own highlight);
  - the spells grouped by level;
  - the prepared count.
- **The actions screen** (`ActionsScreen.tsx`):
  - d20 saves, checks, attacks, initiative and skill checks;
  - damage rolls read from text such as `1d8+3`;
  - a history of the last ten rolls.

## How the program is modelled

- **Pure computations become functions and lemmas.** This covers the calculator, the record edits of the form, the filters and sorts.
- **Loops become methods with invariants.** Each method is proved against a function that specifies it:
  - `rollDice`;
  - `calculateHitPoints`;
  - the descending sort of `rollAbilityScore`, kept in place on an `array`;
  - the starting-spell loop;
  - the bucket filling of `getSpellsByLevel`.
- **Stateful parts become classes.** The storage service is a class with one field per storage key. Each screen is a class with one field per piece of React state it updates. Every handler is a method that states the new state.

Randomness and the clock are inputs to the model, not effects:

- Every `Math.random()` is a `Draw`, a real in [0, 1).
- Every `new Date()` and `Date.now()` is a `now` or `newId` parameter.

Modules, one per file:

| module | file | contents |
|---|---|---|
| `Optional`, `Text` | `text.dfy` | JavaScript's `parseInt`, `trim`, `toLowerCase`, number-to-text |
| `Lists` | `lists.dfy` | index removal and subsequences |
| `CharacterTypes` | `character.dfy` | the records of `Character.ts` and object spread |
| `Dice` | `dice.dfy` | — |
| `Rules` | `rules.dfy` | — |
| `Storage` | `storage.dfy` | — |
| `CharacterForm` | `form.dfy` | — |
| `Creation` | `create.dfy` | — |
| `SpellList` | `spells.dfy` | — |
| `Actions` | `actions.dfy` | — |

## Model

| member | source | states |
|---|---|---|
| Dice.Scaled | src/utils/dnd35Utils.ts:60-62 | `Math.floor(u * n)` of a draw is an index in [0, n) for every positive n |
| Dice.RollDie | src/utils/dnd35Utils.ts:60-62 | a die of `sides >= 1` shows a value from 1 to `sides` |
| Dice.RollDice | src/utils/dnd35Utils.ts:64-71 | `count` dice (none for a negative count), the i-th rolled from the i-th draw, each from 1 to `sides` |
| Dice.SortDescending | src/utils/dnd35Utils.ts:75 | the array ends in descending order and holds the same dice (multiset) |
| Dice.SumPermutation | src/utils/dnd35Utils.ts:75-76 | reordering dice does not change their sum |
| Dice.DropLowestOfSorted | src/utils/dnd35Utils.ts:73-77 | the top three of the dice sorted descending add up to the four dice less the lowest one |
| Dice.RollAbilityScore | src/utils/dnd35Utils.ts:73-77 | the score is 4d6 drop the lowest of its four draws, and lies in [3, 18] |
| Dice.RandomElement | src/utils/dnd35Utils.ts:211-213 | an element exactly when the list is non-empty, and always one of the list's elements |
| Rules.AbilityModifier | src/utils/dnd35Utils.ts:91-93 | the modifier is the floor of (score - 10) / 2, negative scores included: `2m <= score - 10 < 2m + 2` |
| Rules.AllModifiers | src/utils/dnd35Utils.ts:95-104 | each ability's modifier comes from that ability's own score |
| Rules.ModifiersOfOneEdit | src/utils/dnd35Utils.ts:95-104 | changing one score changes its own modifier and leaves the other five as they were |
| Rules.RollAllAbilityScores | src/utils/dnd35Utils.ts:79-89 | six 4d6-drop-lowest scores, four draws each in record order, each in [3, 18] |
| Rules.TableIncreasing | src/utils/dnd35Utils.ts:107-128 | the experience table strictly increases from level to level |
| Rules.ExperienceForLevel | src/utils/dnd35Utils.ts:107-132 | experience for a level lies between 0 and 190000, and is 0 exactly below level 2 (the table starts at 0) and above level 20 (`\|\| 0`) |
| Rules.ExperienceNeededForNextLevel | src/utils/dnd35Utils.ts:134-136 | experience needed for the next level lies between 0 and 190000, and is 0 exactly at level 0 and below and from level 20 on |
| Rules.ExperienceNeeded | src/utils/dnd35Utils.ts:130-136 | experience for the next level is the table entry for levels 1 to 19, positive and strictly greater at each higher level, and 0 (the `\|\| 0` fallback) at level 20 and up and at 0 and below |
| Rules.HitDie | src/utils/dnd35Utils.ts:139-154 | a class's hit die is one of d4, d6, d8, d10, d12, and d8 for a class not in the table |
| Rules.MaxHitPoints | src/utils/dnd35Utils.ts:153-165 | hit points are never fewer than the level |
| Rules.CalculateHitPoints | src/utils/dnd35Utils.ts:153-165 | the loop gives the full die plus the Constitution modifier at level 1, half the die plus one plus the modifier per later level, floored at the level |
| Rules.ThreeQuarters | src/utils/dnd35Utils.ts:176 | `Math.floor(level * 0.75)` is the integer floor of 3·level/4 |
| Rules.Half | src/utils/dnd35Utils.ts:178 | `Math.floor(level * 0.5)` is the integer floor of level/2 |
| Rules.BaseAttackBonus | src/utils/dnd35Utils.ts:168-180 | the level for the four fighting classes, three quarters of it (rounded down) for Bard, Cleric, Druid, Monk and Rogue, half the level (rounded down) for any class in neither list, and between half the level and the level from level 0 up |
| Rules.BaseAttackBonusTiers | src/utils/dnd35Utils.ts:168-180 | from level 0 up: fighter ≥ cleric ≥ wizard progression, and every class, known or not, lies between half the level and the level |
| Rules.GoodSave | src/utils/dnd35Utils.ts:184 | a good save is level/2 rounded down, plus 2 |
| Rules.PoorSave | src/utils/dnd35Utils.ts:185 | a poor save is level/3 rounded down |
| Rules.SavingThrowsFor | src/utils/dnd35Utils.ts:183-208 | each save is the good or the poor value; from level 0 up a save beats the poor value exactly when the class's flag for it is set |
| Rules.SavingThrowsOrder | src/utils/dnd35Utils.ts:183-208 | a good save beats a poor one from level 0 up; a class outside the table gets three poor saves |
| Rules.SkillTotal | src/components/CharacterForm.tsx:374 | the total is ranks + ability modifier + misc modifier, or exactly 3 more, and it is 3 more exactly for a class skill with ranks; `SkillTotalAfterRanks` gives the shown total after an edit |
| Rules.SkillTotalRanks | src/components/CharacterForm.tsx:374 | one more rank adds one to a skill's total, plus three for the first rank of a class skill |
| Rules.MaxSpellLevel | src/utils/dnd35Utils.ts:390 | (level + 1)/2 rounded down up to level 17, and 9 from level 17 on |
| Rules.UpToLevel | src/utils/dnd35Utils.ts:392 | exactly the catalog spells of at most the given level, in catalog order |
| Rules.UpToLevelCount | src/utils/dnd35Utils.ts:392 | the level filter keeps each spell of at most that level as often as it occurs in the catalog, and no other |
| Rules.SpellsByClass | src/utils/dnd35Utils.ts:382-393 | nothing for a class outside the seven casters; otherwise exactly the catalog spells up to the class's highest spell level, in catalog order |
| Rules.DefaultCharacter | src/utils/dnd35Utils.ts:259-346 | the default character's derived fields agree with the calculator, and it has one skill per entry of the skill list, in order, with no ranks and not a class skill |
| Rules.GenerateRandomCharacter | src/utils/dnd35Utils.ts:215-257 | draws 0–23 give the scores (each in [3, 18]) and draws 24–26 the race, class and alignment; the patch is the one built from them |
| Rules.RandomCharacterAgrees | src/utils/dnd35Utils.ts:215-257 | a random patch spread over any character gives level 1, size Medium, full hit points, armor class 10 + Dexterity, every derived field agreeing with the calculator, and the name, id, skills and spells of the character under it |
| Text.TrimEmptyIffBlank | src/screens/CreateCharacter.tsx:160 | `trim()` gives the empty string exactly when every character is white space |
| Text.ParseIntOfDigits | src/screens/ActionsScreen.tsx:152-153 | `parseInt` (`ParseInt`) of a non-empty run of decimal digits is the number they denote |
| Text.ParseIntSigned | src/screens/ActionsScreen.tsx:154 | `parseInt` of a sign followed by digits applies the sign to the number |
| Text.ParseIntOfIntToString | src/components/CharacterForm.tsx:360-361 | `parseInt` reads back every integer that `toString` writes |
| Text.Capitalize | src/screens/ActionsScreen.tsx:74 | the same text up to the case of its first letter, which is no longer a small letter |
| Text.ToLower | src/screens/SpellsScreen.tsx:171 | no capital letter is left; every other character stays, and each capital becomes its small letter |
| Text.NameLeqTotal | src/screens/SpellsScreen.tsx:177 | any two names are comparable |
| Text.NameLeqTransitive | src/screens/SpellsScreen.tsx:177 | the name order is transitive |
| Text.NameLeqAntisymmetric | src/screens/SpellsScreen.tsx:177 | two names that each sort before the other are equal |
| CharacterTypes.Abilities.With | src/components/CharacterForm.tsx:45-48 | `{ ...scores, [a]: v }` holds v for `a` and the old value for every other ability |
| CharacterTypes.MergeIdentities | src/components/CharacterForm.tsx:38-40 | `Merge` (object spread): spreading `{}` over a character changes nothing; spreading a whole record gives that record |
| CharacterTypes.MergeIdempotent | src/components/CharacterForm.tsx:38-40 | spreading the same partial update twice is spreading it once |
| Lists.RemoveAt | src/components/CharacterForm.tsx:75-78 | `filter((_, i) => i !== index)` drops the entry at an index inside the list and changes nothing for any other index |
| Lists.RemoveAtElements | src/components/CharacterForm.tsx:75-78 | removal shortens the list by one, keeps the entries before the index and shifts those after it down by one |
| CharacterForm.NumberOr | src/components/CharacterForm.tsx:43 | `parseInt(text) \|\| fallback` is the fallback exactly when the text does not read as a number or reads as 0 (or as the fallback itself), and is otherwise the number read |
| CharacterForm.NumberOrReadsBack | src/components/CharacterForm.tsx:360-361 | a number the form wrote reads back as itself, except 0, which reads as the fallback |
| CharacterForm.LevelFromText | src/components/CharacterForm.tsx:208 | the level field never reads as 0, and reads as 1 exactly when the text gives no number, 0 or 1 |
| CharacterForm.UpdateAbilityScore | src/components/CharacterForm.tsx:42-50 | the named score is set to the number typed (0 when it does not read as one); no other score and no other field changes |
| CharacterForm.SyncSettles | src/components/CharacterForm.tsx:28-50 | the effect (`SyncModifiers`) changes the modifiers only; after it the modifiers agree with the scores and it fires no more; a score edit followed by the effect moves that ability's modifier only |
| CharacterForm.UpdateSkill | src/components/CharacterForm.tsx:52-56 | the skill at the index has one field written, and every other skill and field is kept |
| CharacterForm.SkillTotalAfterRanks | src/components/CharacterForm.tsx:355-375 | after a rank edit the shown total is ranks + ability modifier + misc modifier + 3 for a class skill with ranks; the other skills' totals do not move |
| CharacterForm.AddFeat | src/components/CharacterForm.tsx:58-67 | the feats gain the default feat at the end; nothing else changes |
| CharacterForm.UpdateFeat | src/components/CharacterForm.tsx:69-73 | one field of one feat is written; nothing else changes |
| CharacterForm.RemoveFeat | src/components/CharacterForm.tsx:75-78 | the feat at the index goes and the rest keep their order; any other index changes nothing |
| CharacterForm.AddEquipment | src/components/CharacterForm.tsx:80-91 | the equipment gains the default item at the end; nothing else changes |
| CharacterForm.UpdateEquipment | src/components/CharacterForm.tsx:93-97 | one field of one item is written; nothing else changes |
| CharacterForm.RemoveEquipment | src/components/CharacterForm.tsx:99-102 | the item at the index goes and the rest keep their order; any other index changes nothing |
| CharacterForm.AddAttack | src/components/CharacterForm.tsx:104-116 | the attacks gain the default attack at the end; nothing else changes |
| CharacterForm.UpdateAttack | src/components/CharacterForm.tsx:118-122 | one field of one attack is written; nothing else changes |
| CharacterForm.RemoveAttack | src/components/CharacterForm.tsx:124-127 | the attack at the index goes and the rest keep their order; any other index changes nothing |
| CharacterForm.AddThenRemove | src/components/CharacterForm.tsx:58-127 | removing the feat, item or attack just added gives the character back |
| CharacterForm.UpdateUndone | src/components/CharacterForm.tsx:118-122 | writing an attack field and then writing back its old value gives the character back |
| Storage.FirstIndex | src/services/characterStorage.ts:19 | `findIndex`: -1 exactly when no record holds the id; otherwise the first position that holds it |
| Storage.Find | src/services/characterStorage.ts:43 | `find`: a record exactly when the id is present, and then the first record of the list with that id |
| Storage.Upsert | src/services/characterStorage.ts:19-24 | replace-or-append by id: the first record with the id is replaced, or the record is appended for a new id; every other position is kept, the ids gain the new one, and looking it up finds the new record |
| Storage.RemoveKey | src/services/characterStorage.ts:129 | `filter` by id: exactly the records without the id, in their order; the ids lose exactly that id; an absent id changes nothing |
| Storage.RemoveKeyCount | src/services/characterStorage.ts:129 | the filter keeps each record without the id as often as it occurs, and none with it |
| Storage.CurrentOf | src/services/characterStorage.ts:170-181 | a current character exactly when a non-empty id is set and stored, and then the stored character with that id |
| Storage.CharacterStore.constructor | src/services/characterStorage.ts:4-6 | the three keys are unset, and every character has a profile |
| Storage.CharacterStore.SaveCharacter | src/services/characterStorage.ts:10-37 | the character is stamped now and upserted by id, its profile (id, name, level, race and class, stamped now) upserted, the current id untouched; every character keeps a profile and every profile a character |
| Storage.CharacterStore.UpdateCharacterProfile | src/services/characterStorage.ts:98-122 | the profile is upserted by id, and the other buckets are untouched |
| Storage.CharacterStore.LoadCharacter | src/services/characterStorage.ts:40-57 | the first character with the id, which becomes current; nothing, and no change, for an unknown id |
| Storage.CharacterStore.GetAllCharacters | src/services/characterStorage.ts:60-77 | the stored characters |
| Storage.CharacterStore.GetCharacterProfiles | src/services/characterStorage.ts:80-95 | the stored profiles |
| Storage.CharacterStore.DeleteCharacter | src/services/characterStorage.ts:125-148 | every character and profile with the id goes and the rest stay in order; the current id is cleared only when it is the deleted one; consistency is kept |
| Storage.CharacterStore.GetCurrentCharacterId | src/services/characterStorage.ts:151-158 | the current id as stored |
| Storage.CharacterStore.SetCurrentCharacter | src/services/characterStorage.ts:161-167 | the current id becomes the given one; the lists are untouched |
| Storage.CharacterStore.GetCurrentCharacter | src/services/characterStorage.ts:170-181 | the current character as `CurrentOf` describes it, and the store is left as it was |
| Storage.CharacterStore.ClearAllData | src/services/characterStorage.ts:184-191 | all three buckets are emptied |
| Storage.CharacterStore.ExportCharacter | src/services/characterStorage.ts:194-205 | the character loaded by id, which becomes current |
| Storage.CharacterStore.ImportCharacter | src/services/characterStorage.ts:208-223 | the record under the new id, created and updated now, saved by the same upsert (so a new id equal to a stored one replaces that record); consistency is kept |
| Storage.SaveExistingKeepsShape | src/services/characterStorage.ts:19-24 | re-saving a stored id keeps the list's length and its ids |
| Storage.DeleteUnknownOrTwice | src/services/characterStorage.ts:125-134 | deleting an unknown id changes nothing; deleting twice is deleting once |
| SpellList.TogglePrepared | src/screens/SpellsScreen.tsx:93-97 | a copy of the list with only the spell at the index flipped between prepared and not |
| SpellList.TogglePreparedTwice | src/screens/SpellsScreen.tsx:90-105 | toggling the same spell twice gives the list back |
| SpellList.AddSpell | src/screens/SpellsScreen.tsx:110-115 | nothing for a blank name; otherwise the list with the new spell at the end |
| SpellList.AddThenRemove | src/screens/SpellsScreen.tsx:107-158 | removing the spell just added gives the list back |
| SpellList.PreparedCount | src/screens/SpellsScreen.tsx:414 | the prepared count never exceeds the number of spells |
| SpellList.TogglePreparedCount | src/screens/SpellsScreen.tsx:414 | toggling a spell moves the prepared count by one, down if it was prepared and up if not |
| SpellList.RemovePreparedCount | src/screens/SpellsScreen.tsx:148 | removing a spell lowers the prepared count exactly when that spell was prepared |
| SpellList.Where | src/screens/SpellsScreen.tsx:166 | `filter`: never longer, and holds exactly the spells that pass |
| SpellList.WhereCount | src/screens/SpellsScreen.tsx:165-172 | a filter keeps each passing spell as often as it occurs, and no other |
| SpellList.LeqTotal | src/screens/SpellsScreen.tsx:175-178 | the level-then-name and name comparators compare every pair of spells |
| SpellList.LeqTransitive | src/screens/SpellsScreen.tsx:175-178 | both comparators are transitive |
| SpellList.Insert | src/screens/SpellsScreen.tsx:175-178 | inserting into a sorted list keeps it sorted and adds exactly that spell |
| SpellList.Sort | src/screens/SpellsScreen.tsx:175-178 | the result is sorted by the comparator and is a permutation of the input |
| SpellList.FilteredSpells | src/screens/SpellsScreen.tsx:160-179 | sorted by level then name, each spell that passes the level and (case-blind) school filters as often as it occurs and no other; with no filter set, a permutation of all spells |
| SpellList.SpellsByLevel | src/screens/SpellsScreen.tsx:181-199 | one bucket per level that occurs and no other; each bucket is that level's spells sorted by name |
| SpellList.FillBuckets | src/screens/SpellsScreen.tsx:186-191 | after the `forEach`, a level has a bucket exactly when a spell has that level, and the bucket holds that level's spells in list order |
| SpellList.SortBuckets | src/screens/SpellsScreen.tsx:194-196 | the same levels, each bucket sorted by name |
| SpellList.BucketSizesSum | src/screens/SpellsScreen.tsx:186-191 | the bucket sizes add up to the number of spells: every spell lands in exactly one bucket |
| SpellList.SpellsScreen.constructor | src/screens/SpellsScreen.tsx:21-34 | no character, the blank new-spell form, no filters |
| SpellList.SpellsScreen.LoadCurrentCharacter | src/screens/SpellsScreen.tsx:59-78 | the store's current character when there is one, otherwise the screen is unchanged; the store is left as it was |
| SpellList.SpellsScreen.Save | src/screens/SpellsScreen.tsx:80-88 | the store upserts the record stamped now, and the screen shows that same stamped record |
| SpellList.SpellsScreen.ToggleSpellPrepared | src/screens/SpellsScreen.tsx:90-105 | with a character, its spell at the index toggled, the record and its profile upserted and the record shown, the current id kept; without one, nothing changes; the new-spell form and the filters are kept either way |
| SpellList.SpellsScreen.AddNewSpell | src/screens/SpellsScreen.tsx:107-132 | with a character and a non-blank name, the form's spell appended, the record and its profile upserted, the current id kept and the form cleared; otherwise nothing changes; the filters are kept either way |
| SpellList.SpellsScreen.RemoveSpell | src/screens/SpellsScreen.tsx:134-158 | with a character, the spell at the index removed, the record and its profile upserted, the current id kept; without one, nothing changes; the new-spell form and the filters are kept either way |
| SpellList.SpellsScreen.GetFilteredSpells | src/screens/SpellsScreen.tsx:160-179 | nothing without a character; otherwise the filtered, sorted spells, and with no filter set the character's own list is left sorted (the in-place `sort`) |
| SpellList.SpellsScreen.GetSpellsByLevel | src/screens/SpellsScreen.tsx:181-199 | no buckets without a character; otherwise the buckets `SpellsByLevel` describes |
| Creation.NumSpells | src/screens/CreateCharacter.tsx:137 | three spells, or as many as are offered when fewer |
| Creation.Unpicked | src/screens/CreateCharacter.tsx:141-143 | exactly the offered spells whose name has not been picked, in offered order |
| Creation.UnpickedCount | src/screens/CreateCharacter.tsx:141-143 | the pool keeps each offered spell whose name is not yet picked as often as it is offered, and no other |
| Creation.PicksFacts | src/screens/CreateCharacter.tsx:140-150 | the picks of `Picks`, round by round: no more than the rounds, all from the offered list, no name twice, only the first prepared, and one per round when the offered names are distinct |
| Creation.PoolNotEmpty | src/screens/CreateCharacter.tsx:140-150 | while fewer spells are picked than there are distinct offered names, some offered spell is still unpicked |
| Creation.CatalogNamesDistinct | src/utils/dnd35Utils.ts:349-380 | no two catalog spells share a name |
| Creation.SpellsByClassDistinct | src/utils/dnd35Utils.ts:382-393 | the spells offered to a class have distinct names |
| Creation.SelectSpells | src/screens/CreateCharacter.tsx:137-150 | the loop equals `Picks` over the first `NumSpells` draws: spells from the offered ones, with distinct names, only the first prepared; exactly `NumSpells` of them when the offered names are distinct |
| Creation.RedrawChoices | src/screens/CreateCharacter.tsx:74-96 | scores (with their modifiers), race, class and alignment are redrawn exactly where their toggle is on; nothing else changes |
| Creation.RecomputeDerived | src/screens/CreateCharacter.tsx:98-130 | hit points, attack bonus, saves, Dexterity to armor class and experience are recomputed from class, level and modifiers; nothing else changes; with agreeing modifiers every derived field agrees with the calculator |
| Creation.AddStartingSpells | src/screens/CreateCharacter.tsx:132-153 | the five generated caster classes get `NumSpells` distinct catalog spells for their level, only the first prepared; other classes keep their spells |
| Creation.Randomize | src/screens/CreateCharacter.tsx:73-157 | level, name, id, skills and feats are kept; hit points are full, experience 0, armor class 10 + Dexterity; every derived field agrees with the calculator unless unrandomized scores came with stale modifiers |
| Creation.Toggle | src/screens/CreateCharacter.tsx:66-71 | the named toggle flips and every other toggle keeps its value |
| Creation.ToggleTwice | src/screens/CreateCharacter.tsx:66-71 | flipping a toggle twice restores the options, and a flip always changes them |
| Creation.CreateCharacterScreen.constructor | src/screens/CreateCharacter.tsx:36-46 | mode step, manual mode, a default character, all toggles on except skills and feats |
| Creation.CreateCharacterScreen.HandleModeSelection | src/screens/CreateCharacter.tsx:48-64 | random mode shows a generated character over a default one (level 1, derived fields agreeing); partial mode keeps the character and opens the toggles; manual mode shows a fresh default character |
| Creation.CreateCharacterScreen.HandleRandomizeOption | src/screens/CreateCharacter.tsx:66-71 | one toggle flipped; nothing else changes |
| Creation.CreateCharacterScreen.ApplyPartialRandomization | src/screens/CreateCharacter.tsx:73-157 | the preview shows the randomized character, with the same level and name and, under the same condition as `Randomize`, agreeing derived fields |
| Creation.CreateCharacterScreen.HandleSaveCharacter | src/screens/CreateCharacter.tsx:159-175 | nothing is saved for a blank name; otherwise the character is saved under the new id, created and updated now, found under that id, and made current; consistency is kept |
| Actions.AddToHistory | src/screens/ActionsScreen.tsx:62-64 | the new roll first, then the older rolls in order, at most ten |
| Actions.HistoryShowsNewest | src/screens/ActionsScreen.tsx:62-64 | from an empty history, any sequence of rolls leaves the last ten, newest first |
| Actions.Digits | src/screens/ActionsScreen.tsx:145 | `\d+` is taken greedily: a prefix of the text that stops at a non-digit or at the end |
| Actions.MatchStartIsPrefix | src/screens/ActionsScreen.tsx:145 | a match of `(\d+)d(\d+)([+-]\d+)?` is its groups written one after the other, at the start of the text |
| Actions.MatchAtWellFormed | src/screens/ActionsScreen.tsx:145 | every match has digit groups, and a signed group when there is one |
| Actions.MatchAtIsInText | src/screens/ActionsScreen.tsx:145 | the matched groups stand in the text at the match's index |
| Actions.FirstMatch | src/screens/ActionsScreen.tsx:145 | `match` finds the leftmost index where the pattern matches, and none when it matches nowhere |
| Actions.GroupsReadByParseInt | src/screens/ActionsScreen.tsx:152-154 | `parseInt` of each matched group gives the number the group denotes, with its sign |
| Actions.ParseDamage | src/screens/ActionsScreen.tsx:145-154 | a damage expression is read exactly when the pattern matches at some index of the text, not only at its start |
| Actions.ParseOfMatchAtStart | src/screens/ActionsScreen.tsx:145-154 | a match at the start of the text is the damage the screen reads |
| Actions.ParseDamageText | src/screens/ActionsScreen.tsx:145-154 | the text `NdS`, `NdS+K` or `NdS-K` of any damage expression reads back as that expression |
| Actions.ModifierText | src/screens/ActionsScreen.tsx:161 | empty exactly for a zero modifier; otherwise a space and the modifier's sign start it |
| Actions.ModifierTextReadsBack | src/screens/ActionsScreen.tsx:161 | the number after the space reads back as the modifier |
| Actions.SumBounds | src/screens/ActionsScreen.tsx:157 | n dice of 1 to `sides` add up to between n and n·sides |
| Actions.DamageRollBounds | src/screens/ActionsScreen.tsx:156-158 | the total of `DamageRoll`, the dice summed plus the modifier: a damage total lies between count + modifier and count·sides + modifier |
| Actions.D20Roll | src/screens/ActionsScreen.tsx:69-71 | a save, check, attack or initiative roll with a d20 showing 1 to 20 totals between the bonus + 1 and the bonus + 20 |
| Actions.SkillRoll | src/screens/ActionsScreen.tsx:208-218 | a skill check is the d20 plus the skill's total as the form shows it |
| Actions.ActionsScreen.constructor | src/screens/ActionsScreen.tsx:27-29 | no character and an empty history |
| Actions.ActionsScreen.LoadCurrentCharacter | src/screens/ActionsScreen.tsx:41-60 | the store's current character when there is one, the history kept, the store left as it was |
| Actions.ActionsScreen.AddRoll | src/screens/ActionsScreen.tsx:62-64 | the history becomes `AddToHistory` of the roll |
| Actions.ActionsScreen.RollSavingThrow | src/screens/ActionsScreen.tsx:66-88 | without a character nothing is recorded; otherwise a d20 plus the save, labelled with the capitalized save name |
| Actions.ActionsScreen.RollAbilityCheck | src/screens/ActionsScreen.tsx:90-112 | without a character nothing is recorded; otherwise a d20 plus the ability's modifier |
| Actions.ActionsScreen.RollAttack | src/screens/ActionsScreen.tsx:114-141 | without a character nothing is recorded; otherwise a d20 plus the attack's bonus |
| Actions.ActionsScreen.RollDamage | src/screens/ActionsScreen.tsx:143-177 | nothing when the text holds no damage expression; otherwise the first expression's dice rolled from the draws and summed with its modifier; it does not need a character |
| Actions.ActionsScreen.RollInitiative | src/screens/ActionsScreen.tsx:179-200 | without a character nothing is recorded; otherwise a d20 plus the Dexterity modifier |
| Actions.ActionsScreen.RollSkillCheck | src/screens/ActionsScreen.tsx:202-228 | nothing without a character or for an unknown skill name; otherwise a d20 plus the first skill of that name's total |
| Actions.ActionsScreen.ClearHistory | src/screens/ActionsScreen.tsx:230-232 | the history is emptied and the character kept |

## Left out

- **Randomness.** `Math.random()` is modelled as a sequence of oracle draws in [0, 1), consumed in fixed slots:
  - 24 draws for the six ability scores;
  - then one each for race (24), class (25) and alignment (26);
  - then three for the starting spells (27–29).

  The source draws lazily, in the order its branches run. When a toggle is off, later draws would shift in the source but not in the model. Which value comes out is still a draw in range, so every property stated holds for any draws.
- **The clock.** `new Date()` and `Date.now()` are parameters. When one handler reads the clock more than once, all reads are the same `now`. For example, `handleSaveCharacter`'s `updatedAt`, which `saveCharacter` then restamps, is that same `now`.
- **Persistence.** AsyncStorage, JSON serialization and parsing, promises, and every `try`/`catch` with its console messages are not modelled. The three storage keys are fields of `Storage.CharacterStore`.
- **Storage.CharacterStore.ExportCharacter** returns the loaded record instead of its JSON text.
- **Storage.CharacterStore.ImportCharacter** takes the already parsed record. Malformed JSON, which makes the source throw, is not modelled.
- **The user interface.** Rendering, navigation, alerts, modals, the loading flags and the header titles are not modelled:
  - `removeSpell`'s confirmation dialog: `RemoveSpell` is the confirmed branch.
  - The "Create Another" and "View Character" alert callbacks.
  - The critical-hit labels of the roll alerts.
- **Breakdown strings.** The breakdown text of a roll is built for damage (`DamageBreakdown`), for skill checks (`SkillRoll`) and for the `1d20(x) + bonus` of saves, ability checks, attacks and initiative (`D20Roll`). No property is stated about these strings beyond `ModifierText` and `ModifierTextReadsBack`.
- **Numeric form fields beyond three.** The form's other numeric fields (age, hit points, armor class parts, attack bonus, saves, money, quantity) all go through the same `parseInt(text) || fallback` that `NumberOr` models. Their one-field updates are not modelled separately.
- **Equipment weight.** The weight field's `parseFloat` is not modelled; the weight is a field written as a real.
- **Host-language behaviour.** JavaScript numbers are modelled as unbounded integers. Floating-point rounding and `NaN` propagation are not modelled, except where the source turns them into fallbacks (`|| 0`, `|| 8`).
- **Case and sort order.** `toLowerCase`, `toUpperCase` and `localeCompare` are modelled on ASCII letters and by character-code order. Locale-specific case mapping and collation are not modelled.
- **Sort stability.** `Array.prototype.sort` is modelled as an insertion sort that is sorted and a permutation of its input. Stability is not stated, and no other order among equal elements is claimed.
- **Aliasing.** The records are values. The source's in-place mutation of a shared record is modelled by its effect:
  - `saveCharacter` stamping `updatedAt` on the object the spell screen then shows;
  - the in-place `sort` of the unfiltered spell list, in `getFilteredSpells`, which the screen never calls.

  Aliasing through other references to the same objects is not modelled.
- **The home screen** (`HomeScreen.tsx`) and **the character sheet** (`CharacterSheet.tsx`), including the home screen's sort of profiles by last-played time, are not part of this model.
- **SpellList.TogglePrepared** and **SpellList.SpellsScreen.ToggleSpellPrepared** require an index inside the list; the screen only passes the indices of the cards it renders. With an out-of-range index the source throws a `TypeError` when it reads `.prepared` of the missing spell.
- **SpellList.SpellsScreen.RemoveSpell**: with an out-of-range index the source throws while reading the spell's name for the dialog. The model saves the list unchanged instead.
- **CharacterForm.UpdateSkill**, **CharacterForm.UpdateFeat**, **CharacterForm.UpdateEquipment** and **CharacterForm.UpdateAttack** require an index inside their list; the form only passes the indices of the rows it renders.
- **Actions.ActionsScreen.RollAbilityCheck** takes one of the six abilities, not any string. With any other name the source adds `undefined`.
- **Actions.ActionsScreen.RollDamage** requires at least as many draws as the expression has dice. A huge dice count in the text would only make the source loop for a long time.
- **Creation.Randomize**, **Creation.CreateCharacterScreen.ApplyPartialRandomization**: these state the invariants the screen keeps (kept fields, full hit points, agreeing derived fields) rather than the whole new record. The whole record is stated by the three step methods they call: `Creation.RedrawChoices`, `Creation.RecomputeDerived` and `Creation.AddStartingSpells`.
