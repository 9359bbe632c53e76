/**
 * The rules tables and the derived-statistics calculator of D&D 3.5e (`dnd35Utils.ts`):
 * ability modifiers, hit points, base attack bonus, saving throws, experience, the spell
 * catalog, and the default and random characters built from them.
 */
module Rules {
  import opened Optional
  import opened CharacterTypes
  import opened Dice
  import opened Lists

  const RACES: seq<string> := ["Human", "Elf", "Dwarf", "Halfling", "Gnome", "Half-Elf", "Half-Orc"]

  const CLASSES: seq<string> := [
    "Barbarian", "Bard", "Cleric", "Druid", "Fighter", "Monk", "Paladin",
    "Ranger", "Rogue", "Sorcerer", "Wizard"]

  const ALIGNMENTS: seq<string> := [
    "Lawful Good", "Neutral Good", "Chaotic Good",
    "Lawful Neutral", "True Neutral", "Chaotic Neutral",
    "Lawful Evil", "Neutral Evil", "Chaotic Evil"]

  const SIZES: seq<string> := [
    "Fine", "Diminutive", "Tiny", "Small", "Medium", "Large", "Huge", "Gargantuan", "Colossal"]

  datatype SkillEntry = SkillEntry(name: string, ability: Ability)

  const SKILLS_LIST: seq<SkillEntry> := [
    SkillEntry("Appraise", Intelligence), SkillEntry("Balance", Dexterity),
    SkillEntry("Bluff", Charisma), SkillEntry("Climb", Strength),
    SkillEntry("Concentration", Constitution), SkillEntry("Craft", Intelligence),
    SkillEntry("Decipher Script", Intelligence), SkillEntry("Diplomacy", Charisma),
    SkillEntry("Disable Device", Intelligence), SkillEntry("Disguise", Charisma),
    SkillEntry("Escape Artist", Dexterity), SkillEntry("Forgery", Intelligence),
    SkillEntry("Gather Information", Charisma), SkillEntry("Handle Animal", Charisma),
    SkillEntry("Heal", Wisdom), SkillEntry("Hide", Dexterity),
    SkillEntry("Intimidate", Charisma), SkillEntry("Jump", Strength),
    SkillEntry("Knowledge", Intelligence), SkillEntry("Listen", Wisdom),
    SkillEntry("Move Silently", Dexterity), SkillEntry("Open Lock", Dexterity),
    SkillEntry("Perform", Charisma), SkillEntry("Profession", Wisdom),
    SkillEntry("Ride", Dexterity), SkillEntry("Search", Intelligence),
    SkillEntry("Sense Motive", Wisdom), SkillEntry("Sleight of Hand", Dexterity),
    SkillEntry("Spellcraft", Intelligence), SkillEntry("Spot", Wisdom),
    SkillEntry("Survival", Wisdom), SkillEntry("Swim", Strength),
    SkillEntry("Tumble", Dexterity), SkillEntry("Use Magic Device", Charisma),
    SkillEntry("Use Rope", Dexterity)]

  // ---------------------------------------------------------------------------------------
  // Ability modifiers

  /** `Math.floor((score - 10) / 2)`, for negative scores too. */
  function AbilityModifier(score: int): (m: int)
    ensures 2 * m <= score - 10 < 2 * m + 2
  {
    ((score - 10) as real / 2.0).Floor
  }

  /** `calculateAllAbilityModifiers`: each modifier from its own score and from no other. */
  function AllModifiers(scores: AbilityScores): (mods: AbilityModifiers)
    ensures forall a :: mods.Get(a) == AbilityModifier(scores.Get(a))
  {
    Abilities(
      AbilityModifier(scores.strength), AbilityModifier(scores.dexterity),
      AbilityModifier(scores.constitution), AbilityModifier(scores.intelligence),
      AbilityModifier(scores.wisdom), AbilityModifier(scores.charisma))
  }

  /** Changing one score changes its own modifier and leaves the other five as they were. */
  lemma ModifiersOfOneEdit(scores: AbilityScores, a: Ability, v: int)
    ensures AllModifiers(scores.With(a, v)).Get(a) == AbilityModifier(v)
    ensures forall b :: b != a ==> AllModifiers(scores.With(a, v)).Get(b) == AllModifiers(scores).Get(b)
  {
  }

  // ---------------------------------------------------------------------------------------
  // Skills

  /** `isClassSkill && ranks > 0 ? 3 : 0`: three for a class skill with at least one rank. */
  function ClassSkillBonus(skill: Skill): int {
    if skill.isClassSkill && skill.ranks > 0 then 3 else 0
  }

  /** A skill's modifier: ranks, the key ability's modifier, the miscellaneous modifier and the class-skill bonus. */
  function SkillTotal(skill: Skill, mods: AbilityModifiers): (total: int)
    ensures var untrained := skill.ranks + mods.Get(skill.abilityScore) + skill.miscModifier;
      && (total == untrained || total == untrained + 3)
      && (total > untrained <==> skill.isClassSkill && skill.ranks > 0)
  {
    skill.ranks + mods.Get(skill.abilityScore) + skill.miscModifier + ClassSkillBonus(skill)
  }

  /**
   * From zero ranks up, each added rank adds one to the total, and three more for the rank
   * that first opens the class-skill bonus.
   */
  lemma SkillTotalRanks(skill: Skill, mods: AbilityModifiers)
    ensures var more := skill.(ranks := skill.ranks + 1);
      SkillTotal(more, mods) == SkillTotal(skill, mods) + 1 + (if skill.isClassSkill && skill.ranks == 0 then 3 else 0)
  {
  }

  // ---------------------------------------------------------------------------------------
  // Experience

  /** Experience to reach levels 1 to 20, in order (`EXPERIENCE_TABLE`, keyed by level). */
  const EXPERIENCE_TABLE: seq<int> := [
    0, 1000, 3000, 6000, 10000, 15000, 21000, 28000, 36000, 45000,
    55000, 66000, 78000, 91000, 105000, 120000, 136000, 153000, 171000, 190000]

  /** `EXPERIENCE_TABLE[level] || 0`. */
  function ExperienceForLevel(level: int): (xp: int)
    ensures 0 <= xp <= 190000
    ensures xp == 0 <==> level < 2 || level > 20
  {
    if 1 <= level <= |EXPERIENCE_TABLE| then EXPERIENCE_TABLE[level - 1] else 0
  }

  /**
   * `getExperienceNeededForNextLevel`: the table entry one level up, so nothing at level 0 and
   * below (the table starts at 0) and nothing from level 20 on (past the table).
   */
  function ExperienceNeededForNextLevel(currentLevel: int): (xp: int)
    ensures 0 <= xp <= 190000
    ensures xp == 0 <==> currentLevel < 1 || currentLevel > 19
  {
    ExperienceForLevel(currentLevel + 1)
  }

  lemma TableStep(i: nat)
    requires i + 1 < |EXPERIENCE_TABLE|
    ensures EXPERIENCE_TABLE[i] < EXPERIENCE_TABLE[i + 1]
  {
  }

  lemma {:induction false} TableIncreasing(i: nat, j: nat)
    requires i < j < |EXPERIENCE_TABLE|
    ensures EXPERIENCE_TABLE[i] < EXPERIENCE_TABLE[j]
    decreases j - i
  {
    TableStep(j - 1);
    if i + 1 < j {
      TableIncreasing(i, j - 1);
    }
  }

  /**
   * The experience needed for the next level is the table entry of that level for levels 1 to
   * 19, strictly more at each higher level, and 0 from level 20 on and at level 0 and below.
   */
  lemma ExperienceNeeded(level: int, higher: int)
    ensures 1 <= level <= 19 ==> ExperienceNeededForNextLevel(level) == EXPERIENCE_TABLE[level]
    ensures 1 <= level < higher <= 19 ==>
      0 < ExperienceNeededForNextLevel(level) < ExperienceNeededForNextLevel(higher)
    ensures level >= 20 || level <= 0 ==> ExperienceNeededForNextLevel(level) == 0
  {
    if 1 <= level < higher <= 19 {
      TableIncreasing(0, level);
      TableIncreasing(level, higher);
    }
  }

  // ---------------------------------------------------------------------------------------
  // Hit points

  const HIT_DIE_BY_CLASS: map<string, int> := map[
    "Barbarian" := 12, "Bard" := 6, "Cleric" := 8, "Druid" := 8, "Fighter" := 10, "Monk" := 8,
    "Paladin" := 10, "Ranger" := 8, "Rogue" := 6, "Sorcerer" := 4, "Wizard" := 4]

  /** `HIT_DIE_BY_CLASS[characterClass] || 8`: one of d4 to d12, d8 for a class not in the table. */
  function HitDie(characterClass: string): (d: int)
    ensures d in {4, 6, 8, 10, 12}
    ensures characterClass !in HIT_DIE_BY_CLASS ==> d == 8
  {
    if characterClass in HIT_DIE_BY_CLASS && HIT_DIE_BY_CLASS[characterClass] != 0
    then HIT_DIE_BY_CLASS[characterClass] else 8
  }

  /**
   * Maximum hit points: the whole hit die plus the Constitution modifier at first level, half
   * the die plus one plus the modifier at each later level, and never less than one per level.
   */
  function MaxHitPoints(level: int, characterClass: string, conMod: int): (hp: int)
    ensures hp >= level
  {
    var die := HitDie(characterClass);
    var laterLevels := if level >= 2 then level - 1 else 0;
    var rolled := die + conMod + laterLevels * (die / 2 + 1 + conMod);
    if rolled > level then rolled else level
  }

  /** `calculateHitPoints`: the first level, then one loop step per later level, then the floor. */
  method CalculateHitPoints(level: int, characterClass: string, conMod: int) returns (hp: int)
    ensures hp == MaxHitPoints(level, characterClass, conMod)
  {
    var hitDie := HitDie(characterClass);
    hp := hitDie + conMod;
    var i := 2;
    while i <= level
      invariant 2 <= i <= if level >= 2 then level + 1 else 2
      invariant hp == hitDie + conMod + (i - 2) * (hitDie / 2 + 1 + conMod)
    {
      hp := hp + hitDie / 2 + 1 + conMod;
      i := i + 1;
    }
    assert i - 2 == if level >= 2 then level - 1 else 0;
    hp := if hp > level then hp else level;
  }

  // ---------------------------------------------------------------------------------------
  // Base attack bonus and saving throws

  const HIGH_BAB: seq<string> := ["Fighter", "Paladin", "Ranger", "Barbarian"]
  const MEDIUM_BAB: seq<string> := ["Bard", "Cleric", "Druid", "Monk", "Rogue"]

  /** `Math.floor(level * 0.75)`. */
  function ThreeQuarters(level: int): (r: int)
    ensures r == (3 * level) / 4
  {
    (level as real * 0.75).Floor
  }

  /** `Math.floor(level * 0.5)`. */
  function Half(level: int): (r: int)
    ensures r == level / 2
  {
    (level as real * 0.5).Floor
  }

  /**
   * `getBaseAttackBonus`: the level for the fighting classes, three quarters of it for the
   * middle classes, half of it for every other class (the two arcane casters and any unknown one).
   */
  function BaseAttackBonus(characterClass: string, level: int): (bab: int)
    ensures characterClass in HIGH_BAB ==> bab == level
    ensures characterClass !in HIGH_BAB && characterClass in MEDIUM_BAB ==> bab == (3 * level) / 4
    ensures characterClass !in HIGH_BAB + MEDIUM_BAB ==> bab == level / 2
    ensures level >= 0 ==> level / 2 <= bab <= level
  {
    if characterClass in HIGH_BAB then level
    else if characterClass in MEDIUM_BAB then ThreeQuarters(level)
    else Half(level)
  }

  /** From level 0 up the three progressions are ordered, and every class lies between them. */
  lemma BaseAttackBonusTiers(characterClass: string, level: int)
    requires level >= 0
    ensures BaseAttackBonus("Fighter", level) >= BaseAttackBonus("Cleric", level) >= BaseAttackBonus("Wizard", level)
    ensures level / 2 <= BaseAttackBonus(characterClass, level) <= level
  {
  }

  datatype SaveProgression = SaveProgression(fort: bool, ref: bool, will: bool)

  const SAVING_THROW_PROGRESSION: map<string, SaveProgression> := map[
    "Barbarian" := SaveProgression(true, false, false),
    "Bard" := SaveProgression(false, true, true),
    "Cleric" := SaveProgression(true, false, true),
    "Druid" := SaveProgression(true, false, true),
    "Fighter" := SaveProgression(true, false, false),
    "Monk" := SaveProgression(true, true, true),
    "Paladin" := SaveProgression(true, false, false),
    "Ranger" := SaveProgression(true, true, false),
    "Rogue" := SaveProgression(false, true, false),
    "Sorcerer" := SaveProgression(false, false, true),
    "Wizard" := SaveProgression(false, false, true)]

  /** `Math.floor(level / 2) + 2` */
  function GoodSave(level: int): (r: int)
    ensures r == level / 2 + 2
  {
    (level as real / 2.0).Floor + 2
  }

  /** `Math.floor(level / 3)` */
  function PoorSave(level: int): (r: int)
    ensures r == level / 3
  {
    (level as real / 3.0).Floor
  }

  function Progression(characterClass: string): SaveProgression {
    if characterClass in SAVING_THROW_PROGRESSION then SAVING_THROW_PROGRESSION[characterClass]
    else SaveProgression(false, false, false)
  }

  /** `getSavingThrows`: each save good or poor by the class's flag; all poor for an unknown class. */
  function SavingThrowsFor(characterClass: string, level: int): (saves: SavingThrows)
    ensures var p := Progression(characterClass);
      level >= 0 ==>
        && (saves.fortitude > PoorSave(level) <==> p.fort)
        && (saves.reflex > PoorSave(level) <==> p.ref)
        && (saves.will > PoorSave(level) <==> p.will)
    ensures saves.fortitude == GoodSave(level) || saves.fortitude == PoorSave(level)
    ensures saves.reflex == GoodSave(level) || saves.reflex == PoorSave(level)
    ensures saves.will == GoodSave(level) || saves.will == PoorSave(level)
  {
    var p := Progression(characterClass);
    SavingThrows(
      if p.fort then GoodSave(level) else PoorSave(level),
      if p.ref then GoodSave(level) else PoorSave(level),
      if p.will then GoodSave(level) else PoorSave(level))
  }

  /** A good save beats a poor one from level 0 on; a class outside the table has three poor saves. */
  lemma SavingThrowsOrder(characterClass: string, level: int)
    ensures level >= 0 ==> GoodSave(level) > PoorSave(level)
    ensures characterClass !in SAVING_THROW_PROGRESSION ==>
      SavingThrowsFor(characterClass, level) == SavingThrows(PoorSave(level), PoorSave(level), PoorSave(level))
  {
  }

  // ---------------------------------------------------------------------------------------
  // Spell catalog

  datatype CatalogSpell = CatalogSpell(name: string, level: int, school: string, description: string)

  const COMMON_SPELLS: seq<CatalogSpell> := [
    CatalogSpell("Detect Magic", 0, "Divination", "Detects spells and magic items within 60 ft."),
    CatalogSpell("Light", 0, "Evocation", "Object shines like a torch."),
    CatalogSpell("Mage Hand", 0, "Transmutation", "Telekinetically move 5-pound object."),
    CatalogSpell("Prestidigitation", 0, "Transmutation", "Performs minor tricks."),
    CatalogSpell("Read Magic", 0, "Divination", "Read scrolls and spellbooks."),
    CatalogSpell("Magic Missile", 1, "Evocation", "1d4+1 damage; +1 missile per two levels above 1st (max 5)."),
    CatalogSpell("Shield", 1, "Abjuration", "+4 AC, immunity to magic missile."),
    CatalogSpell("Burning Hands", 1, "Evocation", "1d4/level fire damage (max 5d4)."),
    CatalogSpell("Cure Light Wounds", 1, "Conjuration", "Cures 1d8 damage +1/level (max +5)."),
    CatalogSpell("Bless", 1, "Enchantment", "Allies gain +1 on attack rolls and saves against fear."),
    CatalogSpell("Fireball", 3, "Evocation", "1d6/level damage, 20-ft. radius."),
    CatalogSpell("Lightning Bolt", 3, "Evocation", "1d6/level damage in 120-ft. line."),
    CatalogSpell("Invisibility", 2, "Illusion", "Subject is invisible for 1 min./level or until it attacks."),
    CatalogSpell("Web", 2, "Conjuration", "Fills 20-ft.-radius spread with sticky spiderwebs."),
    CatalogSpell("Haste", 3, "Transmutation", "One creature/level moves faster, +1 on attack rolls, AC, and Reflex saves."),
    CatalogSpell("Hold Person", 3, "Enchantment", "Paralyzes one humanoid for 1 round/level."),
    CatalogSpell("Polymorph", 4, "Transmutation", "Gives one willing subject a new form."),
    CatalogSpell("Teleport", 5, "Conjuration", "Instantly transports you as far as 100 miles/level."),
    CatalogSpell("Disintegrate", 6, "Transmutation", "Ray deals 2d6 damage/level, destroying one creature or object."),
    CatalogSpell("Wish", 9, "Conjuration", "As limited wish, but with fewer limits.")]

  const SPELLCASTING_CLASSES: seq<string> := ["Wizard", "Sorcerer", "Cleric", "Druid", "Bard", "Paladin", "Ranger"]

  /** `Math.min(9, Math.floor((level + 1) / 2))` */
  function MaxSpellLevel(level: int): (m: int)
    ensures m <= 9
    ensures level <= 17 ==> m == (level + 1) / 2
    ensures level >= 17 ==> m == 9
  {
    var half := ((level + 1) as real / 2.0).Floor;
    if 9 < half then 9 else half
  }

  /** `spells.filter(spell => spell.level <= maxLevel)` */
  function UpToLevel(spells: seq<CatalogSpell>, maxLevel: int): (r: seq<CatalogSpell>)
    ensures forall s :: s in r <==> s in spells && s.level <= maxLevel
    ensures IsSubsequence(r, spells)
  {
    if spells == [] then []
    else
      if spells[0].level <= maxLevel then [spells[0]] + UpToLevel(spells[1..], maxLevel)
      else UpToLevel(spells[1..], maxLevel)
  }

  /** The level filter keeps each spell of at most that level as often as it occurs, and no other. */
  lemma {:induction false} UpToLevelCount(spells: seq<CatalogSpell>, maxLevel: int, s: CatalogSpell)
    ensures multiset(UpToLevel(spells, maxLevel))[s] == if s.level <= maxLevel then multiset(spells)[s] else 0
  {
    if spells != [] {
      UpToLevelCount(spells[1..], maxLevel, s);
      assert spells == [spells[0]] + spells[1..];
    }
  }

  /**
   * `getSpellsByClass`: nothing for a class outside the seven casters; otherwise the catalog
   * entries up to the highest spell level the character can cast, in catalog order.
   */
  function SpellsByClass(characterClass: string, level: int): (r: seq<CatalogSpell>)
    ensures characterClass !in SPELLCASTING_CLASSES ==> r == []
    ensures characterClass in SPELLCASTING_CLASSES ==>
      IsSubsequence(r, COMMON_SPELLS)
      && forall s :: s in r <==> s in COMMON_SPELLS && s.level <= MaxSpellLevel(level)
  {
    if characterClass !in SPELLCASTING_CLASSES then [] else UpToLevel(COMMON_SPELLS, MaxSpellLevel(level))
  }

  // ---------------------------------------------------------------------------------------
  // Characters built from the rules

  /**
   * The derived fields of a character agree with the calculator: the modifiers with the
   * scores, and hit points, attack bonus, saves, experience needed and Dexterity to armor
   * class with class, level and modifiers.
   */
  ghost predicate DerivedStatsAgree(c: Character) {
    && c.abilityModifiers == AllModifiers(c.abilityScores)
    && c.hitPoints.maximum == MaxHitPoints(c.level, c.characterClass, c.abilityModifiers.constitution)
    && c.baseAttackBonus == BaseAttackBonus(c.characterClass, c.level)
    && c.savingThrows == SavingThrowsFor(c.characterClass, c.level)
    && c.experience.needed == ExperienceNeededForNextLevel(c.level)
    && c.armorClass.dex == c.abilityModifiers.dexterity
  }

  function DefaultSkill(entry: SkillEntry): Skill {
    Skill(entry.name, entry.ability, 0, 0, false, false)
  }

  /** `createDefaultCharacter`; `id` stands for `Date.now().toString()` and `now` for `new Date()`. */
  function DefaultCharacter(id: string, now: Timestamp): (c: Character)
    ensures DerivedStatsAgree(c)
    ensures |c.skills| == |SKILLS_LIST|
    ensures forall i :: 0 <= i < |c.skills| ==>
      c.skills[i].name == SKILLS_LIST[i].name && c.skills[i].abilityScore == SKILLS_LIST[i].ability
      && c.skills[i].ranks == 0 && !c.skills[i].isClassSkill
  {
    var scores := Abilities(10, 10, 10, 10, 10, 10);
    assert AllModifiers(scores) == Abilities(0, 0, 0, 0, 0, 0);
    Character(
      id, "New Character", "", "Human", "Fighter", 1, "True Neutral", "", "Medium", 25,
      "", "", "", "", "", "",
      scores, Abilities(0, 0, 0, 0, 0, 0),
      HitPoints(10, 10, 0),
      ArmorClass(10, 0, 0, 0, 0, 0, 0, 0),
      1, 0,
      SavingThrows(2, 0, 0),
      seq(|SKILLS_LIST|, i requires 0 <= i < |SKILLS_LIST| => DefaultSkill(SKILLS_LIST[i])),
      [], [], Money(0, 0, 0, 0), [], [], map[], map[],
      Experience(0, 1000), "", now, now)
  }

  /** The six scores the draws give, four draws per ability in the order of the record. */
  function RolledScores(us: seq<Draw>): AbilityScores
    requires 24 <= |us|
  {
    Abilities(
      DropLowest(Rolls(6, ScoreDraws(us, 0))), DropLowest(Rolls(6, ScoreDraws(us, 1))),
      DropLowest(Rolls(6, ScoreDraws(us, 2))), DropLowest(Rolls(6, ScoreDraws(us, 3))),
      DropLowest(Rolls(6, ScoreDraws(us, 4))), DropLowest(Rolls(6, ScoreDraws(us, 5))))
  }

  /** `rollAllAbilityScores`: six 4d6-drop-lowest scores, each in [3, 18]. */
  method RollAllAbilityScores(us: seq<Draw>) returns (scores: AbilityScores)
    requires 24 <= |us|
    ensures scores == RolledScores(us)
    ensures forall a :: 3 <= scores.Get(a) <= 18
  {
    var strength := RollAbilityScore(ScoreDraws(us, 0));
    var dexterity := RollAbilityScore(ScoreDraws(us, 1));
    var constitution := RollAbilityScore(ScoreDraws(us, 2));
    var intelligence := RollAbilityScore(ScoreDraws(us, 3));
    var wisdom := RollAbilityScore(ScoreDraws(us, 4));
    var charisma := RollAbilityScore(ScoreDraws(us, 5));
    scores := Abilities(strength, dexterity, constitution, intelligence, wisdom, charisma);
    forall k: nat | k < 6 ensures ScoreDraws(us, k)[..4] == ScoreDraws(us, k) { }
  }

  /** What `generateRandomCharacter` returns, given its scores, race, class and alignment. */
  function RandomPatch(scores: AbilityScores, race: string, characterClass: string, alignment: string): CharacterPatch {
    var mods := AllModifiers(scores);
    var hp := MaxHitPoints(1, characterClass, mods.constitution);
    CharacterPatch(
      None, None, None, Some(race), Some(characterClass), Some(1), Some(alignment), None,
      Some("Medium"), None, None, None, None, None, None, None,
      Some(scores), Some(mods), Some(HitPoints(hp, hp, 0)),
      Some(ArmorClass(10 + mods.dexterity, 0, 0, mods.dexterity, 0, 0, 0, 0)),
      Some(BaseAttackBonus(characterClass, 1)), None, Some(SavingThrowsFor(characterClass, 1)),
      None, None, None, None, None, None, None, None,
      Some(Experience(0, ExperienceNeededForNextLevel(1))), None, None, None)
  }

  /**
   * `generateRandomCharacter`: 24 draws for the scores, then one each for race, class and
   * alignment. The patch names exactly those fields and the statistics derived from them.
   */
  method GenerateRandomCharacter(us: seq<Draw>) returns (patch: CharacterPatch)
    requires 27 <= |us|
    ensures var race := RandomElement(RACES, us[24]);
            var characterClass := RandomElement(CLASSES, us[25]);
            var alignment := RandomElement(ALIGNMENTS, us[26]);
            race.Some? && characterClass.Some? && alignment.Some?
            && patch == RandomPatch(RolledScores(us), race.value, characterClass.value, alignment.value)
    ensures patch.abilityScores.Some? && forall a :: 3 <= patch.abilityScores.value.Get(a) <= 18
  {
    var abilityScores := RollAllAbilityScores(us);
    var abilityModifiers := AllModifiers(abilityScores);
    var race := RandomElement(RACES, us[24]).value;
    var characterClass := RandomElement(CLASSES, us[25]).value;
    var level := 1;
    var alignment := RandomElement(ALIGNMENTS, us[26]).value;
    var hitPoints := CalculateHitPoints(level, characterClass, abilityModifiers.constitution);
    var baseAttackBonus := BaseAttackBonus(characterClass, level);
    var savingThrows := SavingThrowsFor(characterClass, level);
    patch := CharacterPatch(
      None, None, None, Some(race), Some(characterClass), Some(level), Some(alignment), None,
      Some("Medium"), None, None, None, None, None, None, None,
      Some(abilityScores), Some(abilityModifiers), Some(HitPoints(hitPoints, hitPoints, 0)),
      Some(ArmorClass(10 + abilityModifiers.dexterity, 0, 0, abilityModifiers.dexterity, 0, 0, 0, 0)),
      Some(baseAttackBonus), None, Some(savingThrows),
      None, None, None, None, None, None, None, None,
      Some(Experience(0, ExperienceNeededForNextLevel(level))), None, None, None);
    RandomPatchOfFields(abilityScores, race, characterClass, alignment, hitPoints, baseAttackBonus, savingThrows);
  }

  /** The patch built field by field from the calculator's results is the one `RandomPatch` describes. */
  lemma RandomPatchOfFields(scores: AbilityScores, race: string, characterClass: string, alignment: string,
                            hp: int, bab: int, saves: SavingThrows)
    requires hp == MaxHitPoints(1, characterClass, AllModifiers(scores).constitution)
    requires bab == BaseAttackBonus(characterClass, 1)
    requires saves == SavingThrowsFor(characterClass, 1)
    ensures var mods := AllModifiers(scores);
      CharacterPatch(
        None, None, None, Some(race), Some(characterClass), Some(1), Some(alignment), None,
        Some("Medium"), None, None, None, None, None, None, None,
        Some(scores), Some(mods), Some(HitPoints(hp, hp, 0)),
        Some(ArmorClass(10 + mods.dexterity, 0, 0, mods.dexterity, 0, 0, 0, 0)),
        Some(bab), None, Some(saves),
        None, None, None, None, None, None, None, None,
        Some(Experience(0, ExperienceNeededForNextLevel(1))), None, None, None)
      == RandomPatch(scores, race, characterClass, alignment)
  {
  }

  /**
   * A random character laid over a default one: level 1, size Medium, armor class 10 plus
   * the Dexterity modifier, full hit points and every derived field agreeing with the calculator.
   */
  lemma RandomCharacterAgrees(base: Character, scores: AbilityScores, race: string, characterClass: string, alignment: string)
    ensures var c := Merge(base, RandomPatch(scores, race, characterClass, alignment));
      && DerivedStatsAgree(c)
      && c.level == 1 && c.size == "Medium"
      && c.abilityScores == scores && c.characterClass == characterClass
      && c.hitPoints.current == c.hitPoints.maximum && c.hitPoints.temporary == 0
      && c.armorClass.total == 10 + c.abilityModifiers.dexterity
      && c.armorClass == ArmorClass(c.armorClass.total, 0, 0, c.abilityModifiers.dexterity, 0, 0, 0, 0)
      && c.experience.current == 0
      && c.name == base.name && c.id == base.id && c.skills == base.skills && c.spells == base.spells
  {
  }
}
