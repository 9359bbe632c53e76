/**
 * The records of a character sheet. JavaScript numbers are integers here (`int`) except the
 * equipment weight, which the form reads with `parseFloat` and is kept as a `real`.
 * Timestamps (`Date`) are opaque instants (`Timestamp`), supplied from outside.
 */
module CharacterTypes {
  import opened Optional

  type Timestamp = int

  /** The six keys of `AbilityScores` (`keyof AbilityScores`). */
  datatype Ability = Strength | Dexterity | Constitution | Intelligence | Wisdom | Charisma

  /** The property name of an ability in the records. */
  function AbilityKey(a: Ability): string {
    match a
    case Strength => "strength"
    case Dexterity => "dexterity"
    case Constitution => "constitution"
    case Intelligence => "intelligence"
    case Wisdom => "wisdom"
    case Charisma => "charisma"
  }

  /** Six numbers, one per ability: the shape of both `AbilityScores` and `AbilityModifiers`. */
  datatype Abilities = Abilities(
    strength: int, dexterity: int, constitution: int,
    intelligence: int, wisdom: int, charisma: int)
  {
    function Get(a: Ability): int {
      match a
      case Strength => strength
      case Dexterity => dexterity
      case Constitution => constitution
      case Intelligence => intelligence
      case Wisdom => wisdom
      case Charisma => charisma
    }

    /** `{ ...this, [a]: v }` */
    function With(a: Ability, v: int): (r: Abilities)
      ensures r.Get(a) == v
      ensures forall b :: b != a ==> r.Get(b) == Get(b)
    {
      match a
      case Strength => this.(strength := v)
      case Dexterity => this.(dexterity := v)
      case Constitution => this.(constitution := v)
      case Intelligence => this.(intelligence := v)
      case Wisdom => this.(wisdom := v)
      case Charisma => this.(charisma := v)
    }
  }

  type AbilityScores = Abilities
  type AbilityModifiers = Abilities

  datatype SavingThrows = SavingThrows(fortitude: int, reflex: int, will: int)

  datatype Skill = Skill(
    name: string, abilityScore: Ability, ranks: int, miscModifier: int,
    isClassSkill: bool, trained: bool)

  datatype Feat = Feat(name: string, description: string, prerequisites: string)

  datatype Spell = Spell(name: string, level: int, school: string, description: string, prepared: bool)

  datatype Equipment = Equipment(name: string, quantity: int, weight: real, description: string, equipped: bool)

  datatype Attack = Attack(
    name: string, attackBonus: int, damage: string, critical: string, range: string, kind: string)

  datatype HitPoints = HitPoints(current: int, maximum: int, temporary: int)

  datatype ArmorClass = ArmorClass(
    total: int, armor: int, shield: int, dex: int, size: int,
    natural: int, deflection: int, misc: int)

  datatype Money = Money(copper: int, silver: int, gold: int, platinum: int)

  datatype Experience = Experience(current: int, needed: int)

  datatype Character = Character(
    id: string,
    name: string,
    playerName: string,
    race: string,
    characterClass: string,
    level: int,
    alignment: string,
    deity: string,
    size: string,
    age: int,
    gender: string,
    height: string,
    weight: string,
    eyes: string,
    hair: string,
    skin: string,
    abilityScores: AbilityScores,
    abilityModifiers: AbilityModifiers,
    hitPoints: HitPoints,
    armorClass: ArmorClass,
    baseAttackBonus: int,
    spellResistance: int,
    savingThrows: SavingThrows,
    skills: seq<Skill>,
    feats: seq<Feat>,
    equipment: seq<Equipment>,
    money: Money,
    attacks: seq<Attack>,
    spells: seq<Spell>,
    spellsPerDay: map<int, int>,
    spellsKnown: map<int, int>,
    experience: Experience,
    notes: string,
    createdAt: Timestamp,
    updatedAt: Timestamp)

  datatype CharacterProfile = CharacterProfile(
    id: string, name: string, level: int, race: string, characterClass: string, lastPlayed: Timestamp)

  datatype CreationMode = Manual | Random | Partial

  datatype CreationOptions = CreationOptions(
    randomizeStats: bool, randomizeRace: bool, randomizeClass: bool,
    randomizeAlignment: bool, randomizeSkills: bool, randomizeFeats: bool)

  /**
   * `Partial<Character>`: the fields an update names. `Merge` is the object spread
   * `{ ...character, ...patch }`.
   */
  datatype CharacterPatch = CharacterPatch(
    id: Option<string>,
    name: Option<string>,
    playerName: Option<string>,
    race: Option<string>,
    characterClass: Option<string>,
    level: Option<int>,
    alignment: Option<string>,
    deity: Option<string>,
    size: Option<string>,
    age: Option<int>,
    gender: Option<string>,
    height: Option<string>,
    weight: Option<string>,
    eyes: Option<string>,
    hair: Option<string>,
    skin: Option<string>,
    abilityScores: Option<AbilityScores>,
    abilityModifiers: Option<AbilityModifiers>,
    hitPoints: Option<HitPoints>,
    armorClass: Option<ArmorClass>,
    baseAttackBonus: Option<int>,
    spellResistance: Option<int>,
    savingThrows: Option<SavingThrows>,
    skills: Option<seq<Skill>>,
    feats: Option<seq<Feat>>,
    equipment: Option<seq<Equipment>>,
    money: Option<Money>,
    attacks: Option<seq<Attack>>,
    spells: Option<seq<Spell>>,
    spellsPerDay: Option<map<int, int>>,
    spellsKnown: Option<map<int, int>>,
    experience: Option<Experience>,
    notes: Option<string>,
    createdAt: Option<Timestamp>,
    updatedAt: Option<Timestamp>)

  /** The patch `{}`. */
  const EmptyPatch := CharacterPatch(
    None, None, None, None, None, None, None, None, None, None, None, None, None, None, None, None,
    None, None, None, None, None, None, None, None, None, None, None, None, None, None, None, None,
    None, None, None)

  function Pick<T>(field: Option<T>, current: T): T {
    match field
    case Some(v) => v
    case None => current
  }

  /** `{ ...c, ...p }`: every field the patch names is replaced, every other one is kept. */
  function Merge(c: Character, p: CharacterPatch): Character {
    Character(
      Pick(p.id, c.id), Pick(p.name, c.name), Pick(p.playerName, c.playerName),
      Pick(p.race, c.race), Pick(p.characterClass, c.characterClass), Pick(p.level, c.level),
      Pick(p.alignment, c.alignment), Pick(p.deity, c.deity), Pick(p.size, c.size),
      Pick(p.age, c.age), Pick(p.gender, c.gender), Pick(p.height, c.height),
      Pick(p.weight, c.weight), Pick(p.eyes, c.eyes), Pick(p.hair, c.hair), Pick(p.skin, c.skin),
      Pick(p.abilityScores, c.abilityScores), Pick(p.abilityModifiers, c.abilityModifiers),
      Pick(p.hitPoints, c.hitPoints), Pick(p.armorClass, c.armorClass),
      Pick(p.baseAttackBonus, c.baseAttackBonus), Pick(p.spellResistance, c.spellResistance),
      Pick(p.savingThrows, c.savingThrows), Pick(p.skills, c.skills), Pick(p.feats, c.feats),
      Pick(p.equipment, c.equipment), Pick(p.money, c.money), Pick(p.attacks, c.attacks),
      Pick(p.spells, c.spells), Pick(p.spellsPerDay, c.spellsPerDay),
      Pick(p.spellsKnown, c.spellsKnown), Pick(p.experience, c.experience),
      Pick(p.notes, c.notes), Pick(p.createdAt, c.createdAt), Pick(p.updatedAt, c.updatedAt))
  }

  /** The patch that names every field, with the values of `c`. */
  function FullPatch(c: Character): CharacterPatch {
    CharacterPatch(
      Some(c.id), Some(c.name), Some(c.playerName), Some(c.race), Some(c.characterClass),
      Some(c.level), Some(c.alignment), Some(c.deity), Some(c.size), Some(c.age), Some(c.gender),
      Some(c.height), Some(c.weight), Some(c.eyes), Some(c.hair), Some(c.skin),
      Some(c.abilityScores), Some(c.abilityModifiers), Some(c.hitPoints), Some(c.armorClass),
      Some(c.baseAttackBonus), Some(c.spellResistance), Some(c.savingThrows), Some(c.skills),
      Some(c.feats), Some(c.equipment), Some(c.money), Some(c.attacks), Some(c.spells),
      Some(c.spellsPerDay), Some(c.spellsKnown), Some(c.experience), Some(c.notes),
      Some(c.createdAt), Some(c.updatedAt))
  }

  /** Spreading `{}` changes nothing; spreading a whole record yields that record. */
  lemma MergeIdentities(c: Character, d: Character)
    ensures Merge(c, EmptyPatch) == c
    ensures Merge(c, FullPatch(d)) == d
  {
  }

  /** Spreading the same patch twice is spreading it once. */
  lemma MergeIdempotent(c: Character, p: CharacterPatch)
    ensures Merge(Merge(c, p), p) == Merge(c, p)
  {
  }

  /** The profile listed for a character (`updateCharacterProfile`). */
  function ProfileOf(c: Character, lastPlayed: Timestamp): CharacterProfile {
    CharacterProfile(c.id, c.name, c.level, c.race, c.characterClass, lastPlayed)
  }
}
