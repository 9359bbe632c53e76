/**
 * The edit helpers of `CharacterForm.tsx`. Each builds a new character from the one shown
 * (spread copies, one slot written, `filter` for removal) and hands it to the form's owner;
 * here each returns that new character.
 */
module CharacterForm {
  import opened Optional
  import opened Text
  import opened Lists
  import opened CharacterTypes
  import opened Rules

  // ---------------------------------------------------------------------------------------
  // Numbers typed into the form

  /** `parseInt(text) || fallback`: the number read, or the fallback for `NaN` and for 0. */
  function NumberOr(text: string, fallback: int): (n: int)
    ensures n == fallback <==> ParseInt(text).None? || ParseInt(text) == Some(0) || ParseInt(text) == Some(fallback)
    ensures n != fallback ==> ParseInt(text) == Some(n)
  {
    match ParseInt(text)
    case None => fallback
    case Some(v) => if v == 0 then fallback else v
  }

  /** A number the form itself wrote reads back, except 0, which reads as the fallback. */
  lemma NumberOrReadsBack(x: int, fallback: int)
    ensures NumberOr(IntToString(x), fallback) == if x == 0 then fallback else x
  {
    ParseIntOfIntToString(x);
  }

  /** The level field: `parseInt(text) || 1`, so it never reads as 0. */
  function LevelFromText(text: string): (level: int)
    ensures level != 0
    ensures level == 1 <==> ParseInt(text).None? || ParseInt(text) == Some(0) || ParseInt(text) == Some(1)
  {
    NumberOr(text, 1)
  }

  // ---------------------------------------------------------------------------------------
  // Whole-record edits

  /**
   * `updateAbilityScore`: the named score set to the number typed (0 when it does not read
   * as one), every other score and every other field as they were.
   */
  function UpdateAbilityScore(c: Character, ability: Ability, value: string): (r: Character)
    ensures r.abilityScores.Get(ability) == NumberOr(value, 0)
    ensures forall b :: b != ability ==> r.abilityScores.Get(b) == c.abilityScores.Get(b)
    ensures r == c.(abilityScores := r.abilityScores)
  {
    Merge(c, EmptyPatch.(abilityScores := Some(c.abilityScores.With(ability, NumberOr(value, 0)))))
  }

  /**
   * The modifier-sync effect: when the modifiers differ from those the scores give, the
   * character with those modifiers; nothing when they already agree.
   */
  function SyncModifiers(c: Character): Option<Character> {
    var updatedModifiers := AllModifiers(c.abilityScores);
    if updatedModifiers != c.abilityModifiers then Some(c.(abilityModifiers := updatedModifiers)) else None
  }

  /** The character the form shows once the effect has run. */
  function Synced(c: Character): Character {
    match SyncModifiers(c)
    case Some(d) => d
    case None => c
  }

  /**
   * After the effect the modifiers agree with the scores and the effect has nothing more to
   * do; an ability edit followed by the effect changes that ability's modifier only.
   */
  lemma SyncSettles(c: Character, ability: Ability, value: string)
    ensures Synced(c).abilityModifiers == AllModifiers(c.abilityScores)
    ensures SyncModifiers(Synced(c)) == None
    ensures Synced(c) == c.(abilityModifiers := Synced(c).abilityModifiers)
    ensures var d := Synced(UpdateAbilityScore(Synced(c), ability, value));
      && d.abilityModifiers.Get(ability) == AbilityModifier(NumberOr(value, 0))
      && forall b :: b != ability ==> d.abilityModifiers.Get(b) == Synced(c).abilityModifiers.Get(b)
  {
    var d := Synced(c);
    assert d == c.(abilityModifiers := AllModifiers(c.abilityScores));
    var e := UpdateAbilityScore(d, ability, value);
    assert Synced(e).abilityModifiers == AllModifiers(e.abilityScores);
    ModifiersOfOneEdit(c.abilityScores, ability, NumberOr(value, 0));
  }

  // ---------------------------------------------------------------------------------------
  // Skills

  /** A field of a skill and the value written to it (`[field]: value`). */
  datatype SkillField =
    | SkillName(name: string) | KeyAbility(ability: Ability) | Ranks(ranks: int)
    | MiscModifier(misc: int) | ClassSkill(isClassSkill: bool) | Trained(trained: bool)

  function SetSkillField(s: Skill, f: SkillField): Skill {
    match f
    case SkillName(v) => s.(name := v)
    case KeyAbility(v) => s.(abilityScore := v)
    case Ranks(v) => s.(ranks := v)
    case MiscModifier(v) => s.(miscModifier := v)
    case ClassSkill(v) => s.(isClassSkill := v)
    case Trained(v) => s.(trained := v)
  }

  /** `updateSkill`: the skill at `index` with one field written; every other skill and field kept. */
  function UpdateSkill(c: Character, index: nat, f: SkillField): (r: Character)
    requires index < |c.skills|
    ensures ReplacedAt(c.skills, r.skills, index, SetSkillField(c.skills[index], f))
    ensures r == c.(skills := r.skills)
  {
    Merge(c, EmptyPatch.(skills := Some(c.skills[index := SetSkillField(c.skills[index], f)])))
  }

  /**
   * The total the skills tab shows for a skill after editing its ranks: one per rank, the
   * key ability's modifier, the miscellaneous modifier, and three for a class skill with
   * ranks; the other skills' totals do not move.
   */
  lemma SkillTotalAfterRanks(c: Character, index: nat, ranks: int)
    requires index < |c.skills|
    ensures var d := UpdateSkill(c, index, Ranks(ranks));
      var s := c.skills[index];
      && SkillTotal(d.skills[index], d.abilityModifiers)
        == ranks + c.abilityModifiers.Get(s.abilityScore) + s.miscModifier + (if s.isClassSkill && ranks > 0 then 3 else 0)
      && forall j :: 0 <= j < |c.skills| && j != index ==>
        SkillTotal(d.skills[j], d.abilityModifiers) == SkillTotal(c.skills[j], c.abilityModifiers)
  {
  }

  // ---------------------------------------------------------------------------------------
  // Feats

  const NEW_FEAT := Feat("New Feat", "", "")

  datatype FeatField = FeatName(name: string) | Description(description: string) | Prerequisites(prerequisites: string)

  function SetFeatField(f: Feat, field: FeatField): Feat {
    match field
    case FeatName(v) => f.(name := v)
    case Description(v) => f.(description := v)
    case Prerequisites(v) => f.(prerequisites := v)
  }

  /** `addFeat`: the default feat at the end; the feats before it and every other field kept. */
  function AddFeat(c: Character): (r: Character)
    ensures |r.feats| == |c.feats| + 1 && r.feats[..|c.feats|] == c.feats && r.feats[|c.feats|] == NEW_FEAT
    ensures r == c.(feats := r.feats)
  {
    Merge(c, EmptyPatch.(feats := Some(c.feats + [NEW_FEAT])))
  }

  /** `updateFeat` */
  function UpdateFeat(c: Character, index: nat, field: FeatField): (r: Character)
    requires index < |c.feats|
    ensures ReplacedAt(c.feats, r.feats, index, SetFeatField(c.feats[index], field))
    ensures r == c.(feats := r.feats)
  {
    Merge(c, EmptyPatch.(feats := Some(c.feats[index := SetFeatField(c.feats[index], field)])))
  }

  /** `removeFeat`: the feat at `index` dropped, the others kept in order; any other index changes nothing. */
  function RemoveFeat(c: Character, index: int): (r: Character)
    ensures 0 <= index < |c.feats| ==> r.feats == c.feats[..index] + c.feats[index + 1..]
    ensures !(0 <= index < |c.feats|) ==> r == c
    ensures r == c.(feats := r.feats)
  {
    Merge(c, EmptyPatch.(feats := Some(RemoveAt(c.feats, index))))
  }

  // ---------------------------------------------------------------------------------------
  // Equipment

  const NEW_EQUIPMENT := Equipment("New Item", 1, 0.0, "", false)

  datatype EquipmentField =
    | ItemName(name: string) | Quantity(quantity: int) | Weight(weight: real)
    | ItemDescription(description: string) | Equipped(equipped: bool)

  function SetEquipmentField(e: Equipment, field: EquipmentField): Equipment {
    match field
    case ItemName(v) => e.(name := v)
    case Quantity(v) => e.(quantity := v)
    case Weight(v) => e.(weight := v)
    case ItemDescription(v) => e.(description := v)
    case Equipped(v) => e.(equipped := v)
  }

  /** `addEquipment` */
  function AddEquipment(c: Character): (r: Character)
    ensures |r.equipment| == |c.equipment| + 1 && r.equipment[..|c.equipment|] == c.equipment
    ensures r.equipment[|c.equipment|] == NEW_EQUIPMENT
    ensures r == c.(equipment := r.equipment)
  {
    Merge(c, EmptyPatch.(equipment := Some(c.equipment + [NEW_EQUIPMENT])))
  }

  /** `updateEquipment` */
  function UpdateEquipment(c: Character, index: nat, field: EquipmentField): (r: Character)
    requires index < |c.equipment|
    ensures ReplacedAt(c.equipment, r.equipment, index, SetEquipmentField(c.equipment[index], field))
    ensures r == c.(equipment := r.equipment)
  {
    Merge(c, EmptyPatch.(equipment := Some(c.equipment[index := SetEquipmentField(c.equipment[index], field)])))
  }

  /** `removeEquipment` */
  function RemoveEquipment(c: Character, index: int): (r: Character)
    ensures 0 <= index < |c.equipment| ==> r.equipment == c.equipment[..index] + c.equipment[index + 1..]
    ensures !(0 <= index < |c.equipment|) ==> r == c
    ensures r == c.(equipment := r.equipment)
  {
    Merge(c, EmptyPatch.(equipment := Some(RemoveAt(c.equipment, index))))
  }

  // ---------------------------------------------------------------------------------------
  // Attacks

  const NEW_ATTACK := Attack("New Attack", 0, "1d4", "20/x2", "Melee", "Slashing")

  datatype AttackField =
    | AttackName(name: string) | AttackBonus(attackBonus: int) | Damage(damage: string)
    | Critical(critical: string) | Range(range: string) | Kind(kind: string)

  function SetAttackField(a: Attack, field: AttackField): Attack {
    match field
    case AttackName(v) => a.(name := v)
    case AttackBonus(v) => a.(attackBonus := v)
    case Damage(v) => a.(damage := v)
    case Critical(v) => a.(critical := v)
    case Range(v) => a.(range := v)
    case Kind(v) => a.(kind := v)
  }

  /** `addAttack` */
  function AddAttack(c: Character): (r: Character)
    ensures |r.attacks| == |c.attacks| + 1 && r.attacks[..|c.attacks|] == c.attacks
    ensures r.attacks[|c.attacks|] == NEW_ATTACK
    ensures r == c.(attacks := r.attacks)
  {
    Merge(c, EmptyPatch.(attacks := Some(c.attacks + [NEW_ATTACK])))
  }

  /** `updateAttack` */
  function UpdateAttack(c: Character, index: nat, field: AttackField): (r: Character)
    requires index < |c.attacks|
    ensures ReplacedAt(c.attacks, r.attacks, index, SetAttackField(c.attacks[index], field))
    ensures r == c.(attacks := r.attacks)
  {
    Merge(c, EmptyPatch.(attacks := Some(c.attacks[index := SetAttackField(c.attacks[index], field)])))
  }

  /** `removeAttack` */
  function RemoveAttack(c: Character, index: int): (r: Character)
    ensures 0 <= index < |c.attacks| ==> r.attacks == c.attacks[..index] + c.attacks[index + 1..]
    ensures !(0 <= index < |c.attacks|) ==> r == c
    ensures r == c.(attacks := r.attacks)
  {
    Merge(c, EmptyPatch.(attacks := Some(RemoveAt(c.attacks, index))))
  }

  /** Removing the entry just added gives the character back, for each of the three lists. */
  lemma AddThenRemove(c: Character)
    ensures RemoveFeat(AddFeat(c), |c.feats|) == c
    ensures RemoveEquipment(AddEquipment(c), |c.equipment|) == c
    ensures RemoveAttack(AddAttack(c), |c.attacks|) == c
  {
    assert AddFeat(c).feats[..|c.feats|] == c.feats;
    assert AddEquipment(c).equipment[..|c.equipment|] == c.equipment;
    assert AddAttack(c).attacks[..|c.attacks|] == c.attacks;
  }

  /** Writing a field and then writing back what was there gives the character back. */
  lemma UpdateUndone(c: Character, index: nat, field: AttackField)
    requires index < |c.attacks|
    ensures var a := c.attacks[index];
      var back := match field
        case AttackName(_) => AttackName(a.name)
        case AttackBonus(_) => AttackBonus(a.attackBonus)
        case Damage(_) => Damage(a.damage)
        case Critical(_) => Critical(a.critical)
        case Range(_) => Range(a.range)
        case Kind(_) => Kind(a.kind);
      UpdateAttack(UpdateAttack(c, index, field), index, back) == c
  {
    var d := UpdateAttack(c, index, field);
    assert d.attacks[index := c.attacks[index]] == c.attacks;
  }
}
