/**
 * The character creation screen of `CreateCharacter.tsx`: the choice of creation mode, the
 * randomize toggles, the partial randomization of a character and the guarded save. Every
 * `Math.random()` the screen reads is a `Draw` parameter, every `Date.now()` and `new Date()`
 * a `newId` or `now` parameter.
 */
module Creation {
  import opened Optional
  import opened Text
  import opened CharacterTypes
  import opened Dice
  import opened Rules
  import opened Storage
  import opened Lists

  // ---------------------------------------------------------------------------------------
  // Starting spells

  /** The classes the generator gives starting spells to (fewer than `SPELLCASTING_CLASSES`). */
  const GENERATED_SPELLCASTERS: seq<string> := ["Wizard", "Sorcerer", "Cleric", "Druid", "Bard"]

  /** How many spells are drawn: `Math.min(3, availableSpells.length)`. */
  function NumSpells(available: seq<CatalogSpell>): (n: nat)
    ensures n <= 3 && n <= |available|
    ensures n == 3 || n == |available|
  {
    if 3 < |available| then 3 else |available|
  }

  const SpellName: Spell -> string := (s: Spell) => s.name
  const CatalogName: CatalogSpell -> string := (c: CatalogSpell) => c.name

  /**
   * `availableSpells.filter(s => !selectedSpells.some(sel => sel.name === s.name))`: the
   * catalog entries whose name has not been picked yet, in catalog order.
   */
  function Unpicked(available: seq<CatalogSpell>, selected: seq<Spell>): (r: seq<CatalogSpell>)
    ensures forall c :: c in r <==> c in available && c.name !in Keys(selected, SpellName)
    ensures IsSubsequence(r, available)
  {
    if available == [] then []
    else
      var rest := Unpicked(available[1..], selected);
      if available[0].name in Keys(selected, SpellName) then
        SubsequenceOfTail(rest, available);
        rest
      else
        var r := [available[0]] + rest;
        assert r[1..] == rest;
        r
  }

  /** The pool keeps each catalog entry whose name is not yet picked as often as it occurs, and no other. */
  lemma {:induction false} UnpickedCount(available: seq<CatalogSpell>, selected: seq<Spell>, c: CatalogSpell)
    ensures multiset(Unpicked(available, selected))[c] ==
      if c.name !in Keys(selected, SpellName) then multiset(available)[c] else 0
  {
    if available != [] {
      UnpickedCount(available[1..], selected, c);
      assert available == [available[0]] + available[1..];
    }
  }

  /** The spell a catalog entry becomes once picked: `{ ...randomSpell, prepared }`. */
  function AsSpell(c: CatalogSpell, prepared: bool): Spell {
    Spell(c.name, c.level, c.school, c.description, prepared)
  }

  /**
   * The spells picked after as many rounds of the loop as there are draws: each round picks
   * a random entry among those not yet picked, prepared only in round 0, and picks nothing
   * when no entry is left.
   */
  function Picks(available: seq<CatalogSpell>, draws: seq<Draw>): seq<Spell>
    decreases |draws|
  {
    if draws == [] then []
    else
      var n := |draws| - 1;
      var prev := Picks(available, draws[..n]);
      match RandomElement(Unpicked(available, prev), draws[n])
      case None => prev
      case Some(c) => prev + [AsSpell(c, n == 0)]
  }

  /** A picked spell is a catalog entry with a `prepared` flag. */
  predicate FromCatalog(s: Spell, available: seq<CatalogSpell>) {
    exists c :: c in available && s == AsSpell(c, s.prepared)
  }

  /**
   * What the loop promises: no more spells than rounds, all from the catalog, no name twice,
   * only the first prepared, and, when the catalog names are distinct and there are at most
   * as many rounds as entries, one spell per round.
   */
  lemma {:induction false} PicksFacts(available: seq<CatalogSpell>, draws: seq<Draw>)
    ensures var p := Picks(available, draws);
      && |p| <= |draws|
      && (draws != [] && available != [] ==> |p| >= 1)
      && (forall j :: 0 <= j < |p| ==> FromCatalog(p[j], available))
      && DistinctKeys(p, SpellName)
      && (forall j :: 0 <= j < |p| ==> (p[j].prepared <==> j == 0))
      && (DistinctKeys(available, CatalogName) && |draws| <= |available| ==> |p| == |draws|)
    decreases |draws|
  {
    if draws != [] {
      var n := |draws| - 1;
      var prev := Picks(available, draws[..n]);
      PicksFacts(available, draws[..n]);
      var pool := Unpicked(available, prev);
      var pick := RandomElement(pool, draws[n]);
      if pick.Some? {
        assert Picks(available, draws) == prev + [AsSpell(pick.value, n == 0)];
        PickAppended(available, prev, pick.value, n == 0);
      } else {
        if DistinctKeys(available, CatalogName) && |draws| <= |available| {
          PoolNotEmpty(available, prev);
        }
        if available != [] {
          assert available[0] in Unpicked(available, []);
        }
      }
    }
  }

  /** One more pick, of an entry not yet picked, keeps the picks from the catalog, distinct and prepared only first. */
  lemma PickAppended(available: seq<CatalogSpell>, prev: seq<Spell>, c: CatalogSpell, first: bool)
    requires DistinctKeys(prev, SpellName)
    requires forall j :: 0 <= j < |prev| ==> FromCatalog(prev[j], available)
    requires forall j :: 0 <= j < |prev| ==> (prev[j].prepared <==> j == 0)
    requires c in Unpicked(available, prev) && (first <==> prev == [])
    ensures var p := prev + [AsSpell(c, first)];
      && (forall j :: 0 <= j < |p| ==> FromCatalog(p[j], available))
      && DistinctKeys(p, SpellName)
      && (forall j :: 0 <= j < |p| ==> (p[j].prepared <==> j == 0))
  {
    var s := AsSpell(c, first);
    forall j | 0 <= j < |prev| ensures prev[j].name != s.name {
      assert SpellName(prev[j]) in Keys(prev, SpellName);
    }
    assert FromCatalog(s, available);
  }

  /**
   * While fewer spells are picked than the catalog has names, some entry is left: the
   * picked names are distinct catalog names, so they cannot cover all of them.
   */
  lemma PoolNotEmpty(available: seq<CatalogSpell>, prev: seq<Spell>)
    requires DistinctKeys(available, CatalogName) && DistinctKeys(prev, SpellName)
    requires |prev| < |available|
    requires forall j :: 0 <= j < |prev| ==> FromCatalog(prev[j], available)
    ensures Unpicked(available, prev) != []
  {
    DistinctKeysCount(available, CatalogName);
    DistinctKeysCount(prev, SpellName);
    var names := Keys(available, CatalogName);
    var taken := Keys(prev, SpellName);
    forall x | x in taken ensures x in names {
      var j :| 0 <= j < |prev| && SpellName(prev[j]) == x;
      var c :| c in available && prev[j] == AsSpell(c, prev[j].prepared);
      var i :| 0 <= i < |available| && available[i] == c;
      assert CatalogName(available[i]) == x;
    }
    assert names * taken == taken && names + taken == names;
    assert |names - taken| > 0;
    var x :| x in names - taken;
    var i :| 0 <= i < |available| && CatalogName(available[i]) == x;
    assert available[i] in Unpicked(available, prev);
  }

  /** The catalog names no spell twice. */
  lemma CatalogNamesDistinct()
    ensures DistinctKeys(COMMON_SPELLS, CatalogName)
  {
    assert forall p :: 0 <= p < |COMMON_SPELLS| ==> CatalogPosition(COMMON_SPELLS[p].name) == p;
  }

  /**
   * Where a name stands in the catalog, told apart by its length and first letter (and, for
   * the two twelve-letter names starting with D, the second): a function that gives every
   * catalog entry its own index shows that no two entries share a name.
   */
  function CatalogPosition(name: string): int {
    if |name| < 2 then -1
    else match (|name|, name[0])
      case (12, 'D') => if name[1] == 'e' then 0 else 18
      case (5, 'L') => 1
      case (9, 'M') => 2
      case (16, 'P') => 3
      case (10, 'R') => 4
      case (13, 'M') => 5
      case (6, 'S') => 6
      case (13, 'B') => 7
      case (17, 'C') => 8
      case (5, 'B') => 9
      case (8, 'F') => 10
      case (14, 'L') => 11
      case (12, 'I') => 12
      case (3, 'W') => 13
      case (5, 'H') => 14
      case (11, 'H') => 15
      case (9, 'P') => 16
      case (8, 'T') => 17
      case (4, 'W') => 19
      case _ => -1
  }

  /** Filtering by level keeps distinct names distinct. */
  lemma {:induction false} UpToLevelDistinct(spells: seq<CatalogSpell>, maxLevel: int)
    requires DistinctKeys(spells, CatalogName)
    ensures DistinctKeys(UpToLevel(spells, maxLevel), CatalogName)
  {
    if spells != [] {
      var rest := UpToLevel(spells[1..], maxLevel);
      assert DistinctKeys(spells[1..], CatalogName) by {
        forall p, q | 0 <= p < q < |spells[1..]| ensures spells[1..][p].name != spells[1..][q].name {
          assert spells[1..][p] == spells[p + 1] && spells[1..][q] == spells[q + 1];
        }
      }
      UpToLevelDistinct(spells[1..], maxLevel);
      if spells[0].level <= maxLevel {
        var r := [spells[0]] + rest;
        forall q | 0 <= q < |rest| ensures rest[q].name != spells[0].name {
          assert rest[q] in spells[1..];
          var k :| 0 <= k < |spells[1..]| && spells[1..][k] == rest[q];
          assert spells[k + 1] == rest[q];
        }
        assert forall q :: 1 <= q < |r| ==> r[q] == rest[q - 1];
      }
    }
  }

  /** The spells offered to a class: distinct names, since the catalog has them. */
  lemma SpellsByClassDistinct(characterClass: string, level: int)
    ensures DistinctKeys(SpellsByClass(characterClass, level), CatalogName)
  {
    CatalogNamesDistinct();
    UpToLevelDistinct(COMMON_SPELLS, MaxSpellLevel(level));
  }

  /**
   * The spell loop of `applyPartialRandomization`, round `i` reading draw `i`: as many rounds
   * as `NumSpells`, each picking among the names not yet picked.
   */
  method SelectSpells(available: seq<CatalogSpell>, us: seq<Draw>) returns (selected: seq<Spell>)
    requires NumSpells(available) <= |us|
    ensures selected == Picks(available, us[..NumSpells(available)])
    ensures forall j :: 0 <= j < |selected| ==> FromCatalog(selected[j], available)
    ensures DistinctKeys(selected, SpellName)
    ensures forall j :: 0 <= j < |selected| ==> (selected[j].prepared <==> j == 0)
    ensures DistinctKeys(available, CatalogName) ==> |selected| == NumSpells(available)
  {
    var numSpells := NumSpells(available);
    selected := [];
    var i := 0;
    while i < numSpells
      invariant 0 <= i <= numSpells
      invariant selected == Picks(available, us[..i])
    {
      var randomSpell := RandomElement(Unpicked(available, selected), us[i]);
      assert us[..i + 1][..i] == us[..i];
      if randomSpell.Some? {
        selected := selected + [AsSpell(randomSpell.value, i == 0)];
      }
      i := i + 1;
    }
    PicksFacts(available, us[..numSpells]);
  }

  // ---------------------------------------------------------------------------------------
  // Partial randomization

  /** Where each random choice reads its draws: 24 for the scores, then one each, then the spells. */
  const RACE_DRAW := 24
  const CLASS_DRAW := 25
  const ALIGNMENT_DRAW := 26
  const SPELL_DRAWS := 27
  const DRAWS_NEEDED := 30

  /**
   * The first half of `applyPartialRandomization`: scores (with their modifiers), race, class
   * and alignment are redrawn only where their toggle is on; the skill and feat toggles do
   * nothing. Nothing else changes.
   */
  method RedrawChoices(character: Character, options: CreationOptions, us: seq<Draw>) returns (updated: Character)
    requires DRAWS_NEEDED <= |us|
    ensures updated.abilityScores == if options.randomizeStats then RolledScores(us) else character.abilityScores
    ensures updated.abilityModifiers ==
      if options.randomizeStats then AllModifiers(updated.abilityScores) else character.abilityModifiers
    ensures updated.race == if options.randomizeRace then RandomElement(RACES, us[RACE_DRAW]).value else character.race
    ensures updated.characterClass ==
      if options.randomizeClass then RandomElement(CLASSES, us[CLASS_DRAW]).value else character.characterClass
    ensures updated.alignment ==
      if options.randomizeAlignment then RandomElement(ALIGNMENTS, us[ALIGNMENT_DRAW]).value else character.alignment
    ensures updated == character.(
      abilityScores := updated.abilityScores, abilityModifiers := updated.abilityModifiers,
      race := updated.race, characterClass := updated.characterClass, alignment := updated.alignment)
  {
    updated := character;
    if options.randomizeStats {
      var abilityScores := RollAllAbilityScores(us);
      var abilityModifiers := AllModifiers(abilityScores);
      updated := updated.(abilityScores := abilityScores, abilityModifiers := abilityModifiers);
    }
    if options.randomizeRace {
      updated := updated.(race := RandomElement(RACES, us[RACE_DRAW]).value);
    }
    if options.randomizeClass {
      updated := updated.(characterClass := RandomElement(CLASSES, us[CLASS_DRAW]).value);
    }
    if options.randomizeAlignment {
      updated := updated.(alignment := RandomElement(ALIGNMENTS, us[ALIGNMENT_DRAW]).value);
    }
  }

  /**
   * The second half of `applyPartialRandomization`, done whatever the toggles: hit points,
   * attack bonus, saves, Dexterity to armor class and experience recomputed from the class,
   * level and modifiers the character has. The other armor class parts and everything else
   * stay; a character whose modifiers agree with its scores comes out with every derived
   * field agreeing with the calculator.
   */
  method RecomputeDerived(character: Character) returns (updated: Character)
    ensures var hp := MaxHitPoints(character.level, character.characterClass, character.abilityModifiers.constitution);
      updated.hitPoints == HitPoints(hp, hp, 0)
    ensures updated.baseAttackBonus == BaseAttackBonus(character.characterClass, character.level)
    ensures updated.savingThrows == SavingThrowsFor(character.characterClass, character.level)
    ensures var dex := character.abilityModifiers.dexterity;
      updated.armorClass == character.armorClass.(total := 10 + dex, dex := dex)
    ensures updated.experience == Experience(0, ExperienceNeededForNextLevel(character.level))
    ensures updated == character.(
      hitPoints := updated.hitPoints, baseAttackBonus := updated.baseAttackBonus,
      savingThrows := updated.savingThrows, armorClass := updated.armorClass, experience := updated.experience)
    ensures character.abilityModifiers == AllModifiers(character.abilityScores) ==> DerivedStatsAgree(updated)
  {
    updated := character;
    var hitPoints := CalculateHitPoints(updated.level, updated.characterClass, updated.abilityModifiers.constitution);
    updated := updated.(hitPoints := HitPoints(hitPoints, hitPoints, 0));
    updated := updated.(baseAttackBonus := BaseAttackBonus(updated.characterClass, updated.level));
    updated := updated.(savingThrows := SavingThrowsFor(updated.characterClass, updated.level));
    var dex := updated.abilityModifiers.dexterity;
    updated := updated.(armorClass := updated.armorClass.(total := 10 + dex, dex := dex));
    updated := updated.(experience := Experience(0, ExperienceNeededForNextLevel(updated.level)));
  }

  /**
   * The spell step of `applyPartialRandomization`: a generated caster gets `NumSpells` spells
   * of distinct names drawn from those its class and level offer, only the first prepared;
   * any other class keeps its spells.
   */
  method AddStartingSpells(character: Character, draws: seq<Draw>) returns (updated: Character)
    requires 3 <= |draws|
    ensures updated == character.(spells := updated.spells)
    ensures character.characterClass !in GENERATED_SPELLCASTERS ==> updated.spells == character.spells
    ensures character.characterClass in GENERATED_SPELLCASTERS ==>
      var available := SpellsByClass(character.characterClass, character.level);
      && updated.spells == Picks(available, draws[..NumSpells(available)])
      && |updated.spells| == NumSpells(available)
      && DistinctKeys(updated.spells, SpellName)
      && (forall j :: 0 <= j < |updated.spells| ==> FromCatalog(updated.spells[j], available))
      && (forall j :: 0 <= j < |updated.spells| ==> (updated.spells[j].prepared <==> j == 0))
  {
    updated := character;
    if character.characterClass in GENERATED_SPELLCASTERS {
      var availableSpells := SpellsByClass(character.characterClass, character.level);
      SpellsByClassDistinct(character.characterClass, character.level);
      var selectedSpells := SelectSpells(availableSpells, draws);
      updated := updated.(spells := selectedSpells);
    }
  }

  /**
   * `applyPartialRandomization` on the character it starts from: the choices redrawn under
   * the toggles, the derived fields recomputed, then the starting spells. The level and the
   * name never change, and every derived field agrees with the calculator afterwards unless
   * the scores were kept with modifiers that did not agree with them.
   */
  method Randomize(character: Character, options: CreationOptions, us: seq<Draw>) returns (updated: Character)
    requires DRAWS_NEEDED <= |us|
    ensures updated.level == character.level && updated.name == character.name && updated.id == character.id
    ensures updated.abilityScores == if options.randomizeStats then RolledScores(us) else character.abilityScores
    ensures updated.hitPoints.current == updated.hitPoints.maximum && updated.hitPoints.temporary == 0
    ensures updated.experience.current == 0
    ensures updated.armorClass.total == 10 + updated.abilityModifiers.dexterity
    ensures updated.skills == character.skills && updated.feats == character.feats
    ensures updated.characterClass !in GENERATED_SPELLCASTERS ==> updated.spells == character.spells
    ensures options.randomizeStats || character.abilityModifiers == AllModifiers(character.abilityScores)
      ==> DerivedStatsAgree(updated)
  {
    var chosen := RedrawChoices(character, options, us);
    var derived := RecomputeDerived(chosen);
    updated := AddStartingSpells(derived, us[SPELL_DRAWS..]);
  }

  // ---------------------------------------------------------------------------------------
  // The screen

  /** The screen's three steps. */
  datatype Step = ModeStep | Customize | Preview

  /** The six toggles, by name. */
  datatype RandomOption = Stats | Race | Class | Alignment | Skills | Feats

  /** `options[option]`: the toggle of that name. */
  function Flag(options: CreationOptions, option: RandomOption): bool {
    match option
    case Stats => options.randomizeStats
    case Race => options.randomizeRace
    case Class => options.randomizeClass
    case Alignment => options.randomizeAlignment
    case Skills => options.randomizeSkills
    case Feats => options.randomizeFeats
  }

  /** `{ ...prev, [option]: !prev[option] }`: the named toggle flips and no other one moves. */
  function Toggle(options: CreationOptions, option: RandomOption): (r: CreationOptions)
    ensures Flag(r, option) == !Flag(options, option)
    ensures forall other :: other != option ==> Flag(r, other) == Flag(options, other)
  {
    match option
    case Stats => options.(randomizeStats := !options.randomizeStats)
    case Race => options.(randomizeRace := !options.randomizeRace)
    case Class => options.(randomizeClass := !options.randomizeClass)
    case Alignment => options.(randomizeAlignment := !options.randomizeAlignment)
    case Skills => options.(randomizeSkills := !options.randomizeSkills)
    case Feats => options.(randomizeFeats := !options.randomizeFeats)
  }

  /** Flipping a toggle twice leaves every toggle as it was, and no flip leaves them as they are. */
  lemma ToggleTwice(options: CreationOptions, option: RandomOption)
    ensures Toggle(Toggle(options, option), option) == options
    ensures Toggle(options, option) != options
  {
  }

  /** The toggles the screen starts with: everything but skills and feats. */
  const DEFAULT_OPTIONS := CreationOptions(true, true, true, true, false, false)

  class CreateCharacterScreen {
    var step: Step
    var creationMode: CreationMode
    var character: Character
    var randomOptions: CreationOptions

    /** The screen's initial state; `id` and `now` stand for the default character's clock reads. */
    constructor(id: string, now: Timestamp)
      ensures step == ModeStep && creationMode == Manual
      ensures character == DefaultCharacter(id, now) && randomOptions == DEFAULT_OPTIONS
    {
      step := ModeStep;
      creationMode := Manual;
      character := DefaultCharacter(id, now);
      randomOptions := DEFAULT_OPTIONS;
    }

    /**
     * `handleModeSelection`: random mode lays a generated character over a default one,
     * manual mode starts over from a default one, and both go to the preview; partial mode
     * keeps the character and goes to the toggles.
     */
    method HandleModeSelection(mode: CreationMode, us: seq<Draw>, id: string, now: Timestamp)
      requires 27 <= |us|
      modifies this
      ensures creationMode == mode && randomOptions == old(randomOptions)
      ensures mode == Partial ==> step == Customize && character == old(character)
      ensures mode == Manual ==> step == Preview && character == DefaultCharacter(id, now)
      ensures mode == Random ==> (step == Preview
        && character == Merge(DefaultCharacter(id, now), RandomPatch(RolledScores(us),
             RandomElement(RACES, us[24]).value, RandomElement(CLASSES, us[25]).value,
             RandomElement(ALIGNMENTS, us[26]).value))
        && DerivedStatsAgree(character) && character.level == 1)
    {
      creationMode := mode;
      if mode == Random {
        var randomData := GenerateRandomCharacter(us);
        character := Merge(DefaultCharacter(id, now), randomData);
        RandomCharacterAgrees(DefaultCharacter(id, now), RolledScores(us),
          RandomElement(RACES, us[24]).value, RandomElement(CLASSES, us[25]).value,
          RandomElement(ALIGNMENTS, us[26]).value);
        step := Preview;
      } else if mode == Partial {
        step := Customize;
      } else {
        character := DefaultCharacter(id, now);
        step := Preview;
      }
    }

    /** `handleRandomizeOption`: one toggle flipped. */
    method HandleRandomizeOption(option: RandomOption)
      modifies this
      ensures randomOptions == Toggle(old(randomOptions), option)
      ensures step == old(step) && creationMode == old(creationMode) && character == old(character)
    {
      randomOptions := Toggle(randomOptions, option);
    }

    /** `applyPartialRandomization`: the character randomized under the toggles, then the preview. */
    method ApplyPartialRandomization(us: seq<Draw>)
      requires DRAWS_NEEDED <= |us|
      modifies this
      ensures step == Preview && creationMode == old(creationMode) && randomOptions == old(randomOptions)
      ensures character.level == old(character).level && character.name == old(character).name
      ensures randomOptions.randomizeStats || old(character).abilityModifiers == AllModifiers(old(character).abilityScores)
        ==> DerivedStatsAgree(character)
    {
      character := Randomize(character, randomOptions, us);
      step := Preview;
    }

    /**
     * `handleSaveCharacter`: nothing is saved when the name is blank; otherwise the character
     * is saved under the new id, created and updated now, and becomes the current one. The
     * new id (`Date.now()`) may equal a stored one, whose record the save then replaces.
     */
    method HandleSaveCharacter(store: CharacterStore, newId: string, now: Timestamp) returns (saved: bool)
      modifies store
      ensures saved <==> !IsBlank(character.name)
      ensures !saved ==> (store.characters == old(store.characters) && store.profiles == old(store.profiles)
        && store.currentId == old(store.currentId))
      ensures saved ==>
        var c := character.(id := newId, createdAt := now, updatedAt := now);
        && store.characters == Upsert(old(store.characters), CharacterId, c)
        && store.profiles == Upsert(old(store.profiles), ProfileId, ProfileOf(c, now))
        && store.currentId == Some(newId)
        && Find(store.characters, CharacterId, newId) == Some(c)
      ensures old(store.Consistent()) ==> store.Consistent()
    {
      TrimEmptyIffBlank(character.name);
      if Trim(character.name) == [] {
        return false;
      }
      var newCharacter := character.(id := newId, createdAt := now, updatedAt := now);
      var stored := store.SaveCharacter(newCharacter, now);
      store.SetCurrentCharacter(newCharacter.id);
      saved := true;
    }
  }
}
