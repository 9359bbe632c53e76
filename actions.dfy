/**
 * The actions screen (`ActionsScreen.tsx`): d20 checks, attack and damage rolls, and the
 * history of the last ten rolls. Every die is drawn from the oracle values passed in and
 * every `new Date()` is the `now` parameter.
 */
module Actions {
  import opened Optional
  import opened Text
  import opened CharacterTypes
  import opened Dice
  import opened Rules
  import opened Storage
  import opened Lists

  /** One entry of the roll history. */
  datatype DiceRoll = DiceRoll(kind: string, result: int, breakdown: string, timestamp: Timestamp)

  // ---------------------------------------------------------------------------------------
  // History

  const HISTORY_LIMIT := 10

  /** `[roll, ...prev.slice(0, 9)]`: the new roll first, then the older ones, ten at most. */
  function AddToHistory(roll: DiceRoll, prev: seq<DiceRoll>): (r: seq<DiceRoll>)
    ensures |r| == if |prev| < HISTORY_LIMIT then |prev| + 1 else HISTORY_LIMIT
    ensures r[0] == roll
    ensures forall j :: 1 <= j < |r| ==> r[j] == prev[j - 1]
  {
    [roll] + (if |prev| <= 9 then prev else prev[..9])
  }

  /** The history after adding `rolls` in order, starting from `history`. */
  function AddAll(history: seq<DiceRoll>, rolls: seq<DiceRoll>): seq<DiceRoll> {
    if rolls == [] then history
    else AddToHistory(rolls[|rolls| - 1], AddAll(history, rolls[..|rolls| - 1]))
  }

  /** The last ten of `rolls`, newest first. */
  function Newest(rolls: seq<DiceRoll>): (r: seq<DiceRoll>)
    ensures |r| <= HISTORY_LIMIT
  {
    var n := if |rolls| < HISTORY_LIMIT then |rolls| else HISTORY_LIMIT;
    seq(n, i requires 0 <= i < n => rolls[|rolls| - 1 - i])
  }

  /** Whatever was rolled since the history was cleared, it shows the last ten rolls, newest first. */
  lemma {:induction false} HistoryShowsNewest(rolls: seq<DiceRoll>)
    ensures AddAll([], rolls) == Newest(rolls)
  {
    if rolls != [] {
      var init := rolls[..|rolls| - 1];
      HistoryShowsNewest(init);
      var r := AddAll([], rolls);
      assert r == AddToHistory(rolls[|rolls| - 1], Newest(init));
      assert |r| == |Newest(rolls)|;
      forall j | 0 <= j < |r| ensures r[j] == Newest(rolls)[j] {
        if j > 0 {
          assert r[j] == Newest(init)[j - 1] == init[|init| - 1 - (j - 1)];
        }
      }
    }
  }

  // ---------------------------------------------------------------------------------------
  // Damage strings: the first match of /(\d+)d(\d+)([+-]\d+)?/

  /** The three capture groups; the third is `undefined` when the signed part is absent. */
  datatype DamageGroups = DamageGroups(count: string, sides: string, modifier: Option<string>)

  /** The text a match covers. */
  function MatchedText(g: DamageGroups): string {
    g.count + "d" + g.sides + (if g.modifier.Some? then g.modifier.value else "")
  }

  /** Groups of the shape the pattern captures: digits, digits, and a sign with digits. */
  predicate WellFormed(g: DamageGroups) {
    && g.count != [] && AllRadixDigits(g.count, 10)
    && g.sides != [] && AllRadixDigits(g.sides, 10)
    && (g.modifier.Some? ==>
          var m := g.modifier.value;
          |m| >= 2 && (m[0] == '+' || m[0] == '-') && AllRadixDigits(m[1..], 10))
  }

  /** `\d+` at the start of `u`, taken greedily: the longest run of decimal digits there. */
  function Digits(u: string): (r: string)
    ensures |r| <= |u| && r == u[..|r|]
    ensures |r| == |u| || !IsDigit(u[|r|])
  {
    if u != [] && IsDigit(u[0]) then [u[0]] + Digits(u[1..]) else []
  }

  lemma {:induction false} DigitsAreDigits(u: string)
    ensures AllRadixDigits(Digits(u), 10)
  {
    if u != [] && IsDigit(u[0]) {
      DigitsAreDigits(u[1..]);
    }
  }

  /** Digits followed by a non-digit (or nothing) are read whole. */
  lemma {:induction false} DigitsOf(x: string, y: string)
    requires AllRadixDigits(x, 10) && (y == [] || !IsDigit(y[0]))
    ensures Digits(x + y) == x
  {
    if x == [] {
      assert x + y == y;
    } else {
      assert (x + y)[0] == x[0];
      assert (x + y)[1..] == x[1..] + y;
      DigitsOf(x[1..], y);
    }
  }

  /** `([+-]\d+)?` at the start of `u`: a sign and the digits after it, or nothing. */
  function SignedPart(u: string): Option<string> {
    if u != [] && (u[0] == '+' || u[0] == '-') && Digits(u[1..]) != [] then Some([u[0]] + Digits(u[1..])) else None
  }

  /**
   * The pattern matched at the very start of `u`. The digit groups are greedy and no later
   * part needs them shorter, so each is the longest run of digits where it starts.
   */
  function MatchStart(u: string): Option<DamageGroups> {
    var a := Digits(u);
    if a == [] || |a| == |u| || u[|a|] != 'd' then None
    else
      var rest := u[|a| + 1..];
      var b := Digits(rest);
      if b == [] then None else Some(DamageGroups(a, b, SignedPart(rest[|b|..])))
  }

  /** The match of the pattern that starts at index `i` of `s`, if any. */
  function MatchAt(s: string, i: nat): Option<DamageGroups>
    requires i <= |s|
  {
    MatchStart(s[i..])
  }

  /** Every match has the shape of the pattern's groups. */
  lemma MatchStartWellFormed(u: string)
    requires MatchStart(u).Some?
    ensures WellFormed(MatchStart(u).value)
  {
    var a := Digits(u);
    var rest := u[|a| + 1..];
    var v := rest[|Digits(rest)|..];
    DigitsAreDigits(u);
    DigitsAreDigits(rest);
    if SignedPart(v).Some? {
      DigitsAreDigits(v[1..]);
      assert ([v[0]] + Digits(v[1..]))[1..] == Digits(v[1..]);
    }
  }

  lemma MatchAtWellFormed(s: string, i: nat)
    requires i <= |s| && MatchAt(s, i).Some?
    ensures WellFormed(MatchAt(s, i).value)
  {
    MatchStartWellFormed(s[i..]);
  }

  /** A match is a prefix of the text it is read from. */
  lemma MatchStartIsPrefix(u: string)
    requires MatchStart(u).Some?
    ensures var g := MatchStart(u).value;
      |MatchedText(g)| <= |u| && u[..|MatchedText(g)|] == MatchedText(g)
  {
    var a := Digits(u);
    var rest := u[|a| + 1..];
    var b := Digits(rest);
    var v := rest[|b|..];
    var m := if SignedPart(v).Some? then SignedPart(v).value else "";
    assert MatchStart(u).value == DamageGroups(a, b, SignedPart(v));
    assert MatchedText(MatchStart(u).value) == a + "d" + b + m;
    SignedPartIsPrefix(v);
    PiecesArePrefix(u, a, rest, b, v, m);
  }

  /** The signed part, when there is one, is a prefix of the text it is read from. */
  lemma SignedPartIsPrefix(v: string)
    ensures var m := if SignedPart(v).Some? then SignedPart(v).value else "";
      |m| <= |v| && v[..|m|] == m
  {
    if SignedPart(v).Some? {
      var k := Digits(v[1..]);
      assert v[1..][..|k|] == v[1..1 + |k|];
      assert [v[0]] + k == v[..1 + |k|];
    }
  }

  /** Prefixes read one after the other make up a prefix of the whole text. */
  lemma PiecesArePrefix(u: string, a: string, rest: string, b: string, v: string, m: string)
    requires |a| < |u| && u[..|a|] == a && u[|a|] == 'd' && rest == u[|a| + 1..]
    requires |b| <= |rest| && rest[..|b|] == b && v == rest[|b|..]
    requires |m| <= |v| && v[..|m|] == m
    ensures |a| + 1 + |b| + |m| <= |u| && u[..|a| + 1 + |b| + |m|] == a + "d" + b + m
  {
    var n := |a| + 1 + |b| + |m|;
    forall j | 0 <= j < n
      ensures u[j] == (a + "d" + b + m)[j]
    {
      if j < |a| {
        assert u[j] == u[..|a|][j];
      } else if j == |a| {
      } else if j < |a| + 1 + |b| {
        assert u[j] == rest[j - |a| - 1] == rest[..|b|][j - |a| - 1];
      } else {
        assert u[j] == rest[j - |a| - 1] == v[j - |a| - 1 - |b|] == v[..|m|][j - |a| - 1 - |b|];
      }
    }
  }

  /** A match is a piece of the text: the groups written one after the other stand at `i`. */
  lemma MatchAtIsInText(s: string, i: nat)
    requires i <= |s| && MatchAt(s, i).Some?
    ensures var g := MatchAt(s, i).value;
      i + |MatchedText(g)| <= |s| && s[i..i + |MatchedText(g)|] == MatchedText(g)
  {
    MatchStartIsPrefix(s[i..]);
    var n := |MatchedText(MatchAt(s, i).value)|;
    assert s[i..][..n] == s[i..i + n];
  }

  datatype Located = Located(at: nat, groups: DamageGroups)

  /** `String.prototype.match` with a non-global pattern: the leftmost match from `i` on. */
  function FirstMatch(s: string, i: nat): (r: Option<Located>)
    requires i <= |s|
    ensures r.Some? ==> i <= r.value.at <= |s| && MatchAt(s, r.value.at) == Some(r.value.groups)
    ensures r.Some? ==> forall j :: i <= j < r.value.at ==> MatchAt(s, j).None?
    ensures r.None? ==> forall j :: i <= j <= |s| ==> MatchAt(s, j).None?
    decreases |s| - i
  {
    match MatchAt(s, i)
    case Some(g) => Some(Located(i, g))
    case None => if i == |s| then None else FirstMatch(s, i + 1)
  }

  /** A damage expression: so many dice of so many sides, plus a modifier. */
  datatype Damage = Damage(count: nat, sides: nat, modifier: int)

  /** The value of a signed group: `parseInt("+3")` is 3, `parseInt("-2")` is -2. */
  function SignedValue(m: string): int
    requires |m| >= 1 && AllRadixDigits(m[1..], 10)
  {
    if m[0] == '-' then 0 - Value(m[1..], 10) else Value(m[1..], 10)
  }

  /** What `rollDamage` reads from the damage text, `None` when the pattern does not occur. */
  function ParseDamage(text: string): (r: Option<Damage>)
    ensures r.Some? <==> exists j :: 0 <= j <= |text| && MatchAt(text, j).Some?
  {
    match FirstMatch(text, 0)
    case None => None
    case Some(loc) =>
      var g := loc.groups;
      MatchAtWellFormed(text, loc.at);
      Some(Damage(Value(g.count, 10), Value(g.sides, 10),
                  if g.modifier.Some? then SignedValue(g.modifier.value) else 0))
  }

  /** Text that denotes a damage expression: `1d8+3`, `2d6`, `1d4-1`. */
  function DamageText(d: Damage): string {
    NatToString(d.count) + "d" + NatToString(d.sides)
    + (if d.modifier > 0 then "+" + NatToString(d.modifier)
       else if d.modifier < 0 then "-" + NatToString(0 - d.modifier)
       else "")
  }

  /** Digits, `d`, digits and an optional signed part, written one after the other, are matched whole. */
  lemma MatchOfText(a: string, b: string, m: string)
    requires a != [] && AllRadixDigits(a, 10) && b != [] && AllRadixDigits(b, 10)
    requires m == [] || (|m| >= 2 && (m[0] == '+' || m[0] == '-') && AllRadixDigits(m[1..], 10))
    ensures MatchStart(a + "d" + b + m) == Some(DamageGroups(a, b, if m == [] then None else Some(m)))
  {
    var r := b + m;
    var t := "d" + r;
    assert a + "d" + b + m == a + t;
    DigitsOf(a, t);
    AfterPrefix(a, t);
    AfterPrefix("d", r);
    SignedPartOf(m);
    DigitsOf(b, m);
    AfterPrefix(b, m);
    MatchStartOf(a + t, a, r, b, m);
  }

  lemma AfterPrefix(p: string, x: string)
    ensures (p + x)[|p|..] == x
    ensures x != [] ==> (p + x)[|p|] == x[0]
  {
  }

  lemma SignedPartOf(m: string)
    requires m == [] || (|m| >= 2 && (m[0] == '+' || m[0] == '-') && AllRadixDigits(m[1..], 10))
    ensures SignedPart(m) == if m == [] then None else Some(m)
    ensures m == [] || !IsDigit(m[0])
  {
    if m != [] {
      DigitsOf(m[1..], []);
      assert m[1..] + [] == m[1..];
      assert [m[0]] + m[1..] == m;
    }
  }

  lemma MatchStartOf(u: string, a: string, r: string, b: string, m: string)
    requires Digits(u) == a && a != [] && |a| < |u| && u[|a|] == 'd' && u[|a| + 1..] == r
    requires Digits(r) == b && b != [] && r[|b|..] == m
    ensures MatchStart(u) == Some(DamageGroups(a, b, SignedPart(m)))
  {
  }

  /** Reading the damage text written for an expression gives the expression back. */
  lemma ParseDamageText(d: Damage)
    ensures ParseDamage(DamageText(d)) == Some(d)
  {
    if d.modifier == 0 {
      ParseUnmodifiedText(d);
    } else {
      ParseModifiedText(d);
    }
  }

  /** A match at the start of the text is the one `ParseDamage` reads. */
  lemma ParseOfMatchAtStart(s: string, g: DamageGroups)
    requires MatchStart(s) == Some(g)
    ensures WellFormed(g) && ParseDamage(s) == Some(Damage(Value(g.count, 10), Value(g.sides, 10),
                                          if g.modifier.Some? then SignedValue(g.modifier.value) else 0))
  {
    assert s[0..] == s;
    MatchAtWellFormed(s, 0);
  }

  lemma ParseUnmodifiedText(d: Damage)
    requires d.modifier == 0
    ensures ParseDamage(DamageText(d)) == Some(d)
  {
    var a := NatToString(d.count);
    var b := NatToString(d.sides);
    assert DamageText(d) == a + "d" + b;
    assert a + "d" + b + [] == a + "d" + b;
    MatchOfText(a, b, []);
    ParseOfMatchAtStart(a + "d" + b, DamageGroups(a, b, None));
    NatToStringValue(d.count);
    NatToStringValue(d.sides);
  }

  lemma ParseModifiedText(d: Damage)
    requires d.modifier != 0
    ensures ParseDamage(DamageText(d)) == Some(d)
  {
    var a := NatToString(d.count);
    var b := NatToString(d.sides);
    var n: nat := if d.modifier > 0 then d.modifier else 0 - d.modifier;
    var digits := NatToString(n);
    var m := [if d.modifier > 0 then '+' else '-'] + digits;
    assert m[1..] == digits;
    assert DamageText(d) == a + "d" + b + m;
    MatchOfText(a, b, m);
    ParseOfMatchAtStart(a + "d" + b + m, DamageGroups(a, b, Some(m)));
    NatToStringValue(d.count);
    NatToStringValue(d.sides);
    NatToStringValue(n);
  }

  /** `parseInt` of each matched group gives the number `ParseDamage` reads from it. */
  lemma GroupsReadByParseInt(g: DamageGroups)
    requires WellFormed(g)
    ensures ParseInt(g.count) == Some(Value(g.count, 10) as int)
    ensures ParseInt(g.sides) == Some(Value(g.sides, 10) as int)
    ensures g.modifier.Some? ==> ParseInt(g.modifier.value) == Some(SignedValue(g.modifier.value))
  {
    ParseIntOfDigits(g.count);
    ParseIntOfDigits(g.sides);
    if g.modifier.Some? {
      SignedGroupReadByParseInt(g.modifier.value);
    }
  }

  lemma SignedGroupReadByParseInt(m: string)
    requires |m| >= 2 && (m[0] == '+' || m[0] == '-') && AllRadixDigits(m[1..], 10)
    ensures ParseInt(m) == Some(SignedValue(m))
  {
    ParseIntSigned(m);
  }

  /** ` +K` or ` -K` after the dice, nothing for a zero modifier. */
  function ModifierText(modifier: int): (t: string)
    ensures t == [] <==> modifier == 0
    ensures t != [] ==> |t| >= 3 && t[0] == ' ' && t[1] == (if modifier > 0 then '+' else '-')
  {
    if modifier != 0 then " " + (if modifier >= 0 then "+" else "") + IntToString(modifier) else ""
  }

  /** The number in the modifier text reads back as the modifier. */
  lemma ModifierTextReadsBack(modifier: int)
    requires modifier != 0
    ensures ParseInt(ModifierText(modifier)[1..]) == Some(modifier)
  {
    var u := ModifierText(modifier)[1..];
    if modifier > 0 {
      var digits := NatToString(modifier);
      assert u == "+" + digits;
      assert u[0] == '+' && u[1..] == digits;
      ParseIntSigned(u);
      NatToStringValue(modifier);
    } else {
      assert u == IntToString(modifier);
      ParseIntOfIntToString(modifier);
    }
  }

  /** `${numDice}d${dieSize}(${rolls.join(', ')})${modifierText}` */
  function DamageBreakdown(d: Damage, rolls: seq<int>): string {
    NatToString(d.count) + "d" + NatToString(d.sides) + "(" + JoinInts(rolls) + ")" + ModifierText(d.modifier)
  }

  /** The history entry of a damage roll: the dice summed, plus the modifier. */
  function DamageRoll(name: string, d: Damage, rolls: seq<int>, now: Timestamp): DiceRoll {
    DiceRoll(name + " Damage", Sum(rolls) + d.modifier, DamageBreakdown(d, rolls), now)
  }

  /** Dice each in [1, sides] add up to between one and `sides` per die. */
  lemma {:induction false} SumBounds(rolls: seq<int>, sides: int)
    requires forall i :: 0 <= i < |rolls| ==> 1 <= rolls[i] <= sides
    ensures |rolls| <= Sum(rolls) <= |rolls| * sides
  {
    if rolls != [] {
      SumBounds(rolls[1..], sides);
      assert |rolls| * sides == sides + (|rolls| - 1) * sides;
    }
  }

  /** A damage total lies between the dice count and the dice count times the sides, plus the modifier. */
  lemma DamageRollBounds(name: string, d: Damage, us: seq<Draw>, now: Timestamp)
    requires d.count <= |us| && d.sides >= 1
    ensures var r := DamageRoll(name, d, Rolls(d.sides, us[..d.count]), now).result;
      d.count + d.modifier <= r <= d.count * d.sides + d.modifier
  {
    SumBounds(Rolls(d.sides, us[..d.count]), d.sides);
  }

  // ---------------------------------------------------------------------------------------
  // d20 rolls

  datatype SaveType = Fortitude | Reflex | Will

  function SaveKey(t: SaveType): string {
    match t
    case Fortitude => "fortitude"
    case Reflex => "reflex"
    case Will => "will"
  }

  function SaveBonus(saves: SavingThrows, t: SaveType): int {
    match t
    case Fortitude => saves.fortitude
    case Reflex => saves.reflex
    case Will => saves.will
  }

  /** A d20 roll plus one bonus, as the save, check, attack and initiative buttons record it. */
  function D20Roll(kind: string, baseRoll: int, bonus: int, now: Timestamp): (r: DiceRoll)
    ensures 1 <= baseRoll <= 20 ==> bonus + 1 <= r.result <= bonus + 20
  {
    DiceRoll(kind, baseRoll + bonus, "1d20(" + IntToString(baseRoll) + ") + " + IntToString(bonus), now)
  }

  /** The history entry of a skill check; the bonus is the skill's total. */
  function SkillRoll(skillName: string, skill: Skill, mods: AbilityModifiers, baseRoll: int, now: Timestamp): (r: DiceRoll)
    ensures r.result == baseRoll + SkillTotal(skill, mods)
  {
    var abilityMod := mods.Get(skill.abilityScore);
    var classBonus := ClassSkillBonus(skill);
    DiceRoll(
      skillName + " Check",
      baseRoll + skill.ranks + abilityMod + skill.miscModifier + classBonus,
      "1d20(" + IntToString(baseRoll) + ") + " + IntToString(skill.ranks) + " + " + IntToString(abilityMod)
        + " + " + IntToString(skill.miscModifier) + " + " + IntToString(classBonus),
      now)
  }

  const SkillName: Skill -> string := (s: Skill) => s.name

  // ---------------------------------------------------------------------------------------
  // The screen

  class ActionsScreen {
    /** The character loaded on entry, if any. */
    var character: Option<Character>
    /** The last rolls, newest first. */
    var rollHistory: seq<DiceRoll>

    constructor()
      ensures character == None && rollHistory == []
    {
      character := None;
      rollHistory := [];
    }

    /** `loadCurrentCharacter`: the store's current character, when there is one. */
    method LoadCurrentCharacter(store: CharacterStore)
      modifies this, store
      ensures var found := CurrentOf(old(store.characters), old(store.currentId));
        character == if found.Some? then found else old(character)
      ensures rollHistory == old(rollHistory)
      ensures store.characters == old(store.characters) && store.profiles == old(store.profiles)
      ensures store.currentId == old(store.currentId)
    {
      var currentCharacter := store.GetCurrentCharacter();
      if currentCharacter.Some? {
        character := currentCharacter;
      }
    }

    /** `addToHistory` */
    method AddRoll(roll: DiceRoll)
      modifies this
      ensures rollHistory == AddToHistory(roll, old(rollHistory))
      ensures character == old(character)
    {
      rollHistory := AddToHistory(roll, rollHistory);
    }

    /** `rollSavingThrow`: a d20 plus the save, recorded; nothing without a character. */
    method RollSavingThrow(saveType: SaveType, u: Draw, now: Timestamp)
      modifies this
      ensures character == old(character)
      ensures old(character).None? ==> rollHistory == old(rollHistory)
      ensures old(character).Some? ==> rollHistory == AddToHistory(
        D20Roll(Capitalize(SaveKey(saveType)) + " Save", RollDie(20, u),
                SaveBonus(old(character).value.savingThrows, saveType), now),
        old(rollHistory))
    {
      if character.None? {
        return;
      }
      var baseRoll := RollDie(20, u);
      var saveBonus := SaveBonus(character.value.savingThrows, saveType);
      AddRoll(D20Roll(Capitalize(SaveKey(saveType)) + " Save", baseRoll, saveBonus, now));
    }

    /** `rollAbilityCheck`: a d20 plus the ability's modifier. */
    method RollAbilityCheck(ability: Ability, u: Draw, now: Timestamp)
      modifies this
      ensures character == old(character)
      ensures old(character).None? ==> rollHistory == old(rollHistory)
      ensures old(character).Some? ==> rollHistory == AddToHistory(
        D20Roll(Capitalize(AbilityKey(ability)) + " Check", RollDie(20, u),
                old(character).value.abilityModifiers.Get(ability), now),
        old(rollHistory))
    {
      if character.None? {
        return;
      }
      var baseRoll := RollDie(20, u);
      var modifier := character.value.abilityModifiers.Get(ability);
      AddRoll(D20Roll(Capitalize(AbilityKey(ability)) + " Check", baseRoll, modifier, now));
    }

    /** `rollAttack`: a d20 plus the attack's bonus. */
    method RollAttack(attack: Attack, u: Draw, now: Timestamp)
      modifies this
      ensures character == old(character)
      ensures old(character).None? ==> rollHistory == old(rollHistory)
      ensures old(character).Some? ==> rollHistory == AddToHistory(
        D20Roll(attack.name + " Attack", RollDie(20, u), attack.attackBonus, now), old(rollHistory))
    {
      if character.None? {
        return;
      }
      var baseRoll := RollDie(20, u);
      AddRoll(D20Roll(attack.name + " Attack", baseRoll, attack.attackBonus, now));
    }

    /**
     * `rollDamage`: the first damage expression in the attack's text, its dice rolled and
     * summed plus the modifier; nothing when the text holds none. It does not look at the
     * loaded character. `us` must hold a draw for every die.
     */
    method RollDamage(attack: Attack, us: seq<Draw>, now: Timestamp)
      requires ParseDamage(attack.damage).Some? ==> ParseDamage(attack.damage).value.count <= |us|
      modifies this
      ensures character == old(character)
      ensures ParseDamage(attack.damage).None? ==> rollHistory == old(rollHistory)
      ensures ParseDamage(attack.damage).Some? ==>
        var d := ParseDamage(attack.damage).value;
        rollHistory == AddToHistory(DamageRoll(attack.name, d, Rolls(d.sides, us[..d.count]), now), old(rollHistory))
    {
      var damageMatch := FirstMatch(attack.damage, 0);
      if damageMatch.None? {
        return;
      }
      var g := damageMatch.value.groups;
      MatchAtWellFormed(attack.damage, damageMatch.value.at);
      GroupsReadByParseInt(g);
      var count := ParseInt(g.count);
      var sides := ParseInt(g.sides);
      var modifier := 0;
      if g.modifier.Some? {
        var parsed := ParseInt(g.modifier.value);
        modifier := parsed.value;
      }
      var numDice := count.value;
      var dieSize := sides.value;
      var rolls := RollDice(numDice, dieSize, us);
      var d := Damage(numDice, dieSize, modifier);
      AddRoll(DamageRoll(attack.name, d, rolls, now));
    }

    /** `rollInitiative`: a d20 plus the Dexterity modifier. */
    method RollInitiative(u: Draw, now: Timestamp)
      modifies this
      ensures character == old(character)
      ensures old(character).None? ==> rollHistory == old(rollHistory)
      ensures old(character).Some? ==> rollHistory == AddToHistory(
        D20Roll("Initiative", RollDie(20, u), old(character).value.abilityModifiers.dexterity, now),
        old(rollHistory))
    {
      if character.None? {
        return;
      }
      var baseRoll := RollDie(20, u);
      AddRoll(D20Roll("Initiative", baseRoll, character.value.abilityModifiers.dexterity, now));
    }

    /** `rollSkillCheck`: a d20 plus the named skill's total; nothing for an unknown skill. */
    method RollSkillCheck(skillName: string, u: Draw, now: Timestamp)
      modifies this
      ensures character == old(character)
      ensures old(character).None? || Find(old(character).value.skills, SkillName, skillName).None? ==>
        rollHistory == old(rollHistory)
      ensures old(character).Some? && Find(old(character).value.skills, SkillName, skillName).Some? ==>
        var c := old(character).value;
        rollHistory == AddToHistory(
          SkillRoll(skillName, Find(c.skills, SkillName, skillName).value, c.abilityModifiers, RollDie(20, u), now),
          old(rollHistory))
    {
      if character.None? {
        return;
      }
      var skill := Find(character.value.skills, SkillName, skillName);
      if skill.None? {
        return;
      }
      var baseRoll := RollDie(20, u);
      AddRoll(SkillRoll(skillName, skill.value, character.value.abilityModifiers, baseRoll, now));
    }

    /** `clearHistory` */
    method ClearHistory()
      modifies this
      ensures rollHistory == [] && character == old(character)
    {
      rollHistory := [];
    }
  }
}
