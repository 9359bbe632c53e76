/**
 * The spell list screen of `SpellsScreen.tsx`: preparing, adding and removing spells, the
 * filtered and sorted list, the spells grouped by level and the prepared count. Every edit is
 * saved through the character store; `now` stands for the clock the save reads.
 */
module SpellList {
  import opened Optional
  import opened Text
  import opened Lists
  import opened CharacterTypes
  import opened Storage

  // ---------------------------------------------------------------------------------------
  // Edits

  /** The toggled spell: `{ ...spell, prepared: !spell.prepared }`. */
  function Toggled(s: Spell): Spell {
    s.(prepared := !s.prepared)
  }

  /**
   * `toggleSpellPrepared`: a copy of the list with the spell at `index` flipped between
   * prepared and not prepared.
   */
  function TogglePrepared(spells: seq<Spell>, index: nat): (r: seq<Spell>)
    requires index < |spells|
    ensures ReplacedAt(spells, r, index, Toggled(spells[index]))
    ensures r[index].prepared != spells[index].prepared
  {
    spells[index := Toggled(spells[index])]
  }

  /** Toggling the same spell twice gives the list back. */
  lemma TogglePreparedTwice(spells: seq<Spell>, index: nat)
    requires index < |spells|
    ensures TogglePrepared(TogglePrepared(spells, index), index) == spells
  {
  }

  /** `addSpell`: nothing for a blank name, otherwise a copy of the new spell at the end. */
  function AddSpell(spells: seq<Spell>, newSpell: Spell): (r: seq<Spell>)
    ensures IsBlank(newSpell.name) ==> r == spells
    ensures !IsBlank(newSpell.name) ==> |r| == |spells| + 1 && r[..|spells|] == spells && r[|spells|] == newSpell
  {
    TrimEmptyIffBlank(newSpell.name);
    if Trim(newSpell.name) == [] then spells else spells + [newSpell]
  }

  /** Removing the spell just added gives the list back. */
  lemma AddThenRemove(spells: seq<Spell>, newSpell: Spell)
    requires !IsBlank(newSpell.name)
    ensures RemoveAt(AddSpell(spells, newSpell), |spells|) == spells
  {
  }

  /** `spells.filter(s => s.prepared).length`: the prepared count the screen shows. */
  function PreparedCount(spells: seq<Spell>): (n: nat)
    ensures n <= |spells|
  {
    if spells == [] then 0 else (if spells[0].prepared then 1 else 0) + PreparedCount(spells[1..])
  }

  /** The prepared count of a list is that of its parts. */
  lemma {:induction false} PreparedCountConcat(xs: seq<Spell>, ys: seq<Spell>)
    ensures PreparedCount(xs + ys) == PreparedCount(xs) + PreparedCount(ys)
  {
    if xs != [] {
      assert (xs + ys)[1..] == xs[1..] + ys;
      PreparedCountConcat(xs[1..], ys);
    } else {
      assert xs + ys == ys;
    }
  }

  /** Toggling one spell moves the prepared count by one, up or down as the spell was. */
  lemma {:induction false} TogglePreparedCount(spells: seq<Spell>, index: nat)
    requires index < |spells|
    ensures PreparedCount(TogglePrepared(spells, index))
      == PreparedCount(spells) + (if spells[index].prepared then -1 else 1)
  {
    var r := TogglePrepared(spells, index);
    if index == 0 {
      assert r[1..] == spells[1..];
    } else {
      assert r[1..] == TogglePrepared(spells[1..], index - 1);
      TogglePreparedCount(spells[1..], index - 1);
    }
  }

  /** Removing a spell lowers the prepared count exactly when that spell was prepared. */
  lemma {:induction false} RemovePreparedCount(spells: seq<Spell>, index: nat)
    requires index < |spells|
    ensures PreparedCount(RemoveAt(spells, index))
      == PreparedCount(spells) - (if spells[index].prepared then 1 else 0)
  {
    var r := RemoveAt(spells, index);
    if index == 0 {
      assert r == spells[1..];
    } else {
      assert r == [spells[0]] + RemoveAt(spells[1..], index - 1);
      assert r[1..] == RemoveAt(spells[1..], index - 1);
      RemovePreparedCount(spells[1..], index - 1);
    }
  }

  // ---------------------------------------------------------------------------------------
  // Filtering and sorting

  /** `spells.filter(p)`: the spells that satisfy `p`, in order, each as often as it occurs. */
  function Where(spells: seq<Spell>, p: Spell -> bool): (r: seq<Spell>)
    ensures |r| <= |spells|
    ensures forall s :: s in r <==> s in spells && p(s)
  {
    if spells == [] then []
    else
      var rest := Where(spells[1..], p);
      if p(spells[0]) then [spells[0]] + rest else rest
  }

  /** A filter keeps every spell that satisfies `p` as often as it occurs, and no other. */
  lemma {:induction false} WhereCount(spells: seq<Spell>, p: Spell -> bool, s: Spell)
    ensures multiset(Where(spells, p))[s] == if p(s) then multiset(spells)[s] else 0
  {
    if spells != [] {
      WhereCount(spells[1..], p, s);
      assert spells == [spells[0]] + spells[1..];
    }
  }

  /** `spell.level === level` */
  function OfLevel(spells: seq<Spell>, level: int): seq<Spell> {
    Where(spells, (s: Spell) => s.level == level)
  }

  /** `spell.school.toLowerCase() === school.toLowerCase()` */
  function OfSchool(spells: seq<Spell>, school: string): seq<Spell> {
    Where(spells, (s: Spell) => ToLower(s.school) == ToLower(school))
  }

  /** The two orders the screen sorts by: level then name, and name alone. */
  datatype SpellOrder = LevelThenName | NameOnly

  /** `a` may stand before `b`: the comparator returns a result that is not positive. */
  predicate Leq(order: SpellOrder, a: Spell, b: Spell) {
    match order
    case LevelThenName => a.level < b.level || (a.level == b.level && NameLeq(a.name, b.name))
    case NameOnly => NameLeq(a.name, b.name)
  }

  lemma LeqTotal(order: SpellOrder, a: Spell, b: Spell)
    ensures Leq(order, a, b) || Leq(order, b, a)
  {
    NameLeqTotal(a.name, b.name);
  }

  lemma LeqTransitive(order: SpellOrder, a: Spell, b: Spell, c: Spell)
    requires Leq(order, a, b) && Leq(order, b, c)
    ensures Leq(order, a, c)
  {
    if order == NameOnly || (a.level == b.level && b.level == c.level) {
      NameLeqTransitive(a.name, b.name, c.name);
    }
  }

  predicate Sorted(order: SpellOrder, xs: seq<Spell>) {
    forall i, j :: 0 <= i < j < |xs| ==> Leq(order, xs[i], xs[j])
  }

  /** Puts `x` after every entry that may stand before it. */
  function Insert(order: SpellOrder, x: Spell, xs: seq<Spell>): (r: seq<Spell>)
    requires Sorted(order, xs)
    ensures Sorted(order, r)
    ensures multiset(r) == multiset(xs) + multiset{x}
  {
    if xs == [] || !Leq(order, xs[0], x) then
      InsertAtFront(order, x, xs);
      [x] + xs
    else
      var rest := Insert(order, x, xs[1..]);
      assert xs == [xs[0]] + xs[1..];
      forall k | 0 <= k < |rest| ensures Leq(order, xs[0], rest[k]) {
        assert rest[k] in multiset(rest);
        if rest[k] != x {
          assert rest[k] in multiset(xs[1..]);
          var m :| 0 <= m < |xs[1..]| && xs[1..][m] == rest[k];
          assert xs[m + 1] == rest[k];
        }
      }
      [xs[0]] + rest
  }

  /** An entry that may stand before the head of a sorted list may stand first. */
  lemma InsertAtFront(order: SpellOrder, x: Spell, xs: seq<Spell>)
    requires Sorted(order, xs) && (xs == [] || !Leq(order, xs[0], x))
    ensures Sorted(order, [x] + xs)
  {
    if xs != [] {
      LeqTotal(order, xs[0], x);
      forall j | 0 <= j < |xs| ensures Leq(order, x, xs[j]) {
        if j > 0 { LeqTransitive(order, x, xs[0], xs[j]); }
      }
    }
  }

  /**
   * `sort` with the comparator of `order`: each entry in turn inserted after those before
   * it that may stand before it. The result is sorted and holds the same spells.
   */
  function Sort(order: SpellOrder, xs: seq<Spell>): (r: seq<Spell>)
    ensures Sorted(order, r)
    ensures multiset(r) == multiset(xs)
  {
    if xs == [] then []
    else
      assert xs == xs[..|xs| - 1] + [xs[|xs| - 1]];
      Insert(order, xs[|xs| - 1], Sort(order, xs[..|xs| - 1]))
  }

  /** A level filter is set when it is not `null`; a school filter when it is a non-empty string. */
  predicate FilterActive(filterLevel: Option<int>, filterSchool: Option<string>) {
    filterLevel.Some? || (filterSchool.Some? && filterSchool.value != "")
  }

  /**
   * `getFilteredSpells`: the spells of the chosen level, then of the chosen school whatever
   * the case of its letters, sorted by level and then by name.
   */
  function FilteredSpells(spells: seq<Spell>, filterLevel: Option<int>, filterSchool: Option<string>): (r: seq<Spell>)
    ensures Sorted(LevelThenName, r)
    ensures forall s :: multiset(r)[s] == if Matches(s, filterLevel, filterSchool) then multiset(spells)[s] else 0
    ensures !FilterActive(filterLevel, filterSchool) ==> multiset(r) == multiset(spells)
  {
    var byLevel := if filterLevel.Some? then OfLevel(spells, filterLevel.value) else spells;
    var bySchool := if filterSchool.Some? && filterSchool.value != "" then OfSchool(byLevel, filterSchool.value) else byLevel;
    forall s ensures multiset(bySchool)[s] == if Matches(s, filterLevel, filterSchool) then multiset(spells)[s] else 0 {
      if filterLevel.Some? {
        WhereCount(spells, (t: Spell) => t.level == filterLevel.value, s);
      }
      if filterSchool.Some? && filterSchool.value != "" {
        WhereCount(byLevel, (t: Spell) => ToLower(t.school) == ToLower(filterSchool.value), s);
      }
    }
    Sort(LevelThenName, bySchool)
  }

  /** The spell passes both filters: the level one when set, the school one when set. */
  predicate Matches(s: Spell, filterLevel: Option<int>, filterSchool: Option<string>) {
    && (filterLevel.None? || s.level == filterLevel.value)
    && (filterSchool.None? || filterSchool.value == "" || ToLower(s.school) == ToLower(filterSchool.value))
  }

  // ---------------------------------------------------------------------------------------
  // Grouping by level

  /** The levels the spells have. */
  function Levels(spells: seq<Spell>): set<int> {
    set s | s in spells :: s.level
  }

  /**
   * `getSpellsByLevel`: one bucket per level that occurs, filled in list order by `forEach`
   * and `push`, then each bucket sorted by name in place.
   */
  method SpellsByLevel(spells: seq<Spell>) returns (spellsByLevel: map<int, seq<Spell>>)
    ensures spellsByLevel.Keys == Levels(spells)
    ensures forall level :: level in spellsByLevel ==> spellsByLevel[level] == Sort(NameOnly, OfLevel(spells, level))
  {
    var buckets := FillBuckets(spells);
    GroupedKeys(buckets, spells);
    spellsByLevel := SortBuckets(buckets);
  }

  /**
   * Each level with a bucket holds the spells of that level in list order, at least one, and
   * a level with no bucket has no spells.
   */
  ghost predicate Grouped(buckets: map<int, seq<Spell>>, spells: seq<Spell>) {
    forall level ::
      if level in buckets then buckets[level] == OfLevel(spells, level) && buckets[level] != []
      else OfLevel(spells, level) == []
  }

  /** Grouped buckets are keyed by exactly the levels the spells have. */
  lemma GroupedKeys(buckets: map<int, seq<Spell>>, spells: seq<Spell>)
    requires Grouped(buckets, spells)
    ensures buckets.Keys == Levels(spells)
    ensures forall level :: level in buckets ==> buckets[level] == OfLevel(spells, level)
  {
    forall level ensures level in buckets <==> level in Levels(spells) {
      LevelHasSpells(spells, level);
    }
  }

  /** A level occurs exactly when some spell of that level is left by the filter. */
  lemma LevelHasSpells(spells: seq<Spell>, level: int)
    ensures level in Levels(spells) <==> OfLevel(spells, level) != []
  {
    if level in Levels(spells) {
      var s :| s in spells && s.level == level;
      assert s in OfLevel(spells, level);
    }
    if OfLevel(spells, level) != [] {
      assert OfLevel(spells, level)[0] in OfLevel(spells, level);
    }
  }

  /** The `forEach` that pushes every spell into the bucket of its level, in list order. */
  method FillBuckets(spells: seq<Spell>) returns (buckets: map<int, seq<Spell>>)
    ensures Grouped(buckets, spells)
  {
    buckets := map[];
    var i := 0;
    while i < |spells|
      invariant 0 <= i <= |spells|
      invariant Grouped(buckets, spells[..i])
    {
      var spell := spells[i];
      var bucket := if spell.level in buckets then buckets[spell.level] else [];
      BucketAdded(buckets, spells, i);
      buckets := buckets[spell.level := bucket + [spell]];
      i := i + 1;
    }
    assert spells[..i] == spells;
  }

  /** The `forEach` over the levels that sorts each bucket by name. */
  method SortBuckets(buckets: map<int, seq<Spell>>) returns (sorted: map<int, seq<Spell>>)
    ensures sorted.Keys == buckets.Keys
    ensures forall level :: level in sorted ==> sorted[level] == Sort(NameOnly, buckets[level])
  {
    sorted := buckets;
    var unsorted := buckets.Keys;
    while unsorted != {}
      invariant unsorted <= buckets.Keys && sorted.Keys == buckets.Keys
      invariant forall level :: level in unsorted ==> sorted[level] == buckets[level]
      invariant forall level :: level in buckets && level !in unsorted ==>
        sorted[level] == Sort(NameOnly, buckets[level])
      decreases unsorted
    {
      HasMember(unsorted);
      var level :| level in unsorted;
      sorted := sorted[level := Sort(NameOnly, sorted[level])];
      unsorted := unsorted - {level};
    }
  }

  /** A set that is not empty has a member. */
  lemma HasMember(s: set<int>)
    requires s != {}
    ensures exists x :: x in s
  {
    if forall x :: x !in s {
      assert false;
    }
  }

  /** Pushing a spell into the bucket of its level keeps the buckets those of the longer list. */
  lemma BucketAdded(before: map<int, seq<Spell>>, spells: seq<Spell>, i: nat)
    requires i < |spells| && Grouped(before, spells[..i])
    ensures var spell := spells[i];
      Grouped(before[spell.level := (if spell.level in before then before[spell.level] else []) + [spell]], spells[..i + 1])
  {
    var spell := spells[i];
    assert spells[..i + 1] == spells[..i] + [spell];
    OfLevelAppend(spells[..i], spell);
  }

  /** One more spell at the end joins the bucket of its own level and no other. */
  lemma OfLevelAppend(spells: seq<Spell>, spell: Spell)
    ensures forall level ::
      OfLevel(spells + [spell], level) == OfLevel(spells, level) + (if spell.level == level then [spell] else [])
  {
    forall level ensures OfLevel(spells + [spell], level)
      == OfLevel(spells, level) + (if spell.level == level then [spell] else [])
    {
      WhereAppend(spells, spell, (s: Spell) => s.level == level);
    }
  }

  lemma {:induction false} WhereAppend(spells: seq<Spell>, spell: Spell, p: Spell -> bool)
    ensures Where(spells + [spell], p) == Where(spells, p) + (if p(spell) then [spell] else [])
  {
    if spells != [] {
      assert (spells + [spell])[0] == spells[0];
      assert (spells + [spell])[1..] == spells[1..] + [spell];
      WhereAppend(spells[1..], spell, p);
    } else {
      assert [] + [spell] == [spell];
      assert [spell][1..] == [];
    }
  }

  /** The sizes of the buckets of some levels, one after the other. */
  function BucketSizes(spells: seq<Spell>, levels: seq<int>): nat {
    if levels == [] then 0 else |OfLevel(spells, levels[0])| + BucketSizes(spells, levels[1..])
  }

  /** How often `level` occurs in `levels`. */
  function Occurrences(levels: seq<int>, level: int): nat {
    if levels == [] then 0 else (if levels[0] == level then 1 else 0) + Occurrences(levels[1..], level)
  }

  lemma {:induction false} BucketSizesCons(spell: Spell, rest: seq<Spell>, levels: seq<int>)
    ensures BucketSizes([spell] + rest, levels) == BucketSizes(rest, levels) + Occurrences(levels, spell.level)
  {
    if levels != [] {
      assert ([spell] + rest)[1..] == rest;
      BucketSizesCons(spell, rest, levels[1..]);
    }
  }

  lemma {:induction false} OccursOnce(levels: seq<int>, level: int)
    requires level in levels
    requires forall i, j :: 0 <= i < j < |levels| ==> levels[i] != levels[j]
    ensures Occurrences(levels, level) == 1
  {
    if levels[0] == level {
      NotOccurring(levels[1..], level);
    } else {
      OccursOnce(levels[1..], level);
    }
  }

  lemma {:induction false} NotOccurring(levels: seq<int>, level: int)
    requires level !in levels
    ensures Occurrences(levels, level) == 0
  {
    if levels != [] {
      NotOccurring(levels[1..], level);
    }
  }

  /**
   * Listing every level once, the bucket sizes add up to the number of spells: every spell
   * is in exactly one bucket.
   */
  lemma {:induction false} BucketSizesSum(spells: seq<Spell>, levels: seq<int>)
    requires forall i, j :: 0 <= i < j < |levels| ==> levels[i] != levels[j]
    requires Levels(spells) <= set l | l in levels
    ensures BucketSizes(spells, levels) == |spells|
  {
    if spells == [] {
      EmptyBuckets(levels);
    } else {
      assert spells == [spells[0]] + spells[1..];
      assert Levels(spells[1..]) <= Levels(spells);
      BucketSizesSum(spells[1..], levels);
      BucketSizesCons(spells[0], spells[1..], levels);
      assert spells[0].level in Levels(spells);
      OccursOnce(levels, spells[0].level);
    }
  }

  lemma {:induction false} EmptyBuckets(levels: seq<int>)
    ensures BucketSizes([], levels) == 0
  {
    if levels != [] {
      EmptyBuckets(levels[1..]);
    }
  }

  // ---------------------------------------------------------------------------------------
  // The screen

  /** The blank spell of the add-spell form. */
  const BLANK_SPELL := Spell("", 0, "", "", false)

  class SpellsScreen {
    var character: Option<Character>
    var newSpell: Spell
    var filterLevel: Option<int>
    var filterSchool: Option<string>

    constructor()
      ensures character == None && newSpell == BLANK_SPELL && filterLevel == None && filterSchool == None
    {
      character := None;
      newSpell := BLANK_SPELL;
      filterLevel := None;
      filterSchool := None;
    }

    /** `loadCurrentCharacter`: the store's current character, if there is one. */
    method LoadCurrentCharacter(store: CharacterStore)
      modifies this, store
      ensures character == if CurrentOf(old(store.characters), old(store.currentId)).Some?
        then CurrentOf(old(store.characters), old(store.currentId)) else old(character)
      ensures store.characters == old(store.characters) && store.profiles == old(store.profiles)
      ensures store.currentId == old(store.currentId)
      ensures newSpell == old(newSpell) && filterLevel == old(filterLevel) && filterSchool == old(filterSchool)
    {
      var currentCharacter := store.GetCurrentCharacter();
      if currentCharacter.Some? {
        character := currentCharacter;
      }
    }

    /**
     * `saveCharacter`: the store saves the record, stamping it in place, and the screen then
     * shows that same stamped record.
     */
    method Save(store: CharacterStore, updated: Character, now: Timestamp)
      modifies this, store
      ensures character == Some(updated.(updatedAt := now))
      ensures store.characters == Upsert(old(store.characters), CharacterId, updated.(updatedAt := now))
      ensures store.profiles == Upsert(old(store.profiles), ProfileId, ProfileOf(updated.(updatedAt := now), now))
      ensures store.currentId == old(store.currentId)
      ensures old(store.Consistent()) ==> store.Consistent()
      ensures newSpell == old(newSpell) && filterLevel == old(filterLevel) && filterSchool == old(filterSchool)
    {
      var saved := store.SaveCharacter(updated, now);
      character := Some(saved);
    }

    /** `toggleSpellPrepared`: the spell at `index` flipped, and the character saved. */
    method ToggleSpellPrepared(store: CharacterStore, index: nat, now: Timestamp)
      requires character.Some? ==> index < |character.value.spells|
      modifies this, store
      ensures old(character).None? ==> character == None && unchanged(store)
      ensures old(character).Some? ==>
        var c := old(character).value;
        character == Some(c.(spells := TogglePrepared(c.spells, index), updatedAt := now))
        && store.characters == Upsert(old(store.characters), CharacterId, character.value)
        && store.profiles == Upsert(old(store.profiles), ProfileId, ProfileOf(character.value, now))
        && store.currentId == old(store.currentId)
      ensures old(store.Consistent()) ==> store.Consistent()
      ensures newSpell == old(newSpell) && filterLevel == old(filterLevel) && filterSchool == old(filterSchool)
    {
      if character.None? {
        return;
      }
      var c := character.value;
      Save(store, c.(spells := TogglePrepared(c.spells, index)), now);
    }

    /**
     * `addSpell`: for a blank name nothing is saved; otherwise a copy of the form's spell is
     * appended and saved, and the form is cleared.
     */
    method AddNewSpell(store: CharacterStore, now: Timestamp)
      modifies this, store
      ensures old(character).None? || IsBlank(old(newSpell).name) ==>
        character == old(character) && newSpell == old(newSpell) && unchanged(store)
      ensures old(character).Some? && !IsBlank(old(newSpell).name) ==>
        var c := old(character).value;
        character == Some(c.(spells := c.spells + [old(newSpell)], updatedAt := now))
        && store.characters == Upsert(old(store.characters), CharacterId, character.value)
        && store.profiles == Upsert(old(store.profiles), ProfileId, ProfileOf(character.value, now))
        && store.currentId == old(store.currentId)
        && newSpell == BLANK_SPELL
      ensures old(store.Consistent()) ==> store.Consistent()
      ensures filterLevel == old(filterLevel) && filterSchool == old(filterSchool)
    {
      if character.None? {
        return;
      }
      TrimEmptyIffBlank(newSpell.name);
      if Trim(newSpell.name) == [] {
        return;
      }
      var c := character.value;
      Save(store, c.(spells := AddSpell(c.spells, newSpell)), now);
      newSpell := BLANK_SPELL;
    }

    /** `removeSpell`, once confirmed: the spell at `index` dropped and the character saved. */
    method RemoveSpell(store: CharacterStore, index: nat, now: Timestamp)
      modifies this, store
      ensures old(character).None? ==> character == None && unchanged(store)
      ensures old(character).Some? ==>
        var c := old(character).value;
        character == Some(c.(spells := RemoveAt(c.spells, index), updatedAt := now))
        && store.characters == Upsert(old(store.characters), CharacterId, character.value)
        && store.profiles == Upsert(old(store.profiles), ProfileId, ProfileOf(character.value, now))
        && store.currentId == old(store.currentId)
      ensures old(store.Consistent()) ==> store.Consistent()
      ensures newSpell == old(newSpell) && filterLevel == old(filterLevel) && filterSchool == old(filterSchool)
    {
      if character.None? {
        return;
      }
      var c := character.value;
      Save(store, c.(spells := RemoveAt(c.spells, index)), now);
    }

    /**
     * `getFilteredSpells`: nothing without a character; otherwise the filtered, sorted
     * spells. With no filter set, the list sorted is the character's own, so the character's
     * spells are left in the sorted order.
     */
    method GetFilteredSpells() returns (r: seq<Spell>)
      modifies this
      ensures old(character).None? ==> r == [] && character == None
      ensures old(character).Some? ==> r == FilteredSpells(old(character).value.spells, filterLevel, filterSchool)
      ensures old(character).Some? && !FilterActive(filterLevel, filterSchool) ==>
        character == Some(old(character).value.(spells := r))
      ensures old(character).Some? && FilterActive(filterLevel, filterSchool) ==> character == old(character)
      ensures newSpell == old(newSpell) && filterLevel == old(filterLevel) && filterSchool == old(filterSchool)
    {
      if character.None? {
        return [];
      }
      var c := character.value;
      r := FilteredSpells(c.spells, filterLevel, filterSchool);
      if !FilterActive(filterLevel, filterSchool) {
        character := Some(c.(spells := r));
      }
    }

    /** `getSpellsByLevel`: no buckets without a character. */
    method GetSpellsByLevel() returns (r: map<int, seq<Spell>>)
      ensures character.None? ==> r == map[]
      ensures character.Some? ==> (r.Keys == Levels(character.value.spells)
        && forall level :: level in r ==> r[level] == Sort(NameOnly, OfLevel(character.value.spells, level)))
    {
      if character.None? {
        return map[];
      }
      r := SpellsByLevel(character.value.spells);
    }
  }
}
