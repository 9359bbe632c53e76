/**
 * `CharacterStorageService`: three storage buckets (the characters, their profiles for the
 * list screen, and the id of the current character) kept in memory instead of AsyncStorage.
 * Every `new Date()` and `Date.now()` an operation reads is its `now` or `newId` parameter.
 */
module Storage {
  import opened Optional
  import opened CharacterTypes
  import opened Lists

  // ---------------------------------------------------------------------------------------
  // Lists of records keyed by id

  /** The ids present in a list of records. */
  function Keys<T>(xs: seq<T>, key: T -> string): set<string> {
    set j | 0 <= j < |xs| :: key(xs[j])
  }

  /** `findIndex(x => key(x) === id)`: the first position holding `id`, or -1. */
  function FirstIndex<T>(xs: seq<T>, key: T -> string, id: string): (i: int)
    ensures -1 <= i < |xs|
    ensures 0 <= i ==> key(xs[i]) == id && forall j :: 0 <= j < i ==> key(xs[j]) != id
    ensures i == -1 <==> id !in Keys(xs, key)
  {
    if xs == [] then -1
    else if key(xs[0]) == id then 0
    else
      var k := FirstIndex(xs[1..], key, id);
      KeysCons(xs, key);
      if k == -1 then -1 else k + 1
  }

  /** `find(x => key(x) === id)`: the first record holding `id`, if any. */
  function Find<T>(xs: seq<T>, key: T -> string, id: string): (r: Option<T>)
    ensures r.Some? <==> id in Keys(xs, key)
    ensures r.Some? ==> r.value in xs && key(r.value) == id
    ensures r.Some? ==> r.value == xs[FirstIndex(xs, key, id)]
  {
    var i := FirstIndex(xs, key, id);
    if i >= 0 then Some(xs[i]) else None
  }

  /**
   * Replace the first record holding the id of `x` by `x`, or append `x` when there is none
   * (`findIndex`, then assignment or `push`). Every other position keeps its record, the ids
   * gain that of `x`, and looking the id up finds `x`.
   */
  function Upsert<T>(xs: seq<T>, key: T -> string, x: T): (r: seq<T>)
    ensures |r| == if key(x) in Keys(xs, key) then |xs| else |xs| + 1
    ensures forall j :: 0 <= j < |xs| && j != FirstIndex(xs, key, key(x)) ==> r[j] == xs[j]
    ensures key(x) in Keys(xs, key) ==> r[FirstIndex(xs, key, key(x))] == x
    ensures key(x) !in Keys(xs, key) ==> r[|xs|] == x
    ensures Keys(r, key) == Keys(xs, key) + {key(x)}
    ensures Find(r, key, key(x)) == Some(x)
  {
    var i := FirstIndex(xs, key, key(x));
    if i >= 0 then
      var r := xs[i := x];
      assert Keys(r, key) == Keys(xs, key) by {
        forall y | y in Keys(xs, key) ensures y in Keys(r, key) {
          var j :| 0 <= j < |xs| && key(xs[j]) == y;
          assert key(r[j]) == y;
        }
        forall y | y in Keys(r, key) ensures y in Keys(xs, key) {
          var j :| 0 <= j < |r| && key(r[j]) == y;
          assert key(xs[j]) == y;
        }
      }
      assert FirstIndex(r, key, key(x)) == i by {
        assert key(r[i]) == key(x);
        assert forall j :: 0 <= j < i ==> r[j] == xs[j];
      }
      r
    else
      var r := xs + [x];
      assert Keys(r, key) == Keys(xs, key) + {key(x)} by {
        forall y | y in Keys(r, key) ensures y in Keys(xs, key) + {key(x)} {
          var j :| 0 <= j < |r| && key(r[j]) == y;
          if j < |xs| { assert key(xs[j]) == y; }
        }
        assert key(r[|xs|]) == key(x);
        forall y | y in Keys(xs, key) ensures y in Keys(r, key) {
          var j :| 0 <= j < |xs| && key(xs[j]) == y;
          assert key(r[j]) == y;
        }
      }
      assert FirstIndex(r, key, key(x)) == |xs| by {
        assert forall j :: 0 <= j < |xs| ==> r[j] == xs[j];
      }
      r
  }

  /** `filter(x => key(x) !== id)`: every record that does not hold `id`, in order. */
  function RemoveKey<T(==,!new)>(xs: seq<T>, key: T -> string, id: string): (r: seq<T>)
    ensures forall x :: x in r <==> x in xs && key(x) != id
    ensures IsSubsequence(r, xs)
    ensures Keys(r, key) == Keys(xs, key) - {id}
    ensures id !in Keys(xs, key) ==> r == xs
  {
    if xs == [] then []
    else
      var rest := RemoveKey(xs[1..], key, id);
      KeysCons(xs, key);
      if key(xs[0]) == id then
        SubsequenceOfTail(rest, xs);
        rest
      else
        var r := [xs[0]] + rest;
        assert r[1..] == rest && xs == [xs[0]] + xs[1..];
        KeysCons(r, key);
        r
  }

  /** The filter keeps every record without the id as often as it occurs, and no record with it. */
  lemma {:induction false} RemoveKeyCount<T(!new)>(xs: seq<T>, key: T -> string, id: string, x: T)
    ensures multiset(RemoveKey(xs, key, id))[x] == if key(x) != id then multiset(xs)[x] else 0
  {
    if xs != [] {
      RemoveKeyCount(xs[1..], key, id, x);
      assert xs == [xs[0]] + xs[1..];
      var rest := RemoveKey(xs[1..], key, id);
      if key(xs[0]) != id {
        assert RemoveKey(xs, key, id) == [xs[0]] + rest;
      }
    }
  }

  /** The ids of a non-empty list: that of its head and those of its tail. */
  lemma KeysCons<T>(xs: seq<T>, key: T -> string)
    requires xs != []
    ensures Keys(xs, key) == {key(xs[0])} + Keys(xs[1..], key)
  {
    forall y | y in Keys(xs, key) ensures y in {key(xs[0])} + Keys(xs[1..], key) {
      var j :| 0 <= j < |xs| && key(xs[j]) == y;
      if j > 0 { assert key(xs[1..][j - 1]) == y; }
    }
    forall y | y in Keys(xs[1..], key) ensures y in Keys(xs, key) {
      var j :| 0 <= j < |xs[1..]| && key(xs[1..][j]) == y;
      assert key(xs[j + 1]) == y;
    }
  }

  /** No two records of the list hold the same id. */
  predicate DistinctKeys<T>(xs: seq<T>, key: T -> string) {
    forall p, q :: 0 <= p < q < |xs| ==> key(xs[p]) != key(xs[q])
  }

  /** A list whose ids are distinct has as many ids as records. */
  lemma {:induction false} DistinctKeysCount<T>(xs: seq<T>, key: T -> string)
    requires DistinctKeys(xs, key)
    ensures |Keys(xs, key)| == |xs|
  {
    if xs != [] {
      KeysCons(xs, key);
      DistinctKeysCount(xs[1..], key);
      forall j | 0 <= j < |xs[1..]| ensures key(xs[1..][j]) != key(xs[0]) {
        assert xs[1..][j] == xs[j + 1];
      }
      assert key(xs[0]) !in Keys(xs[1..], key);
    }
  }

  const CharacterId: Character -> string := (c: Character) => c.id
  const ProfileId: CharacterProfile -> string := (p: CharacterProfile) => p.id

  /**
   * The character `getCurrentCharacter` finds: none when no id is set or the id is the empty
   * string (a falsy value), otherwise the first character with that id.
   */
  function CurrentOf(characters: seq<Character>, currentId: Option<string>): (r: Option<Character>)
    ensures r.Some? <==> currentId.Some? && currentId.value != "" && currentId.value in Keys(characters, CharacterId)
    ensures r.Some? ==> r.value in characters && r.value.id == currentId.value
  {
    if currentId.Some? && currentId.value != "" then Find(characters, CharacterId, currentId.value) else None
  }

  // ---------------------------------------------------------------------------------------
  // The store

  class CharacterStore {
    /** The `dnd35_characters` bucket. */
    var characters: seq<Character>
    /** The `dnd35_character_profiles` bucket. */
    var profiles: seq<CharacterProfile>
    /** The `dnd35_current_character` bucket; `None` when the key is absent. */
    var currentId: Option<string>

    /** Every stored character has a profile and every profile a character. */
    ghost predicate Consistent()
      reads this
    {
      Keys(characters, CharacterId) == Keys(profiles, ProfileId)
    }

    /** Storage with none of the three keys set. */
    constructor()
      ensures characters == [] && profiles == [] && currentId == None
      ensures Consistent()
    {
      characters := [];
      profiles := [];
      currentId := None;
    }

    /**
     * `saveCharacter`: stamps the character, upserts it by id, then upserts its profile by
     * the same rule. The current id is not touched.
     */
    method SaveCharacter(character: Character, now: Timestamp) returns (saved: Character)
      modifies this
      ensures saved == character.(updatedAt := now)
      ensures characters == Upsert(old(characters), CharacterId, saved)
      ensures profiles == Upsert(old(profiles), ProfileId, ProfileOf(saved, now))
      ensures currentId == old(currentId)
      ensures old(Consistent()) ==> Consistent()
    {
      saved := character.(updatedAt := now);
      var characterIndex := FirstIndex(characters, CharacterId, saved.id);
      if characterIndex >= 0 {
        characters := characters[characterIndex := saved];
      } else {
        characters := characters + [saved];
      }
      UpdateCharacterProfile(saved, now);
    }

    /** `updateCharacterProfile`: the profile of `character`, upserted by id. */
    method UpdateCharacterProfile(character: Character, now: Timestamp)
      modifies this
      ensures profiles == Upsert(old(profiles), ProfileId, ProfileOf(character, now))
      ensures characters == old(characters) && currentId == old(currentId)
    {
      var profile := ProfileOf(character, now);
      var profileIndex := FirstIndex(profiles, ProfileId, character.id);
      if profileIndex >= 0 {
        profiles := profiles[profileIndex := profile];
      } else {
        profiles := profiles + [profile];
      }
    }

    /**
     * `loadCharacter`: the first character with the id, which also becomes the current one;
     * nothing, and no change, for an unknown id.
     */
    method LoadCharacter(characterId: string) returns (r: Option<Character>)
      modifies this
      ensures r == Find(old(characters), CharacterId, characterId)
      ensures characters == old(characters) && profiles == old(profiles)
      ensures currentId == if r.Some? then Some(characterId) else old(currentId)
    {
      r := Find(characters, CharacterId, characterId);
      if r.Some? {
        currentId := Some(characterId);
      }
    }

    /** `getAllCharacters` */
    method GetAllCharacters() returns (r: seq<Character>)
      ensures r == characters
    {
      r := characters;
    }

    /** `getCharacterProfiles` */
    method GetCharacterProfiles() returns (r: seq<CharacterProfile>)
      ensures r == profiles
    {
      r := profiles;
    }

    /**
     * `deleteCharacter`: every character and every profile with the id goes, the rest stay
     * in order; the current id is cleared only when it is the deleted one.
     */
    method DeleteCharacter(characterId: string)
      modifies this
      ensures characters == RemoveKey(old(characters), CharacterId, characterId)
      ensures profiles == RemoveKey(old(profiles), ProfileId, characterId)
      ensures currentId == if old(currentId) == Some(characterId) then None else old(currentId)
      ensures old(Consistent()) ==> Consistent()
    {
      characters := RemoveKey(characters, CharacterId, characterId);
      profiles := RemoveKey(profiles, ProfileId, characterId);
      if currentId == Some(characterId) {
        currentId := None;
      }
    }

    /** `getCurrentCharacterId` */
    method GetCurrentCharacterId() returns (r: Option<string>)
      ensures r == currentId
    {
      r := currentId;
    }

    /** `setCurrentCharacter` */
    method SetCurrentCharacter(characterId: string)
      modifies this
      ensures currentId == Some(characterId)
      ensures characters == old(characters) && profiles == old(profiles)
    {
      currentId := Some(characterId);
    }

    /**
     * `getCurrentCharacter`: nothing when no id is set (the empty string counts as unset);
     * otherwise what loading that id gives. Loading re-sets the id it already holds, so the
     * store is left as it was.
     */
    method GetCurrentCharacter() returns (r: Option<Character>)
      modifies this
      ensures r == CurrentOf(old(characters), old(currentId))
      ensures characters == old(characters) && profiles == old(profiles) && currentId == old(currentId)
    {
      var currentCharacterId := GetCurrentCharacterId();
      if currentCharacterId.Some? && currentCharacterId.value != "" {
        r := LoadCharacter(currentCharacterId.value);
      } else {
        r := None;
      }
    }

    /** `clearAllData`: all three keys removed. */
    method ClearAllData()
      modifies this
      ensures characters == [] && profiles == [] && currentId == None
      ensures Consistent()
    {
      characters := [];
      profiles := [];
      currentId := None;
    }

    /**
     * `exportCharacter`: the character loaded by id (the JSON text of it in the source),
     * which therefore becomes the current one.
     */
    method ExportCharacter(characterId: string) returns (r: Option<Character>)
      modifies this
      ensures r == Find(old(characters), CharacterId, characterId)
      ensures characters == old(characters) && profiles == old(profiles)
      ensures currentId == if r.Some? then Some(characterId) else old(currentId)
    {
      r := LoadCharacter(characterId);
    }

    /**
     * `importCharacter`: the parsed record under the new id, created and updated now, saved
     * by the same upsert as any other save. The new id (`Date.now()`) may equal a stored
     * one, whose record the upsert then replaces.
     */
    method ImportCharacter(parsed: Character, newId: string, now: Timestamp) returns (c: Character)
      modifies this
      ensures c == parsed.(id := newId, createdAt := now, updatedAt := now)
      ensures characters == Upsert(old(characters), CharacterId, c)
      ensures profiles == Upsert(old(profiles), ProfileId, ProfileOf(c, now))
      ensures currentId == old(currentId)
      ensures old(Consistent()) ==> Consistent()
    {
      c := parsed.(id := newId, createdAt := now, updatedAt := now);
      var saved := SaveCharacter(c, now);
      assert saved == c;
    }
  }

  /** Saving a record whose id is already stored keeps every other id and the list's length. */
  lemma SaveExistingKeepsShape(cs: seq<Character>, c: Character)
    requires c.id in Keys(cs, CharacterId)
    ensures |Upsert(cs, CharacterId, c)| == |cs|
    ensures Keys(Upsert(cs, CharacterId, c), CharacterId) == Keys(cs, CharacterId)
  {
  }

  /** Deleting an id that is not stored changes nothing; deleting twice is deleting once. */
  lemma DeleteUnknownOrTwice(cs: seq<Character>, id: string)
    ensures id !in Keys(cs, CharacterId) ==> RemoveKey(cs, CharacterId, id) == cs
    ensures RemoveKey(RemoveKey(cs, CharacterId, id), CharacterId, id) == RemoveKey(cs, CharacterId, id)
  {
  }
}
