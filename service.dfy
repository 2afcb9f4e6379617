/** The character service: an in-memory store of characters keyed by id,
    with the five operations the HTTP endpoints expose. */
module Service {
  import opened Text
  import opened Records
  import opened Progression

  /** No two quests of one character share a name, ignoring ASCII case. */
  ghost predicate DistinctQuestNames(quests: seq<Quest>) {
    forall i, j :: 0 <= i < j < |quests| ==> Lower(quests[i].name) != Lower(quests[j].name)
  }

  /** Some held quest has the name `name`, ignoring ASCII case. */
  ghost predicate HoldsQuestNamed(quests: seq<Quest>, name: string) {
    exists i :: 0 <= i < |quests| && SameName(quests[i].name, name)
  }

  /** Some stored character has exactly the name `name` (case matters). */
  predicate NameInUse(characters: map<int, Character>, name: string) {
    exists id :: id in characters && characters[id].name == name
  }

  /** What holds of every stored character: a valid class, a level of at
      least 1, experience below the level's threshold (no level-up is ever
      owed) and no two quests of the same name. */
  ghost predicate WellFormed(c: Character) {
    && c.characterClass in Classes
    && c.level >= 1
    && c.experience < Threshold(c.level)
    && DistinctQuestNames(c.quests)
  }

  /** The duplicate scan of an accept-quest request: walks the held quests
      in order and stops at the first whose folded name equals the folded
      new name. */
  method ScanForQuest(quests: seq<Quest>, name: string) returns (found: bool)
    ensures found <==> HoldsQuestNamed(quests, name)
  {
    var key := Lower(name);
    for i := 0 to |quests|
      invariant forall k :: 0 <= k < i ==> Lower(quests[k].name) != key
    {
      if Lower(quests[i].name) == key {
        assert SameName(quests[i].name, name);
        return true;
      }
    }
    return false;
  }

  /** Removing the oldest quest keeps the names distinct. */
  lemma DropFirstKeepsDistinct(quests: seq<Quest>)
    requires quests != []
    requires DistinctQuestNames(quests)
    ensures DistinctQuestNames(quests[1..])
  {
  }

  /** Appending a quest whose name no held quest has keeps the names
      distinct. */
  lemma AppendFreshKeepsDistinct(quests: seq<Quest>, q: Quest)
    requires DistinctQuestNames(quests)
    requires !HoldsQuestNamed(quests, q.name)
    ensures DistinctQuestNames(quests + [q])
  {
  }

  /** The store. `characters` maps each id to its row; `nextId` is the id
      the next created character receives, as the table's autoincrement key
      would assign it. */
  class Roster {
    var characters: map<int, Character>
    var nextId: int

    ghost predicate Valid()
      reads this
    {
      && nextId >= 1
      && (forall id :: id in characters ==> 1 <= id < nextId)
      && (forall id :: id in characters ==> WellFormed(characters[id]))
      && (forall i, j :: i in characters && j in characters && characters[i].name == characters[j].name ==> i == j)
    }

    /** An empty store. */
    constructor ()
      ensures Valid()
      ensures characters == map[] && nextId == 1
    {
      characters := map[];
      nextId := 1;
    }

    /** Create a character: the class must be one of Classes (checked
        first), the name must not be taken; the new character starts at level
        1 with no experience and no quests and gets the next id. */
    method CreateCharacter(name: string, characterClass: string) returns (r: Result<Profile>)
      requires Valid()
      modifies this
      ensures Valid()
      ensures characterClass !in Classes ==>
        r == Err(InvalidClass) && characters == old(characters) && nextId == old(nextId)
      ensures characterClass in Classes && NameInUse(old(characters), name) ==>
        r == Err(NameTaken) && characters == old(characters) && nextId == old(nextId)
      ensures characterClass in Classes && !NameInUse(old(characters), name) ==>
        var c := Character(name, characterClass, StartLevel, StartExperience, []);
        && old(nextId) !in old(characters)
        && r == Ok(Profile(old(nextId), c))
        && characters == old(characters)[old(nextId) := c]
        && nextId == old(nextId) + 1
      ensures r.Err? ==> r.error.Status() == 400
    {
      if characterClass !in Classes {
        return Err(InvalidClass);
      }
      if NameInUse(characters, name) {
        return Err(NameTaken);
      }
      var c := Character(name, characterClass, StartLevel, StartExperience, []);
      var id := nextId;
      characters := characters[id := c];
      nextId := nextId + 1;
      r := Ok(Profile(id, c));
    }

    /** Fetch a character with its quests. */
    method GetCharacter(id: int) returns (r: Result<Profile>)
      ensures id in characters ==> r.Ok? && r.value.id == id && r.value.character == characters[id]
      ensures id !in characters ==> r == Err(CharacterNotFound)
      ensures r.Err? ==> r.error.Status() == 404
    {
      if id !in characters {
        return Err(CharacterNotFound);
      }
      r := Ok(Profile(id, characters[id]));
    }

    /** Accept a quest: the character must exist and hold no quest of the
        same name up to ASCII case. The new quest goes at the end of the
        list, named by `questName` (the request body's own name is not
        used), with the body's description and reward; nothing else
        changes. */
    method AcceptQuest(id: int, questName: string, request: QuestRequest) returns (r: Result<Accepted>)
      requires Valid()
      modifies this
      ensures Valid()
      ensures nextId == old(nextId)
      ensures id !in old(characters) ==>
        r == Err(CharacterNotFound) && characters == old(characters)
      ensures id in old(characters) && HoldsQuestNamed(old(characters)[id].quests, questName) ==>
        r == Err(QuestAlreadyAccepted) && characters == old(characters)
      ensures id in old(characters) && !HoldsQuestNamed(old(characters)[id].quests, questName) ==>
        var c := old(characters)[id];
        var q := Quest(questName, request.description, request.reward);
        && r == Ok(Accepted(questName, c.name))
        && characters == old(characters)[id := c.(quests := c.quests + [q])]
      ensures r.Err? ==> r.error.Status() == (if id in old(characters) then 400 else 404)
    {
      if id !in characters {
        return Err(CharacterNotFound);
      }
      var c := characters[id];
      var duplicate := ScanForQuest(c.quests, questName);
      if duplicate {
        return Err(QuestAlreadyAccepted);
      }
      var q := Quest(questName, request.description, request.reward);
      AppendFreshKeepsDistinct(c.quests, q);
      characters := characters[id := c.(quests := c.quests + [q])];
      r := Ok(Accepted(questName, c.name));
    }

    /** Complete the oldest held quest: the character must exist and hold
        a quest. Its reward joins the experience, the level-up rule settles
        level and experience, the quest is removed and the rest keep their
        order; no other character changes. */
    method CompleteQuest(id: int) returns (r: Result<Completion>)
      requires Valid()
      modifies this
      ensures Valid()
      ensures nextId == old(nextId)
      ensures id !in old(characters) ==>
        r == Err(CharacterNotFound) && characters == old(characters)
      ensures id in old(characters) && old(characters)[id].quests == [] ==>
        r == Err(NoQuests) && characters == old(characters)
      ensures id in old(characters) && old(characters)[id].quests != [] ==>
        var c := old(characters)[id];
        var q := c.quests[0];
        && id in characters
        && var c' := characters[id];
        && characters == old(characters)[id := c']
        && c'.name == c.name
        && c'.characterClass == c.characterClass
        && c'.quests == c.quests[1..]
        && Settles(c.level, c.experience + q.reward, c'.level, c'.experience)
        && r == Ok(Completion(q.reward, c'.level - c.level))
      ensures r.Err? ==> r.error.Status() == (if id in old(characters) then 400 else 404)
    {
      if id !in characters {
        return Err(CharacterNotFound);
      }
      var c := characters[id];
      if c.quests == [] {
        return Err(NoQuests);
      }
      var q := c.quests[0];
      var level, experience, gained := LevelUp(c.level, c.experience + q.reward);
      DropFirstKeepsDistinct(c.quests);
      characters := characters[id := c.(level := level, experience := experience, quests := c.quests[1..])];
      r := Ok(Completion(q.reward, gained));
    }

    /** The quests of a character, oldest first. */
    method ListQuests(id: int) returns (r: Result<seq<Quest>>)
      ensures id in characters ==> r == Ok(characters[id].quests)
      ensures id !in characters ==> r == Err(CharacterNotFound)
      ensures r.Err? ==> r.error.Status() == 404
    {
      if id !in characters {
        return Err(CharacterNotFound);
      }
      r := Ok(characters[id].quests);
    }
  }
}
