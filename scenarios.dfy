/** Client runs against a fresh store, showing what a caller can conclude
    from the operations' contracts alone. */
module Scenarios {
  import opened Text
  import opened Records
  import opened Progression
  import opened Service

  /** "wizard" is not a class the service accepts. */
  method RejectsUnknownClass() returns (r: Result<Profile>)
    ensures r == Err(InvalidClass)
  {
    var roster := new Roster();
    assert "wizard" != "Paladin" && "wizard" != "picaro" && "wizard" != "sacerdote" && "wizard" != "barbaro";
    r := roster.CreateCharacter("Merlin", "wizard");
  }

  /** Names are compared exactly: a second "Ana" is refused, "ana" is a
      different character and gets the next id. */
  method NamesAreCaseSensitive() returns (second: Result<Profile>, third: Result<Profile>)
    ensures second == Err(NameTaken)
    ensures third.Ok? && third.value.id == 2 && third.value.character.name == "ana"
  {
    var roster := new Roster();
    var first := roster.CreateCharacter("Ana", "picaro");
    assert NameInUse(roster.characters, "Ana") by {
      assert roster.characters[1].name == "Ana";
    }
    second := roster.CreateCharacter("Ana", "barbaro");
    assert "ana" != "Ana";
    third := roster.CreateCharacter("ana", "barbaro");
  }

  /** Accepting "Dragon" and then "dRAGON" on the same character: the
      second is refused because the names agree up to case. */
  method RejectsDuplicateQuest() returns (first: Result<Accepted>, second: Result<Accepted>)
    ensures first == Ok(Accepted("Dragon", "Aragorn"))
    ensures second == Err(QuestAlreadyAccepted)
  {
    var roster := new Roster();
    var created := roster.CreateCharacter("Aragorn", "Paladin");
    first := roster.AcceptQuest(1, "Dragon", QuestRequest("ignored", "slay it"));
    assert roster.characters[1].quests == [Quest("Dragon", "slay it", DefaultReward)];
    assert SameName("Dragon", "dRAGON") by {
      SameNameIff("Dragon", "dRAGON");
    }
    assert HoldsQuestNamed(roster.characters[1].quests, "dRAGON") by {
      assert roster.characters[1].quests[0].name == "Dragon";
    }
    second := roster.AcceptQuest(1, "dRAGON", QuestRequest("ignored", "again"));
  }

  /** Completing with nothing to complete fails and leaves the character
      as created. */
  method RejectsEmptyCompletion() returns (r: Result<Completion>, after: Result<Profile>)
    ensures r == Err(NoQuests)
    ensures after == Ok(Profile(1, Character("Frodo", "sacerdote", 1, 0, [])))
  {
    var roster := new Roster();
    var created := roster.CreateCharacter("Frodo", "sacerdote");
    r := roster.CompleteQuest(1);
    after := roster.GetCharacter(1);
  }

  /** Every operation on an id that was never created fails with not found. */
  method UnknownIdNotFound() returns (g: Result<Profile>, a: Result<Accepted>, c: Result<Completion>, l: Result<seq<Quest>>)
    ensures g == Err(CharacterNotFound) && a == Err(CharacterNotFound)
    ensures c == Err(CharacterNotFound) && l == Err(CharacterNotFound)
  {
    var roster := new Roster();
    var created := roster.CreateCharacter("Sam", "barbaro");
    g := roster.GetCharacter(7);
    a := roster.AcceptQuest(7, "Dragon", QuestRequest("Dragon", "slay it"));
    c := roster.CompleteQuest(7);
    l := roster.ListQuests(7);
  }

  /** Two quests accepted, the oldest completed: a reward of 250 from level
      1 buys one level with 150 left over, and only the younger quest
      remains. */
  method CompletesOldestQuest() returns (r: Result<Completion>, after: Result<seq<Quest>>, profile: Result<Profile>)
    ensures r == Ok(Completion(250, 1))
    ensures after == Ok([Quest("Orcs", "clear the camp", 50)])
    ensures profile.Ok? && profile.value.character.level == 2 && profile.value.character.experience == 150
  {
    var roster := new Roster();
    var created := roster.CreateCharacter("Legolas", "picaro");
    var a1 := roster.AcceptQuest(1, "Dragon", QuestRequest("Dragon", "slay it", 250));
    assert roster.characters[1].quests == [Quest("Dragon", "slay it", 250)];
    assert !SameName("Dragon", "Orcs") by {
      assert Lower("Dragon")[0] != Lower("Orcs")[0];
    }
    var a2 := roster.AcceptQuest(1, "Orcs", QuestRequest("Orcs", "clear the camp"));
    assert roster.characters[1].quests == [Quest("Dragon", "slay it", 250), Quest("Orcs", "clear the camp", 50)];
    r := roster.CompleteQuest(1);
    var c := roster.characters[1];
    assert Consumed(1, 2) == 100;
    assert Settles(1, 250, 2, 150);
    SettlesUnique(1, 250, c.level, c.experience, 2, 150);
    after := roster.ListQuests(1);
    profile := roster.GetCharacter(1);
  }
}
