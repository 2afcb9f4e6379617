/** The records the adventurer service stores and returns, the constants it
    fixes, and the errors it raises. */
module Records {

  /** The classes a new character may take, spelled exactly as accepted. */
  const Classes: seq<string> := ["Paladin", "picaro", "sacerdote", "barbaro"]

  /** Level and experience of a freshly created character. */
  const StartLevel: int := 1
  const StartExperience: int := 0

  /** Reward of a quest whose request does not name one. */
  const DefaultReward: int := 50

  /** A quest held by a character. */
  datatype Quest = Quest(name: string, description: string, reward: int)

  /** The body of an accept-quest request. Its `name` is carried but not
      used: the stored quest takes its name from the request path. */
  datatype QuestRequest = QuestRequest(name: string, description: string, reward: int := DefaultReward)

  /** A character row with its quests in the order they were accepted. */
  datatype Character = Character(
    name: string,
    characterClass: string,
    level: int,
    experience: int,
    quests: seq<Quest>)

  /** A character together with its identity, as returned to callers. */
  datatype Profile = Profile(id: int, character: Character)

  /** What a successful completion reports: the reward gained and how many
      levels were climbed. */
  datatype Completion = Completion(reward: int, levelsGained: int)

  /** What a successful acceptance reports: the quest accepted and by whom. */
  datatype Accepted = Accepted(quest: string, character: string)

  /** The errors the service raises. */
  datatype Error =
    | InvalidClass            // class not among Classes
    | NameTaken               // a character with this exact name exists
    | CharacterNotFound       // no character with this id
    | QuestAlreadyAccepted    // a held quest has this name, ignoring case
    | NoQuests                // no quest to complete
  {
    /** The HTTP status the service answers with: not found for an unknown
        id, bad request for every other refusal. */
    function Status(): int {
      if CharacterNotFound? then 404 else 400
    }
  }

  datatype Result<T> = Ok(value: T) | Err(error: Error)
}
