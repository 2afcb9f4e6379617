# Adventurer progression service, modelled in Dafny

The service keeps adventurer characters. Each has a name, a class, a level, an experience total and an ordered list of quests. A client creates a character (the class must be one of four; the name must be new). It then accepts quests for that character (no two held quests may have the same name, ignoring case) and completes them oldest first. Completing a quest adds its reward to the character's experience. Then the level-up rule runs: while experience covers the threshold `100 * level`, pay the threshold and go up one level.

The model has five modules:

- `Text` (`text.dfy`): ASCII lower-casing, used to compare quest names without regard to case.
- `Records` (`records.dfy`): the stored rows (`Character`, `Quest`), the accept-quest request body, the replies, the errors with their HTTP status (404 for an unknown id, 400 otherwise), and the constants: the four classes, start level 1, start experience 0, default reward 50.
- `Progression` (`progression.dfy`): the threshold, and the level-up loop as a method with a `while` loop. The method is proved against `Settles`, a relation that says where the loop stops: every level passed was paid for in full, the payment is gone from the pool, and the remainder is below the threshold of the level reached. Lemmas prove that this stopping point is unique, that bounds hold, that experience is conserved in closed form, and two methods check the worked examples.
- `Service` (`service.dfy`): the store as a class `Roster`. Its fields are a map from id to `Character` and the next id to hand out, which stands in for the table's autoincrement key. It has one method per endpoint. `Valid()` is the store invariant that every method keeps: ids below the next id, names unique across characters, quest names distinct per character up to case, every class among the four, level at least 1, and experience below the threshold of the level (no level-up is ever owed).
- `Scenarios` (`scenarios.dfy`): client runs on a fresh store, proved from the method contracts alone.

Points of behaviour worth knowing:

- Every failure other than an unknown id is answered with HTTP 400 (main.py:85, 88, 116, 130); an unknown id is answered with 404 (main.py:100, 111, 127, 153). The model keeps distinct `Error` constructors for readability, and `Error.Status` maps them to these codes; each operation's contract states which status its refusals carry.
- The reward is an unvalidated `int` (main.py:43), so it may be negative, and the model takes any integer. Experience can therefore become negative, and the store invariant only bounds experience from above.
- The level-up loop (main.py:137-140) stops for every starting level, not only for levels of at least 1. Below level 1 the threshold is not positive, so the level only climbs. `LevelUp` therefore has no precondition.

## Model

| member | source | states |
|---|---|---|
| `Text.Lower` | main.py:115 | same length as the input; no upper-case ASCII letter is left; each character is unchanged or is an upper-case letter moved to its lower-case letter |
| `Text.SameNameIff` | main.py:115 | two names compare equal after lowering exactly when they have the same length and agree position by position after lowering each character |
| `Progression.Threshold` | main.py:78-79 | the experience needed for one level is at least 100 on every level from 1 up, and not positive below level 1 |
| `Progression.PayOneLevel` | main.py:137-139 | paying the threshold of the current level out of what is left extends the paid stretch by one level and adds that threshold to what was consumed |
| `Progression.LevelUp` | main.py:136-140 | the loop stops (for any start level) where `Settles` says; the count of level-ups equals new level minus old level |
| `Progression.SettlesUnique` | main.py:137-140 | the stopping point is determined by the start level and pool: same inputs, same new level and experience |
| `Progression.SettlesBounds` | main.py:133-140 | from level 1 or more: the remaining experience is non-negative exactly when the pool was; a negative pool buys no level; the remainder is below 100 times the new level |
| `Progression.SettledStaysPut` | main.py:137-140 | a pool already below the level's threshold (for example, a zero reward on a settled character) leaves level and experience as they were |
| `Progression.ConsumedClosedForm` | main.py:137-139 | climbing from level a to level b costs 50 * (b - a) * (a + b - 1) experience |
| `Progression.SettlesConserves` | main.py:133-139 | experience is conserved: old experience plus reward equals the new experience plus 100 times the sum of the levels passed through |
| `Progression.ExampleOneLevel` | main.py:133-140 | level 1 with 90 experience and a reward of 50 ends at level 2 with 40 experience, one level gained |
| `Progression.ExampleStopsShort` | main.py:133-140 | level 1 with 0 experience and a reward of 250 ends at level 2 with 150 experience, one level gained |
| `Service.ScanForQuest` | main.py:114-116 | the duplicate scan reports a match exactly when some held quest's lowered name equals the lowered new name |
| `Service.DropFirstKeepsDistinct` | main.py:132-134 | removing the oldest quest keeps quest names distinct up to case |
| `Service.AppendFreshKeepsDistinct` | main.py:114-118 | appending a quest whose name matches no held quest keeps quest names distinct up to case |
| `Service.Roster.constructor` | main.py:17-37 | an empty store whose first id is 1 |
| `Service.Roster.CreateCharacter` | main.py:83-94 | class outside the four fails with InvalidClass (checked first); an exactly equal name fails with NameTaken; on either failure nothing changes; otherwise the new character gets the next id, level 1, experience 0 and no quests, and no other character changes; every refusal is answered with status 400 |
| `Service.Roster.GetCharacter` | main.py:97-101 | returns the stored character under its id, or CharacterNotFound, answered with status 404 |
| `Service.Roster.AcceptQuest` | main.py:108-121 | unknown id fails with CharacterNotFound; a held quest of the same name up to case fails with QuestAlreadyAccepted; either failure changes nothing; otherwise exactly one quest is appended, carrying the path name (not the body's), the body's description and reward, and level, experience, other quests and other characters are unchanged; a refusal is answered with status 404 exactly when the id is unknown, otherwise 400 |
| `Service.Roster.CompleteQuest` | main.py:124-147 | unknown id fails with CharacterNotFound; no quests fails with NoQuests; either failure changes nothing; otherwise the first quest is removed and the rest keep their order, level and experience are where `Settles` puts old experience plus reward, the reply carries the reward and the levels gained, and no other character changes; a refusal is answered with status 404 exactly when the id is unknown, otherwise 400 |
| `Service.Roster.ListQuests` | main.py:150-154 | returns the character's quests oldest first, or CharacterNotFound, answered with status 404 |
| `Scenarios.RejectsUnknownClass` | main.py:84-85 | creating with class "wizard" fails with InvalidClass |
| `Scenarios.NamesAreCaseSensitive` | main.py:87-88 | a second "Ana" fails with NameTaken; "ana" is created with the next id |
| `Scenarios.RejectsDuplicateQuest` | main.py:114-118 | after "Dragon" is accepted, "dRAGON" fails with QuestAlreadyAccepted |
| `Scenarios.RejectsEmptyCompletion` | main.py:129-130 | completing with no quests fails with NoQuests and leaves the character as created |
| `Scenarios.UnknownIdNotFound` | main.py:98-100 | get, accept, complete and list on an id never created all fail with CharacterNotFound |
| `Scenarios.CompletesOldestQuest` | main.py:132-140 | with two quests held, completing takes the older one (reward 250: level 2, 150 experience, one level gained) and leaves the younger one |

## Left out

- The desktop client (`aventureros_gui.py`): form layout, HTTP calls and its name-to-id cache built by probing ids. It holds no service logic.
- Persistence: the SQL engine, sessions, commit and refresh, cascade deletes. The store is an in-memory map. The autoincrement key is a counter starting at 1; no character row is ever deleted, so the two agree.
- HTTP routing, dependency injection, and the request and response schemas beyond the fields they carry and their default values.
- The placeholder quest endpoint (main.py:103-105), which returns a fixed message and touches no state.
- Quest order: the model keeps a character's quests in acceptance order and completes the first of them. The source's relationship (main.py:22) has no explicit ordering, so the order it returns is whatever the database's row-id scan gives; the model assumes that is acceptance order.
- The quest `estado` column: it is always "Incompleta" and no operation changes it.
- Message text: replies are modelled by their content (`Accepted(quest, character)`, `Completion(reward, levelsGained)`), not the formatted strings.
- `Text.Lower`: folds ASCII letters only, not the full Unicode case mapping of the source's lower-casing.
- Integer width: Python integers are unbounded and so are the model's. The 64-bit range of the database column is not modelled.
- Concurrency: two requests completing quests on the same character at once are not modelled. Each operation is atomic in the model.
