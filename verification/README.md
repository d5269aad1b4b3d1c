# Letter-puzzle core of a chemistry platformer, in Dafny

This project models the puzzle logic of a Unity 2D platformer. The player
answers a chemistry question by landing on letter tiles in the order that
spells the answer before a countdown runs out. Everything the engine does is
left out: physics, rendering, UI, audio, scene loading and the voice
transport. The model keeps the logic that sits under that glue:

- **Puzzle state** (`Puzzle`, `WordCompletion`): the answer, the letters
  collected so far, and the countdown. `TryCollectLetter` accepts a letter
  only when it is the next letter of the answer, ignoring case.
  `OnLetterCollected` appends the letter. A word that is spelled stops the
  timer. A full-length list that does not spell the word is cleared. A
  countdown that runs out stops and clears the list.
- **Older puzzle manager** (`PuzzleManagerV1`): the same word check with no
  order check and no timer.
- **Letter tiles** (`LetterTiles`): a tile that is landed on from above asks
  the puzzle whether its letter comes next. If so, it marks itself collected
  and reports its letter, at most once.
- **Tile layout** (`PuzzleSpawning`, `TileSpawning`, `FisherYates`,
  `Placements`): the first spawner upper-cases the answer, pads it with
  random letters A-Z up to the slot count, shuffles it in place and puts
  letter `i` on slot `i`. The second spawner shuffles its map tiles in place
  and puts answer letter `i` on map tile `i`.
- **Questions** (`Questions`, `LegacyQuestions`, `QuestionBank`): answers are
  normalised to upper case with spaces removed. Difficulty is stored by name,
  and each difficulty has a time limit. The bank draws from the pool of a
  difficulty and then sets up the round.
- **Voice commands** (`VoiceCommands`): twelve phrases map to four
  directions. An utterance is lower-cased and trimmed. It then matches a
  phrase exactly, or else the first phrase in table order that it contains.

Modelling choices:

- Random draws are parameters. `picks[i]` is the value `Random.Range(i, n)`
  gave at shuffle step `i`. `decoys[j]` is the `Random.Range(0, 26)` draw
  for the `j`-th padding letter. `pick` is the question index.
- A C# reference that may be null is an `Option`.
- Times are integers, and a frame's elapsed time `dt` is a parameter.
- Upper- and lower-casing apply to ASCII letters only.
  `Trim` strips ASCII white space.
- Instantiating a tile and calling `SetLetter` on it is recorded as a
  `Placement(slot, letter)`. A spawn position or map tile is a `Slot`
  identity.
- The voice dictionary is a sequence of entries in enumeration order. That
  order is taken to be insertion order, which is how .NET enumerates a
  dictionary nothing was removed from.
- Three behaviours of the code are worth stating plainly:
  - A list that reaches the answer's length without spelling it is cleared, and the round goes on (`Assets/Scripts/PuzzleGame/PuzzleManager.cs`, `CheckWordCompletion`).
  - The first spawner never cuts the padded letter list down. It places one tile per spawn position, so `min(slots, letters)` tiles (`Assets/Scripts/PuzzleSpawner.cs`, `SpawnPuzzle`).
  - The countdown can drop below zero for one frame before the next `Update` sets it to 0 (`Assets/Scripts/PuzzleGame/PuzzleManager.cs`, `Update`).

## Model

| member | source | states |
|---|---|---|
| `Puzzle.FirstChar` | Assets/Scripts/PuzzleGame/PuzzleManager.cs:68 | the letter's first character, or `'\0'` for an empty letter |
| `Puzzle.Accepts` | Assets/Scripts/PuzzleGame/PuzzleManager.cs:53-75 | no answer or an empty answer accepts nothing; a full list accepts nothing; otherwise accepted exactly when the first character of the letter (`'\0'` if empty) equals the next answer character, ignoring case |
| `Puzzle.PuzzleManager.TryCollectLetter` | Assets/Scripts/PuzzleGame/PuzzleManager.cs:53-75 | a read-only query whose result depends only on the answer and the number of collected letters (not on the timer) |
| `Puzzle.PuzzleManager.constructor` | Assets/Scripts/PuzzleGame/PuzzleManager.cs:8-15 | starts with the inspector's answer, no letters and the timer stopped |
| `Puzzle.PuzzleManager.Update` | Assets/Scripts/PuzzleGame/PuzzleManager.cs:30-50 | not running: nothing changes; running with time left: time decreases by `dt`; running with none left: time set to 0, timer stopped, letters cleared |
| `Puzzle.PuzzleManager.OnLetterCollected` | Assets/Scripts/PuzzleGame/PuzzleManager.cs:77-81 | the new list is the word check applied to the old list plus the letter; the timer stops exactly when that list spells the answer; answer and time untouched |
| `Puzzle.PuzzleManager.CheckWordCompletion` | Assets/Scripts/PuzzleGame/PuzzleManager.cs:83-100 | spelled: letters kept and timer stopped; full length but wrong: cleared; otherwise nothing changes |
| `Puzzle.PuzzleManager.StartTimer` | Assets/Scripts/PuzzleGame/PuzzleManager.cs:102-107 | limit and remaining time become the duration and the timer runs; answer and letters untouched |
| `Puzzle.PuzzleManager.OnTimeUp` | Assets/Scripts/PuzzleGame/PuzzleManager.cs:108-116 | clears the letters and nothing else |
| `Puzzle.PuzzleManager.StopTimer` | Assets/Scripts/PuzzleGame/PuzzleManager.cs:117-120 | only clears the running flag |
| `Puzzle.PuzzleManager.SetCorrectAnswer` | Assets/Scripts/PuzzleGame/PuzzleManager.cs:121-125 | replaces the answer and empties the list; timer fields untouched |
| `WordCompletion.Solved` | Assets/Scripts/PuzzleGame/PuzzleManager.cs:85-86 | the joined letters spell the answer ignoring case exactly when they have its length and match it character by character after upper-casing; an exact spelling counts |
| `WordCompletion.Join` | Assets/Scripts/PuzzleGame/PuzzleManager.cs:85 | joining single-character letters gives a word of as many characters as letters |
| `WordCompletion.CheckCompletion` | Assets/Scripts/PuzzleGame/PuzzleManager.cs:83-100 | the list is kept or cleared; kept when it spells the answer or is shorter than it; cleared when full length and wrong; afterwards it spells the answer or is shorter than it |
| `Puzzle.OnTrackSpellsPrefix` | Assets/Scripts/PuzzleGame/PuzzleManager.cs:67-69 | letters that each passed the order check spell, ignoring case, the answer's prefix of that length |
| `Puzzle.OnTrackFullIsSolved` | Assets/Scripts/PuzzleGame/PuzzleManager.cs:60-66 | a full list of order-checked letters spells the answer, and after that no letter is accepted |
| `Puzzle.AcceptedLetterAdvances` | Assets/Scripts/PuzzleGame/PuzzleManager.cs:53-100 | an accepted one-character letter is appended and never cleared; the list stays order-checked; the word is solved exactly when that letter was the last |
| `Puzzle.ReplayPrefix` | Assets/Scripts/PuzzleGame/PuzzleManager.cs:77-100 | collecting the first k answer letters in order from empty leaves exactly those k letters |
| `Puzzle.InOrderSolves` | Assets/Scripts/PuzzleGame/PuzzleManager.cs:53-100 | with a non-empty answer, every in-order letter is accepted, no earlier prefix counts as solved, and after all of them the word is solved (which stops the timer) |
| `Puzzle.Letters` | Assets/Scripts/TileSpawner.cs:36 | the tiles' one-character labels, one per answer character |
| `PuzzleManagerV1.PuzzleManager.constructor` | Assets/Scripts/PuzzleManager.cs:8-9 | starts with the inspector's answer and no letters |
| `PuzzleManagerV1.PuzzleManager.OnLetterCollected` | Assets/Scripts/PuzzleManager.cs:23-27 | any letter is appended with no order check and kept while the list is shorter than the answer; afterwards the list spells the answer or is shorter; a null answer is excluded because the source dereferences it |
| `PuzzleManagerV1.PuzzleManager.CheckWordCompletion` | Assets/Scripts/PuzzleManager.cs:29-43 | keeps a spelled list, clears a full-length wrong one |
| `PuzzleManagerV1.PuzzleManager.SetCorrectAnswer` | Assets/Scripts/PuzzleManager.cs:45-49 | sets the answer and empties the list |
| `PuzzleManagerV1.WrongLetterKept` | Assets/Scripts/PuzzleManager.cs:23-43 | for any answer of two or more letters and any one-character letter the newer manager's order check refuses as the first: the old manager keeps it, no letters collected after it can spell the answer, and the list is cleared once it reaches the answer's length |
| `LetterTiles.LetterTile.constructor` | Assets/Scripts/LetterTile.cs:5-8 | a tile starts uncollected with its letter |
| `LetterTiles.LetterTile.OnCollisionEnter2D` | Assets/Scripts/LetterTile.cs:22-35 | nothing changes unless the contact is from above, the tile is uncollected, a puzzle exists and it accepts the letter; then the tile is collected and the puzzle runs `OnLetterCollected` with the tile's own letter; the tile reports at most once over any sequence of collisions |
| `LetterTiles.LetterTile.CollectLetter` | Assets/Scripts/LetterTile.cs:37-67 | marks the tile collected, reports its letter once to the puzzle when there is one |
| `LetterTiles.LetterTile.GetLetter` | Assets/Scripts/LetterTile.cs:69 | returns the tile's letter |
| `LetterTiles.LetterTile.SetLetter` | Assets/Scripts/LetterTile.cs:71-78 | afterwards `GetLetter` returns the new letter; the collected flag is untouched |
| `FisherYates.Swap` | Assets/Scripts/PuzzleSpawner.cs:63-66 | exchanges the two positions, leaves the rest, keeps length and multiset |
| `FisherYates.Shuffled` | Assets/Scripts/PuzzleSpawner.cs:59-68 | the whole pass with swap indices in `[i, Count)` keeps length and multiset: a permutation |
| `FisherYates.ShuffleInPlace` | Assets/Scripts/PuzzleSpawner.cs:59-68 | the array afterwards is the pass applied to its old contents, a permutation of them |
| `FisherYates.ShuffledMembers` | Assets/Scripts/PuzzleSpawner.cs:59-68 | an element is in the shuffled list exactly when it is in the input |
| `FisherYates.ShuffledDistinct` | Assets/Scripts/TileSpawner.cs:42-51 | shuffling distinct map tiles leaves them distinct, because the pass is a permutation |
| `PuzzleSpawning.DecoyLetter` | Assets/Scripts/PuzzleSpawner.cs:32 | a padding letter is in 'A'..'Z' |
| `PuzzleSpawning.SpawnCount` | Assets/Scripts/PuzzleSpawner.cs:27-34 | the pre-shuffle length is max(answer length, slot count) |
| `PuzzleSpawning.Padded` | Assets/Scripts/PuzzleSpawner.cs:27-34 | the list starts with the upper-cased answer in order, has length max(answer, slots), and every added letter is in 'A'..'Z' |
| `PuzzleSpawning.PadWithDecoys` | Assets/Scripts/PuzzleSpawner.cs:30-34 | the padding loop builds exactly that list |
| `PuzzleSpawning.LayoutHoldsAnswer` | Assets/Scripts/PuzzleSpawner.cs:21-47 | with at least as many slots as answer letters, the placed letters are one per slot and hold the upper-cased answer as a sub-multiset; the rest are letters A-Z |
| `PuzzleSpawning.LayoutLetters` | Assets/Scripts/PuzzleSpawner.cs:21-36 | every laid-out letter comes from the upper-cased answer or is in 'A'..'Z' |
| `PuzzleSpawning.PuzzleSpawner.constructor` | Assets/Scripts/PuzzleSpawner.cs:6-10 | the spawn positions and puzzle reference as configured, no answer letters |
| `PuzzleSpawning.PuzzleSpawner.SpawnPuzzle` | Assets/Scripts/PuzzleSpawner.cs:12-48 | the puzzle gets the original answer with an empty list and an untouched timer; `answerLetters` is the upper-cased answer; exactly one tile per spawn position, slot `i` getting letter `i` of the shuffled padded list |
| `PuzzleSpawning.PuzzleSpawner.CopyAnswerLetters` | Assets/Scripts/PuzzleSpawner.cs:21-25 | `answerLetters` becomes the characters of the upper-cased answer in order |
| `PuzzleSpawning.PuzzleSpawner.PlaceLetters` | Assets/Scripts/PuzzleSpawner.cs:39-47 | min(slots, letters) tiles; slot `i` gets letter `i` |
| `TileSpawning.TileSpawner.constructor` | Assets/Scripts/TileSpawner.cs:12-19 | the map tiles are the parent's children in order |
| `TileSpawning.TileSpawner.Shuffle` | Assets/Scripts/TileSpawner.cs:42-51 | the map-tile list is shuffled in place and stays a permutation of itself |
| `TileSpawning.TileSpawner.SpawnLetterTiles` | Assets/Scripts/TileSpawner.cs:21-40 | the shuffled order stays in the field; min(answer length, map tiles) tiles; tile `i` carries answer letter `i` on shuffled map tile `i` |
| `TileSpawning.PlaceAnswer` | Assets/Scripts/TileSpawner.cs:27-39 | the assignment loop: min(answer, tiles) placements, letter `i` on tile `i`, slots a prefix of the tiles |
| `TileSpawning.PlacementSlotsDistinct` | Assets/Scripts/TileSpawner.cs:24-31 | distinct map tiles give every spawned letter its own tile |
| `Questions.DifficultyName` | Assets/Scripts/PuzzleGame/Question.cs:20 | a difficulty is stored as one of the three enum names |
| `Questions.ParseDifficulty` | Assets/Scripts/PuzzleGame/Question.cs:26-35 | "Normal" gives Normal, "Hard" gives Hard, every other string Easy |
| `Questions.DifficultyRoundTrip` | Assets/Scripts/PuzzleGame/Question.cs:20-35 | reading back a stored name gives the same difficulty |
| `Questions.NormalizeAnswer` | Assets/Scripts/PuzzleGame/Question.cs:19 | the normalised answer has no space and no lower-case letter; it loses characters exactly when the input has spaces |
| `Questions.NormalizeAnswerContent` | Assets/Scripts/PuzzleGame/Question.cs:19 | exactly the spaces go: the normalised answer holds every other character of the upper-cased answer, as often as it occurs there |
| `Questions.NormalizeAppend` | Assets/Scripts/PuzzleGame/Question.cs:19 | normalising a concatenation concatenates the normalised parts, so the surviving characters keep their order |
| `Questions.NormalizeKeepsNormal` | Assets/Scripts/PuzzleGame/Question.cs:19 | an answer without spaces or lower-case letters is unchanged |
| `Questions.NormalizeIdempotent` | Assets/Scripts/PuzzleGame/Question.cs:19 | normalising twice is normalising once |
| `Questions.TimeLimit` | Assets/Scripts/PuzzleGame/Question.cs:37-46 | every limit is 30, 60 or 90 seconds |
| `Questions.TimeLimitDecreases` | Assets/Scripts/PuzzleGame/Question.cs:41-43 | a harder level gets strictly less time: Easy > Normal > Hard |
| `Questions.Question.GetDifficultyLevel` | Assets/Scripts/PuzzleGame/Question.cs:26-35 | the level whose name is stored, or Easy for an unknown name |
| `Questions.Question.GetTimeLimit` | Assets/Scripts/PuzzleGame/Question.cs:37-46 | "Hard" 30, "Normal" 60, any other stored string 90 |
| `Questions.NewQuestion` | Assets/Scripts/PuzzleGame/Question.cs:16-21 | keeps the text, normalises the answer (no spaces), stores the level's name, and reading it back gives the constructor's level and its time limit |
| `LegacyQuestions.Question.GetDifficultyLevel` | Assets/Scripts/Question.cs:26-35 | the level whose name is stored, or Easy for an unknown name |
| `LegacyQuestions.NewQuestion` | Assets/Scripts/Question.cs:16-21 | keeps the text, the answer is the normalised answer with no space and no lower-case letter, stores the level's name, and the level round-trips |
| `Ascii.ToUpper` | Assets/Scripts/PuzzleGame/Question.cs:19 | same length, each character upper-cased (ASCII letters; everything else kept) |
| `Ascii.ToLower` | Assets/Scripts/VoiceControl/VoiceCommandParser.cs:46 | same length, each character lower-cased (ASCII letters; everything else kept) |
| `Ascii.RemoveSpaces` | Assets/Scripts/PuzzleGame/Question.cs:19 | no space is left, the result is no longer than the input and only holds its characters, and an input without spaces is returned as it is |
| `Ascii.RemoveSpacesContent` | Assets/Scripts/PuzzleGame/Question.cs:19 | exactly the spaces are removed: every other character stays, as often as it occurs |
| `Ascii.RemoveSpacesAppend` | Assets/Scripts/PuzzleGame/Question.cs:19 | removal works piece by piece, so the kept characters stay in order |
| `Ascii.Trim` | Assets/Scripts/VoiceControl/VoiceCommandParser.cs:46 | the result occurs in the input, everything before and after it is white space, and it neither starts nor ends with white space |
| `Ascii.TrimIsUnique` | Assets/Scripts/VoiceControl/VoiceCommandParser.cs:46 | any infix with those properties is the trimmed string, so the result is fully determined |
| `Ascii.TrimKeepsNoUpper` | Assets/Scripts/VoiceControl/VoiceCommandParser.cs:46 | trimming a lower-cased utterance cannot bring back an upper-case letter: every kept character comes from the input |
| `Ascii.Contains` | Assets/Scripts/VoiceControl/VoiceCommandParser.cs:57 | the scan over start positions finds the phrase exactly when it occurs somewhere in the text |
| `Wrappers.Option.GetOr` | Assets/Scripts/PuzzleGame/QuestionBankManager.cs:63-65 | a null list becomes the empty list, a present one is kept |
| `QuestionBank.PoolFor` | Assets/Scripts/PuzzleGame/QuestionBankManager.cs:94-100 | Easy, Normal and Hard choose their own pool |
| `QuestionBank.Draw` | Assets/Scripts/PuzzleGame/QuestionBankManager.cs:102-108 | no question exactly when the pool is empty; otherwise the drawn member of the pool |
| `QuestionBank.HardcodedAnswer` | Assets/Scripts/PuzzleGame/QuestionBankManager.cs:84-89 | each built-in answer survives normalisation unchanged |
| `QuestionBank.HardcodedBank` | Assets/Scripts/PuzzleGame/QuestionBankManager.cs:82-90 | two Easy questions (WATER, SALT), one Normal (CATALYST), one Hard (ORGANIC), each reading back its level |
| `QuestionBank.QuestionBankManager.constructor` | Assets/Scripts/PuzzleGame/QuestionBankManager.cs:21-30 | empty pools, no current question |
| `QuestionBank.QuestionBankManager.Start` | Assets/Scripts/PuzzleGame/QuestionBankManager.cs:32-51 | loads from JSON when asked, the built-in list otherwise |
| `QuestionBank.QuestionBankManager.LoadQuestionsFromJSON` | Assets/Scripts/PuzzleGame/QuestionBankManager.cs:53-80 | a parsed database replaces the pools, with null lists as empty lists; a missing or malformed file adds the built-in questions |
| `QuestionBank.QuestionBankManager.InitializeQuestionBankHardcoded` | Assets/Scripts/PuzzleGame/QuestionBankManager.cs:82-90 | appends the built-in questions to their pools |
| `QuestionBank.QuestionBankManager.GetRandomQuestion` | Assets/Scripts/PuzzleGame/QuestionBankManager.cs:92-109 | null exactly when the chosen pool is empty; otherwise the drawn question, a member of that pool |
| `QuestionBank.QuestionBankManager.StartPuzzle` | Assets/Scripts/PuzzleGame/QuestionBankManager.cs:111-119 | the current question is the draw; without one nothing else changes; with one the round is set up |
| `QuestionBank.QuestionBankManager.SetupPuzzle` | Assets/Scripts/PuzzleGame/QuestionBankManager.cs:121-132 | the puzzle gets the question's answer with an empty list and a running timer at the question's time limit; the tile spawner shuffles and lays out the answer |
| `VoiceCommands.IndexOf` | Assets/Scripts/VoiceControl/VoiceCommandParser.cs:48 | finds a phrase exactly when it is in the table |
| `VoiceCommands.StandardTable` | Assets/Scripts/VoiceControl/VoiceCommandParser.cs:22-40 | twelve distinct phrases; "go X" and "move X" are the bare word X with a prefix and map to its direction |
| `VoiceCommands.PrefixedPhrase` | Assets/Scripts/VoiceControl/VoiceCommandParser.cs:30-39 | each alternative phrase is its bare word behind "go " or "move " |
| `VoiceCommands.NextPhraseIsNew` | Assets/Scripts/VoiceControl/VoiceCommandParser.cs:24-39 | each phrase inserted is new to the table built so far |
| `VoiceCommands.Clean` | Assets/Scripts/VoiceControl/VoiceCommandParser.cs:46 | the cleaned utterance is the lower-cased input with only white space cut from either end (an infix preceded and followed by white space alone), so it is no longer than the input, has no upper-case letter, and neither starts nor ends with white space; by `Ascii.TrimIsUnique` this fixes it completely |
| `VoiceCommands.FirstContained` | Assets/Scripts/VoiceControl/VoiceCommandParser.cs:55-63 | the first phrase in table order that the text contains, or none when no phrase is contained |
| `VoiceCommands.Recognize` | Assets/Scripts/VoiceControl/VoiceCommandParser.cs:42-64 | at most one command, whose direction is its phrase's and whose phrase the cleaned text contains; an exact match wins; otherwise nothing is emitted exactly when no phrase is contained, and else the first contained phrase is |
| `VoiceCommands.FallbackFindsBareWord` | Assets/Scripts/VoiceControl/VoiceCommandParser.cs:25-63 | with the standard table, the substring search always emits one of the four bare direction words |
| `VoiceCommands.VoiceCommandParser.constructor` | Assets/Scripts/VoiceControl/VoiceCommandParser.cs:7 | starts with an empty dictionary |
| `VoiceCommands.VoiceCommandParser.SetCommand` | Assets/Scripts/VoiceControl/VoiceCommandParser.cs:25 | the dictionary indexer: a new key goes last, an existing one is overwritten in place; keys stay distinct |
| `VoiceCommands.VoiceCommandParser.InitializeCommands` | Assets/Scripts/VoiceControl/VoiceCommandParser.cs:22-40 | from the empty dictionary, the table becomes exactly the twelve phrases in insertion order |
| `VoiceCommands.VoiceCommandParser.AddMovementCommands` | Assets/Scripts/VoiceControl/VoiceCommandParser.cs:24-28 | adds the four bare words |
| `VoiceCommands.VoiceCommandParser.AddGoCommands` | Assets/Scripts/VoiceControl/VoiceCommandParser.cs:30-34 | adds the four "go" phrases |
| `VoiceCommands.VoiceCommandParser.AddMoveCommands` | Assets/Scripts/VoiceControl/VoiceCommandParser.cs:36-39 | adds the four "move" phrases |
| `VoiceCommands.VoiceCommandParser.HandleSpeechRecognized` | Assets/Scripts/VoiceControl/VoiceCommandParser.cs:42-64 | the events for an utterance are the match against the parser's own table |

## Left out

- Engine glue is not modelled: `Awake` and the `Instance` singletons, `Instantiate`/`Destroy`, `FindObjectsByType` (so `ClearExistingTiles` is not modelled), `Debug.Log`, colliders, rigid bodies, animators, the disappear delay, `SetSprite` and the tile label.
- UI calls are not modelled: `ShowCompletion`, `ShowQuestion` and `UpdateTimerUI`.
- Collision contact normals become one boolean: the first contact points up by more than 0.5.
- `Resources.Load` and `JsonUtility` are parameters. The JSON resource is missing, malformed, or a database whose lists may be null.
- `Random.Range` is an oracle of draws within the stated ranges; nothing is claimed about uniformity.
- Float time is not modelled: time values are integers, and float rounding is out of scope.
- `ToUpper`, `ToLower` and `OrdinalIgnoreCase` are modelled on ASCII letters only; culture-specific casing is not modelled.
- `Trim` strips only ASCII white space, not the other Unicode white-space characters .NET strips.
- A null `answer` passed to a spawner, a null tile letter, and the parameterless `Question()` constructor (all fields null) are not modelled.
- PuzzleSpawning.PuzzleSpawner: the puzzle-manager reference is always present. In the scene it is an inspector field that may be left unassigned, and then `SpawnPuzzle` would throw on `SetCorrectAnswer`.
- `GetComponent<LetterTile>()` is assumed to find a tile on every instantiated object. When it returns null, the source skips `SetLetter` and leaves a tile without a letter, which the placements do not record.
- QuestionBank.PoolFor has no counterpart for the unreachable `_ => easyQuestions` arm of the switch, since the enum has three values.
- The unreachable `_ => 60f` default of `GetTimeLimit` has no counterpart, since the enum has three values.
- `GetCurrentQuestion` is a plain getter of `currentQuestion` and has no member of its own.
- Subscribing to and unsubscribing from the recognition manager (`Start`, `OnDestroy`) is engine wiring and is not modelled.
- VoiceCommands.VoiceCommandParser.InitializeCommands: the exact resulting table is stated only when starting from the empty dictionary, which is how `Start` calls it. From any other dictionary only the key-distinctness invariant is stated.
- VoiceCommands.VoiceCommandParser.InitializeCommands is split into three groups of four insertions, one per block of the source, to keep each proof small.
