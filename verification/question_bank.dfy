/**
 * The question bank (Assets/Scripts/PuzzleGame/QuestionBankManager.cs):
 * three pools of questions by difficulty, filled from a JSON database or a
 * built-in list; starting a puzzle draws a question from the pool of the
 * chosen difficulty and sets up the puzzle, the tiles and the countdown.
 */
module QuestionBank {
  import opened Wrappers
  import opened Ascii
  import opened Questions
  import opened FisherYates
  import opened Placements
  import Puzzle
  import TileSpawning

  /** The deserialised database; a list missing from the JSON text is null. */
  datatype QuestionDatabase = QuestionDatabase(
    easyQuestions: Option<seq<Question>>,
    normalQuestions: Option<seq<Question>>,
    hardQuestions: Option<seq<Question>>)

  /** What loading the JSON resource gives: no file, text that does not parse, or a database. */
  datatype JsonResource = Missing | Malformed | Parsed(database: QuestionDatabase)

  /** The pool the `switch` of `GetRandomQuestion` chooses. */
  function PoolFor(difficulty: DifficultyLevel, easy: seq<Question>, normal: seq<Question>, hard: seq<Question>): (pool: seq<Question>)
    ensures difficulty == Easy ==> pool == easy
    ensures difficulty == Normal ==> pool == normal
    ensures difficulty == Hard ==> pool == hard
  {
    match difficulty
    case Easy => easy
    case Normal => normal
    case Hard => hard
  }

  /**
   * The draw from a pool; `pick` is what `Random.Range(0, pool.Count)`
   * returned, and there is no draw when the pool is empty.
   */
  function Draw(pool: seq<Question>, pick: int): (q: Option<Question>)
    requires pool != [] ==> 0 <= pick < |pool|
    ensures q.None? <==> pool == []
    ensures q.Some? ==> q.value in pool && q.value == pool[pick]
  {
    if |pool| == 0 then None else Some(pool[pick])
  }

  /** The built-in questions (`InitializeQuestionBankHardcoded`), pool by pool. */
  function HardcodedEasy(): seq<Question>
  {
    [NewQuestion("H\U{00E2}\U{201A}\U{201A}O is the chemical formula for?", "WATER", Easy),
     NewQuestion("NaCl is commonly known as?", "SALT", Easy)]
  }

  function HardcodedNormal(): seq<Question>
  {
    [NewQuestion("A substance that speeds up a reaction?", "CATALYST", Normal)]
  }

  function HardcodedHard(): seq<Question>
  {
    [NewQuestion("Study of carbon compounds?", "ORGANIC", Hard)]
  }

  /** A built-in answer is already upper-case without spaces, so the question keeps it as written. */
  lemma HardcodedAnswer(question: string, ans: string, diff: DifficultyLevel)
    requires ans in {"WATER", "SALT", "CATALYST", "ORGANIC"}
    ensures NewQuestion(question, ans, diff).answer == ans
  {
    assert forall i :: 0 <= i < |ans| ==> IsUpper(ans[i]);
    NormalizeKeepsNormal(ans);
  }

  /** Two Easy questions (WATER, SALT), one Normal (CATALYST), one Hard (ORGANIC), each in its own pool. */
  lemma HardcodedBank()
    ensures |HardcodedEasy()| == 2 && HardcodedEasy()[0].answer == "WATER" && HardcodedEasy()[1].answer == "SALT"
    ensures |HardcodedNormal()| == 1 && HardcodedNormal()[0].answer == "CATALYST"
    ensures |HardcodedHard()| == 1 && HardcodedHard()[0].answer == "ORGANIC"
    ensures HardcodedEasy()[0].GetDifficultyLevel() == Easy && HardcodedEasy()[1].GetDifficultyLevel() == Easy
    ensures HardcodedNormal()[0].GetDifficultyLevel() == Normal
    ensures HardcodedHard()[0].GetDifficultyLevel() == Hard
  {
    HardcodedWater();
    HardcodedSalt();
    HardcodedAnswer("A substance that speeds up a reaction?", "CATALYST", Normal);
    HardcodedAnswer("Study of carbon compounds?", "ORGANIC", Hard);
  }

  /** Two built-in Easy questions, one Normal and one Hard. */
  lemma HardcodedSizes()
    ensures |HardcodedEasy()| == 2 && |HardcodedNormal()| == 1 && |HardcodedHard()| == 1
  {
  }

  /** The first Easy question, whose answer is WATER. */
  lemma HardcodedWater()
    ensures HardcodedEasy()[0].answer == "WATER" && HardcodedEasy()[0].GetDifficultyLevel() == Easy
  {
    HardcodedAnswer("H\U{00E2}\U{201A}\U{201A}O is the chemical formula for?", "WATER", Easy);
  }

  /** The second Easy question, whose answer is SALT. */
  lemma HardcodedSalt()
    ensures HardcodedEasy()[1].answer == "SALT" && HardcodedEasy()[1].GetDifficultyLevel() == Easy
  {
    HardcodedAnswer("NaCl is commonly known as?", "SALT", Easy);
  }

  class QuestionBankManager {
    var easyQuestions: seq<Question>
    var normalQuestions: seq<Question>
    var hardQuestions: seq<Question>
    const tileSpawner: TileSpawning.TileSpawner?
    const puzzleManager: Puzzle.PuzzleManager?
    var currentQuestion: Option<Question>

    constructor (tileSpawner: TileSpawning.TileSpawner?, puzzleManager: Puzzle.PuzzleManager?)
      ensures easyQuestions == [] && normalQuestions == [] && hardQuestions == []
      ensures this.tileSpawner == tileSpawner && this.puzzleManager == puzzleManager
      ensures currentQuestion == None
    {
      easyQuestions, normalQuestions, hardQuestions := [], [], [];
      this.tileSpawner := tileSpawner;
      this.puzzleManager := puzzleManager;
      currentQuestion := None;
    }

    /** The first instance's `Start`: the JSON database when asked for, the built-in list otherwise. */
    method Start(loadFromJSON: bool, resource: JsonResource)
      modifies this
      ensures currentQuestion == old(currentQuestion)
      ensures !loadFromJSON || !resource.Parsed? ==>
                && easyQuestions == old(easyQuestions) + HardcodedEasy()
                && normalQuestions == old(normalQuestions) + HardcodedNormal()
                && hardQuestions == old(hardQuestions) + HardcodedHard()
      ensures loadFromJSON && resource.Parsed? ==>
                && easyQuestions == resource.database.easyQuestions.GetOr([])
                && normalQuestions == resource.database.normalQuestions.GetOr([])
                && hardQuestions == resource.database.hardQuestions.GetOr([])
    {
      if loadFromJSON {
        LoadQuestionsFromJSON(resource);
      } else {
        InitializeQuestionBankHardcoded();
      }
    }

    /** A parsed database replaces the pools, a null list by an empty one; otherwise the built-in list is added. */
    method LoadQuestionsFromJSON(resource: JsonResource)
      modifies this
      ensures currentQuestion == old(currentQuestion)
      ensures !resource.Parsed? ==>
                && easyQuestions == old(easyQuestions) + HardcodedEasy()
                && normalQuestions == old(normalQuestions) + HardcodedNormal()
                && hardQuestions == old(hardQuestions) + HardcodedHard()
      ensures resource.Parsed? ==>
                && easyQuestions == resource.database.easyQuestions.GetOr([])
                && normalQuestions == resource.database.normalQuestions.GetOr([])
                && hardQuestions == resource.database.hardQuestions.GetOr([])
    {
      match resource
      case Parsed(database) =>
        easyQuestions := database.easyQuestions.GetOr([]);
        normalQuestions := database.normalQuestions.GetOr([]);
        hardQuestions := database.hardQuestions.GetOr([]);
      case Malformed =>
        InitializeQuestionBankHardcoded();
      case Missing =>
        InitializeQuestionBankHardcoded();
    }

    /** Appends the built-in questions to the pools. */
    method InitializeQuestionBankHardcoded()
      modifies this
      ensures easyQuestions == old(easyQuestions) + HardcodedEasy()
      ensures normalQuestions == old(normalQuestions) + HardcodedNormal()
      ensures hardQuestions == old(hardQuestions) + HardcodedHard()
      ensures currentQuestion == old(currentQuestion)
    {
      HardcodedSizes();
      easyQuestions := easyQuestions + [HardcodedEasy()[0]];
      easyQuestions := easyQuestions + [HardcodedEasy()[1]];
      normalQuestions := normalQuestions + [HardcodedNormal()[0]];
      hardQuestions := hardQuestions + [HardcodedHard()[0]];
    }

    function Pool(difficulty: DifficultyLevel): seq<Question>
      reads this
    {
      PoolFor(difficulty, easyQuestions, normalQuestions, hardQuestions)
    }

    /** No question when the pool of that difficulty is empty; otherwise the drawn member of it. */
    function GetRandomQuestion(difficulty: DifficultyLevel, pick: int): (q: Option<Question>)
      reads this
      requires Pool(difficulty) != [] ==> 0 <= pick < |Pool(difficulty)|
      ensures q.None? <==> Pool(difficulty) == []
      ensures q.Some? ==> q.value == Pool(difficulty)[pick] && q.value in Pool(difficulty)
    {
      Draw(Pool(difficulty), pick)
    }

    /**
     * Draws a question and, when there is one, sets up the round: the
     * puzzle's answer, the tiles, then the countdown with the question's
     * time limit. Returns the tiles the tile spawner instantiated.
     */
    method StartPuzzle(difficulty: DifficultyLevel, pick: int, shufflePicks: seq<int>) returns (spawned: seq<Placement>)
      requires Pool(difficulty) != [] ==> 0 <= pick < |Pool(difficulty)|
      requires tileSpawner != null ==> ValidPicks(shufflePicks, tileSpawner.mapTiles.Length)
      modifies this, puzzleManager, tileSpawner, if tileSpawner != null then {tileSpawner.mapTiles} else {}
      ensures currentQuestion == old(GetRandomQuestion(difficulty, pick))
      ensures easyQuestions == old(easyQuestions) && normalQuestions == old(normalQuestions)
      ensures hardQuestions == old(hardQuestions)
      ensures currentQuestion.None? ==> spawned == []
      ensures currentQuestion.None? && puzzleManager != null ==> unchanged(puzzleManager)
      ensures currentQuestion.None? && tileSpawner != null ==> unchanged(tileSpawner.mapTiles)
      ensures currentQuestion.Some? ==> SetUp(currentQuestion.value, shufflePicks, spawned)
    {
      currentQuestion := GetRandomQuestion(difficulty, pick);
      spawned := [];
      if currentQuestion.Some? {
        spawned := SetupPuzzle(shufflePicks);
      }
    }

    /** The state a round for question `q` starts in. */
    twostate predicate SetUp(q: Question, shufflePicks: seq<int>, spawned: seq<Placement>)
      reads this, puzzleManager, tileSpawner, if tileSpawner != null then {tileSpawner.mapTiles} else {}
    {
      && (puzzleManager != null ==>
            && puzzleManager.correctAnswer == Some(q.answer) && puzzleManager.collectedLetters == []
            && puzzleManager.timeLimit == q.GetTimeLimit() && puzzleManager.timeRemaining == q.GetTimeLimit()
            && puzzleManager.isTimerRunning)
      && (tileSpawner == null ==> spawned == [])
      && (tileSpawner != null ==>
            && ValidPicks(shufflePicks, tileSpawner.mapTiles.Length)
            && tileSpawner.mapTiles[..] == Shuffled(old(tileSpawner.mapTiles[..]), shufflePicks, 0)
            && |spawned| == (if |q.answer| < tileSpawner.mapTiles.Length then |q.answer| else tileSpawner.mapTiles.Length)
            && forall i :: 0 <= i < |spawned| ==> spawned[i] == Placement(tileSpawner.mapTiles[i], [q.answer[i]]))
    }

    method SetupPuzzle(shufflePicks: seq<int>) returns (spawned: seq<Placement>)
      requires currentQuestion.Some?
      requires tileSpawner != null ==> ValidPicks(shufflePicks, tileSpawner.mapTiles.Length)
      modifies puzzleManager, tileSpawner, if tileSpawner != null then {tileSpawner.mapTiles} else {}
      ensures SetUp(currentQuestion.value, shufflePicks, spawned)
    {
      var q := currentQuestion.value;
      if puzzleManager != null {
        puzzleManager.SetCorrectAnswer(Some(q.answer));
      }
      spawned := [];
      if tileSpawner != null {
        spawned := tileSpawner.SpawnLetterTiles(q.answer, shufflePicks);
      }
      if puzzleManager != null {
        puzzleManager.StartTimer(q.GetTimeLimit());
      }
    }
  }
}
