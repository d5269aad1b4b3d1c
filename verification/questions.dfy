/**
 * A quiz question of the puzzle game: its text, its normalised answer and
 * its difficulty stored by name, with the time a round at that difficulty
 * lasts (Assets/Scripts/PuzzleGame/Question.cs).
 */
module Questions {
  import opened Ascii

  datatype DifficultyLevel = Easy | Normal | Hard

  /** `DifficultyLevel.ToString()`: the enum member's name. */
  function DifficultyName(d: DifficultyLevel): (name: string)
    ensures name in {"Easy", "Normal", "Hard"}
  {
    match d
    case Easy => "Easy"
    case Normal => "Normal"
    case Hard => "Hard"
  }

  /** The `switch` of `GetDifficultyLevel`: a known name gives its level, anything else Easy. */
  function ParseDifficulty(name: string): (d: DifficultyLevel)
    ensures name == "Normal" ==> d == Normal
    ensures name == "Hard" ==> d == Hard
    ensures name != "Normal" && name != "Hard" ==> d == Easy
  {
    if name == "Easy" then Easy
    else if name == "Normal" then Normal
    else if name == "Hard" then Hard
    else Easy
  }

  /** Reading back the stored name of a level gives that level. */
  lemma DifficultyRoundTrip(d: DifficultyLevel)
    ensures ParseDifficulty(DifficultyName(d)) == d
  {
  }

  /** `ans.ToUpper().Replace(" ", "")`. */
  function NormalizeAnswer(ans: string): (r: string)
    ensures ' ' !in r
    ensures forall i :: 0 <= i < |r| ==> !IsLower(r[i])
    ensures |r| <= |ans|
    ensures |r| == |ans| <==> ' ' !in ans
  {
    var upper := ToUpper(ans);
    assert ' ' in ans <==> ' ' in upper by {
      forall i | 0 <= i < |ans| ensures ans[i] == ' ' <==> upper[i] == ' ' { }
    }
    RemovedSpacesShorter(upper);
    var r := RemoveSpaces(upper);
    assert forall i :: 0 <= i < |r| ==> !IsLower(r[i]) by {
      forall i | 0 <= i < |r| ensures !IsLower(r[i]) {
        assert r[i] in upper;
      }
    }
    r
  }

  lemma {:induction false} RemovedSpacesShorter(s: string)
    ensures ' ' in s ==> |RemoveSpaces(s)| < |s|
  {
    if s != [] {
      RemovedSpacesShorter(s[1..]);
      if s[0] != ' ' {
        assert ' ' in s ==> ' ' in s[1..];
      }
    }
  }

  /** Normalisation keeps every character of the upper-cased answer except the spaces. */
  lemma NormalizeAnswerContent(ans: string)
    ensures multiset(NormalizeAnswer(ans)) == multiset(ToUpper(ans))[' ' := 0]
  {
    RemoveSpacesContent(ToUpper(ans));
  }

  /**
   * Normalisation works piece by piece, so the characters that survive keep
   * their order.
   */
  lemma NormalizeAppend(a: string, b: string)
    ensures NormalizeAnswer(a + b) == NormalizeAnswer(a) + NormalizeAnswer(b)
  {
    ToUpperAppend(a, b);
    RemoveSpacesAppend(ToUpper(a), ToUpper(b));
  }

  /** An answer that already has no space and no lower-case letter is left as it is. */
  lemma NormalizeKeepsNormal(s: string)
    requires ' ' !in s
    requires forall i :: 0 <= i < |s| ==> !IsLower(s[i])
    ensures NormalizeAnswer(s) == s
  {
    UpperFixesUpper(s);
  }

  /** Normalising a normalised answer changes nothing. */
  lemma NormalizeIdempotent(ans: string)
    ensures NormalizeAnswer(NormalizeAnswer(ans)) == NormalizeAnswer(ans)
  {
    NormalizeKeepsNormal(NormalizeAnswer(ans));
  }

  /** The round length, in seconds, of each difficulty (`GetTimeLimit`). */
  function TimeLimit(d: DifficultyLevel): (seconds: nat)
    ensures seconds in {30, 60, 90}
  {
    match d
    case Easy => 90
    case Normal => 60
    case Hard => 30
  }

  /** Position of a level in the enum's declaration order. */
  function Rank(d: DifficultyLevel): nat
  {
    match d
    case Easy => 0
    case Normal => 1
    case Hard => 2
  }

  /** A harder level never gets more time: the limits fall strictly Easy > Normal > Hard. */
  lemma TimeLimitDecreases(d1: DifficultyLevel, d2: DifficultyLevel)
    ensures Rank(d1) < Rank(d2) <==> TimeLimit(d1) > TimeLimit(d2)
  {
  }

  datatype Question = Question(questionText: string, answer: string, difficulty: string)
  {
    /** The stored name read back as a level; an unknown name counts as Easy. */
    function GetDifficultyLevel(): (d: DifficultyLevel)
      ensures difficulty == DifficultyName(d) || (d == Easy && difficulty !in {"Easy", "Normal", "Hard"})
    {
      ParseDifficulty(difficulty)
    }

    /** 90 seconds for Easy, 60 for Normal, 30 for Hard; an unknown name gets the Easy limit. */
    function GetTimeLimit(): (seconds: nat)
      ensures difficulty == "Hard" ==> seconds == 30
      ensures difficulty == "Normal" ==> seconds == 60
      ensures difficulty != "Hard" && difficulty != "Normal" ==> seconds == 90
    {
      TimeLimit(GetDifficultyLevel())
    }
  }

  /** The three-argument constructor `Question(question, ans, diff)`. */
  function NewQuestion(question: string, ans: string, diff: DifficultyLevel): (q: Question)
    ensures q.questionText == question
    ensures q.answer == NormalizeAnswer(ans) && ' ' !in q.answer
    ensures q.difficulty == DifficultyName(diff)
    ensures q.GetDifficultyLevel() == diff
    ensures q.GetTimeLimit() == TimeLimit(diff)
  {
    Question(question, NormalizeAnswer(ans), DifficultyName(diff))
  }
}
