/**
 * The older copy of the question record (Assets/Scripts/Question.cs): the
 * same constructor and difficulty lookup as the puzzle game's, without a
 * time limit. It shares the normalisation and the difficulty names of
 * `Questions`.
 */
module LegacyQuestions {
  import opened Ascii
  import Questions

  datatype Question = Question(questionText: string, answer: string, difficulty: string)
  {
    /** The stored name read back as a level; an unknown name counts as Easy. */
    function GetDifficultyLevel(): (d: Questions.DifficultyLevel)
      ensures difficulty == Questions.DifficultyName(d)
           || (d == Questions.Easy && difficulty !in {"Easy", "Normal", "Hard"})
    {
      Questions.ParseDifficulty(difficulty)
    }
  }

  /** The three-argument constructor `Question(question, ans, diff)`. */
  function NewQuestion(question: string, ans: string, diff: Questions.DifficultyLevel): (q: Question)
    ensures q.questionText == question
    ensures ' ' !in q.answer && forall i :: 0 <= i < |q.answer| ==> !IsLower(q.answer[i])
    ensures q.answer == Questions.NormalizeAnswer(ans)
    ensures q.difficulty == Questions.DifficultyName(diff)
    ensures q.GetDifficultyLevel() == diff
  {
    Question(question, Questions.NormalizeAnswer(ans), Questions.DifficultyName(diff))
  }
}
