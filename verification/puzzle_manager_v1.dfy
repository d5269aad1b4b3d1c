/**
 * The older puzzle manager (Assets/Scripts/PuzzleManager.cs): it appends
 * whatever letter it is told was collected, with no order check and no
 * timer, and runs the same word check as the newer one.
 */
module PuzzleManagerV1 {
  import opened Wrappers
  import opened Ascii
  import opened WordCompletion
  import Puzzle

  class PuzzleManager {
    var correctAnswer: Option<string>
    var collectedLetters: seq<string>

    constructor (answer: Option<string>)
      ensures correctAnswer == answer && collectedLetters == []
    {
      correctAnswer := answer;
      collectedLetters := [];
    }

    /** Any letter is appended; the list is then kept or, when full and wrong, cleared. */
    method OnLetterCollected(letter: string)
      requires correctAnswer.Some?
      modifies this
      ensures correctAnswer == old(correctAnswer)
      ensures collectedLetters == CheckCompletion(correctAnswer.value, old(collectedLetters) + [letter])
      ensures |old(collectedLetters)| + 1 < |correctAnswer.value| ==> collectedLetters == old(collectedLetters) + [letter]
      ensures Solved(correctAnswer.value, collectedLetters) || |collectedLetters| < |correctAnswer.value|
    {
      collectedLetters := collectedLetters + [letter];
      CheckWordCompletion();
    }

    method CheckWordCompletion()
      requires correctAnswer.Some?
      modifies this
      ensures correctAnswer == old(correctAnswer)
      ensures collectedLetters == CheckCompletion(correctAnswer.value, old(collectedLetters))
    {
      if Solved(correctAnswer.value, collectedLetters) {
      } else if |collectedLetters| >= |correctAnswer.value| {
        collectedLetters := [];
      }
    }

    method SetCorrectAnswer(answer: Option<string>)
      modifies this
      ensures correctAnswer == answer && collectedLetters == []
    {
      correctAnswer := answer;
      collectedLetters := [];
    }
  }

  /**
   * Without an order check, a first letter the newer manager's
   * `TryCollectLetter` refuses is kept here while the list is shorter than
   * the answer. No letters collected after it can then spell the answer, so
   * the list is only ever cleared once it reaches the answer's length.
   */
  lemma {:induction false} WrongLetterKept(answer: string, letter: string, rest: seq<string>)
    requires |answer| >= 2 && |letter| == 1
    requires !Puzzle.Accepts(Some(answer), 0, letter)
    ensures CheckCompletion(answer, [] + [letter]) == [letter]
    ensures !Solved(answer, [letter] + rest)
    ensures |rest| + 1 >= |answer| ==> CheckCompletion(answer, [letter] + rest) == []
  {
    JoinAppend([letter], rest);
    assert Join([letter]) == letter by {
      assert [letter][..0] == [];
    }
    var word := Join([letter] + rest);
    assert word[0] == letter[0];
    assert UpperChar(letter[0]) != UpperChar(answer[0]);
    assert ToUpper(word)[0] != ToUpper(answer)[0];
  }
}
