/**
 * A letter tile the player collects by landing on it
 * (Assets/Scripts/LetterTile.cs). The tile asks the puzzle whether its
 * letter is the next one; if so, it marks itself collected and reports the
 * letter to the puzzle, which it can do at most once.
 */
module LetterTiles {
  import opened WordCompletion
  import Puzzle

  class LetterTile {
    var letter: string
    var isCollected: bool
    /** How many times this tile was collected; with a puzzle present, each collection reports the letter. */
    ghost var reports: nat

    ghost predicate Valid()
      reads this
    {
      reports == if isCollected then 1 else 0
    }

    constructor (letter: string)
      ensures Valid() && this.letter == letter && !isCollected
    {
      this.letter := letter;
      isCollected := false;
      reports := 0;
    }

    /**
     * A collision; `fromAbove` stands for "the first contact's normal points
     * up by more than 0.5", `puzzle` for the puzzle singleton (null when there is none).
     */
    method OnCollisionEnter2D(fromAbove: bool, puzzle: Puzzle.PuzzleManager?)
      requires Valid()
      modifies this, puzzle
      ensures Valid() && reports <= 1 && reports >= old(reports)
      ensures letter == old(letter)
      ensures !(fromAbove && !old(isCollected) && puzzle != null && old(puzzle.TryCollectLetter(letter))) ==>
                unchanged(this) && (puzzle != null ==> unchanged(puzzle))
      ensures fromAbove && !old(isCollected) && puzzle != null && old(puzzle.TryCollectLetter(letter)) ==>
                && isCollected && reports == old(reports) + 1
                && puzzle.correctAnswer == old(puzzle.correctAnswer)
                && puzzle.collectedLetters == CheckCompletion(puzzle.correctAnswer.value, old(puzzle.collectedLetters) + [letter])
                && puzzle.isTimerRunning == (old(puzzle.isTimerRunning) && !Solved(puzzle.correctAnswer.value, old(puzzle.collectedLetters) + [letter]))
                && puzzle.timeRemaining == old(puzzle.timeRemaining) && puzzle.timeLimit == old(puzzle.timeLimit)
    {
      if fromAbove && !isCollected {
        if puzzle != null && puzzle.TryCollectLetter(letter) {
          CollectLetter(puzzle);
        }
      }
    }

    method CollectLetter(puzzle: Puzzle.PuzzleManager?)
      requires Valid() && !isCollected
      requires puzzle != null ==> puzzle.correctAnswer.Some?
      modifies this, puzzle
      ensures isCollected && reports == old(reports) + 1 && Valid()
      ensures letter == old(letter)
      ensures puzzle != null ==>
                && puzzle.correctAnswer == old(puzzle.correctAnswer)
                && puzzle.collectedLetters == CheckCompletion(puzzle.correctAnswer.value, old(puzzle.collectedLetters) + [letter])
                && puzzle.isTimerRunning == (old(puzzle.isTimerRunning) && !Solved(puzzle.correctAnswer.value, old(puzzle.collectedLetters) + [letter]))
                && puzzle.timeRemaining == old(puzzle.timeRemaining) && puzzle.timeLimit == old(puzzle.timeLimit)
    {
      isCollected := true;
      reports := reports + 1;
      if puzzle != null {
        puzzle.OnLetterCollected(letter);
      }
    }

    function GetLetter(): (r: string)
      reads this
      ensures r == letter
    {
      letter
    }

    /** Relabels the tile; whether it was collected is not affected. */
    method SetLetter(newLetter: string)
      requires Valid()
      modifies this
      ensures Valid() && GetLetter() == newLetter
      ensures isCollected == old(isCollected) && reports == old(reports)
    {
      letter := newLetter;
    }
  }
}
