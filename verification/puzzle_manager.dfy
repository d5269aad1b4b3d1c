/**
 * The puzzle's state machine (Assets/Scripts/PuzzleGame/PuzzleManager.cs):
 * the answer, the letters collected so far in order, and a countdown.
 * A letter is accepted only when it is the next letter of the answer,
 * ignoring case; a solved word stops the countdown; a countdown that runs
 * out stops and throws the collected letters away.
 */
module Puzzle {
  import opened Wrappers
  import opened Ascii
  import opened WordCompletion

  /** The character `TryCollectLetter` compares: the first one, or `'\0'` for an empty letter. */
  function FirstChar(letter: string): (c: char)
    ensures letter != [] ==> c == letter[0]
    ensures letter == [] ==> c == '\0'
  {
    if letter == [] then '\0' else letter[0]
  }

  /**
   * The decision of `TryCollectLetter`, given the answer and how many
   * letters are already collected.
   */
  function Accepts(answer: Option<string>, count: nat, letter: string): (ok: bool)
    ensures answer.None? || answer.value == [] ==> !ok
    ensures answer.Some? && count >= |answer.value| ==> !ok
    ensures ok <==> answer.Some? && count < |answer.value|
                    && UpperChar(FirstChar(letter)) == UpperChar(answer.value[count])
  {
    match answer
    case None => false
    case Some(a) =>
      if a == [] then false
      else if count >= |a| then false
      else UpperChar(FirstChar(letter)) == UpperChar(a[count])
  }

  class PuzzleManager {
    var correctAnswer: Option<string>
    var collectedLetters: seq<string>
    var timeLimit: int
    var timeRemaining: int
    var isTimerRunning: bool

    /** A manager as the scene creates it, with the answer set in the inspector. */
    constructor (answer: Option<string>)
      ensures correctAnswer == answer && collectedLetters == []
      ensures timeLimit == 0 && timeRemaining == 0 && !isTimerRunning
    {
      correctAnswer := answer;
      collectedLetters := [];
      timeLimit := 0;
      timeRemaining := 0;
      isTimerRunning := false;
    }

    /** The countdown step of one frame that lasted `dt`. */
    method Update(dt: int)
      modifies this
      ensures correctAnswer == old(correctAnswer) && timeLimit == old(timeLimit)
      ensures !old(isTimerRunning) ==> unchanged(this)
      ensures old(isTimerRunning) && old(timeRemaining) > 0 ==>
                timeRemaining == old(timeRemaining) - dt && isTimerRunning
                && collectedLetters == old(collectedLetters)
      ensures old(isTimerRunning) && old(timeRemaining) <= 0 ==>
                timeRemaining == 0 && !isTimerRunning && collectedLetters == []
    {
      if isTimerRunning {
        if timeRemaining > 0 {
          timeRemaining := timeRemaining - dt;
        } else {
          timeRemaining := 0;
          isTimerRunning := false;
          OnTimeUp();
        }
      }
    }

    /** A read-only query: it depends on the answer and the number of collected letters only. */
    function TryCollectLetter(letter: string): (ok: bool)
      reads this
      ensures ok == Accepts(correctAnswer, |collectedLetters|, letter)
    {
      Accepts(correctAnswer, |collectedLetters|, letter)
    }

    method OnLetterCollected(letter: string)
      requires correctAnswer.Some?
      modifies this
      ensures correctAnswer == old(correctAnswer) && timeLimit == old(timeLimit)
      ensures collectedLetters == CheckCompletion(correctAnswer.value, old(collectedLetters) + [letter])
      ensures isTimerRunning == (old(isTimerRunning) && !Solved(correctAnswer.value, old(collectedLetters) + [letter]))
      ensures timeRemaining == old(timeRemaining)
    {
      collectedLetters := collectedLetters + [letter];
      CheckWordCompletion();
    }

    method CheckWordCompletion()
      requires correctAnswer.Some?
      modifies this
      ensures correctAnswer == old(correctAnswer) && timeLimit == old(timeLimit)
      ensures collectedLetters == CheckCompletion(correctAnswer.value, old(collectedLetters))
      ensures isTimerRunning == (old(isTimerRunning) && !Solved(correctAnswer.value, old(collectedLetters)))
      ensures timeRemaining == old(timeRemaining)
    {
      if Solved(correctAnswer.value, collectedLetters) {
        StopTimer();
      } else if |collectedLetters| >= |correctAnswer.value| {
        collectedLetters := [];
      }
    }

    method StartTimer(duration: int)
      modifies this
      ensures timeLimit == duration && timeRemaining == duration && isTimerRunning
      ensures correctAnswer == old(correctAnswer) && collectedLetters == old(collectedLetters)
    {
      timeLimit := duration;
      timeRemaining := duration;
      isTimerRunning := true;
    }

    method OnTimeUp()
      modifies this
      ensures collectedLetters == []
      ensures correctAnswer == old(correctAnswer) && timeLimit == old(timeLimit)
      ensures timeRemaining == old(timeRemaining) && isTimerRunning == old(isTimerRunning)
    {
      collectedLetters := [];
    }

    method StopTimer()
      modifies this
      ensures !isTimerRunning
      ensures correctAnswer == old(correctAnswer) && collectedLetters == old(collectedLetters)
      ensures timeLimit == old(timeLimit) && timeRemaining == old(timeRemaining)
    {
      isTimerRunning := false;
    }

    method SetCorrectAnswer(answer: Option<string>)
      modifies this
      ensures correctAnswer == answer && collectedLetters == []
      ensures timeLimit == old(timeLimit) && timeRemaining == old(timeRemaining)
      ensures isTimerRunning == old(isTimerRunning)
    {
      correctAnswer := answer;
      collectedLetters := [];
    }
  }

  /**
   * The collected letters are single characters that match the answer's
   * first letters in order, ignoring case: what the order check of
   * `TryCollectLetter` keeps true when every collected tile passed it.
   */
  predicate OnTrack(answer: string, collected: seq<string>)
  {
    && |collected| <= |answer|
    && forall i :: 0 <= i < |collected| ==>
         |collected[i]| == 1 && UpperChar(collected[i][0]) == UpperChar(answer[i])
  }

  /** Letters collected on track spell the answer's prefix of the same length. */
  lemma {:induction false} OnTrackSpellsPrefix(answer: string, collected: seq<string>)
    requires OnTrack(answer, collected)
    ensures ToUpper(Join(collected)) == ToUpper(answer[..|collected|])
  {
    if collected != [] {
      var n := |collected|;
      var init := collected[..n - 1];
      assert OnTrack(answer, init) by {
        forall i | 0 <= i < |init| ensures |init[i]| == 1 && UpperChar(init[i][0]) == UpperChar(answer[i]) {
          assert init[i] == collected[i];
        }
      }
      OnTrackSpellsPrefix(answer, init);
      var last := collected[n - 1];
      assert Join(collected) == Join(init) + last;
      ToUpperAppend(Join(init), last);
      assert answer[..n] == answer[..n - 1] + [answer[n - 1]];
      ToUpperAppend(answer[..n - 1], [answer[n - 1]]);
      assert ToUpper(last) == [UpperChar(last[0])] == ToUpper([answer[n - 1]]);
    }
  }

  /** A full on-track list spells the answer, and after that no letter is accepted. */
  lemma OnTrackFullIsSolved(answer: string, collected: seq<string>)
    requires OnTrack(answer, collected) && |collected| == |answer|
    ensures Solved(answer, collected)
    ensures forall letter :: !Accepts(Some(answer), |collected|, letter)
  {
    OnTrackSpellsPrefix(answer, collected);
    assert answer[..|collected|] == answer;
  }

  /**
   * A single-character letter that `TryCollectLetter` accepts is appended and
   * kept; the list stays on track, and the word is solved exactly when the
   * letter was the answer's last.
   */
  lemma AcceptedLetterAdvances(answer: string, collected: seq<string>, letter: string)
    requires OnTrack(answer, collected)
    requires Accepts(Some(answer), |collected|, letter)
    requires |letter| == 1
    ensures CheckCompletion(answer, collected + [letter]) == collected + [letter]
    ensures OnTrack(answer, collected + [letter])
    ensures Solved(answer, collected + [letter]) <==> |collected| + 1 == |answer|
  {
    var next := collected + [letter];
    assert OnTrack(answer, next) by {
      forall i | 0 <= i < |next| ensures |next[i]| == 1 && UpperChar(next[i][0]) == UpperChar(answer[i]) {
        if i < |collected| { assert next[i] == collected[i]; }
      }
    }
    if |next| == |answer| {
      OnTrackFullIsSolved(answer, next);
    } else {
      assert |Join(next)| == |next|;
      assert |ToUpper(Join(next))| != |ToUpper(answer)|;
    }
  }

  /** Each letter of `s` as a one-character string, as the tile spawner labels tiles. */
  function Letters(s: string): (r: seq<string>)
    ensures |r| == |s|
    ensures forall i :: 0 <= i < |s| ==> r[i] == [s[i]]
  {
    seq(|s|, i requires 0 <= i < |s| => [s[i]])
  }

  /** The collected list after `OnLetterCollected` is called with `letters` in turn, from empty. */
  function Replay(answer: string, letters: seq<string>): seq<string>
  {
    if letters == [] then []
    else CheckCompletion(answer, Replay(answer, letters[..|letters| - 1]) + [letters[|letters| - 1]])
  }

  lemma {:induction false} ReplayPrefix(answer: string, k: nat)
    requires k <= |answer|
    ensures Replay(answer, Letters(answer[..k])) == Letters(answer[..k])
    ensures OnTrack(answer, Letters(answer[..k]))
  {
    if k > 0 {
      ReplayPrefix(answer, k - 1);
      var before := Letters(answer[..k - 1]);
      assert Letters(answer[..k])[..k - 1] == before;
      assert Accepts(Some(answer), k - 1, [answer[k - 1]]);
      AcceptedLetterAdvances(answer, before, [answer[k - 1]]);
      assert before + [[answer[k - 1]]] == Letters(answer[..k]);
    }
  }

  /**
   * Offering the answer's letters in order from an empty list: every offer
   * is accepted, none is discarded, and the last one solves the word, which
   * stops the timer (see `PuzzleManager.OnLetterCollected`).
   */
  lemma InOrderSolves(answer: string)
    requires answer != []
    ensures forall k :: 0 <= k < |answer| ==> Accepts(Some(answer), k, [answer[k]])
    ensures forall k :: 0 <= k < |answer| ==> !Solved(answer, Replay(answer, Letters(answer[..k])))
    ensures Replay(answer, Letters(answer)) == Letters(answer)
    ensures Solved(answer, Letters(answer))
  {
    forall k | 0 <= k < |answer| ensures !Solved(answer, Replay(answer, Letters(answer[..k]))) {
      ReplayPrefix(answer, k);
      assert |Join(Letters(answer[..k]))| == k;
      assert |ToUpper(Join(Letters(answer[..k])))| != |ToUpper(answer)|;
    }
    ReplayPrefix(answer, |answer|);
    assert answer[..|answer|] == answer;
    OnTrackFullIsSolved(answer, Letters(answer));
  }
}
