/**
 * The spawner that lays out a round (Assets/Scripts/PuzzleSpawner.cs): it
 * hands the answer to the puzzle, takes the answer's letters upper-cased,
 * pads them with random letters A-Z up to the number of spawn positions,
 * shuffles the list and puts letter `i` on spawn position `i`.
 */
module PuzzleSpawning {
  import opened Wrappers
  import opened Ascii
  import opened FisherYates
  import opened Placements
  import Puzzle

  /** `decoys[j]` is what `Random.Range(0, 26)` returned for the `j`-th padding letter. */
  predicate ValidDecoys(decoys: seq<int>, needed: int)
  {
    |decoys| >= needed && forall j :: 0 <= j < |decoys| ==> 0 <= decoys[j] < 26
  }

  /** `(char)('A' + k)`. */
  function DecoyLetter(k: int): (c: char)
    requires 0 <= k < 26
    ensures IsUpper(c)
  {
    ('A' as int + k) as char
  }

  /** The length of the list before the shuffle: the answer, padded up to the slot count. */
  function SpawnCount(answerLength: nat, slotCount: nat): (n: nat)
    ensures n >= answerLength && n >= slotCount
    ensures n == answerLength || n == slotCount
  {
    if answerLength < slotCount then slotCount else answerLength
  }

  /** The list the padding loop builds: `letters`, then decoys while shorter than `slotCount`. */
  function Padded(letters: string, decoys: seq<int>, slotCount: nat): (r: string)
    requires ValidDecoys(decoys, slotCount - |letters|)
    ensures |r| == SpawnCount(|letters|, slotCount)
    ensures r[..|letters|] == letters
    ensures forall i :: |letters| <= i < |r| ==> IsUpper(r[i])
  {
    if |letters| >= slotCount then letters
    else letters + seq(slotCount - |letters|, j requires 0 <= j < slotCount - |letters| => DecoyLetter(decoys[j]))
  }

  /** The letters in slot order: the padded list after the shuffle. */
  function Layout(answer: string, decoys: seq<int>, picks: seq<int>, slotCount: nat): (r: string)
    requires ValidDecoys(decoys, slotCount - |answer|)
    requires ValidPicks(picks, SpawnCount(|answer|, slotCount))
  {
    Shuffled(Padded(ToUpper(answer), decoys, slotCount), picks, 0)
  }

  /**
   * When there are at least as many slots as answer letters, the laid-out
   * letters are exactly the upper-cased answer plus decoys A-Z, as multisets.
   */
  lemma LayoutHoldsAnswer(answer: string, decoys: seq<int>, picks: seq<int>, slotCount: nat)
    requires ValidDecoys(decoys, slotCount - |answer|)
    requires ValidPicks(picks, SpawnCount(|answer|, slotCount))
    requires |answer| <= slotCount
    ensures |Layout(answer, decoys, picks, slotCount)| == slotCount
    ensures multiset(ToUpper(answer)) <= multiset(Layout(answer, decoys, picks, slotCount))
    ensures forall c :: c in multiset(Layout(answer, decoys, picks, slotCount)) - multiset(ToUpper(answer)) ==> IsUpper(c)
  {
    var upper := ToUpper(answer);
    var padded := Padded(upper, decoys, slotCount);
    var tail := padded[|upper|..];
    assert padded == upper + tail;
    assert multiset(padded) == multiset(upper) + multiset(tail);
    forall c | c in multiset(tail) ensures IsUpper(c) {
      assert c in tail;
    }
  }

  /** Every laid-out letter is a letter of the upper-cased answer or a decoy A-Z. */
  lemma LayoutLetters(answer: string, decoys: seq<int>, picks: seq<int>, slotCount: nat, c: char)
    requires ValidDecoys(decoys, slotCount - |answer|)
    requires ValidPicks(picks, SpawnCount(|answer|, slotCount))
    requires c in Layout(answer, decoys, picks, slotCount)
    ensures c in ToUpper(answer) || IsUpper(c)
  {
    var upper := ToUpper(answer);
    var padded := Padded(upper, decoys, slotCount);
    ShuffledMembers(padded, picks, c);
    var i :| 0 <= i < |padded| && padded[i] == c;
    if i < |upper| {
      assert padded[..|upper|][i] == c;
    }
  }

  class PuzzleSpawner {
    const spawnPositions: seq<Slot>
    const puzzleManager: Puzzle.PuzzleManager
    var answerLetters: seq<char>

    constructor (spawnPositions: seq<Slot>, puzzleManager: Puzzle.PuzzleManager)
      ensures this.spawnPositions == spawnPositions && this.puzzleManager == puzzleManager
      ensures answerLetters == []
    {
      this.spawnPositions := spawnPositions;
      this.puzzleManager := puzzleManager;
      answerLetters := [];
    }

    /**
     * Lays out a round for `answer` and reports the tiles it instantiates.
     * Clearing the previous round's tiles is engine work and not modelled.
     */
    method SpawnPuzzle(answer: string, decoys: seq<int>, picks: seq<int>) returns (placements: seq<Placement>)
      requires ValidDecoys(decoys, |spawnPositions| - |answer|)
      requires ValidPicks(picks, SpawnCount(|answer|, |spawnPositions|))
      modifies this, puzzleManager
      ensures answerLetters == ToUpper(answer)
      ensures puzzleManager.correctAnswer == Some(answer) && puzzleManager.collectedLetters == []
      ensures puzzleManager.timeLimit == old(puzzleManager.timeLimit)
      ensures puzzleManager.timeRemaining == old(puzzleManager.timeRemaining)
      ensures puzzleManager.isTimerRunning == old(puzzleManager.isTimerRunning)
      ensures |placements| == |spawnPositions|
      ensures forall i :: 0 <= i < |placements| ==>
                placements[i] == Placement(spawnPositions[i], [Layout(answer, decoys, picks, |spawnPositions|)[i]])
    {
      puzzleManager.SetCorrectAnswer(Some(answer));
      var upper := ToUpper(answer);
      CopyAnswerLetters(upper);
      var lettersToSpawn := PadWithDecoys(answerLetters, decoys, |spawnPositions|);
      var buffer := new char[|lettersToSpawn|](i requires 0 <= i < |lettersToSpawn| => lettersToSpawn[i]);
      assert buffer[..] == lettersToSpawn;
      ShuffleInPlace(buffer, picks);
      placements := PlaceLetters(buffer[..]);
    }

    /** The `foreach` that refills `answerLetters` with the upper-cased answer. */
    method CopyAnswerLetters(upper: string)
      modifies this
      ensures answerLetters == upper
    {
      answerLetters := [];
      var k := 0;
      while k < |upper|
        invariant 0 <= k <= |upper|
        invariant answerLetters == upper[..k]
      {
        answerLetters := answerLetters + [upper[k]];
        k := k + 1;
      }
      assert upper[..|upper|] == upper;
    }

    /** The loop that creates one tile per slot while there are letters left. */
    method PlaceLetters(letters: string) returns (placements: seq<Placement>)
      ensures |placements| == if |letters| < |spawnPositions| then |letters| else |spawnPositions|
      ensures forall i :: 0 <= i < |placements| ==> placements[i] == Placement(spawnPositions[i], [letters[i]])
    {
      placements := [];
      var i := 0;
      while i < |spawnPositions| && i < |letters|
        invariant 0 <= i <= |spawnPositions| && i <= |letters|
        invariant |placements| == i
        invariant forall j :: 0 <= j < i ==> placements[j] == Placement(spawnPositions[j], [letters[j]])
      {
        placements := placements + [Placement(spawnPositions[i], [letters[i]])];
        i := i + 1;
      }
    }
  }

  /** The `while` loop that appends decoys until there is one letter per slot. */
  method PadWithDecoys(letters: string, decoys: seq<int>, slotCount: nat) returns (padded: string)
    requires ValidDecoys(decoys, slotCount - |letters|)
    ensures padded == Padded(letters, decoys, slotCount)
  {
    padded := letters;
    var d := 0;
    while |padded| < slotCount
      invariant |padded| == |letters| + d
      invariant |padded| <= SpawnCount(|letters|, slotCount)
      invariant padded == Padded(letters, decoys, slotCount)[..|padded|]
      decreases slotCount - |padded|
    {
      padded := padded + [DecoyLetter(decoys[d])];
      d := d + 1;
    }
  }
}
