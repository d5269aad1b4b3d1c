/**
 * The word check both puzzle managers run after every collected letter
 * (`CheckWordCompletion`): a list that spells the answer, ignoring case, is
 * kept; a list that reaches the answer's length without spelling it is
 * cleared; a shorter list is kept.
 */
module WordCompletion {
  import opened Ascii

  /** `string.Join("", letters)`. */
  function Join(letters: seq<string>): (word: string)
    ensures (forall i :: 0 <= i < |letters| ==> |letters[i]| == 1) ==> |word| == |letters|
  {
    if letters == [] then [] else Join(letters[..|letters| - 1]) + letters[|letters| - 1]
  }

  /** Joining one more letter appends it to the word. */
  lemma JoinSnoc(letters: seq<string>, x: string)
    ensures Join(letters + [x]) == Join(letters) + x
  {
    assert (letters + [x])[..|letters|] == letters;
  }

  /** Joining two lists of letters is joining each and concatenating. */
  lemma {:induction false} JoinAppend(a: seq<string>, b: seq<string>)
    ensures Join(a + b) == Join(a) + Join(b)
  {
    if b == [] {
      assert a + b == a;
    } else {
      var init, x := b[..|b| - 1], b[|b| - 1];
      assert b == init + [x];
      assert a + b == (a + init) + [x];
      JoinSnoc(a + init, x);
      JoinSnoc(init, x);
      JoinAppend(a, init);
    }
  }

  /** The collected letters spell the answer, ignoring case. */
  function Solved(answer: string, collected: seq<string>): (solved: bool)
    ensures Join(collected) == answer ==> solved
    ensures solved <==> && |Join(collected)| == |answer|
                        && forall i :: 0 <= i < |answer| ==> UpperChar(Join(collected)[i]) == UpperChar(answer[i])
  {
    var word := Join(collected);
    assert ToUpper(word) == ToUpper(answer) <==>
           |word| == |answer| && forall i :: 0 <= i < |answer| ==> ToUpper(word)[i] == ToUpper(answer)[i];
    EqualsIgnoreCase(word, answer)
  }

  /** The list `CheckWordCompletion` leaves behind, given the list after the append. */
  function CheckCompletion(answer: string, collected: seq<string>): (r: seq<string>)
    ensures r == collected || r == []
    ensures Solved(answer, collected) ==> r == collected
    ensures |collected| < |answer| ==> r == collected
    ensures !Solved(answer, collected) && |collected| >= |answer| ==> r == []
    ensures Solved(answer, r) || |r| < |answer|
  {
    if Solved(answer, collected) then collected
    else if |collected| >= |answer| then []
    else collected
  }
}
