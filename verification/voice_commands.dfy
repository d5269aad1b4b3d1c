/**
 * The voice command parser (Assets/Scripts/VoiceControl/VoiceCommandParser.cs):
 * a table of twelve phrases, each naming one of four directions, and the
 * matching of a recognised utterance against it. The table is a .NET
 * `Dictionary`, modelled as its entries in enumeration order; that order is
 * taken to be insertion order, which is what the runtime does for a
 * dictionary nothing was removed from.
 */
module VoiceCommands {
  import opened Wrappers
  import opened Ascii

  /** `Vector2.left`, `.right`, `.up`, `.down`. */
  datatype Direction = Left | Right | Up | Down

  /** The two events a match raises: `OnMovementCommand` and `OnCommandRecognized`. */
  datatype Event = MovementCommand(direction: Direction) | CommandRecognized(command: string)

  /** A dictionary entry: a phrase and its direction. */
  type Entry = (string, Direction)

  /** No phrase occurs twice. */
  ghost predicate DistinctKeys(entries: seq<Entry>)
  {
    forall i, j :: 0 <= i < j < |entries| ==> entries[i].0 != entries[j].0
  }

  /** `TryGetValue`: the position of `key` among the entries, if it is there. */
  function IndexOf(entries: seq<Entry>, key: string): (found: Option<nat>)
    ensures found.Some? ==> found.value < |entries| && entries[found.value].0 == key
    ensures found.None? ==> forall i :: 0 <= i < |entries| ==> entries[i].0 != key
  {
    if entries == [] then None
    else if entries[|entries| - 1].0 == key then Some(|entries| - 1)
    else IndexOf(entries[..|entries| - 1], key)
  }

  /** The table `InitializeCommands` builds, in insertion order. */
  function CommandTable(): seq<Entry>
  {
    [("left", Left), ("right", Right), ("up", Up), ("down", Down),
     ("go left", Left), ("go right", Right), ("go up", Up), ("go down", Down),
     ("move left", Left), ("move right", Right), ("move up", Up), ("move down", Down)]
  }

  /** Twelve distinct phrases; "go X" and "move X" name the same direction as the bare word X. */
  lemma StandardTable()
    ensures |CommandTable()| == 12 && DistinctKeys(CommandTable())
    ensures forall i :: 0 <= i < 4 ==>
              && CommandTable()[i + 4].0 == "go " + CommandTable()[i].0
              && CommandTable()[i + 8].0 == "move " + CommandTable()[i].0
              && CommandTable()[i + 4].1 == CommandTable()[i].1
              && CommandTable()[i + 8].1 == CommandTable()[i].1
  {
    TableKeysDistinct();
    TablePrefixes();
  }

  lemma TableKeysDistinct()
    ensures |CommandTable()| == 12 && DistinctKeys(CommandTable())
  {
  }

  lemma TablePrefixes()
    ensures |CommandTable()| == 12
    ensures forall i :: 0 <= i < 4 ==>
              && CommandTable()[i + 4].0 == "go " + CommandTable()[i].0
              && CommandTable()[i + 8].0 == "move " + CommandTable()[i].0
              && CommandTable()[i + 4].1 == CommandTable()[i].1
              && CommandTable()[i + 8].1 == CommandTable()[i].1
  {
    var t := CommandTable();
    assert t[4].0 == "go " + t[0].0;
    assert t[5].0 == "go " + t[1].0;
    assert t[6].0 == "go " + t[2].0;
    assert t[7].0 == "go " + t[3].0;
    assert t[8].0 == "move " + t[0].0;
    assert t[9].0 == "move " + t[1].0;
    assert t[10].0 == "move " + t[2].0;
    assert t[11].0 == "move " + t[3].0;
  }

  /**
   * `recognizedText.ToLower().Trim()`: the lower-cased utterance with white
   * space cut from both ends (by `Ascii.TrimIsUnique`, the only such infix).
   */
  function Clean(recognizedText: string): (cleanText: string)
    ensures exists k :: TrimmedAt(ToLower(recognizedText), cleanText, k)
    ensures |cleanText| <= |recognizedText|
    ensures forall i :: 0 <= i < |cleanText| ==> !IsUpper(cleanText[i])
    ensures cleanText != [] ==> !IsWhiteSpace(cleanText[0]) && !IsWhiteSpace(cleanText[|cleanText| - 1])
  {
    TrimKeepsNoUpper(ToLower(recognizedText));
    Trim(ToLower(recognizedText))
  }

  /** The `foreach` with early return: the first entry from position `from` on whose phrase `text` contains. */
  function FirstContained(entries: seq<Entry>, text: string, from: nat): (found: Option<nat>)
    requires from <= |entries|
    ensures found.Some? ==> from <= found.value < |entries| && Contains(text, entries[found.value].0)
    ensures found.Some? ==> forall j :: from <= j < found.value ==> !Contains(text, entries[j].0)
    ensures found.None? ==> forall j :: from <= j < |entries| ==> !Contains(text, entries[j].0)
    decreases |entries| - from
  {
    if from == |entries| then None
    else if Contains(text, entries[from].0) then Some(from)
    else FirstContained(entries, text, from + 1)
  }

  /**
   * `HandleSpeechRecognized` on a dictionary with the given entries: an
   * exact match first, then the first phrase the cleaned text contains.
   * At most one command comes out, and its direction is its phrase's.
   */
  function Recognize(entries: seq<Entry>, recognizedText: string): (events: seq<Event>)
    ensures events == [] || |events| == 2
    ensures |events| == 2 ==>
              exists i :: 0 <= i < |entries| && events == [MovementCommand(entries[i].1), CommandRecognized(entries[i].0)]
                          && Contains(Clean(recognizedText), entries[i].0)
    ensures (exists i :: 0 <= i < |entries| && entries[i].0 == Clean(recognizedText)) ==>
              |events| == 2 && events[1] == CommandRecognized(Clean(recognizedText))
    ensures (forall i :: 0 <= i < |entries| ==> entries[i].0 != Clean(recognizedText)) ==>
              && (events == [] <==> forall i :: 0 <= i < |entries| ==> !Contains(Clean(recognizedText), entries[i].0))
              && (events != [] ==>
                    exists i :: 0 <= i < |entries| && events[1] == CommandRecognized(entries[i].0)
                                && forall j :: 0 <= j < i ==> !Contains(Clean(recognizedText), entries[j].0))
  {
    var cleanText := Clean(recognizedText);
    match IndexOf(entries, cleanText)
    case Some(i) =>
      assert Contains(cleanText, entries[i].0) by {
        assert OccursAt(cleanText, entries[i].0, 0);
      }
      [MovementCommand(entries[i].1), CommandRecognized(cleanText)]
    case None =>
      match FirstContained(entries, cleanText, 0)
      case None => []
      case Some(i) =>
        var events := [MovementCommand(entries[i].1), CommandRecognized(entries[i].0)];
        assert events[1] == CommandRecognized(entries[i].0);
        events
  }

  /** Phrase `i` of the second and third group is "go " or "move " before bare phrase `i % 4`. */
  lemma PrefixedPhrase(i: nat)
    requires 4 <= i < 12
    ensures CommandTable()[i].0 == (if i < 8 then "go " else "move ") + CommandTable()[i % 4].0
  {
    StandardTable();
    if i < 8 {
      assert CommandTable()[(i - 4) + 4].0 == "go " + CommandTable()[i - 4].0;
    } else {
      assert CommandTable()[(i - 8) + 8].0 == "move " + CommandTable()[i - 8].0;
    }
  }

  /**
   * With the standard table, a phrase found by the substring search is
   * always a bare direction word: a text that contains "go X" or "move X"
   * also contains "X", which comes first in the table.
   */
  lemma FallbackFindsBareWord(recognizedText: string)
    requires forall i :: 0 <= i < |CommandTable()| ==> CommandTable()[i].0 != Clean(recognizedText)
    ensures var events := Recognize(CommandTable(), recognizedText);
            events != [] ==> exists i :: 0 <= i < 4 && events == [MovementCommand(CommandTable()[i].1), CommandRecognized(CommandTable()[i].0)]
  {
    var table := CommandTable();
    var cleanText := Clean(recognizedText);
    assert IndexOf(table, cleanText).None?;
    var found := FirstContained(table, cleanText, 0);
    if found.Some? {
      var i := found.value;
      if i >= 4 {
        PrefixedPhrase(i);
        ContainsSuffix(cleanText, if i < 8 then "go " else "move ", table[i % 4].0);
        assert false;
      }
      assert Recognize(table, recognizedText) == [MovementCommand(table[i].1), CommandRecognized(table[i].0)];
    }
  }

  /** The first `k` phrases of the table do not include phrase `k`. */
  lemma NextPhraseIsNew(k: nat)
    requires k < 12
    ensures IndexOf(CommandTable()[..k], CommandTable()[k].0).None?
    ensures CommandTable()[..k] + [CommandTable()[k]] == CommandTable()[..k + 1]
  {
    StandardTable();
  }

  class VoiceCommandParser {
    /** The dictionary's entries in enumeration order. */
    var commandMappings: seq<Entry>

    ghost predicate Valid()
      reads this
    {
      DistinctKeys(commandMappings)
    }

    constructor ()
      ensures Valid() && commandMappings == []
    {
      commandMappings := [];
    }

    /** The indexer `commandMappings[key] = direction`: a new key goes last, an existing one keeps its place. */
    method SetCommand(key: string, direction: Direction)
      requires Valid()
      modifies this
      ensures Valid()
      ensures IndexOf(old(commandMappings), key).None? ==> commandMappings == old(commandMappings) + [(key, direction)]
      ensures IndexOf(old(commandMappings), key).Some? ==>
                commandMappings == old(commandMappings)[IndexOf(old(commandMappings), key).value := (key, direction)]
    {
      match IndexOf(commandMappings, key)
      case None =>
        commandMappings := commandMappings + [(key, direction)];
      case Some(i) =>
        commandMappings := commandMappings[i := (key, direction)];
    }

    /**
     * Fills the table (the three groups of `InitializeCommands`); on the
     * fresh, empty dictionary the result is exactly the standard table.
     */
    method InitializeCommands()
      requires Valid()
      modifies this
      ensures Valid()
      ensures old(commandMappings) == [] ==> commandMappings == CommandTable()
    {
      AddMovementCommands();
      AddGoCommands();
      AddMoveCommands();
      assert CommandTable()[..12] == CommandTable();
    }

    /** The movement commands: the four bare direction words. */
    method AddMovementCommands()
      requires Valid()
      modifies this
      ensures Valid()
      ensures old(commandMappings) == CommandTable()[..0] ==> commandMappings == CommandTable()[..4]
    {
      ghost var table := CommandTable();
      ghost var onTable := commandMappings == table[..0];
      NextPhraseIsNew(0);
      SetCommand("left", Left);
      assert onTable ==> commandMappings == table[..1];
      NextPhraseIsNew(1);
      SetCommand("right", Right);
      assert onTable ==> commandMappings == table[..2];
      NextPhraseIsNew(2);
      SetCommand("up", Up);
      assert onTable ==> commandMappings == table[..3];
      NextPhraseIsNew(3);
      SetCommand("down", Down);
      assert onTable ==> commandMappings == table[..4];
    }

    /** The first alternatives: "go" before each direction word. */
    method AddGoCommands()
      requires Valid()
      modifies this
      ensures Valid()
      ensures old(commandMappings) == CommandTable()[..4] ==> commandMappings == CommandTable()[..8]
    {
      ghost var table := CommandTable();
      ghost var onTable := commandMappings == table[..4];
      NextPhraseIsNew(4);
      SetCommand("go left", Left);
      assert onTable ==> commandMappings == table[..5];
      NextPhraseIsNew(5);
      SetCommand("go right", Right);
      assert onTable ==> commandMappings == table[..6];
      NextPhraseIsNew(6);
      SetCommand("go up", Up);
      assert onTable ==> commandMappings == table[..7];
      NextPhraseIsNew(7);
      SetCommand("go down", Down);
      assert onTable ==> commandMappings == table[..8];
    }

    /** The second alternatives: "move" before each direction word. */
    method AddMoveCommands()
      requires Valid()
      modifies this
      ensures Valid()
      ensures old(commandMappings) == CommandTable()[..8] ==> commandMappings == CommandTable()[..12]
    {
      ghost var table := CommandTable();
      ghost var onTable := commandMappings == table[..8];
      NextPhraseIsNew(8);
      SetCommand("move left", Left);
      assert onTable ==> commandMappings == table[..9];
      NextPhraseIsNew(9);
      SetCommand("move right", Right);
      assert onTable ==> commandMappings == table[..10];
      NextPhraseIsNew(10);
      SetCommand("move up", Up);
      assert onTable ==> commandMappings == table[..11];
      NextPhraseIsNew(11);
      SetCommand("move down", Down);
      assert onTable ==> commandMappings == table[..12];
    }

    /** The events raised for one recognised utterance. */
    function HandleSpeechRecognized(recognizedText: string): (events: seq<Event>)
      reads this
      ensures events == Recognize(commandMappings, recognizedText)
    {
      Recognize(commandMappings, recognizedText)
    }
  }
}
