/**
 * The text operations the game applies to answers, letters and recognised
 * speech: `ToUpper`/`ToLower` (restricted to ASCII letters), `Trim`,
 * `Replace(" ", "")` and `Contains`.
 */
module Ascii {

  predicate IsLower(c: char) { 'a' <= c <= 'z' }

  predicate IsUpper(c: char) { 'A' <= c <= 'Z' }

  /** `char.ToUpperInvariant` on ASCII letters; every other character is kept. */
  function UpperChar(c: char): (u: char)
    ensures !IsLower(u)
    ensures IsLower(c) ==> IsUpper(u) && u as int + 32 == c as int
    ensures !IsLower(c) ==> u == c
  {
    if IsLower(c) then (c as int - 32) as char else c
  }

  /** `char.ToLowerInvariant` on ASCII letters; every other character is kept. */
  function LowerChar(c: char): (l: char)
    ensures !IsUpper(l)
    ensures IsUpper(c) ==> IsLower(l) && l as int == c as int + 32
    ensures !IsUpper(c) ==> l == c
  {
    if IsUpper(c) then (c as int + 32) as char else c
  }

  function ToUpper(s: string): (r: string)
    ensures |r| == |s|
    ensures forall i :: 0 <= i < |s| ==> r[i] == UpperChar(s[i])
  {
    seq(|s|, i requires 0 <= i < |s| => UpperChar(s[i]))
  }

  function ToLower(s: string): (r: string)
    ensures |r| == |s|
    ensures forall i :: 0 <= i < |s| ==> r[i] == LowerChar(s[i])
  {
    seq(|s|, i requires 0 <= i < |s| => LowerChar(s[i]))
  }

  /** Case mapping works character by character, so it distributes over concatenation. */
  lemma ToUpperAppend(a: string, b: string)
    ensures ToUpper(a + b) == ToUpper(a) + ToUpper(b)
  {
    assert forall i :: 0 <= i < |a + b| ==> ToUpper(a + b)[i] == (ToUpper(a) + ToUpper(b))[i];
  }

  /** `string.Equals(a, b, StringComparison.OrdinalIgnoreCase)`. */
  predicate EqualsIgnoreCase(a: string, b: string)
  {
    ToUpper(a) == ToUpper(b)
  }

  /** A string with no lower-case letter is its own upper-case form. */
  lemma UpperFixesUpper(s: string)
    requires forall i :: 0 <= i < |s| ==> !IsLower(s[i])
    ensures ToUpper(s) == s
  {
    assert forall i :: 0 <= i < |s| ==> ToUpper(s)[i] == s[i];
  }

  /** `s.Replace(" ", "")`: every space removed, everything else kept in order. */
  function RemoveSpaces(s: string): (r: string)
    ensures ' ' !in r
    ensures |r| <= |s|
    ensures forall c :: c in r ==> c in s
    ensures ' ' !in s ==> r == s
  {
    if s == [] then []
    else if s[0] == ' ' then RemoveSpaces(s[1..])
    else [s[0]] + RemoveSpaces(s[1..])
  }

  /** Exactly the spaces go: every other character is kept, as often as it occurs. */
  lemma {:induction false} RemoveSpacesContent(s: string)
    ensures multiset(RemoveSpaces(s)) == multiset(s)[' ' := 0]
  {
    if s != [] {
      assert s == [s[0]] + s[1..];
      RemoveSpacesContent(s[1..]);
    }
  }

  /**
   * Removing spaces works piece by piece, so the characters that are kept
   * stay in their order.
   */
  lemma {:induction false} RemoveSpacesAppend(a: string, b: string)
    ensures RemoveSpaces(a + b) == RemoveSpaces(a) + RemoveSpaces(b)
  {
    if a == [] {
      assert a + b == b;
    } else {
      assert (a + b)[0] == a[0];
      assert (a + b)[1..] == a[1..] + b;
      RemoveSpacesAppend(a[1..], b);
    }
  }

  /** The characters `string.Trim()` strips (the ASCII part of Unicode white space). */
  predicate IsWhiteSpace(c: char)
  {
    c == ' ' || c == '\t' || c == '\n' || c == '\r' || c == '\U{000B}' || c == '\U{000C}'
  }

  function TrimStart(s: string): (r: string)
    ensures |r| <= |s| && r == s[|s| - |r|..]
    ensures r != [] ==> !IsWhiteSpace(r[0])
    ensures forall i :: 0 <= i < |s| - |r| ==> IsWhiteSpace(s[i])
  {
    if s != [] && IsWhiteSpace(s[0]) then TrimStart(s[1..]) else s
  }

  function TrimEnd(s: string): (r: string)
    ensures |r| <= |s| && r == s[..|r|]
    ensures r != [] ==> !IsWhiteSpace(r[|r| - 1])
    ensures forall i :: |r| <= i < |s| ==> IsWhiteSpace(s[i])
  {
    if s != [] && IsWhiteSpace(s[|s| - 1]) then TrimEnd(s[..|s| - 1]) else s
  }

  /**
   * `r` is what is left of `s` once white space is cut from both ends: it
   * occurs at `k`, and every character before and after it is white space.
   */
  predicate TrimmedAt(s: string, r: string, k: int)
  {
    && OccursAt(s, r, k)
    && (forall j :: 0 <= j < k ==> IsWhiteSpace(s[j]))
    && (forall j :: k + |r| <= j < |s| ==> IsWhiteSpace(s[j]))
  }

  /** `s.Trim()`: `s` with its leading and trailing white space cut off. */
  function Trim(s: string): (r: string)
    ensures |r| <= |s|
    ensures r != [] ==> !IsWhiteSpace(r[0]) && !IsWhiteSpace(r[|r| - 1])
    ensures exists k :: TrimmedAt(s, r, k)
  {
    var t := TrimStart(s);
    var r := TrimEnd(t);
    TrimmedInfix(s, t, r);
    r
  }

  /** The prefix `r` of the suffix `t` of `s` that `Trim` keeps is trimmed at the start of `t`. */
  lemma TrimmedInfix(s: string, t: string, r: string)
    requires |t| <= |s| && t == s[|s| - |t|..]
    requires forall i :: 0 <= i < |s| - |t| ==> IsWhiteSpace(s[i])
    requires |r| <= |t| && r == t[..|r|]
    requires forall i :: |r| <= i < |t| ==> IsWhiteSpace(t[i])
    ensures TrimmedAt(s, r, |s| - |t|)
  {
    var k := |s| - |t|;
    assert s[k..][..|r|] == s[k..k + |r|];
    forall j | k + |r| <= j < |s| ensures IsWhiteSpace(s[j]) {
      assert s[j] == t[j - k];
    }
  }

  /** Trimming only cuts characters off, so a text without upper-case letters stays without. */
  lemma TrimKeepsNoUpper(s: string)
    requires forall i :: 0 <= i < |s| ==> !IsUpper(s[i])
    ensures forall i :: 0 <= i < |Trim(s)| ==> !IsUpper(Trim(s)[i])
  {
    var r := Trim(s);
    var k :| TrimmedAt(s, r, k);
    forall i | 0 <= i < |r| ensures !IsUpper(r[i]) {
      assert r[i] == s[k + i];
    }
  }

  /**
   * Any infix of `s` that is trimmed and neither starts nor ends with white
   * space is `Trim(s)`: the result is the only one that fits.
   */
  lemma TrimIsUnique(s: string, r': string, k': int)
    requires TrimmedAt(s, r', k')
    requires r' != [] ==> !IsWhiteSpace(r'[0]) && !IsWhiteSpace(r'[|r'| - 1])
    ensures r' == Trim(s)
  {
    var r := Trim(s);
    var k :| TrimmedAt(s, r, k);
    if r != [] {
      assert s[k] == r[0] && s[k + |r| - 1] == r[|r| - 1];
    }
    if r' != [] {
      assert s[k'] == r'[0] && s[k' + |r'| - 1] == r'[|r'| - 1];
    }
    if r != [] && r' != [] {
      assert k == k';
      assert k + |r| == k' + |r'|;
    }
  }

  /** `key` occurs in `text` starting at position `i`. */
  predicate OccursAt(text: string, key: string, i: int)
  {
    0 <= i <= |text| - |key| && text[i..i + |key|] == key
  }

  /** `text.Contains(key)`: a scan of the start positions, true when `key` occurs at one of them. */
  function Contains(text: string, key: string): (found: bool)
    ensures found <==> exists i :: OccursAt(text, key, i)
  {
    ContainsFrom(text, key, 0)
  }

  /** The scan from start position `from` on. */
  function ContainsFrom(text: string, key: string, from: nat): (found: bool)
    ensures found <==> exists i :: from <= i && OccursAt(text, key, i)
    decreases |text| + 1 - from
  {
    if from + |key| > |text| then false
    else OccursAt(text, key, from) || ContainsFrom(text, key, from + 1)
  }

  /** Whatever contains `a + b` also contains its tail `b`. */
  lemma ContainsSuffix(text: string, a: string, b: string)
    requires Contains(text, a + b)
    ensures Contains(text, b)
  {
    var i :| OccursAt(text, a + b, i);
    assert text[i + |a|..i + |a| + |b|] == text[i..i + |a + b|][|a|..];
    assert OccursAt(text, b, i + |a|);
  }
}
