/**
 * `remove_accents` followed by `bytes.upper()`, the comparison key of
 * `is_last_name_match`.
 *
 * `normalize('NFKD', s).encode('ASCII', 'ignore')` is modelled per character: the
 * full compatibility decomposition of each character, with every non-ASCII code
 * point dropped. Canonical reordering in NFKD only permutes combining marks, which
 * are all non-ASCII and dropped anyway. The Unicode decomposition table is a
 * parameter: callers pass it in, and lemmas that need it state what they assume.
 */
module Surnames {

  /** A character's full compatibility decomposition, as NFKD defines it. */
  type Decomposition = char -> string

  predicate IsAscii(c: char) {
    c as int < 128
  }

  predicate AllAscii(s: string) {
    forall k :: 0 <= k < |s| ==> IsAscii(s[k])
  }

  /** Every ASCII character is its own decomposition (true of the Unicode table). */
  ghost predicate FixesAscii(decompose: Decomposition) {
    forall c :: IsAscii(c) ==> decompose(c) == [c]
  }

  /** `encode('ASCII', 'ignore')`: the ASCII characters of `s`, in order. */
  function AsciiOnly(s: string): (r: string)
    ensures AllAscii(r)
    ensures |r| <= |s|
    ensures AllAscii(s) ==> r == s
  {
    if |s| == 0 then []
    else (if IsAscii(s[0]) then [s[0]] else []) + AsciiOnly(s[1..])
  }

  /**
   * `encode('ASCII', 'ignore')` works character by character: a single character is
   * kept exactly when it is ASCII, and the filter distributes over concatenation.
   * Together these fix `AsciiOnly` on every string.
   */
  lemma {:induction false} AsciiOnlyAppend(a: string, b: string, c: char)
    ensures AsciiOnly([c]) == (if IsAscii(c) then [c] else [])
    ensures AsciiOnly(a + b) == AsciiOnly(a) + AsciiOnly(b)
    decreases |a|
  {
    assert [c][1..] == [];
    if |a| == 0 {
      assert a + b == b;
    } else {
      assert (a + b)[0] == a[0];
      assert (a + b)[1..] == a[1..] + b;
      AsciiOnlyAppend(a[1..], b, c);
    }
  }

  /** `remove_accents` (vips_api.py:145-148). */
  function RemoveAccents(decompose: Decomposition, s: string): (r: string)
    ensures AllAscii(r)
  {
    if |s| == 0 then []
    else AsciiOnly(decompose(s[0])) + RemoveAccents(decompose, s[1..])
  }

  function UpperChar(c: char): (u: char)
    ensures IsAscii(c) ==> IsAscii(u)
    ensures !('a' <= u <= 'z')
  {
    if 'a' <= c <= 'z' then (c as int - 32) as char else c
  }

  /** `bytes.upper()`: only the ASCII letters a-z change. */
  function AsciiUpper(s: string): (r: string)
    ensures |r| == |s|
    ensures forall k :: 0 <= k < |s| ==> r[k] == UpperChar(s[k])
  {
    if |s| == 0 then [] else [UpperChar(s[0])] + AsciiUpper(s[1..])
  }

  /** The key that `is_last_name_match` compares (vips_api.py:155). */
  function MatchKey(decompose: Decomposition, name: string): (key: string)
    ensures AllAscii(key)
    ensures forall k :: 0 <= k < |key| ==> !('a' <= key[k] <= 'z')
  {
    AsciiUpper(RemoveAccents(decompose, name))
  }

  predicate NamesMatch(decompose: Decomposition, a: string, b: string) {
    MatchKey(decompose, a) == MatchKey(decompose, b)
  }

  /** Accent stripping is the identity on ASCII names. */
  lemma {:induction false} RemoveAccentsAscii(decompose: Decomposition, s: string)
    requires FixesAscii(decompose) && AllAscii(s)
    ensures RemoveAccents(decompose, s) == s
  {
    if |s| > 0 {
      assert IsAscii(s[0]);
      assert AsciiOnly(decompose(s[0])) == [s[0]];
      assert AllAscii(s[1..]) by { assert forall k :: 0 <= k < |s| - 1 ==> s[1..][k] == s[k + 1]; }
      RemoveAccentsAscii(decompose, s[1..]);
    }
  }

  /** Accent stripping works character by character, so it distributes over concatenation. */
  lemma {:induction false} RemoveAccentsAppend(decompose: Decomposition, a: string, b: string)
    ensures RemoveAccents(decompose, a + b) == RemoveAccents(decompose, a) + RemoveAccents(decompose, b)
  {
    if |a| > 0 {
      assert (a + b)[0] == a[0];
      assert (a + b)[1..] == a[1..] + b;
      RemoveAccentsAppend(decompose, a[1..], b);
    } else {
      assert a + b == b;
    }
  }

  /** Name matching is an equivalence: reflexive, symmetric and transitive. */
  lemma NamesMatchEquivalence(decompose: Decomposition, a: string, b: string, c: string)
    ensures NamesMatch(decompose, a, a)
    ensures NamesMatch(decompose, a, b) <==> NamesMatch(decompose, b, a)
    ensures NamesMatch(decompose, a, b) && NamesMatch(decompose, b, c) ==> NamesMatch(decompose, a, c)
  {
  }

  /** On ASCII names the comparison key is just the upper-cased name. */
  lemma AsciiMatchKey(decompose: Decomposition, s: string)
    requires FixesAscii(decompose) && AllAscii(s)
    ensures MatchKey(decompose, s) == AsciiUpper(s)
  {
    RemoveAccentsAscii(decompose, s);
  }

  /** On ASCII names, matching is exactly case-insensitive equality. */
  lemma AsciiNamesMatchIgnoringCase(decompose: Decomposition, a: string, b: string)
    requires FixesAscii(decompose) && AllAscii(a) && AllAscii(b)
    ensures NamesMatch(decompose, a, b) <==> AsciiUpper(a) == AsciiUpper(b)
  {
    AsciiMatchKey(decompose, a);
    AsciiMatchKey(decompose, b);
  }

  lemma UpperCaseExamples()
    ensures AsciiUpper("Jones") == "JONES" == AsciiUpper("JONES")
    ensures AsciiUpper("Other")[0] == 'O'
  {
    var upper, same := AsciiUpper("Jones"), AsciiUpper("JONES");
    assert UpperChar('o') == 'O' && UpperChar('n') == 'N' && UpperChar('e') == 'E' && UpperChar('s') == 'S';
    assert upper[0] == 'J' && upper[1] == 'O' && upper[2] == 'N' && upper[3] == 'E' && upper[4] == 'S';
    assert same[0] == 'J' && same[1] == 'O' && same[2] == 'N' && same[3] == 'E' && same[4] == 'S';
  }

  /** `Jones` matches `JONES` and not `Other`. */
  lemma JonesExamples(decompose: Decomposition)
    requires FixesAscii(decompose)
    ensures NamesMatch(decompose, "Jones", "JONES")
    ensures !NamesMatch(decompose, "Jones", "Other")
  {
    var jones, upper, other := "Jones", "JONES", "Other";
    assert AllAscii(jones) && AllAscii(upper) && AllAscii(other) by {
      assert forall k :: 0 <= k < 5 ==> IsAscii(jones[k]) && IsAscii(upper[k]) && IsAscii(other[k]);
    }
    UpperCaseExamples();
    AsciiNamesMatchIgnoringCase(decompose, jones, upper);
    AsciiNamesMatchIgnoringCase(decompose, jones, other);
  }

  /** `Coté` matches `Cote`, given that NFKD splits é (U+00E9) into e and U+0301. */
  lemma AccentedExample(decompose: Decomposition)
    requires FixesAscii(decompose)
    requires decompose('\U{E9}') == "e\U{301}"
    ensures NamesMatch(decompose, "Cot\U{E9}", "Cote")
  {
    RemoveAccentsAppend(decompose, "Cot", "\U{E9}");
    RemoveAccentsAppend(decompose, "Cot", "e");
    assert "Cot\U{E9}" == "Cot" + "\U{E9}";
    assert "Cote" == "Cot" + "e";
    RemoveAccentsAscii(decompose, "Cot");
    RemoveAccentsAscii(decompose, "e");
    assert AsciiOnly("e\U{301}") == "e";
    assert RemoveAccents(decompose, "\U{E9}") == "e";
  }
}
