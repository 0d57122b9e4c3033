/** Case-insensitive substring search, the model of Foundation's
    `localizedCaseInsensitiveContains` used by the search conjunct of the
    property filter. Locale-dependent folding is modelled as ASCII folding:
    'A'..'Z' fold to 'a'..'z' and every other character is kept. */
module Ascii {

  function ToLower(c: char): (r: char)
    ensures 'A' <= c <= 'Z' ==> r as int == c as int + 32
    ensures !('A' <= c <= 'Z') ==> r == c
  {
    if 'A' <= c <= 'Z' then (c as int - 'A' as int + 'a' as int) as char else c
  }

  /** The string with every character folded to lower case. */
  function FoldCase(s: string): string
  {
    seq(|s|, i requires 0 <= i < |s| => ToLower(s[i]))
  }

  /** Folding is idempotent: a folded string has no upper-case letter left. */
  lemma FoldCaseIdempotent(s: string)
    ensures FoldCase(FoldCase(s)) == FoldCase(s)
  {
  }

  /** `needle` occurs as a contiguous block of `haystack`, searching from
      the left. */
  predicate IsInfix(needle: string, haystack: string)
    decreases |haystack|
  {
    needle <= haystack || (|haystack| > 0 && IsInfix(needle, haystack[1..]))
  }

  /** A copy of `needle` starts at offset `i` of `haystack`. */
  predicate OccursAt(needle: string, haystack: string, i: int)
  {
    0 <= i <= |haystack| - |needle| && haystack[i..i + |needle|] == needle
  }

  /** The left-to-right search agrees with the definition by position: the
      needle occurs exactly when some offset of the haystack starts a copy
      of it. */
  lemma {:induction false} IsInfixIff(needle: string, haystack: string)
    ensures IsInfix(needle, haystack) <==> exists i :: OccursAt(needle, haystack, i)
    decreases |haystack|
  {
    if needle <= haystack {
      assert OccursAt(needle, haystack, 0);
    } else if |haystack| > 0 {
      IsInfixIff(needle, haystack[1..]);
      if exists i :: OccursAt(needle, haystack, i) {
        var i :| OccursAt(needle, haystack, i);
        assert i != 0;
        assert OccursAt(needle, haystack[1..], i - 1);
      }
      if IsInfix(needle, haystack[1..]) {
        var i :| OccursAt(needle, haystack[1..], i);
        assert OccursAt(needle, haystack, i + 1);
      }
    } else {
      assert forall i :: !OccursAt(needle, haystack, i);
    }
  }

  /** A needle with a character that the haystack lacks does not occur. */
  lemma {:induction false} NotInfixWhenCharMissing(needle: string, haystack: string, k: nat)
    requires k < |needle| && needle[k] !in haystack
    ensures !IsInfix(needle, haystack)
    decreases |haystack|
  {
    if |haystack| > 0 {
      NotInfixWhenCharMissing(needle, haystack[1..], k);
    }
  }

  /** Folding commutes with slicing. */
  lemma FoldCaseSlice(s: string, i: nat, j: nat)
    requires i <= j <= |s|
    ensures FoldCase(s)[i..j] == FoldCase(s[i..j])
  {
  }

  /** A letter is absent from the folded string when neither of its cases
      occurs in the original. */
  lemma FoldCaseLacks(s: string, upper: char)
    requires 'A' <= upper <= 'Z'
    requires upper !in s && ToLower(upper) !in s
    ensures ToLower(upper) !in FoldCase(s)
  {
  }

  /** `text.localizedCaseInsensitiveContains(needle)`, with ASCII folding. */
  predicate ContainsIgnoringCase(text: string, needle: string)
    ensures ContainsIgnoringCase(text, needle) <==>
              exists i :: OccursAt(FoldCase(needle), FoldCase(text), i)
  {
    IsInfixIff(FoldCase(needle), FoldCase(text));
    IsInfix(FoldCase(needle), FoldCase(text))
  }

  /** A needle with a letter that occurs in neither case in the text is
      not contained in it. */
  lemma NotContainedWhenLetterMissing(text: string, needle: string, k: nat, upper: char)
    requires 'A' <= upper <= 'Z'
    requires k < |needle| && FoldCase(needle)[k] == ToLower(upper)
    requires upper !in text && ToLower(upper) !in text
    ensures !ContainsIgnoringCase(text, needle)
  {
    FoldCaseLacks(text, upper);
    NotInfixWhenCharMissing(FoldCase(needle), FoldCase(text), k);
  }

  /** Containment ignores case: changing the case of the needle's letters
      does not change the answer. */
  lemma ContainsIgnoresNeedleCase(text: string, needle: string)
    ensures ContainsIgnoringCase(text, needle) == ContainsIgnoringCase(text, FoldCase(needle))
  {
    FoldCaseIdempotent(needle);
  }
}
