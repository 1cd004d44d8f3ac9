/** `sanitize_filename`: turns dialogue text or a scene name into one path
    component. Forbidden characters are deleted, ASCII spaces become
    underscores, and the result is cut to `max_length`. */
module Utils {
  import opened Text

  /** The default `max_length`. */
  const DefaultMaxLength: int := 50

  /** The nine characters the pattern deletes: backslash, slash, star,
      question mark, colon, double quote, less-than, greater-than and bar. */
  predicate IsForbidden(c: char)
  {
    c == '\\' || c == '/' || c == '*' || c == '?' || c == ':' || c == '"' || c == '<' || c == '>' || c == '|'
  }

  predicate NoForbidden(s: string) { forall i :: 0 <= i < |s| ==> !IsForbidden(s[i]) }

  predicate NoSpace(s: string) { forall i :: 0 <= i < |s| ==> s[i] != ' ' }

  /** The `re.sub` step: every forbidden character deleted. */
  function RemoveForbidden(s: string): (r: string)
    ensures |r| <= |s| && NoForbidden(r)
    ensures NoForbidden(s) ==> r == s
    decreases |s|
  {
    if s == [] then []
    else (if IsForbidden(s[0]) then [] else [s[0]]) + RemoveForbidden(s[1..])
  }

  /** `s.replace(' ', '_')`: only the ASCII space is replaced; tabs, newlines and
      other whitespace stay. */
  function ReplaceSpaces(s: string): (r: string)
    ensures |r| == |s|
    ensures forall i :: 0 <= i < |s| ==> r[i] == if s[i] == ' ' then '_' else s[i]
    decreases |s|
  {
    if s == [] then [] else [if s[0] == ' ' then '_' else s[0]] + ReplaceSpaces(s[1..])
  }

  /** The text after the two substitutions, before truncation. */
  function Cleaned(text: string): (r: string)
    ensures NoForbidden(r) && NoSpace(r)
  {
    ReplaceSpaces(RemoveForbidden(text))
  }

  /** `sanitize_filename(text, max_length)`. */
  function SanitizeFilename(text: string, maxLength: int): (r: string)
    ensures NoForbidden(r) && NoSpace(r)
    ensures maxLength >= 0 ==> |r| <= maxLength
    ensures |r| <= |Cleaned(text)| && r == Cleaned(text)[..|r|]
    ensures maxLength >= 0 ==> |r| == if maxLength <= |Cleaned(text)| then maxLength else |Cleaned(text)|
  {
    PySliceTo(Cleaned(text), maxLength)
  }

  /** Deleting forbidden characters works piece by piece: the surviving
      characters keep their order. */
  lemma {:induction false} RemoveForbiddenConcat(a: string, b: string)
    ensures RemoveForbidden(a + b) == RemoveForbidden(a) + RemoveForbidden(b)
    decreases |a|
  {
    if a != [] {
      var head := if IsForbidden(a[0]) then [] else [a[0]];
      assert (a + b)[0] == a[0];
      assert (a + b)[1..] == a[1..] + b;
      RemoveForbiddenConcat(a[1..], b);
      calc {
        RemoveForbidden(a + b);
        head + RemoveForbidden(a[1..] + b);
        head + (RemoveForbidden(a[1..]) + RemoveForbidden(b));
        (head + RemoveForbidden(a[1..])) + RemoveForbidden(b);
        RemoveForbidden(a) + RemoveForbidden(b);
      }
    } else {
      assert a + b == b;
    }
  }

  /** Every character that is not forbidden survives as often as it occurs,
      and every forbidden one is gone. */
  lemma {:induction false} RemoveForbiddenCounts(s: string)
    ensures forall c :: multiset(RemoveForbidden(s))[c] == if IsForbidden(c) then 0 else multiset(s)[c]
    decreases |s|
  {
    if s != [] {
      RemoveForbiddenCounts(s[1..]);
      assert s == [s[0]] + s[1..];
    }
  }

  /** The kept characters keep their order: around a single character, the
      result is the result of the part before it, that character unless it is
      forbidden, and the result of the part after it. */
  lemma RemoveForbiddenAround(a: string, c: char, b: string)
    ensures !IsForbidden(c) ==> RemoveForbidden(a + [c] + b) == RemoveForbidden(a) + [c] + RemoveForbidden(b)
    ensures IsForbidden(c) ==> RemoveForbidden(a + [c] + b) == RemoveForbidden(a) + RemoveForbidden(b)
  {
    RemoveForbiddenConcat(a + [c], b);
    RemoveForbiddenConcat(a, [c]);
    assert RemoveForbidden([c]) == (if IsForbidden(c) then [] else [c]) + RemoveForbidden([]);
  }

  lemma ReplaceSpacesConcat(a: string, b: string)
    ensures ReplaceSpaces(a + b) == ReplaceSpaces(a) + ReplaceSpaces(b)
  {
    var l, r := ReplaceSpaces(a + b), ReplaceSpaces(a) + ReplaceSpaces(b);
    assert |l| == |r|;
    forall i | 0 <= i < |l| ensures l[i] == r[i] {
      if i < |a| { assert (a + b)[i] == a[i]; } else { assert (a + b)[i] == b[i - |a|]; }
    }
  }

  /** Cleaning is a homomorphism over concatenation: cleaning a text is
      cleaning each of its pieces. */
  lemma CleanedConcat(a: string, b: string)
    ensures Cleaned(a + b) == Cleaned(a) + Cleaned(b)
  {
    RemoveForbiddenConcat(a, b);
    ReplaceSpacesConcat(RemoveForbidden(a), RemoveForbidden(b));
  }

  lemma ReplaceSpacesWithoutSpaces(s: string)
    requires NoSpace(s)
    ensures ReplaceSpaces(s) == s
  {
    assert forall i :: 0 <= i < |s| ==> ReplaceSpaces(s)[i] == s[i];
  }

  /** A name with no forbidden character and no space is its own cleaned form. */
  lemma CleanedFixedPoint(s: string)
    requires NoForbidden(s) && NoSpace(s)
    ensures Cleaned(s) == s
  {
    ReplaceSpacesWithoutSpaces(s);
  }

  /** Sanitising twice gives the same name as sanitising once, for every
      non-negative `max_length`. */
  lemma SanitizeIdempotent(text: string, maxLength: int)
    requires maxLength >= 0
    ensures SanitizeFilename(SanitizeFilename(text, maxLength), maxLength) == SanitizeFilename(text, maxLength)
  {
    CleanedFixedPoint(SanitizeFilename(text, maxLength));
  }

  /** A name that is already safe and short enough comes back unchanged. */
  lemma SanitizeKeepsSafeNames(text: string, maxLength: int)
    requires NoForbidden(text) && NoSpace(text) && |text| <= maxLength
    ensures SanitizeFilename(text, maxLength) == text
  {
    CleanedFixedPoint(text);
  }

  /** Without forbidden characters, sanitising only turns spaces into
      underscores (so tabs and newlines survive) and truncates. */
  lemma SanitizeOnlyReplacesSpaces(text: string, maxLength: int)
    requires NoForbidden(text) && maxLength >= 0
    ensures var r := SanitizeFilename(text, maxLength);
      && |r| == (if maxLength <= |text| then maxLength else |text|)
      && forall i :: 0 <= i < |r| ==> r[i] == if text[i] == ' ' then '_' else text[i]
  {
  }

  /** With a negative `max_length` Python's slice counts from the end, so
      sanitising again removes more characters. */
  lemma NegativeMaxLengthNotIdempotent()
    ensures SanitizeFilename("abc", -1) == "ab"
    ensures SanitizeFilename(SanitizeFilename("abc", -1), -1) == "a"
  {
    CleanedFixedPoint("abc");
    CleanedFixedPoint("ab");
  }
}
