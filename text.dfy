/**
 * Text primitives the turn engine relies on: Python's `str.lower`,
 * `str.strip`, `str.split`, `str.startswith`, the `in` substring test, and
 * the one regular-expression shape the lexicon uses, `\b(a1|a2|...)\b`.
 */
module Text {

  /** Python's `str.isspace()` on one character (the whitespace set used by `strip` and `split`). */
  predicate IsSpace(c: char) {
    || c == ' '
    || ('\t' <= c <= '\r')                 // \t \n \v \f \r
    || ('\U{1c}' <= c <= '\U{1f}')         // file, group, record and unit separators
    || c == '\U{85}' || c == '\U{a0}' || c == '\U{1680}'
    || ('\U{2000}' <= c <= '\U{200a}')
    || c == '\U{2028}' || c == '\U{2029}' || c == '\U{202f}' || c == '\U{205f}' || c == '\U{3000}'
  }

  /** A string made of whitespace only (the empty string included): `not s.strip()` in Python. */
  predicate IsBlank(s: string) {
    forall i | 0 <= i < |s| :: IsSpace(s[i])
  }

  /** Lower-casing of one character; only the ASCII letters are mapped. */
  function LowerChar(c: char): char {
    if 'A' <= c <= 'Z' then (c as int + 32) as char else c
  }

  /** `s.lower()`, restricted to ASCII letters. */
  function Lower(s: string): string {
    seq(|s|, i requires 0 <= i < |s| => LowerChar(s[i]))
  }

  /** `s.lstrip()`: drops leading whitespace. */
  function TrimLeft(s: string): string
    decreases |s|
  {
    if s != [] && IsSpace(s[0]) then TrimLeft(s[1..]) else s
  }

  /** `s.rstrip()`: drops trailing whitespace. */
  function TrimRight(s: string): string
    decreases |s|
  {
    if s != [] && IsSpace(s[|s| - 1]) then TrimRight(s[..|s| - 1]) else s
  }

  /** `s.strip()`: the slice of `s` between its leading and its trailing whitespace. */
  function Strip(s: string): string {
    TrimRight(TrimLeft(s))
  }

  /** Left-trimming keeps a suffix that does not start with whitespace, and removes only whitespace. */
  lemma {:induction false} TrimLeftIsSuffix(s: string)
    ensures |TrimLeft(s)| <= |s| && TrimLeft(s) == s[|s| - |TrimLeft(s)|..]
    ensures TrimLeft(s) == [] || !IsSpace(TrimLeft(s)[0])
    ensures forall i | 0 <= i < |s| - |TrimLeft(s)| :: IsSpace(s[i])
    decreases |s|
  {
    if s != [] && IsSpace(s[0]) {
      TrimLeftIsSuffix(s[1..]);
    }
  }

  /** Right-trimming keeps a prefix that does not end with whitespace, and removes only whitespace. */
  lemma {:induction false} TrimRightIsPrefix(s: string)
    ensures |TrimRight(s)| <= |s| && TrimRight(s) == s[..|TrimRight(s)|]
    ensures TrimRight(s) == [] || !IsSpace(TrimRight(s)[|TrimRight(s)| - 1])
    ensures forall i | |TrimRight(s)| <= i < |s| :: IsSpace(s[i])
    decreases |s|
  {
    if s != [] && IsSpace(s[|s| - 1]) {
      TrimRightIsPrefix(s[..|s| - 1]);
    }
  }

  /** Stripping keeps a slice of the string that neither starts nor ends with whitespace. */
  lemma StripIsSlice(s: string)
    ensures exists i | 0 <= i <= |s| - |Strip(s)| :: OccursAt(s, Strip(s), i)
    ensures Strip(s) == [] || (!IsSpace(Strip(s)[0]) && !IsSpace(Strip(s)[|Strip(s)| - 1]))
  {
    var t := TrimLeft(s);
    TrimLeftIsSuffix(s);
    TrimRightIsPrefix(t);
    assert OccursAt(s, Strip(s), |s| - |t|);
  }

  /** Stripping leaves nothing exactly when the string is blank. */
  lemma StripEmptyIffBlank(s: string)
    ensures Strip(s) == [] <==> IsBlank(s)
  {
    TrimLeftIsSuffix(s);
    TrimRightIsPrefix(TrimLeft(s));
    if Strip(s) != [] {
      var r := Strip(s);
      var t := TrimLeft(s);
      assert s[|s| - |t|] == r[0];
    }
  }

  /** A word of `s` starts at index `i`: a non-whitespace character after whitespace or at the start. */
  predicate WordStartsAt(s: string, i: int) {
    0 <= i < |s| && !IsSpace(s[i]) && (i == 0 || IsSpace(s[i - 1]))
  }

  /** `len(s.split())`: the number of maximal runs of non-whitespace, counted by their first characters. */
  function WordCount(s: string): nat
    decreases |s|
  {
    if s == [] then 0
    else WordCount(s[..|s| - 1]) + (if WordStartsAt(s, |s| - 1) then 1 else 0)
  }

  /** Splitting yields no word exactly when the string is blank. */
  lemma {:induction false} WordCountZeroIffBlank(s: string)
    ensures WordCount(s) == 0 <==> IsBlank(s)
    decreases |s|
  {
    if s != [] {
      var init := s[..|s| - 1];
      WordCountZeroIffBlank(init);
      assert forall i | 0 <= i < |init| :: init[i] == s[i];
      if |s| > 1 {
        assert IsBlank(init) ==> IsSpace(s[|s| - 2]);
      }
    }
  }

  /** A non-empty string without whitespace splits into exactly one word. */
  lemma {:induction false} WordCountOfOneWord(s: string)
    requires s != [] && forall i | 0 <= i < |s| :: !IsSpace(s[i])
    ensures WordCount(s) == 1
    decreases |s|
  {
    if |s| > 1 {
      var init := s[..|s| - 1];
      assert forall i | 0 <= i < |init| :: init[i] == s[i];
      WordCountOfOneWord(init);
    }
  }

  /** `s.startswith(prefix)`. */
  predicate StartsWith(s: string, prefix: string) {
    |prefix| <= |s| && s[..|prefix|] == prefix
  }

  /** `w` occurs in `s` starting at index `i`. */
  predicate OccursAt(s: string, w: string, i: int) {
    0 <= i && i + |w| <= |s| && s[i..i + |w|] == w
  }

  /** A left-to-right search for `sub` in `s`, starting at index `from`. */
  predicate OccursFrom(s: string, sub: string, from: nat)
    decreases |s| - from
  {
    from + |sub| <= |s| && (OccursAt(s, sub, from) || OccursFrom(s, sub, from + 1))
  }

  /** Python's `sub in s` for strings. */
  predicate Contains(s: string, sub: string) {
    OccursFrom(s, sub, 0)
  }

  /** The search from `from` succeeds exactly when `sub` occurs at some index from `from` on. */
  lemma {:induction false} OccursFromIff(s: string, sub: string, from: nat)
    ensures OccursFrom(s, sub, from) <==> exists i | from <= i <= |s| - |sub| :: OccursAt(s, sub, i)
    decreases |s| - from
  {
    if from + |sub| <= |s| {
      OccursFromIff(s, sub, from + 1);
    }
  }

  /** A character of the regular-expression class `\w`; only the ASCII part of Unicode's word class is kept. */
  predicate IsWordChar(c: char) {
    ('a' <= c <= 'z') || ('A' <= c <= 'Z') || ('0' <= c <= '9') || c == '_'
  }

  /** Position `i` holds a word character (positions outside `s` do not). */
  predicate WordCharAt(s: string, i: int) {
    0 <= i < |s| && IsWordChar(s[i])
  }

  /** The zero-width assertion `\b` holds between positions `i - 1` and `i`. */
  predicate Boundary(s: string, i: int) {
    WordCharAt(s, i - 1) != WordCharAt(s, i)
  }

  /** The regular expression `\b(a1|a2|...|an)\b`, given by its alternatives. */
  datatype Pattern = Pattern(alternatives: seq<string>)

  /**
   * `re.search` of a pattern in `s`: some alternative occurs somewhere with a
   * word boundary on both sides. Backtracking over the alternatives makes the
   * search succeed whenever any alternative fits at any position.
   */
  predicate Matches(p: Pattern, s: string) {
    exists k, i | 0 <= k < |p.alternatives| && 0 <= i <= |s| ::
      OccursAt(s, p.alternatives[k], i) && Boundary(s, i) && Boundary(s, i + |p.alternatives[k]|)
  }

  /**
   * Whitespace is never a word character, so a blank string has no `\b`
   * anywhere, and no pattern matches it, before or after lower-casing.
   */
  lemma BlankHasNoMatch(p: Pattern, s: string)
    requires IsBlank(s)
    ensures !Matches(p, s) && !Matches(p, Lower(s))
  {
    assert forall i :: !WordCharAt(s, i) && !WordCharAt(Lower(s), i);
  }
}
