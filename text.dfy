/**
 * String helpers shared by the model: the parts of Go's `strings` package and of
 * ASCII character classes that the menu backend relies on.  A string is a
 * sequence of Unicode scalar values, as Go's `range` over a string sees it.
 */
module Text {

  /**
   * A per-rune case mapping.  Go's `strings.ToLower` applies `unicode.ToLower`
   * to every rune; the Unicode tables themselves are not modelled, so the
   * mapping is a parameter of every operation that lower-cases.
   */
  type CaseMap = char -> char

  predicate IsAsciiUpper(c: char) { 'A' <= c <= 'Z' }

  predicate IsAsciiLower(c: char) { 'a' <= c <= 'z' }

  predicate IsDigit(c: char) { '0' <= c <= '9' }

  /** The class `[a-z0-9]` of the slug regular expressions. */
  predicate IsLowerAlnum(c: char) { IsAsciiLower(c) || IsDigit(c) }

  /** ASCII lower-casing: `unicode.ToLower` restricted to ASCII. */
  function AsciiLower(c: char): char {
    if IsAsciiUpper(c) then (c as int + 32) as char else c
  }

  /**
   * What every faithful case mapping does on the characters slugs are made of:
   * lower-case letters, digits, the hyphen and the space map to themselves.
   */
  ghost predicate KeepsSlugAlphabet(lower: CaseMap) {
    forall c :: IsLowerAlnum(c) || c == '-' || c == ' ' ==> lower(c) == c
  }

  lemma AsciiLowerKeepsSlugAlphabet()
    ensures KeepsSlugAlphabet(AsciiLower)
  {
  }

  /**
   * `strings.ToLower` or `strings.ToUpper`, whichever case mapping `m` stands
   * for: every character mapped on its own.
   */
  function MapRunes(m: CaseMap, s: string): (r: string)
    ensures |r| == |s|
  {
    seq(|s|, i requires 0 <= i < |s| => m(s[i]))
  }

  /** Lower-casing a string already made of slug characters changes nothing. */
  lemma ToLowerKeepsSlugText(lower: CaseMap, s: string)
    requires KeepsSlugAlphabet(lower)
    requires forall i :: 0 <= i < |s| ==> IsLowerAlnum(s[i]) || s[i] == '-' || s[i] == ' '
    ensures MapRunes(lower, s) == s
  {
  }

  /** The number of copies of `c` that `s` starts with. */
  function LeadingRun(s: string, c: char): (n: nat)
    ensures n <= |s|
    ensures forall i :: 0 <= i < n ==> s[i] == c
    ensures n < |s| ==> s[n] != c
  {
    if s != [] && s[0] == c then 1 + LeadingRun(s[1..], c) else 0
  }

  /** The number of copies of `c` that `s` ends with. */
  function TrailingRun(s: string, c: char): (n: nat)
    ensures n <= |s|
    ensures forall i :: |s| - n <= i < |s| ==> s[i] == c
    ensures n < |s| ==> s[|s| - 1 - n] != c
  {
    if s != [] && s[|s| - 1] == c then 1 + TrailingRun(s[..|s| - 1], c) else 0
  }

  /** Where `strings.Trim(s, c)` starts in `s`. */
  function TrimStart(s: string, c: char): nat {
    LeadingRun(s, c)
  }

  /** Where `strings.Trim(s, c)` ends in `s` (exclusive). */
  function TrimEnd(s: string, c: char): (hi: nat)
    ensures TrimStart(s, c) <= hi <= |s|
  {
    if LeadingRun(s, c) == |s| then |s| else |s| - TrailingRun(s, c)
  }

  /**
   * `strings.Trim(s, c)` for a one-rune cut set: `s` without its leading and
   * trailing copies of `c`.  It is the slice of `s` between TrimStart and TrimEnd,
   * neither end of which is `c`, and only copies of `c` are cut away.
   */
  function Trim(s: string, c: char): (r: string)
    ensures r == s[TrimStart(s, c)..TrimEnd(s, c)]
    ensures r != [] ==> r[0] != c && r[|r| - 1] != c
    ensures forall i :: 0 <= i < TrimStart(s, c) ==> s[i] == c
    ensures forall i :: TrimEnd(s, c) <= i < |s| ==> s[i] == c
  {
    s[TrimStart(s, c)..TrimEnd(s, c)]
  }

  /** A string that neither starts nor ends with `c` is its own trim. */
  lemma TrimNoop(s: string, c: char)
    requires s != [] ==> s[0] != c && s[|s| - 1] != c
    ensures Trim(s, c) == s
  {
  }

  /** `sub` occurs in `s` at position `i`. */
  predicate OccursAt(s: string, sub: string, i: int) {
    0 <= i <= |s| - |sub| && s[i..i + |sub|] == sub
  }

  /** `strings.Contains(s, sub)`: some position of `s` starts an occurrence of `sub`. */
  function Contains(s: string, sub: string): (r: bool)
    ensures r <==> exists i :: OccursAt(s, sub, i)
  {
    if sub <= s then
      assert OccursAt(s, sub, 0);
      true
    else if s == [] then
      false
    else
      var rest := Contains(s[1..], sub);
      assert rest ==> exists i :: OccursAt(s, sub, i) by {
        if rest {
          var j :| OccursAt(s[1..], sub, j);
          assert s[1..][j..j + |sub|] == s[j + 1..j + 1 + |sub|];
          assert OccursAt(s, sub, j + 1);
        }
      }
      assert (exists i :: OccursAt(s, sub, i)) ==> rest by {
        if exists i :: OccursAt(s, sub, i) {
          var i :| OccursAt(s, sub, i);
          assert i != 0;
          assert s[1..][i - 1..i - 1 + |sub|] == s[i..i + |sub|];
          assert OccursAt(s[1..], sub, i - 1);
        }
      }
      rest
  }
}
