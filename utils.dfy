/**
 * backend/pkg/utils/utils.go: the second slug function (runs of other
 * characters collapse into one hyphen), parse-with-default helpers built on
 * `strconv`, and small comparisons.
 */
module Utils {
  import opened Text
  import opened Wrappers

  /** The characters a utils slug is made of, `[a-z0-9-]`. */
  predicate AllSlugChars(s: string) {
    forall i :: 0 <= i < |s| ==> IsLowerAlnum(s[i]) || s[i] == '-'
  }

  /** No two hyphens side by side. */
  predicate NoDoubleHyphen(s: string) {
    forall i :: 0 <= i < |s| - 1 ==> !(s[i] == '-' && s[i + 1] == '-')
  }

  /** The suffix left after the leading run of characters outside `[a-z0-9]`. */
  function SkipRun(s: string): (r: string)
    ensures |r| <= |s| && r == s[|s| - |r|..]
    ensures r != [] ==> IsLowerAlnum(r[0])
    ensures s != [] && IsLowerAlnum(s[0]) ==> r == s
  {
    if s != [] && !IsLowerAlnum(s[0]) then SkipRun(s[1..]) else s
  }

  /**
   * `regexp.MustCompile("[^a-z0-9]+").ReplaceAllString(s, "-")`: every maximal
   * run of characters outside `[a-z0-9]` becomes a single hyphen.
   */
  function CollapseRuns(s: string): (r: string)
    ensures AllSlugChars(r) && NoDoubleHyphen(r)
    ensures s != [] && IsLowerAlnum(s[0]) ==> r != [] && r[0] == s[0]
    ensures s == [] <==> r == []
    decreases |s|
  {
    if s == [] then []
    else if IsLowerAlnum(s[0]) then [s[0]] + CollapseRuns(s[1..])
    else ['-'] + CollapseRuns(SkipRun(s[1..]))
  }

  /** `GenerateSlug(s)`: lower-case, collapse runs of other characters into `-`, trim hyphens. */
  function GenerateSlug(lower: CaseMap, s: string): string {
    Trim(CollapseRuns(MapRunes(lower, s)), '-')
  }

  /** A well-formed slug: `[a-z0-9-]` only, no hyphen at either end, no double hyphen. */
  predicate IsSlug(s: string) {
    AllSlugChars(s) && NoDoubleHyphen(s) && (s != [] ==> s[0] != '-' && s[|s| - 1] != '-')
  }

  /** Every result of GenerateSlug is a well-formed slug. */
  lemma GenerateSlugIsSlug(lower: CaseMap, s: string)
    ensures IsSlug(GenerateSlug(lower, s))
  {
    var c := CollapseRuns(MapRunes(lower, s));
    var lo, hi := TrimStart(c, '-'), TrimEnd(c, '-');
    assert GenerateSlug(lower, s) == c[lo..hi];
    assert forall i :: 0 <= i < hi - lo ==> c[lo..hi][i] == c[lo + i];
  }

  /** Text that is already [a-z0-9-] with no double hyphen is left alone by the collapse. */
  lemma {:induction false} CollapseRunsKeeps(s: string)
    requires AllSlugChars(s) && NoDoubleHyphen(s)
    ensures CollapseRuns(s) == s
  {
    if s != [] {
      assert AllSlugChars(s[1..]) && NoDoubleHyphen(s[1..]);
      CollapseRunsKeeps(s[1..]);
      if !IsLowerAlnum(s[0]) {
        assert SkipRun(s[1..]) == s[1..];
      }
    }
  }

  /** GenerateSlug is idempotent: a slug is its own slug. */
  lemma GenerateSlugIdempotent(lower: CaseMap, s: string)
    requires KeepsSlugAlphabet(lower)
    ensures GenerateSlug(lower, GenerateSlug(lower, s)) == GenerateSlug(lower, s)
  {
    var t := GenerateSlug(lower, s);
    GenerateSlugIsSlug(lower, s);
    ToLowerKeepsSlugText(lower, t);
    CollapseRunsKeeps(t);
    TrimNoop(t, '-');
  }

  // ---------------------------------------------------------------------
  // strconv, as far as the helpers use it
  // ---------------------------------------------------------------------

  const MinInt64: int := -0x8000_0000_0000_0000
  const MaxInt64: int := 0x7fff_ffff_ffff_ffff

  predicate AllDigits(s: string) {
    forall i :: 0 <= i < |s| ==> IsDigit(s[i])
  }

  function DigitValue(c: char): nat
    requires IsDigit(c)
  {
    (c as int) - ('0' as int)
  }

  /** The value of a string of decimal digits, most significant first. */
  function DigitsValue(s: string): nat
    requires AllDigits(s)
  {
    if s == [] then 0 else 10 * DigitsValue(s[..|s| - 1]) + DigitValue(s[|s| - 1])
  }

  /**
   * `strconv.Atoi(s)` on a 64-bit platform: an optional sign and at least one
   * decimal digit, whose value fits in an int; anything else is an error (None).
   */
  function Atoi(s: string): Option<int> {
    var signed := s != [] && (s[0] == '-' || s[0] == '+');
    var digits := if signed then s[1..] else s;
    if digits == [] || !AllDigits(digits) then None
    else
      var magnitude: int := DigitsValue(digits);
      var v: int := if signed && s[0] == '-' then -magnitude else magnitude;
      if MinInt64 <= v <= MaxInt64 then Some(v) else None
  }

  function DigitChar(d: nat): (c: char)
    requires d < 10
    ensures IsDigit(c) && DigitValue(c) == d
  {
    ((('0' as int) + d) as char)
  }

  /** The decimal digits of a natural number, without leading zeros. */
  function Digits(n: nat): (s: string)
    ensures s != [] && AllDigits(s)
  {
    if n < 10 then [DigitChar(n)] else Digits(n / 10) + [DigitChar(n % 10)]
  }

  /** `strconv.Itoa(n)`. */
  function Itoa(n: int): string {
    if n < 0 then "-" + Digits(-n) else Digits(n)
  }

  lemma {:induction false} DigitsValueOfDigits(n: nat)
    ensures DigitsValue(Digits(n)) == n
  {
    if n >= 10 {
      DigitsValueOfDigits(n / 10);
      var s := Digits(n);
      assert s[..|s| - 1] == Digits(n / 10);
    }
  }

  /** Atoi reads back what Itoa writes, for every 64-bit integer. */
  lemma AtoiItoa(n: int)
    requires MinInt64 <= n <= MaxInt64
    ensures Atoi(Itoa(n)) == Some(n)
  {
    if n < 0 {
      DigitsValueOfDigits(-n);
      assert Itoa(n)[1..] == Digits(-n);
    } else {
      DigitsValueOfDigits(n);
    }
  }

  /** `strconv.ParseBool(s)`: the twelve spellings Go accepts, anything else is an error. */
  function ParseBoolText(s: string): (r: Option<bool>)
    ensures r == Some(true) <==> s in ["1", "t", "T", "TRUE", "true", "True"]
    ensures r == Some(false) <==> s in ["0", "f", "F", "FALSE", "false", "False"]
  {
    if s in ["1", "t", "T", "TRUE", "true", "True"] then Some(true)
    else if s in ["0", "f", "F", "FALSE", "false", "False"] then Some(false)
    else None
  }

  /** `ParseBool(s, default)`: the parsed value, or the default for empty or unparsable input. */
  function ParseBool(s: string, default: bool): (r: bool)
    ensures s == "" || ParseBoolText(s) == None ==> r == default
    ensures ParseBoolText(s) == Some(true) ==> r
    ensures ParseBoolText(s) == Some(false) ==> !r
  {
    if s == "" then default else ParseBoolText(s).GetOr(default)
  }

  /** `ParseBoolPtr(s)`: nil for empty or unparsable input, otherwise the parsed value. */
  function ParseBoolPtr(s: string): (r: Option<bool>)
    ensures r == None <==> s == "" || ParseBoolText(s) == None
    ensures r != None ==> r == ParseBoolText(s)
  {
    if s == "" then None else ParseBoolText(s)
  }

  /** `StringPtr(s)`: nil for the empty string, otherwise a pointer to `s`. */
  function StringPtr(s: string): (r: Option<string>)
    ensures r == None <==> s == ""
    ensures r != None ==> r.value == s
  {
    if s == "" then None else Some(s)
  }

  /** `ParseStringPtr(s)`: the same rule as StringPtr. */
  function ParseStringPtr(s: string): (r: Option<string>)
    ensures r == None <==> s == ""
    ensures r != None ==> r.value == s
  {
    if s == "" then None else Some(s)
  }

  /** `ParseIntPtr(s)`: nil for empty or unparsable input, otherwise the parsed value. */
  function ParseIntPtr(s: string): (r: Option<int>)
    ensures r == None <==> s == "" || Atoi(s) == None
    ensures r != None ==> r == Atoi(s) && MinInt64 <= r.value <= MaxInt64
  {
    if s == "" then None else Atoi(s)
  }

  /** `ParseInt(s, default)`: the parsed value, or the default for empty or unparsable input. */
  function ParseInt(s: string, default: int): (r: int)
    ensures s == "" || Atoi(s) == None ==> r == default
    ensures s != "" && Atoi(s) != None ==> r == Atoi(s).value
  {
    if s == "" then default else Atoi(s).GetOr(default)
  }

  /** ParseInt gives back every 64-bit integer that Itoa formats, whatever the default. */
  lemma ParseIntItoa(n: int, default: int)
    requires MinInt64 <= n <= MaxInt64
    ensures ParseInt(Itoa(n), default) == n
  {
    AtoiItoa(n);
  }

  /**
   * `ParseFloat64(s, default)`.  `strconv.ParseFloat` is not modelled: its
   * outcome on `s` is the parameter `parsed` (None for a syntax or range error).
   */
  function ParseFloat64(s: string, default: real, parsed: Option<real>): (r: real)
    ensures s == "" || parsed == None ==> r == default
    ensures s != "" && parsed != None ==> r == parsed.value
  {
    if s == "" then default else parsed.GetOr(default)
  }

  /** `Contains(slice, item)`: true exactly when some element equals `item`. */
  function Contains(slice: seq<string>, item: string): (r: bool)
    ensures r <==> exists i :: 0 <= i < |slice| && slice[i] == item
  {
    if slice == [] then false
    else if slice[0] == item then true
    else
      var rest := Contains(slice[1..], item);
      assert forall i :: 1 <= i < |slice| ==> slice[i] == slice[1..][i - 1];
      rest
  }

  /** `MaxInt(a, b)`: one of the two arguments, and no smaller than either. */
  function MaxInt(a: int, b: int): (r: int)
    ensures r == a || r == b
    ensures r >= a && r >= b
  {
    if a > b then a else b
  }

  /** `MinInt(a, b)`: one of the two arguments, and no larger than either. */
  function MinInt(a: int, b: int): (r: int)
    ensures r == a || r == b
    ensures r <= a && r <= b
  {
    if a < b then a else b
  }

  /**
   * `TruncateString(s, maxLength)`: `s` itself when it fits, otherwise its first
   * maxLength - 3 characters followed by "...", exactly maxLength long.  Go panics
   * on a string longer than a maxLength below 3, so callers must not do that.
   */
  function TruncateString(s: string, maxLength: int): (r: string)
    requires |s| <= maxLength || maxLength >= 3
    ensures |s| <= maxLength ==> r == s
    ensures |s| > maxLength ==>
      |r| == maxLength && r[..maxLength - 3] == s[..maxLength - 3] && r[maxLength - 3..] == "..."
  {
    if |s| <= maxLength then s else s[..maxLength - 3] + "..."
  }
}
