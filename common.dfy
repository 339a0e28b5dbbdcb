/**
 * backend/internal/domain/entities/common.go: the slug the entity hooks derive
 * from a name, and the pagination arithmetic of list endpoints.
 */
module Common {
  import opened Text

  /** Longest slug the hooks store (the `size:100` slug column). */
  const MaxSlugLength: nat := 100

  /** The class `[a-z0-9\-]` that the slug regular expression keeps. */
  predicate IsSlugChar(c: char) { IsLowerAlnum(c) || c == '-' }

  predicate AllSlugChars(s: string) {
    forall i :: 0 <= i < |s| ==> IsSlugChar(s[i])
  }

  /** `strings.ReplaceAll(s, " ", "-")`. */
  function SpacesToHyphens(s: string): string {
    seq(|s|, i requires 0 <= i < |s| => if s[i] == ' ' then '-' else s[i])
  }

  /** `slugRegex.ReplaceAllString(s, "")`: every character outside `[a-z0-9-]` is deleted. */
  function DropNonSlugChars(s: string): (r: string)
    ensures |r| <= |s|
    ensures AllSlugChars(r)
  {
    if s == [] then []
    else (if IsSlugChar(s[0]) then [s[0]] else []) + DropNonSlugChars(s[1..])
  }

  /** Deleting nothing: a string of slug characters passes the filter unchanged. */
  lemma {:induction false} DropNonSlugCharsKeeps(s: string)
    requires AllSlugChars(s)
    ensures DropNonSlugChars(s) == s
  {
    if s != [] {
      DropNonSlugCharsKeeps(s[1..]);
    }
  }

  /** The slug before the 100-character cut: lower-cased, spaces to hyphens, filtered, trimmed. */
  function UntruncatedSlug(lower: CaseMap, name: string): string {
    Trim(DropNonSlugChars(SpacesToHyphens(MapRunes(lower, name))), '-')
  }

  /** `generateSlug(name)`. */
  function GenerateSlug(lower: CaseMap, name: string): string {
    var slug := UntruncatedSlug(lower, name);
    if |slug| > MaxSlugLength then slug[..MaxSlugLength] else slug
  }

  /**
   * The slug is made of `[a-z0-9-]`, is at most 100 characters long and never
   * starts with a hyphen; it ends with one only when the 100-character cut fell
   * right after a hyphen of a longer slug.
   */
  lemma GenerateSlugShape(lower: CaseMap, name: string)
    ensures var r := GenerateSlug(lower, name);
      && AllSlugChars(r)
      && |r| <= MaxSlugLength
      && (r != [] ==> r[0] != '-')
      && (r != [] && r[|r| - 1] == '-' ==>
            |UntruncatedSlug(lower, name)| > MaxSlugLength && UntruncatedSlug(lower, name)[MaxSlugLength - 1] == '-')
  {
    var filtered := DropNonSlugChars(SpacesToHyphens(MapRunes(lower, name)));
    var slug := UntruncatedSlug(lower, name);
    assert slug == filtered[TrimStart(filtered, '-')..TrimEnd(filtered, '-')];
    assert AllSlugChars(slug);
  }

  /**
   * Spaces are not collapsed: for a short name of lower-case letters, digits
   * and inner spaces, the slug has the name's length and a hyphen exactly where
   * the name has a space.
   */
  lemma {:induction false} GenerateSlugMapsEachSpace(lower: CaseMap, name: string)
    requires KeepsSlugAlphabet(lower)
    requires forall i :: 0 <= i < |name| ==> IsLowerAlnum(name[i]) || name[i] == ' '
    requires name != [] ==> name[0] != ' ' && name[|name| - 1] != ' '
    requires |name| <= MaxSlugLength
    ensures |GenerateSlug(lower, name)| == |name|
    ensures forall i :: 0 <= i < |name| ==>
      (GenerateSlug(lower, name)[i] == '-' <==> name[i] == ' ')
  {
    ToLowerKeepsSlugText(lower, name);
    var hyphenated := SpacesToHyphens(name);
    assert AllSlugChars(hyphenated);
    DropNonSlugCharsKeeps(hyphenated);
    TrimNoop(hyphenated, '-');
    assert UntruncatedSlug(lower, name) == hyphenated;
  }

  /** The page summary returned by list endpoints. */
  datatype Pagination = Pagination(
    page: int,
    limit: int,
    total: int,
    totalPages: int,
    hasNext: bool,
    hasPrev: bool)

  /** Go's integer `/` for a positive divisor: the quotient is truncated toward zero. */
  function GoQuotient(a: int, b: int): (q: int)
    requires b > 0
    ensures a >= 0 ==> q == a / b
    ensures a < 0 ==> q == -((-a) / b)
  {
    if a >= 0 then a / b else -((-a) / b)
  }

  /**
   * `NewPagination(page, limit, total)`: page is raised to at least 1, a limit
   * below 1 becomes 10 and one above 100 becomes 100; the total is kept, the
   * number of pages is the ceiling of total / limit, and the next and previous
   * flags compare the page with the page range.
   */
  function NewPagination(page: int, limit: int, total: int): (p: Pagination)
    ensures p.page >= 1 && (page >= 1 ==> p.page == page)
    ensures 1 <= p.limit <= 100
    ensures limit < 1 ==> p.limit == 10
    ensures limit > 100 ==> p.limit == 100
    ensures 1 <= limit <= 100 ==> p.limit == limit
    ensures p.total == total
    ensures total >= 0 ==> p.totalPages >= 0 && (p.totalPages - 1) * p.limit < total <= p.totalPages * p.limit
    ensures p.hasNext <==> p.page < p.totalPages
    ensures p.hasPrev <==> p.page > 1
  {
    var pg := if page < 1 then 1 else page;
    var lim0 := if limit < 1 then 10 else limit;
    var lim := if lim0 > 100 then 100 else lim0;
    var totalPages := GoQuotient(total + lim - 1, lim);
    CeilingDivision(total, lim);
    Pagination(pg, lim, total, totalPages, pg < totalPages, pg > 1)
  }

  /** `(total + limit - 1) / limit` is the least page count that covers `total` rows. */
  lemma CeilingDivision(total: int, limit: int)
    requires limit >= 1
    ensures total >= 0 ==>
      var n := GoQuotient(total + limit - 1, limit);
      n >= 0 && (n - 1) * limit < total <= n * limit
  {
    if total >= 0 {
      var a := total + limit - 1;
      var n := a / limit;
      assert a == n * limit + a % limit;
      assert 0 <= a % limit < limit;
      assert (n - 1) * limit == n * limit - limit;
    }
  }

  /** `Pagination.Offset()`: how many rows the page skips. */
  function Offset(p: Pagination): int {
    (p.page - 1) * p.limit
  }

  /**
   * A paginator built by NewPagination never skips a negative number of rows,
   * and exactly page 1 starts at row 0.
   */
  lemma OffsetOfNewPagination(page: int, limit: int, total: int)
    ensures var p := NewPagination(page, limit, total);
      Offset(p) >= 0 && (p.page == 1 <==> Offset(p) == 0)
  {
    var p := NewPagination(page, limit, total);
    assert Offset(p) == (p.page - 1) * p.limit;
    MultipleOfLimit(p.page - 1, p.limit);
  }

  lemma MultipleOfLimit(k: nat, limit: int)
    requires limit >= 1
    ensures k * limit >= 0 && (k * limit == 0 <==> k == 0)
  {
    if k > 0 {
      MultipleOfLimit(k - 1, limit);
      assert k * limit == (k - 1) * limit + limit;
    }
  }
}
