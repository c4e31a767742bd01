/** The request checks both owner lookup services repeat verbatim (as private
    methods of CentroGestorService and ClasificadorPresupuestalService): code
    format, pagination parameters, and the sort-field whitelist with fallback.
    Lengths count characters. */
module LookupRules {
  import opened Results
  import opened Paging

  /** Java's Character.isWhitespace: Unicode space, line and paragraph separators
      other than the no-break spaces, plus the ASCII controls U+0009 to U+000D and
      U+001C to U+001F. */
  predicate IsJavaWhitespace(c: char) {
    || ('\U{0009}' <= c <= '\U{000D}')
    || ('\U{001C}' <= c <= '\U{001F}')
    || c == ' '
    || c == '\U{1680}'
    || ('\U{2000}' <= c <= '\U{2006}')
    || ('\U{2008}' <= c <= '\U{200A}')
    || c == '\U{2028}' || c == '\U{2029}' || c == '\U{205F}' || c == '\U{3000}'
  }

  /** StringUtils.hasText on a non-null string: some character is not whitespace. */
  function HasText(s: string): (r: bool)
    ensures r <==> exists i | 0 <= i < |s| :: !IsJavaWhitespace(s[i])
    decreases |s|
  {
    if |s| == 0 then false
    else if !IsJavaWhitespace(s[0]) then true
    else
      var rest := HasText(s[1..]);
      assert forall i | 1 <= i < |s| :: s[i] == s[1..][i - 1];
      rest
  }

  /** The bounds on a code's length. */
  const MinCodeLength := 2
  const MaxCodeLength := 20

  /** validateCodigoFormat: a null or blank code, or one whose length is outside
      [2, 20], is rejected under "codigo". */
  function ValidateCodigoFormat(codigo: Option<string>): (r: Outcome)
    ensures r.Pass? <==>
      && codigo.Some?
      && (exists i | 0 <= i < |codigo.value| :: !IsJavaWhitespace(codigo.value[i]))
      && MinCodeLength <= |codigo.value| <= MaxCodeLength
    ensures r.Fail? ==> r.error == Invalid("codigo")
  {
    if codigo.None? || !HasText(codigo.value) then Fail(Invalid("codigo"))
    else if |codigo.value| < MinCodeLength || |codigo.value| > MaxCodeLength then Fail(Invalid("codigo"))
    else Pass
  }

  /** The largest accepted page size. */
  const MaxPageSize := 100

  /** Upper-case form of an ASCII lower-case letter. */
  function AsciiUpper(c: char): char
    requires 'a' <= c <= 'z'
  {
    (c as int - 32) as char
  }

  /** One character of String.equalsIgnoreCase against a lower-case ASCII letter
      `w`: the letter itself, its capital, or a non-ASCII character whose case
      mapping lands on it (long s U+017F and Kelvin sign U+212A; dotless and
      dotted capital i U+0131 and U+0130). */
  predicate CharMatchesIgnoringCase(c: char, w: char)
    requires 'a' <= w <= 'z'
  {
    || c == w
    || c == AsciiUpper(w)
    || (w == 's' && c == '\U{017F}')
    || (w == 'k' && c == '\U{212A}')
    || (w == 'i' && (c == '\U{0130}' || c == '\U{0131}'))
  }

  /** A lower-case ASCII word. */
  predicate LowerAscii(w: string) {
    forall i | 0 <= i < |w| :: 'a' <= w[i] <= 'z'
  }

  /** String.equalsIgnoreCase(s, w) for a lower-case ASCII word `w`. */
  predicate EqualsIgnoreCase(s: string, w: string)
    requires LowerAscii(w)
  {
    |s| == |w| && forall i | 0 <= i < |s| :: CharMatchesIgnoringCase(s[i], w[i])
  }

  /** validatePaginationParameters: page below 0 fails under "page"; a size that is
      not in [1, 100] under "size"; a direction other than asc/desc in any case
      under "sortDir"; in that order. */
  function ValidatePaginationParameters(page: int, size: int, sortDir: string): (r: Outcome)
    ensures r.Pass? <==>
      0 <= page && 0 < size <= MaxPageSize && (EqualsIgnoreCase(sortDir, "asc") || EqualsIgnoreCase(sortDir, "desc"))
    ensures page < 0 ==> r == Fail(Invalid("page"))
    ensures 0 <= page && (size <= 0 || size > MaxPageSize) ==> r == Fail(Invalid("size"))
    ensures 0 <= page && 0 < size <= MaxPageSize && r.Fail? ==> r == Fail(Invalid("sortDir"))
  {
    if page < 0 then Fail(Invalid("page"))
    else if size <= 0 then Fail(Invalid("size"))
    else if size > MaxPageSize then Fail(Invalid("size"))
    else if !EqualsIgnoreCase(sortDir, "asc") && !EqualsIgnoreCase(sortDir, "desc") then Fail(Invalid("sortDir"))
    else Pass
  }

  /** The field both services fall back to. */
  const DefaultSortField := "codigo"

  /** createSort: a field outside the whitelist is replaced by "codigo" without
      error; "desc" in any case sorts descending, anything else ascending. */
  function CreateSort(whitelist: seq<string>, sortBy: string, sortDir: string): (r: Sort)
    ensures sortBy in whitelist ==> r.field == sortBy
    ensures sortBy !in whitelist ==> r.field == DefaultSortField
    ensures r.direction == Descending <==> EqualsIgnoreCase(sortDir, "desc")
  {
    Sort(if sortBy in whitelist then sortBy else DefaultSortField,
         if EqualsIgnoreCase(sortDir, "desc") then Descending else Ascending)
  }

  /** The first element whose code is `c`: the repository's findByCodigo, codes
      being unique. */
  function FindByCode<T>(xs: seq<T>, codeOf: T -> string, c: string): (r: Option<T>)
    ensures r.None? <==> forall i | 0 <= i < |xs| :: codeOf(xs[i]) != c
    ensures r.Some? ==> exists i | 0 <= i < |xs| ::
      && xs[i] == r.value
      && codeOf(xs[i]) == c
      && forall j | 0 <= j < i :: codeOf(xs[j]) != c
    decreases |xs|
  {
    if |xs| == 0 then None
    else if codeOf(xs[0]) == c then Some(xs[0])
    else
      var rest := FindByCode(xs[1..], codeOf, c);
      assert forall i | 1 <= i < |xs| :: xs[i] == xs[1..][i - 1];
      rest
  }

  /** The mixed-case spellings of the direction are accepted, and "desc" in any
      of them sorts descending; so is a spelling with the long s, whose upper
      case is 'S'. Other words are rejected. */
  lemma MixedCaseDirections()
    ensures ValidatePaginationParameters(0, 10, "DESC").Pass?
    ensures ValidatePaginationParameters(0, 10, "Asc").Pass?
    ensures ValidatePaginationParameters(0, 10, "de\U{017F}c").Pass?
    ensures ValidatePaginationParameters(0, 10, "descending") == Fail(Invalid("sortDir"))
    ensures CreateSort(["codigo"], "codigo", "DeSc").direction == Descending
    ensures CreateSort(["codigo"], "codigo", "ASC").direction == Ascending
    ensures CreateSort(["codigo"], "codigo", "de\U{017F}c").direction == Descending
  {
  }
}
