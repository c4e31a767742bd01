/** The frontend's string predicates (utils/validators.js). JavaScript strings
    are sequences of UTF-16 code units; here a string is a sequence of
    characters. */
module Validators {
  import opened Results

  /** The characters JavaScript's `\s` class and String.prototype.trim treat as
      white space: WhiteSpace and LineTerminator of ECMAScript 2015 onwards. */
  predicate IsJsSpace(c: char) {
    || c == '\t' || c == '\n' || c == '\U{000B}' || c == '\U{000C}' || c == '\r' || c == ' '
    || c == '\U{00A0}' || c == '\U{1680}' || ('\U{2000}' <= c <= '\U{200A}')
    || c == '\U{2028}' || c == '\U{2029}' || c == '\U{202F}' || c == '\U{205F}'
    || c == '\U{3000}' || c == '\U{FEFF}'
  }

  /** A character of the class `[^\s@]`. */
  predicate PartChar(c: char) {
    !IsJsSpace(c) && c != '@'
  }

  /** The language of `^[^\s@]+@[^\s@]+\.[^\s@]+$`: an '@' that is neither
      first nor last, a '.' after it with at least one character on each side,
      and every other character in `[^\s@]` (the '.' itself is one). */
  ghost predicate EmailPattern(s: string) {
    exists i, j | 0 < i && i + 1 < j < |s| - 1 ::
      && s[i] == '@' && s[j] == '.'
      && forall k | 0 <= k < |s| && k != i :: PartChar(s[k])
  }

  /** Position of the first occurrence of `c`. */
  function IndexOf(s: string, c: char): (r: Option<nat>)
    ensures r.None? <==> forall k | 0 <= k < |s| :: s[k] != c
    ensures r.Some? ==> r.value < |s| && s[r.value] == c && forall k | 0 <= k < r.value :: s[k] != c
    decreases |s|
  {
    if |s| == 0 then None
    else if s[0] == c then Some(0)
    else match IndexOf(s[1..], c)
      case None => None
      case Some(i) => assert s[1..][i] == s[i + 1]; Some(i + 1)
  }

  /** Number of occurrences of `c`. */
  function CountChar(s: string, c: char): (n: nat)
    decreases |s|
  {
    if |s| == 0 then 0 else (if s[0] == c then 1 else 0) + CountChar(s[1..], c)
  }

  lemma {:induction false} CountCharAppend(a: string, b: string, c: char)
    ensures CountChar(a + b, c) == CountChar(a, c) + CountChar(b, c)
    decreases |a|
  {
    if |a| == 0 {
      assert a + b == b;
    } else {
      assert (a + b)[1..] == a[1..] + b;
      CountCharAppend(a[1..], b, c);
    }
  }

  lemma {:induction false} CountCharAbsent(s: string, c: char)
    requires forall k | 0 <= k < |s| :: s[k] != c
    ensures CountChar(s, c) == 0
    decreases |s|
  {
    if |s| > 0 {
      CountCharAbsent(s[1..], c);
    }
  }

  /** validateEmail, decided by locating the '@' instead of by backtracking. */
  function ValidateEmail(s: string): (r: bool)
    ensures r ==> exists at | 0 < at < |s| - 1 :: s[at] == '@' && forall k | 0 <= k < |s| && k != at :: s[k] != '@'
    ensures r ==> forall k | 0 <= k < |s| :: !IsJsSpace(s[k])
  {
    match IndexOf(s, '@')
    case None => false
    case Some(at) =>
      && 0 < at
      && (forall k | 0 <= k < |s| && k != at :: PartChar(s[k]))
      && exists j | at + 1 < j < |s| - 1 :: s[j] == '.'
  }

  /** validateEmail accepts exactly the strings its regular expression matches. */
  lemma ValidateEmailIsPattern(s: string)
    ensures ValidateEmail(s) <==> EmailPattern(s)
  {
    if EmailPattern(s) {
      var i, j :| 0 < i && i + 1 < j < |s| - 1 && s[i] == '@' && s[j] == '.'
        && forall k | 0 <= k < |s| && k != i :: PartChar(s[k]);
      var at := IndexOf(s, '@');
      assert at == Some(i);
      assert ValidateEmail(s);
    }
  }

  /** A valid e-mail holds exactly one '@' and no white space. */
  lemma ValidEmailShape(s: string)
    requires ValidateEmail(s)
    ensures CountChar(s, '@') == 1
    ensures forall k | 0 <= k < |s| :: !IsJsSpace(s[k])
  {
    var at :| 0 < at < |s| - 1 && s[at] == '@' && forall k | 0 <= k < |s| && k != at :: s[k] != '@';
    assert s == s[..at] + [s[at]] + s[at + 1..];
    CountCharAppend(s[..at] + [s[at]], s[at + 1..], '@');
    CountCharAppend(s[..at], [s[at]], '@');
    CountCharAbsent(s[..at], '@');
    CountCharAbsent(s[at + 1..], '@');
  }

  /** A value as validateRequired sees it: null, undefined, or anything else
      through its string conversion. */
  datatype JsValue = JsNull | JsUndefined | JsText(text: string)

  /** Number of white-space characters the string starts with. */
  function LeadingSpaces(s: string): (n: nat)
    ensures n <= |s| && forall k | 0 <= k < n :: IsJsSpace(s[k])
    ensures n < |s| ==> !IsJsSpace(s[n])
    decreases |s|
  {
    if |s| > 0 && IsJsSpace(s[0]) then 1 + LeadingSpaces(s[1..]) else 0
  }

  /** Number of white-space characters the string ends with. */
  function TrailingSpaces(s: string): (n: nat)
    ensures n <= |s| && forall k | |s| - n <= k < |s| :: IsJsSpace(s[k])
    ensures n < |s| ==> !IsJsSpace(s[|s| - n - 1])
    decreases |s|
  {
    if |s| > 0 && IsJsSpace(s[|s| - 1]) then 1 + TrailingSpaces(s[..|s| - 1]) else 0
  }

  /** `r` is the slice of `s` starting at `a` and everything around it is
      white space. */
  predicate SliceAmidSpace(s: string, a: int, r: string) {
    && 0 <= a <= |s| - |r|
    && r == s[a..a + |r|]
    && (forall k | 0 <= k < a :: IsJsSpace(s[k]))
    && (forall k | a + |r| <= k < |s| :: IsJsSpace(s[k]))
  }

  /** String.prototype.trim: the longest slice without surrounding white space. */
  function Trim(s: string): (r: string)
    ensures exists a :: SliceAmidSpace(s, a, r)
    ensures |r| > 0 ==> !IsJsSpace(r[0]) && !IsJsSpace(r[|r| - 1])
  {
    var a := LeadingSpaces(s);
    if a == |s| then
      assert SliceAmidSpace(s, a, "");
      ""
    else
      var b := |s| - TrailingSpaces(s);
      assert a < b by {
        assert !IsJsSpace(s[a]);
      }
      assert SliceAmidSpace(s, a, s[a..b]);
      s[a..b]
  }

  /** Trimming leaves nothing exactly when every character is white space. */
  lemma TrimEmptyIffBlank(s: string)
    ensures Trim(s) == "" <==> forall k | 0 <= k < |s| :: IsJsSpace(s[k])
  {
    var r := Trim(s);
    if r != "" {
      var a :| SliceAmidSpace(s, a, r);
      assert s[a] == r[0];
    }
  }

  function ValidateRequired(v: JsValue): (r: bool)
    ensures v.JsNull? || v.JsUndefined? ==> !r
    ensures v.JsText? ==> (r <==> exists k | 0 <= k < |v.text| :: !IsJsSpace(v.text[k]))
  {
    TrimEmptyIffBlank(if v.JsText? then v.text else "");
    v.JsText? && Trim(v.text) != ""
  }

  /** validateMinLength: `value && value.length >= minLength`; null, undefined
      and the empty string are falsy whatever the bound. */
  function ValidateMinLength(value: Option<string>, minLength: int): (r: bool)
    ensures value.None? || value == Some("") ==> !r
    ensures value.Some? && value.value != "" ==> (r <==> |value.value| >= minLength)
  {
    value.Some? && |value.value| > 0 && |value.value| >= minLength
  }

  /** With a bound of at most one, validateMinLength agrees with validateRequired
      only on strings without white space: it does not trim. */
  lemma MinLengthDoesNotTrim()
    ensures ValidateMinLength(Some(" "), 1) && !ValidateRequired(JsText(" "))
  {
    TrimEmptyIffBlank(" ");
  }
}
