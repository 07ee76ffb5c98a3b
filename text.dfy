/**
  * The string tests the checkout form relies on: JavaScript's `String.prototype.trim`,
  * and the two regular expressions used for the e-mail address and the phone number.
  * A `char` is a Unicode scalar value, whereas JavaScript strings hold UTF-16 code
  * units. The tests here do not depend on the difference: every character they look
  * for lies in the Basic Multilingual Plane, and a lone surrogate cannot occur.
  */
module Text {

  /** A character in JavaScript's `\s` class, which is also the set `trim()` removes
      (WhiteSpace and LineTerminator of ECMA-262). */
  predicate IsWhitespace(c: char) {
    c == ' ' || c == '\t' || c == '\n' || c == '\U{B}' || c == '\U{C}' || c == '\r'
    || c == '\U{A0}' || c == '\U{1680}' || ('\U{2000}' <= c <= '\U{200A}')
    || c == '\U{2028}' || c == '\U{2029}' || c == '\U{202F}' || c == '\U{205F}'
    || c == '\U{3000}' || c == '\U{FEFF}'
  }

  /** `\d`: an ASCII decimal digit. */
  predicate IsDigit(c: char) {
    '0' <= c <= '9'
  }

  predicate AllWhitespace(s: string) {
    forall k :: 0 <= k < |s| ==> IsWhitespace(s[k])
  }

  /** Removes leading whitespace. */
  function TrimStart(s: string): string {
    if s != [] && IsWhitespace(s[0]) then TrimStart(s[1..]) else s
  }

  /** Removes trailing whitespace. */
  function TrimEnd(s: string): string {
    if s != [] && IsWhitespace(s[|s| - 1]) then TrimEnd(s[..|s| - 1]) else s
  }

  /** `TrimStart` drops a prefix made only of whitespace and stops at the first
      other character. */
  lemma {:induction false} TrimStartShape(s: string)
    ensures var r := TrimStart(s);
            && |r| <= |s| && r == s[|s| - |r|..]
            && AllWhitespace(s[..|s| - |r|])
            && (r != [] ==> !IsWhitespace(r[0]))
  {
    if s != [] && IsWhitespace(s[0]) {
      TrimStartShape(s[1..]);
      var r := TrimStart(s);
      assert s[..|s| - |r|] == [s[0]] + s[1..][..|s| - 1 - |r|];
    }
  }

  /** `TrimEnd` drops a suffix made only of whitespace and stops at the last other
      character. */
  lemma {:induction false} TrimEndShape(s: string)
    ensures var r := TrimEnd(s);
            && |r| <= |s| && r == s[..|r|]
            && AllWhitespace(s[|r|..])
            && (r != [] ==> !IsWhitespace(r[|r| - 1]))
  {
    if s != [] && IsWhitespace(s[|s| - 1]) {
      var s' := s[..|s| - 1];
      TrimEndShape(s');
      var r := TrimEnd(s);
      assert s[|r|..] == s'[|r|..] + [s[|s| - 1]];
    }
  }

  /** `s.trim()`. */
  function Trim(s: string): string {
    TrimEnd(TrimStart(s))
  }

  /** `!s.trim()` holds, i.e. the field is blank, exactly when every character of `s`
      is whitespace (in particular for the empty string). */
  lemma TrimEmptyIff(s: string)
    ensures Trim(s) == [] <==> AllWhitespace(s)
  {
    TrimStartShape(s);
    var t := TrimStart(s);
    TrimEndShape(t);
    if t == [] {
      assert s[..|s|] == s;
    } else {
      assert s[|s| - |t|] == t[0];
    }
  }

  /** A character of the class `[^\s@]`. */
  predicate IsEmailAtomChar(c: char) {
    !IsWhitespace(c) && c != '@'
  }

  predicate AllEmailAtomChars(s: string) {
    forall k :: 0 <= k < |s| ==> IsEmailAtomChar(s[k])
  }

  /** `s` matches `^[^\s@]+@[^\s@]+\.[^\s@]+$`: a non-empty local part, `@`, a
      non-empty run, `.`, and a non-empty run, none of the runs holding
      whitespace or `@`. The runs may themselves hold dots; the regular
      expression is satisfied by any dot at position `j` that leaves both sides
      non-empty. */
  ghost predicate MatchesEmailPattern(s: string) {
    exists i, j :: 0 < i && i + 1 < j < |s| - 1 && s[i] == '@' && s[j] == '.'
      && AllEmailAtomChars(s[..i]) && AllEmailAtomChars(s[i + 1..j]) && AllEmailAtomChars(s[j + 1..])
  }

  /** Position of the first occurrence of `c` in `s`, or `|s|` when there is none. */
  function IndexOf(s: string, c: char): (r: nat)
    ensures r <= |s|
    ensures r < |s| ==> s[r] == c
    ensures forall k :: 0 <= k < r ==> s[k] != c
  {
    if s == [] then 0
    else if s[0] == c then 0
    else 1 + IndexOf(s[1..], c)
  }

  /** A direct decision procedure for the e-mail pattern: exactly one `@`, not first,
      no whitespace at all, and a dot at least two places after the `@` and not last. */
  function EmailOk(s: string): bool {
    var i := IndexOf(s, '@');
    && 0 < i < |s|
    && (forall k :: 0 <= k < |s| ==> !IsWhitespace(s[k]))
    && (forall k :: i < k < |s| ==> s[k] != '@')
    && (exists j :: i + 1 < j < |s| - 1 && s[j] == '.')
  }

  /** The decision procedure answers exactly the regular expression's question. */
  lemma EmailOkIff(s: string)
    ensures EmailOk(s) <==> MatchesEmailPattern(s)
  {
    if EmailOk(s) { EmailOkMatches(s); }
    if MatchesEmailPattern(s) { MatchesEmailOk(s); }
  }

  lemma EmailOkMatches(s: string)
    requires EmailOk(s)
    ensures MatchesEmailPattern(s)
  {
    var i := IndexOf(s, '@');
    var j :| i + 1 < j < |s| - 1 && s[j] == '.';
    assert AllEmailAtomChars(s[..i]);
    assert AllEmailAtomChars(s[i + 1..j]);
    assert AllEmailAtomChars(s[j + 1..]);
  }

  lemma MatchesEmailOk(s: string)
    requires MatchesEmailPattern(s)
    ensures EmailOk(s)
  {
    var i, j :| 0 < i && i + 1 < j < |s| - 1 && s[i] == '@' && s[j] == '.'
      && AllEmailAtomChars(s[..i]) && AllEmailAtomChars(s[i + 1..j]) && AllEmailAtomChars(s[j + 1..]);
    AtomRun(s, 0, i);
    AtomRun(s, i + 1, j);
    AtomRun(s, j + 1, |s|);
    assert IndexOf(s, '@') == i;
    assert forall k :: 0 <= k < |s| ==> k == i || k == j || IsEmailAtomChar(s[k]);
  }

  /** Every character of an atom run lies outside whitespace and `@`. */
  lemma AtomRun(s: string, lo: nat, hi: nat)
    requires lo <= hi <= |s| && AllEmailAtomChars(s[lo..hi])
    ensures forall k :: lo <= k < hi ==> IsEmailAtomChar(s[k])
  {
    forall k | lo <= k < hi ensures IsEmailAtomChar(s[k]) {
      assert s[lo..hi][k - lo] == s[k];
    }
  }

  /** A character of the class `[\d\s-]`. */
  predicate IsPhoneChar(c: char) {
    IsDigit(c) || IsWhitespace(c) || c == '-'
  }

  predicate AllPhoneChars(s: string) {
    forall k :: 0 <= k < |s| ==> IsPhoneChar(s[k])
  }

  /** `s` matches `^\+?[\d\s-]{10,}$`: either at least ten digits, whitespace
      characters or hyphens, or a `+` followed by at least ten of them. */
  ghost predicate MatchesPhonePattern(s: string) {
    || (|s| >= 10 && AllPhoneChars(s))
    || (|s| >= 11 && s[0] == '+' && AllPhoneChars(s[1..]))
  }

  /** A direct decision procedure for the phone pattern, which looks at the first
      character once: since `+` is not in the repeated class, a leading `+` can only
      be the optional prefix. */
  function PhoneOk(s: string): bool {
    var body := if s != [] && s[0] == '+' then s[1..] else s;
    |body| >= 10 && AllPhoneChars(body)
  }

  lemma PhoneOkIff(s: string)
    ensures PhoneOk(s) <==> MatchesPhonePattern(s)
  {
  }
}
