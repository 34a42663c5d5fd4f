/**
 * The string checks the sign-in, registration and password-reset forms
 * share: JavaScript's whitespace class (used by both `String.prototype.trim`
 * and the regular-expression escape `\s`), `trim`, the e-mail pattern
 * `^[^\s@]+@[^\s@]+\.[^\s@]+$`, and the password and e-mail field checks.
 */
module Validation {

  /** A character `trim` removes and `\s` matches: ECMAScript WhiteSpace and LineTerminator. */
  predicate IsWhitespace(c: char) {
    var n := c as int;
    || n == 0x09 || n == 0x0A || n == 0x0B || n == 0x0C || n == 0x0D || n == 0x20
    || n == 0xA0 || n == 0x1680 || (0x2000 <= n <= 0x200A)
    || n == 0x2028 || n == 0x2029 || n == 0x202F || n == 0x205F || n == 0x3000 || n == 0xFEFF
  }

  /** `s.trimStart()`: the suffix left after dropping leading whitespace. */
  function TrimStart(s: string): (r: string)
    ensures |r| <= |s| && r == s[|s| - |r|..]
    ensures forall k :: 0 <= k < |s| - |r| ==> IsWhitespace(s[k])
    ensures |r| > 0 ==> !IsWhitespace(r[0])
  {
    if |s| > 0 && IsWhitespace(s[0]) then TrimStart(s[1..]) else s
  }

  /** `s.trimEnd()`: the prefix left after dropping trailing whitespace. */
  function TrimEnd(s: string): (r: string)
    ensures |r| <= |s| && r == s[..|r|]
    ensures forall k :: |r| <= k < |s| ==> IsWhitespace(s[k])
    ensures |r| > 0 ==> !IsWhitespace(r[|r| - 1])
  {
    if |s| > 0 && IsWhitespace(s[|s| - 1]) then TrimEnd(s[..|s| - 1]) else s
  }

  /** `r` is the slice of `s` at `lo`, and everything of `s` outside that slice is whitespace. */
  predicate SliceAmidWhitespace(s: string, r: string, lo: int) {
    && 0 <= lo <= |s| - |r| && r == s[lo..lo + |r|]
    && (forall k :: 0 <= k < lo ==> IsWhitespace(s[k]))
    && (forall k :: lo + |r| <= k < |s| ==> IsWhitespace(s[k]))
  }

  /**
   * `s.trim()`: the input with its leading and trailing whitespace removed
   * and nothing else.
   */
  function Trim(s: string): (r: string)
    ensures |r| <= |s|
    ensures |r| > 0 ==> !IsWhitespace(r[0]) && !IsWhitespace(r[|r| - 1])
    ensures exists lo :: SliceAmidWhitespace(s, r, lo)
  {
    var t := TrimStart(s);
    var r := TrimEnd(t);
    TrimmedTwiceIsSlice(s, t, r);
    r
  }

  /**
   * Cutting leading whitespace off `s` to get `t`, then trailing whitespace
   * off `t` to get `r`, leaves a slice of `s` with only whitespace around it.
   */
  lemma TrimmedTwiceIsSlice(s: string, t: string, r: string)
    requires |t| <= |s| && t == s[|s| - |t|..] && forall k :: 0 <= k < |s| - |t| ==> IsWhitespace(s[k])
    requires |r| <= |t| && r == t[..|r|] && forall k :: |r| <= k < |t| ==> IsWhitespace(t[k])
    ensures SliceAmidWhitespace(s, r, |s| - |t|)
  {
    var lo := |s| - |t|;
    assert r == s[lo..lo + |r|];
    forall k | lo + |r| <= k < |s| ensures IsWhitespace(s[k]) {
      assert s[k] == t[k - lo];
    }
  }

  /**
   * A blank field: every character is whitespace. The forms test this as
   * `!s.trim()`; `BlankIffTrimEmpty` shows the two agree.
   */
  predicate IsBlank(s: string) {
    forall k :: 0 <= k < |s| ==> IsWhitespace(s[k])
  }

  /** `!s.trim()` holds exactly for the blank strings. */
  lemma BlankIffTrimEmpty(s: string)
    ensures IsBlank(s) <==> Trim(s) == ""
  {
    var t := TrimStart(s);
    if |t| > 0 {
      assert !IsWhitespace(s[|s| - |t|]);
    }
  }

  /** `[^\s@]`: a character the e-mail pattern's runs accept. */
  predicate EmailChar(c: char) {
    !IsWhitespace(c) && c != '@'
  }

  /** `[^\s@]+`: a non-empty run of such characters. */
  predicate EmailRun(s: string) {
    |s| > 0 && forall k :: 0 <= k < |s| ==> EmailChar(s[k])
  }

  /**
   * The language of `^[^\s@]+@[^\s@]+\.[^\s@]+$`: three runs joined by an
   * '@' at `i` and a '.' at `j`.
   */
  ghost predicate MatchesEmailRegex(s: string) {
    exists i, j :: 0 < i && i + 1 < j < |s| - 1 && s[i] == '@' && s[j] == '.'
                   && EmailRun(s[..i]) && EmailRun(s[i + 1..j]) && EmailRun(s[j + 1..])
  }

  /**
   * The e-mail pattern, character by character: no whitespace, exactly one
   * '@' with something before it, and after it a '.' that is neither the
   * first nor the last character of the domain.
   */
  predicate EmailShape(s: string) {
    && (forall k :: 0 <= k < |s| ==> !IsWhitespace(s[k]))
    && exists at :: 0 < at < |s| && s[at] == '@'
         && (forall k :: 0 <= k < |s| && k != at ==> s[k] != '@')
         && (exists dot :: at + 1 < dot < |s| - 1 && s[dot] == '.')
  }

  /** Every character inside a run of the pattern is neither whitespace nor '@'. */
  lemma RunChars(s: string, lo: int, hi: int)
    requires 0 <= lo <= hi <= |s| && EmailRun(s[lo..hi])
    ensures forall k :: lo <= k < hi ==> !IsWhitespace(s[k]) && s[k] != '@'
  {
    forall k | lo <= k < hi ensures !IsWhitespace(s[k]) && s[k] != '@' {
      assert s[k] == s[lo..hi][k - lo];
    }
  }

  /** A string the character-level test accepts matches the pattern. */
  lemma EmailTestImpliesRegex(s: string)
    requires EmailShape(s)
    ensures MatchesEmailRegex(s)
  {
    var at :| 0 < at < |s| && s[at] == '@'
       && (forall k :: 0 <= k < |s| && k != at ==> s[k] != '@')
       && (exists dot :: at + 1 < dot < |s| - 1 && s[dot] == '.');
    var dot :| at + 1 < dot < |s| - 1 && s[dot] == '.';
    assert EmailRun(s[..at]) && EmailRun(s[at + 1..dot]) && EmailRun(s[dot + 1..]);
  }

  /** A string matching the pattern passes the character-level test. */
  lemma RegexImpliesEmailTest(s: string)
    requires MatchesEmailRegex(s)
    ensures EmailShape(s)
  {
    var i, j :| 0 < i && i + 1 < j < |s| - 1 && s[i] == '@' && s[j] == '.'
               && EmailRun(s[..i]) && EmailRun(s[i + 1..j]) && EmailRun(s[j + 1..]);
    assert s[..i] == s[0..i] && s[j + 1..] == s[j + 1..|s|];
    RunChars(s, 0, i);
    RunChars(s, i + 1, j);
    RunChars(s, j + 1, |s|);
    forall k | 0 <= k < |s| ensures !IsWhitespace(s[k]) && (k != i ==> s[k] != '@') {
      if k == i {
        assert s[k] == '@';
      } else if k == j {
        assert s[k] == '.';
      }
    }
    assert s[i] == '@' && s[j] == '.';
  }

  /** The character-level shape holds exactly for the strings the regular expression matches. */
  lemma EmailTestMatchesRegex(s: string)
    ensures EmailShape(s) <==> MatchesEmailRegex(s)
  {
    if EmailShape(s) {
      EmailTestImpliesRegex(s);
    }
    if MatchesEmailRegex(s) {
      RegexImpliesEmailTest(s);
    }
  }

    /** `emailRegex.test(s)`: true exactly for the strings the pattern matches. */
  function IsEmail(s: string): (r: bool)
    ensures r <==> MatchesEmailRegex(s)
  {
    EmailTestMatchesRegex(s);
    EmailShape(s)
  }

const EmailRequired := "Email is required"
  const EmailInvalid := "Please enter a valid email address"
  const PasswordRequired := "Password is required"
  const PasswordTooShort := "Password must be at least 6 characters"

  /** The e-mail field check of the registration and password-reset forms. */
  function EmailError(email: string): (e: string)
    ensures e == "" || e == EmailRequired || e == EmailInvalid
  {
    if IsBlank(email) then EmailRequired
    else if !IsEmail(email) then EmailInvalid
    else ""
  }

  /**
   * The e-mail error is empty exactly when the address matches the pattern,
   * and it asks for an address exactly when `email.trim()` is empty.
   */
  lemma EmailErrorMeaning(email: string)
    ensures EmailError(email) == "" <==> MatchesEmailRegex(email)
    ensures EmailError(email) == EmailRequired <==> Trim(email) == ""
  {
    BlankIffTrimEmpty(email);
  }

  /** The password field check of the sign-in and registration forms. */
  function PasswordError(password: string): (e: string)
    ensures e == "" || e == PasswordRequired || e == PasswordTooShort
  {
    if IsBlank(password) then PasswordRequired
    else if |password| < 6 then PasswordTooShort
    else ""
  }

  /**
   * The password error is empty exactly when the password has six characters
   * or more and is not all whitespace; it asks for a password exactly when
   * only whitespace was typed.
   */
  lemma PasswordErrorMeaning(password: string)
    ensures PasswordError(password) == "" <==>
      |password| >= 6 && exists k :: 0 <= k < |password| && !IsWhitespace(password[k])
    ensures PasswordError(password) == PasswordRequired <==> Trim(password) == ""
  {
    BlankIffTrimEmpty(password);
  }

  /** ASCII part of `toLowerCase`: 'A'..'Z' become 'a'..'z', everything else is kept. */
  function LowerChar(c: char): (r: char)
    ensures !('A' <= r <= 'Z')
    ensures !('A' <= c <= 'Z') ==> r == c
    ensures 'A' <= c <= 'Z' ==> 'a' <= r <= 'z' && r as int - c as int == 'a' as int - 'A' as int
  {
    if 'A' <= c <= 'Z' then (c as int + 32) as char else c
  }

  /** The e-mail field stores what is typed, lower-cased. */
  function ToLower(s: string): (r: string)
    ensures |r| == |s|
    ensures forall k :: 0 <= k < |r| ==> !('A' <= r[k] <= 'Z')
    ensures forall k :: 0 <= k < |s| && !('A' <= s[k] <= 'Z') ==> r[k] == s[k]
    ensures forall k :: 0 <= k < |s| && 'A' <= s[k] <= 'Z' ==> r[k] as int - s[k] as int == 'a' as int - 'A' as int
  {
    seq(|s|, k requires 0 <= k < |s| => LowerChar(s[k]))
  }

  /** Lower-casing twice is lower-casing once. */
  lemma ToLowerIdempotent(s: string)
    ensures ToLower(ToLower(s)) == ToLower(s)
  {
  }

  /** Lower-casing keeps whitespace, '@' and '.' where they were, and adds none. */
  lemma LowerCharKeepsSymbols(c: char)
    ensures IsWhitespace(LowerChar(c)) <==> IsWhitespace(c)
    ensures LowerChar(c) == '@' <==> c == '@'
    ensures LowerChar(c) == '.' <==> c == '.'
  {
  }

  /** Two strings with whitespace, '@' and '.' at the same places. */
  predicate SameSymbols(s: string, t: string) {
    && |s| == |t|
    && forall k :: 0 <= k < |s| ==>
         (IsWhitespace(t[k]) <==> IsWhitespace(s[k])) && (t[k] == '@' <==> s[k] == '@') && (t[k] == '.' <==> s[k] == '.')
  }

  /** The pattern only looks at where whitespace, '@' and '.' are. */
  lemma SameSymbolsKeepEmailTest(s: string, t: string)
    requires SameSymbols(s, t) && EmailShape(s)
    ensures EmailShape(t)
  {
    var at :| 0 < at < |s| && s[at] == '@'
       && (forall k :: 0 <= k < |s| && k != at ==> s[k] != '@')
       && (exists dot :: at + 1 < dot < |s| - 1 && s[dot] == '.');
    var dot :| at + 1 < dot < |s| - 1 && s[dot] == '.';
    assert t[at] == '@' && t[dot] == '.';
  }

  /** Lower-casing never changes whether a string is blank or has the e-mail shape. */
  lemma LowerCaseKeepsEmailTest(s: string)
    ensures IsBlank(ToLower(s)) <==> IsBlank(s)
    ensures EmailShape(ToLower(s)) <==> EmailShape(s)
  {
    var t := ToLower(s);
    forall k | 0 <= k < |s|
      ensures (IsWhitespace(t[k]) <==> IsWhitespace(s[k]))
      ensures (t[k] == '@' <==> s[k] == '@') && (t[k] == '.' <==> s[k] == '.')
    {
      LowerCharKeepsSymbols(s[k]);
    }
    assert SameSymbols(s, t) && SameSymbols(t, s);
    if EmailShape(s) {
      SameSymbolsKeepEmailTest(s, t);
    }
    if EmailShape(t) {
      SameSymbolsKeepEmailTest(t, s);
    }
  }

  /**
   * Lower-casing never changes the e-mail check: whitespace, '@' and '.' are
   * not capital letters, so they stay where they were.
   */
  lemma LowerCaseKeepsEmailError(s: string)
    ensures EmailError(ToLower(s)) == EmailError(s)
  {
    LowerCaseKeepsEmailTest(s);
  }
}
