/** The password rule both the server validator and the forms apply: 8 to 16 characters
    (each side measuring length its own way) matching `^(?=.*[A-Z])(?=.*[!@#$%^&*])`. The
    regular expression has no flags, so each lookahead's `.*` stops at the first line terminator: the uppercase letter and the special
    character must both appear before any line break. */
module PasswordRule {
  import opened Common

  predicate IsUpper(c: char) { 'A' <= c <= 'Z' }

  /** The class `[!@#$%^&*]`. */
  predicate IsSpecial(c: char)
  {
    c == '!' || c == '@' || c == '#' || c == '$' || c == '%' || c == '^' || c == '&' || c == '*'
  }

  /** The characters a regular-expression `.` does not match without the `s` flag. */
  predicate IsLineTerminator(c: char)
  {
    c == '\n' || c == '\r' || c == '\U{2028}' || c == '\U{2029}'
  }

  /** The lookahead `(?=.*[class])` at the start of `s`: scan forward until a character of the
      class is found (success) or a line terminator or the end is reached (failure). */
  function LookaheadFinds(s: string, inClass: char -> bool): bool
  {
    if s == [] then false
    else if inClass(s[0]) then true
    else if IsLineTerminator(s[0]) then false
    else LookaheadFinds(s[1..], inClass)
  }

  /** The scan succeeds exactly when some character of the class occurs with no line
      terminator before it. */
  lemma {:induction false} LookaheadFindsMeaning(s: string, inClass: char -> bool)
    ensures LookaheadFinds(s, inClass) <==>
      exists i :: 0 <= i < |s| && inClass(s[i]) && forall j :: 0 <= j < i ==> !IsLineTerminator(s[j])
  {
    if s != [] && !inClass(s[0]) && !IsLineTerminator(s[0]) {
      LookaheadFindsMeaning(s[1..], inClass);
      if LookaheadFinds(s, inClass) {
        var i :| 0 <= i < |s[1..]| && inClass(s[1..][i]) && forall j :: 0 <= j < i ==> !IsLineTerminator(s[1..][j]);
        assert inClass(s[i + 1]);
        forall j | 0 <= j < i + 1 ensures !IsLineTerminator(s[j]) {
          if j > 0 {
            assert s[j] == s[1..][j - 1];
          }
        }
      }
      if exists i :: 0 <= i < |s| && inClass(s[i]) && forall j :: 0 <= j < i ==> !IsLineTerminator(s[j]) {
        var i :| 0 <= i < |s| && inClass(s[i]) && forall j :: 0 <= j < i ==> !IsLineTerminator(s[j]);
        assert i > 0;
        assert inClass(s[1..][i - 1]);
        forall j | 0 <= j < i - 1 ensures !IsLineTerminator(s[1..][j]) {
          assert s[1..][j] == s[j + 1];
        }
      }
    }
  }

  /** `/^(?=.*[A-Z])(?=.*[!@#$%^&*])/.test(password)`. */
  predicate MatchesPasswordPattern(password: string)
  {
    LookaheadFinds(password, IsUpper) && LookaheadFinds(password, IsSpecial)
  }

  /** The server's password validator: `isLength({ min: 8, max: 16 })` together with the
      pattern. */
  predicate IsValidPassword(password: string)
  {
    8 <= ValidatorLength(password) <= 16 && MatchesPasswordPattern(password)
  }

  /** On a single-line password the pattern means what it says: some uppercase letter and
      some special character occur. */
  lemma PatternOnOneLine(password: string)
    requires forall i :: 0 <= i < |password| ==> !IsLineTerminator(password[i])
    ensures MatchesPasswordPattern(password) <==>
      (exists i :: 0 <= i < |password| && IsUpper(password[i])) &&
      (exists i :: 0 <= i < |password| && IsSpecial(password[i]))
  {
    LookaheadFindsMeaning(password, IsUpper);
    LookaheadFindsMeaning(password, IsSpecial);
  }

  /** A password whose uppercase letter comes only after a line break fails the pattern,
      although it contains both kinds of character. */
  lemma LineBreakHidesUppercase()
    ensures var p := "abc!\nDefgh";
      IsSpecial(p[3]) && IsUpper(p[5]) && 8 <= |p| <= 16 && !IsValidPassword(p)
  {
    var p := "abc!\nDefgh";
    assert !IsUpper(p[0]) && !IsUpper(p[1]) && !IsUpper(p[2]) && !IsUpper(p[3]) && IsLineTerminator(p[4]);
    assert p[1..][1..][1..][1..][1..] == p[5..];
    assert !LookaheadFinds(p, IsUpper);
  }
}
