/**
 * The three regular expressions of src/domain/domainResources/validationRegExp.ts, as
 * predicates on strings. Each predicate follows the structure of its pattern (no flags:
 * `^` and `$` anchor the whole input, `.` excludes line terminators, `\d` is ASCII).
 */
module RegExps {

  predicate IsDigit(c: char) { '0' <= c <= '9' }
  predicate IsAsciiLower(c: char) { 'a' <= c <= 'z' }
  predicate IsAsciiUpper(c: char) { 'A' <= c <= 'Z' }
  predicate IsAsciiLetter(c: char) { IsAsciiLower(c) || IsAsciiUpper(c) }
  predicate IsLowerHexDigit(c: char) { IsDigit(c) || 'a' <= c <= 'f' }

  /** The characters `.` does not match. */
  predicate IsLineTerminator(c: char) {
    c == '\n' || c == '\r' || c == '\U{2028}' || c == '\U{2029}'
  }

  /** `[\W_]`: everything but an ASCII letter or digit. */
  predicate IsNonAlphanumeric(c: char) { !IsAsciiLetter(c) && !IsDigit(c) }

  /** `[a-zA-Z0-9._%+-]`, the local part of an address. */
  predicate IsEmailLocalChar(c: char) {
    IsAsciiLetter(c) || IsDigit(c) || c == '.' || c == '_' || c == '%' || c == '+' || c == '-'
  }

  /** `[a-zA-Z0-9.-]`, the domain part of an address. */
  predicate IsEmailDomainChar(c: char) {
    IsAsciiLetter(c) || IsDigit(c) || c == '.' || c == '-'
  }

  /** ID_REGEX, `^[0-9a-f]{1,}$`. */
  predicate MatchesIdRegex(s: string) {
    |s| >= 1 && forall i :: 0 <= i < |s| ==> IsLowerHexDigit(s[i])
  }

  /** The four character classes the password lookaheads look for. */
  datatype CharClass = LowerLetter | UpperLetter | Digit | NonAlphanumeric

  predicate InClass(c: char, k: CharClass) {
    match k
    case LowerLetter => IsAsciiLower(c)
    case UpperLetter => IsAsciiUpper(c)
    case Digit => IsDigit(c)
    case NonAlphanumeric => IsNonAlphanumeric(c)
  }

  /** The lookahead `(?=.*k)` at the start of `s`: some character of class `k` is preceded
      only by characters `.` matches. */
  predicate LookaheadFinds(s: string, k: CharClass) {
    exists j :: 0 <= j < |s| && InClass(s[j], k) && forall m :: 0 <= m < j ==> !IsLineTerminator(s[m])
  }

  /** PASSWORD_REGEX, `^(?=.*[a-z])(?=.*[A-Z])(?=.*\d)(?=.*[\W_]).+$`. */
  predicate MatchesPasswordRegex(s: string) {
    && LookaheadFinds(s, LowerLetter)
    && LookaheadFinds(s, UpperLetter)
    && LookaheadFinds(s, Digit)
    && LookaheadFinds(s, NonAlphanumeric)
    && |s| >= 1
    && forall i :: 0 <= i < |s| ==> !IsLineTerminator(s[i])
  }

  /** `s` has a character of class `k` somewhere. */
  predicate Contains(s: string, k: CharClass) {
    exists i :: 0 <= i < |s| && InClass(s[i], k)
  }

  /** The password pattern has no length bound beyond one character; it asks for a
      non-empty single line holding each of the four character classes. */
  lemma PasswordRegexCharacterization(s: string)
    ensures MatchesPasswordRegex(s) <==>
      && |s| >= 1
      && (forall i :: 0 <= i < |s| ==> !IsLineTerminator(s[i]))
      && Contains(s, LowerLetter) && Contains(s, UpperLetter)
      && Contains(s, Digit) && Contains(s, NonAlphanumeric)
  {
    if |s| >= 1 && (forall i :: 0 <= i < |s| ==> !IsLineTerminator(s[i])) {
      forall k | Contains(s, k) ensures LookaheadFinds(s, k) {
        var j :| 0 <= j < |s| && InClass(s[j], k);
      }
    }
  }

  /** One way of reading `s` as EMAIL_REGEX, `^[a-zA-Z0-9._%+-]+@[a-zA-Z0-9.-]+\.[a-zA-Z]{2,}$`:
      the `@` stands at `at`, the `\.` at `dot`. */
  predicate EmailSplit(s: string, at: int, dot: int) {
    && 0 < at < dot - 1 && dot < |s| - 2
    && (forall k :: 0 <= k < at ==> IsEmailLocalChar(s[k]))
    && s[at] == '@'
    && (forall k :: at < k < dot ==> IsEmailDomainChar(s[k]))
    && s[dot] == '.'
    && (forall k :: dot < k < |s| ==> IsAsciiLetter(s[k]))
  }

  /** EMAIL_REGEX: some reading of `s` succeeds (the regex backtracks over all of them). */
  predicate MatchesEmailRegex(s: string) {
    exists at, dot | 0 <= at < |s| && 0 <= dot < |s| :: EmailSplit(s, at, dot)
  }

  /** The index of the first `c` in `s`, or `|s|` if there is none. */
  function FirstIndex(s: string, c: char): (r: nat)
    ensures r <= |s|
    ensures r < |s| ==> s[r] == c
    ensures forall k :: 0 <= k < r ==> s[k] != c
  {
    if s == [] then 0 else if s[0] == c then 0 else 1 + FirstIndex(s[1..], c)
  }

  /** The index of the last `c` in `s`, or -1 if there is none. */
  function LastIndex(s: string, c: char): (r: int)
    ensures -1 <= r < |s|
    ensures r >= 0 ==> s[r] == c
    ensures forall k :: r < k < |s| ==> s[k] != c
  {
    if s == [] then -1 else if s[|s| - 1] == c then |s| - 1 else LastIndex(s[..|s| - 1], c)
  }

  /** An address matches iff it has exactly one `@`, and reading it with that `@` and the
      last `.` succeeds: no backtracking is needed to decide the pattern. */
  lemma {:induction false} EmailRegexDecided(s: string)
    ensures MatchesEmailRegex(s) <==> EmailSplit(s, FirstIndex(s, '@'), LastIndex(s, '.'))
    ensures MatchesEmailRegex(s) ==>
      forall k :: 0 <= k < |s| && s[k] == '@' ==> k == FirstIndex(s, '@')
  {
    if MatchesEmailRegex(s) {
      var at, dot :| 0 <= at < |s| && 0 <= dot < |s| && EmailSplit(s, at, dot);
      var first := FirstIndex(s, '@');
      assert first == at;
      var last := LastIndex(s, '.');
      assert last == dot;
    }
  }

  /** ID_REGEX rejects upper-case hex digits. */
  lemma IdRegexRejectsUpperCase(s: string)
    requires MatchesIdRegex(s)
    ensures forall i :: 0 <= i < |s| ==> !('A' <= s[i] <= 'F')
  {
  }

  /** ID_REGEX bounds no length: an id of 23 characters matches. */
  lemma IdRegexAcceptsShortId()
    ensures MatchesIdRegex("65f0a1b2c3d4e5f6a7b8c9d")
  {
  }

  lemma IdRegexRejectsMixedCaseId()
    ensures !MatchesIdRegex("65f0a1b2c3d4e5f6A7b8c9d0")
  {
    assert "65f0a1b2c3d4e5f6A7b8c9d0"[16] == 'A';
  }

  /** Four characters suffice for PASSWORD_REGEX. */
  lemma PasswordRegexAcceptsFourCharacters()
    ensures MatchesPasswordRegex("aA1!")
  {
    var p := "aA1!";
    assert InClass(p[0], LowerLetter) && InClass(p[1], UpperLetter);
    assert InClass(p[2], Digit) && InClass(p[3], NonAlphanumeric);
  }

  /** The password of tests/testInput.ts:23 matches. */
  lemma PasswordRegexAcceptsFixture()
    ensures MatchesPasswordRegex("5W]L8t1m4@PcTTO")
  {
    var p := "5W]L8t1m4@PcTTO";
    assert InClass(p[5], LowerLetter) && InClass(p[1], UpperLetter);
    assert InClass(p[0], Digit) && InClass(p[2], NonAlphanumeric);
    assert forall i :: 0 <= i < |p| ==> !IsLineTerminator(p[i]);
    PasswordRegexCharacterization(p);
  }

  /** A line break anywhere defeats `.+$`. */
  lemma PasswordRegexRejectsLineBreak()
    ensures !MatchesPasswordRegex("aA1!\nb")
  {
    assert IsLineTerminator("aA1!\nb"[4]);
  }

  /** The valid address of tests/testInput.ts:22 matches. */
  lemma EmailRegexAcceptsFixture()
    ensures MatchesEmailRegex("random@mail.com")
  {
    assert EmailSplit("random@mail.com", 6, 11);
  }

  /** The five invalid addresses of tests/testInput.ts:30-36 do not match. */
  lemma EmailRegexRejectsNoPrefix()
    ensures !MatchesEmailRegex("@mail.com")
  {
    assert forall k :: 0 <= k < |"@mail.com"| && "@mail.com"[k] == '@' ==> k == 0;
  }

  lemma EmailRegexRejectsNoAt()
    ensures !MatchesEmailRegex("randommail.com")
  {
    assert forall k :: 0 <= k < |"randommail.com"| ==> "randommail.com"[k] != '@';
  }

  lemma EmailRegexRejectsNoDomain()
    ensures !MatchesEmailRegex("random@.com")
  {
    assert forall k :: 0 <= k < |"random@.com"| && "random@.com"[k] == '@' ==> k == 6;
    assert forall k :: 0 <= k < |"random@.com"| && "random@.com"[k] == '.' ==> k == 7;
  }

  lemma EmailRegexRejectsNoDot()
    ensures !MatchesEmailRegex("random@mailcom")
  {
    assert forall k :: 0 <= k < |"random@mailcom"| ==> "random@mailcom"[k] != '.';
  }

  lemma EmailRegexRejectsNoTopLevelDomain()
    ensures !MatchesEmailRegex("random@mail.")
  {
    assert forall k :: 0 <= k < |"random@mail."| && "random@mail."[k] == '.' ==> k == 11;
  }
}
