/**
 * The three field validators of the sign-in, sign-up and profile forms.
 * Each one is a chain of early returns; the source returns "" for a valid
 * value and an English message otherwise. Here the result is `None` for a
 * valid value and `Some(e)` for the error `e`; `Message(e)` is the source's text.
 */
module Validators {
  import opened Wrappers
  import opened Text

  datatype ValidationError =
    | EmailRequired
    | EmailInvalid
    | PasswordRequired
    | PasswordMinLength
    | UsernameMustStartWithAt
    | UsernameMinLength
    | UsernameNoSpaces

  /** The message the source returns for each error. */
  function Message(e: ValidationError): (m: string)
    ensures m != ""
  {
    match e
    case EmailRequired => "Email is required"
    case EmailInvalid => "Email is not valid"
    case PasswordRequired => "Password is required"
    case PasswordMinLength => "Password must be at least 6 characters"
    case UsernameMustStartWithAt => "Username must start with @"
    case UsernameMinLength => "Username must be at least 3 characters"
    case UsernameNoSpaces => "Username cannot contain spaces"
  }

  const MinPasswordLength := 6
  const MinUsernameLength := 3

  /** A character of the class `[^\s@]`. */
  predicate Plain(c: char) {
    !IsWhitespace(c) && c != '@'
  }

  /** Every character of `s` is in `[^\s@]`. */
  predicate AllPlain(s: string) {
    forall k :: 0 <= k < |s| ==> Plain(s[k])
  }

  /** The index of the first '@' in `s`, or |s| when there is none. */
  function IndexOfAt(s: string): (i: nat)
    ensures i <= |s|
    ensures i < |s| ==> s[i] == '@'
    ensures forall k :: 0 <= k < i ==> s[k] != '@'
  {
    if s == [] then 0
    else if s[0] == '@' then 0
    else 1 + IndexOfAt(s[1..])
  }

  /** An '@' preceded only by `[^\s@]` characters is the first '@'. */
  lemma {:induction false} FirstAtIndex(s: string, i: nat)
    requires i < |s| && s[i] == '@' && AllPlain(s[..i])
    ensures IndexOfAt(s) == i
  {
    if i > 0 {
      assert s[1..][..i - 1] == s[..i][1..];
      FirstAtIndex(s[1..], i - 1);
    }
  }

  /** `d` contains a '.' with at least one character on either side. */
  predicate HasInnerDot(d: string) {
    exists k :: 0 < k < |d| - 1 && d[k] == '.'
  }

  /**
   * The e-mail shape: a non-empty local part of `[^\s@]` characters, one '@',
   * and a domain of `[^\s@]` characters holding an inner '.'.
   */
  predicate EmailShape(s: string) {
    var i := IndexOfAt(s);
    0 < i < |s| && AllPlain(s[..i]) && AllPlain(s[i + 1..]) && HasInnerDot(s[i + 1..])
  }

  /**
   * One way `s` matches `^[^\s@]+@[^\s@]+\.[^\s@]+$`: the '@' at `i` and
   * the '.' matched by `\.` at `j`, with the three `[^\s@]+` runs between.
   */
  ghost predicate RegexSplit(s: string, i: int, j: int) {
    && 0 < i && i + 1 < j && j + 1 < |s|
    && s[i] == '@' && s[j] == '.'
    && AllPlain(s[..i]) && AllPlain(s[i + 1..j]) && AllPlain(s[j + 1..])
  }

  /** The language of the source's e-mail regular expression. */
  ghost predicate MatchesEmailRegex(s: string) {
    exists i, j :: RegexSplit(s, i, j)
  }

  /** The explicit shape accepts exactly the strings the regular expression matches. */
  lemma EmailShapeIsRegex(s: string)
    ensures EmailShape(s) <==> MatchesEmailRegex(s)
  {
    var i := IndexOfAt(s);
    if EmailShape(s) {
      var d := s[i + 1..];
      var k :| 0 < k < |d| - 1 && d[k] == '.';
      var j := i + 1 + k;
      assert s[i + 1..j] == d[..k];
      assert s[j + 1..] == d[k + 1..];
      assert RegexSplit(s, i, j);
    }
    if MatchesEmailRegex(s) {
      var i', j :| RegexSplit(s, i', j);
      FirstAtIndex(s, i');
      assert i == i';
      var d := s[i + 1..];
      assert d == s[i + 1..j] + [s[j]] + s[j + 1..];
      assert d[j - i - 1] == '.';
      assert AllPlain(d) by {
        forall k | 0 <= k < |d| ensures Plain(d[k]) {
          if k < j - i - 1 {
            assert d[k] == s[i + 1..j][k];
          } else if k > j - i - 1 {
            assert d[k] == s[j + 1..][k - (j - i)];
          }
        }
      }
    }
  }

  /** `validateEmail(value)`. */
  function ValidateEmail(value: string): (r: Option<ValidationError>)
    ensures r == Some(EmailRequired) <==> IsBlank(value)
    ensures r == None <==> !IsBlank(value) && MatchesEmailRegex(Trim(value))
    ensures r != None && r != Some(EmailRequired) ==> r == Some(EmailInvalid)
  {
    EmailShapeIsRegex(Trim(value));
    if IsBlank(value) then Some(EmailRequired)
    else if !EmailShape(Trim(value)) then Some(EmailInvalid)
    else None
  }

  /** Only the trimmed value is inspected, so surrounding white space is tolerated. */
  lemma {:induction false} ValidateEmailIgnoresPadding(value: string)
    ensures ValidateEmail(value) == ValidateEmail(Trim(value))
  {
    TrimIdempotent(value);
  }

  /** `validatePassword(value)`: no trimming; only the length matters. */
  function ValidatePassword(value: string): (r: Option<ValidationError>)
    ensures r == Some(PasswordRequired) <==> |value| == 0
    ensures r == Some(PasswordMinLength) <==> 0 < |value| < MinPasswordLength
    ensures r == None <==> |value| >= MinPasswordLength
  {
    if value == [] then Some(PasswordRequired)
    else if |value| < MinPasswordLength then Some(PasswordMinLength)
    else None
  }

  /**
   * `validateUsername(value)`: a blank value is accepted; otherwise the first
   * of three ordered checks that fails decides the error.
   */
  function ValidateUsername(value: string): (r: Option<ValidationError>)
    ensures IsBlank(value) ==> r == None
    ensures !IsBlank(value) ==>
      (r == Some(UsernameMustStartWithAt) <==> !StartsWith(value, "@"))
    ensures !IsBlank(value) ==>
      (r == Some(UsernameMinLength) <==> StartsWith(value, "@") && |value| < MinUsernameLength)
    ensures !IsBlank(value) ==>
      (r == Some(UsernameNoSpaces) <==>
         StartsWith(value, "@") && |value| >= MinUsernameLength && Contains(value, ' '))
    ensures !IsBlank(value) ==>
      (r == None <==> StartsWith(value, "@") && |value| >= MinUsernameLength && !Contains(value, ' '))
  {
    if IsBlank(value) then None
    else if !StartsWith(value, "@") then Some(UsernameMustStartWithAt)
    else if |value| < MinUsernameLength then Some(UsernameMinLength)
    else if Contains(value, ' ') then Some(UsernameNoSpaces)
    else None
  }

  /** From the validators' tests: a domain without a '.' is rejected. */
  lemma EmailWithoutDotRejected()
    ensures ValidateEmail("missing@domain") == Some(EmailInvalid)
  {
    var e := "missing@domain";
    assert TrimStart(e) == e && TrimEnd(e) == e;
    assert Trim(e) == e;
    FirstAtIndex(e, 7);
    assert e[8..] == "domain";
  }

  /** From the validators' tests: an empty local part is rejected. */
  lemma EmailWithoutLocalPartRejected()
    ensures ValidateEmail("@nodomain.com") == Some(EmailInvalid)
  {
    var e := "@nodomain.com";
    assert TrimStart(e) == e && TrimEnd(e) == e;
  }

  /** From the validators' tests: the shortest accepted shape. */
  lemma ShortEmailAccepted()
    ensures ValidateEmail("a@b.co") == None
  {
    var e := "a@b.co";
    assert TrimStart(e) == e && TrimEnd(e) == e;
    assert RegexSplit(e, 1, 3);
  }

  /** From the validators' tests: "@ user" passes the '@' and length checks and fails on the space. */
  lemma UsernameWithSpaceRejected()
    ensures ValidateUsername("@ user") == Some(UsernameNoSpaces)
  {
    var u := "@ user";
    assert TrimStart(u) == u && TrimEnd(u) == u;
    assert u[1] == ' ';
  }

  /** From the validators' tests: "@" alone fails the length check. */
  lemma LoneAtRejected()
    ensures ValidateUsername("@") == Some(UsernameMinLength)
  {
    assert TrimStart("@") == "@" && TrimEnd("@") == "@";
  }
}
