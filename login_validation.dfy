/** The field validators of the login form: each takes the field's value
    and returns an error message, or `None` (the program's `undefined`)
    when the value is acceptable. The `rememberMe` field has no validator. */
module LoginValidation {

  import opened Wrappers
  import opened JsText
  import Branding

  const EmailRequired: string := "Email is required"
  const EmailInvalid: string := "Email is invalid"
  const PasswordRequired: string := "Password is required"
  const PasswordTooShort: string := "Password must be at least 6 characters"

  // ---------------------------------------------------------------------
  // Email: /\S+@\S+\.\S+/, not anchored
  // ---------------------------------------------------------------------

  /** `\S+` matches `s[lo..hi]`. */
  predicate NonSpaceRun(s: string, lo: int, hi: int) {
    0 <= lo < hi <= |s| && forall k :: lo <= k < hi ==> !IsWhitespace(s[k])
  }

  /** The pattern matches `s[i..j]`, with its `@` at index `a` and its `\.`
      at index `d`. */
  predicate LooseMatchAt(s: string, i: int, a: int, d: int, j: int) {
    NonSpaceRun(s, i, a) && a < |s| && s[a] == '@'
    && NonSpaceRun(s, a + 1, d) && d < |s| && s[d] == '.'
    && NonSpaceRun(s, d + 1, j)
  }

  /** `/\S+@\S+\.\S+/.test(s)`: the pattern matches some substring. */
  predicate ContainsEmailPattern(s: string) {
    exists i, a, d, j | 0 <= i < a < d < j <= |s| :: LooseMatchAt(s, i, a, d, j)
  }

  /** The least that a match needs around an `@` at index `a` and a `.` at
      index `d`: a non-space character before the `@`, at least one
      character between them and none of them a space, and a non-space
      character after the `.`. */
  predicate EmailAround(s: string, a: int, d: int) {
    0 < a && a + 2 <= d && d + 1 < |s| && s[a] == '@' && s[d] == '.'
    && !IsWhitespace(s[a - 1]) && !IsWhitespace(s[d + 1])
    && forall k :: a < k < d ==> !IsWhitespace(s[k])
  }

  predicate HasEmailAround(s: string) {
    exists a, d | 0 < a < d < |s| :: EmailAround(s, a, d)
  }

  lemma ContainsEmailPatternIff(s: string)
    ensures ContainsEmailPattern(s) <==> HasEmailAround(s)
  {
    if ContainsEmailPattern(s) {
      var i, a, d, j :| 0 <= i < a < d < j <= |s| && LooseMatchAt(s, i, a, d, j);
      assert EmailAround(s, a, d);
    }
    if HasEmailAround(s) {
      var a, d :| 0 < a < d < |s| && EmailAround(s, a, d);
      assert LooseMatchAt(s, a - 1, a, d, d + 2);
    }
  }

  /** `loginValidation.email`. */
  function ValidateEmail(email: string): (error: Option<string>)
    ensures error == Some(EmailRequired) <==> email == []
    ensures error == Some(EmailInvalid) <==> email != [] && !HasEmailAround(email)
    ensures error == None <==> HasEmailAround(email)
  {
    ContainsEmailPatternIff(email);
    if email == [] then Some(EmailRequired)
    else if !ContainsEmailPattern(email) then Some(EmailInvalid)
    else None
  }

  // ---------------------------------------------------------------------
  // Password
  // ---------------------------------------------------------------------

  /** `loginValidation.password`; the length is JavaScript's, in UTF-16
      code units. */
  function ValidatePassword(password: string): (error: Option<string>)
    ensures error == Some(PasswordRequired) <==> password == []
    ensures error == Some(PasswordTooShort) <==> 0 < Utf16Length(password) < 6
    ensures error == None <==> Utf16Length(password) >= 6
    ensures |password| >= 6 ==> error == None
    ensures 0 < |password| < 3 ==> error == Some(PasswordTooShort)
  {
    if password == [] then Some(PasswordRequired)
    else if Utf16Length(password) < 6 then Some(PasswordTooShort)
    else None
  }

  /** Three characters outside the Basic Multilingual Plane make six code
      units, which is long enough. */
  lemma AstralPasswordLongEnough(c: char)
    requires IsAstral(c)
    ensures ValidatePassword([c, c, c]) == None
  {
    assert Utf16Length([c]) == 2;
    assert [c, c][1..] == [c];
    assert Utf16Length([c, c]) == 4;
    assert [c, c, c][1..] == [c, c];
  }

  // ---------------------------------------------------------------------
  // The login check against the branded email constructor
  // ---------------------------------------------------------------------

  /** Every address the branded constructor accepts passes the login
      form's email check. */
  lemma BrandedEmailPassesLogin(s: string)
    requires Branding.CreateEmail(s).Some?
    ensures ValidateEmail(s) == None
  {
    var a :| 0 < a < |s| && s[a] == '@'
      && (forall k :: 0 <= k < |s| && s[k] == '@' ==> k == a)
      && (exists d :: a + 2 <= d <= |s| - 2 && s[d] == '.');
    var d :| a + 2 <= d <= |s| - 2 && s[d] == '.';
    assert EmailAround(s, a, d);
  }

  /** The converse fails: the login check is not anchored and allows a
      second `@`, so it passes a value the branded constructor rejects. */
  lemma LoginLooserThanBrandedEmail()
    ensures ValidateEmail("a@b@c.d") == None
    ensures Branding.CreateEmail("a@b@c.d") == None
  {
    var s := "a@b@c.d";
    assert EmailAround(s, 1, 5);
    forall a | 0 < a < |s| && s[a] == '@'
      ensures exists k :: 0 <= k < |s| && s[k] == '@' && k != a
    {
      if a == 1 {
        assert s[3] == '@';
      } else {
        assert s[1] == '@';
      }
    }
  }

  /** The empty value is reported as missing, a value with no `@` as
      invalid. */
  lemma EmailSamples()
    ensures ValidateEmail("") == Some(EmailRequired)
    ensures ValidateEmail("user.example.com") == Some(EmailInvalid)
  {
  }
}
