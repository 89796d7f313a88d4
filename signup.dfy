/** The sign-up form's client-side validation: the checks run in order and
    the first failing one names the problem; only a form that passes them
    all is submitted. */
module SignUp {
  import opened Wrappers
  import opened Text

  datatype SignUpForm = SignUpForm(fullName: string, email: string, password: string, bio: string)

  /** No white space in `s[lo..hi]`. */
  predicate NonBlank(s: string, lo: int, hi: int)
    requires 0 <= lo <= hi <= |s|
  {
    forall k :: lo <= k < hi ==> !IsWhitespace(s[k])
  }

  /** The pattern `\S+@\S+\.\S+` matched by `s[i..e]`, its `@` at `a` and the
      escaped dot at `d`. */
  ghost predicate MatchesAt(s: string, i: int, a: int, d: int, e: int) {
    && 0 <= i < a && a + 1 < d && d + 1 < e <= |s|
    && s[a] == '@' && s[d] == '.'
    && NonBlank(s, i, a) && NonBlank(s, a + 1, d) && NonBlank(s, d + 1, e)
  }

  /** `/\S+@\S+\.\S+/.test(s)`: the pattern is unanchored, so any substring
      may match. */
  ghost predicate PatternMatches(s: string) {
    exists i, a, d, e :: MatchesAt(s, i, a, d, e)
  }

  /** An `@` at `a` and a dot at `d` with one non-white character before
      the `@`, none between the two, and one after the dot. */
  predicate ShapeAt(s: string, a: int, d: int) {
    && 0 < a && a + 1 < d && d + 1 < |s|
    && s[a] == '@' && s[d] == '.'
    && !IsWhitespace(s[a - 1]) && NonBlank(s, a + 1, d) && !IsWhitespace(s[d + 1])
  }

  /** The same test stated on single characters around an `@` and a later
      dot: each outer `\S+` can shrink to the one character next to the `@`
      or the dot, while the middle one must cover everything between. */
  predicate EmailShape(s: string) {
    exists a, d :: 0 < a < |s| && 0 < d < |s| && ShapeAt(s, a, d)
  }

  lemma ShapeGivesMatch(s: string, a: int, d: int)
    requires ShapeAt(s, a, d)
    ensures MatchesAt(s, a - 1, a, d, d + 2)
  {
  }

  lemma MatchGivesShape(s: string, i: int, a: int, d: int, e: int)
    requires MatchesAt(s, i, a, d, e)
    ensures ShapeAt(s, a, d)
  {
    assert !IsWhitespace(s[a - 1]);
    assert !IsWhitespace(s[d + 1]);
  }

  lemma EmailShapeIsPattern(s: string)
    ensures EmailShape(s) <==> PatternMatches(s)
  {
    if EmailShape(s) {
      var a, d :| 0 < a < |s| && 0 < d < |s| && ShapeAt(s, a, d);
      ShapeGivesMatch(s, a, d);
    }
    if PatternMatches(s) {
      var i, a, d, e :| MatchesAt(s, i, a, d, e);
      MatchGivesShape(s, i, a, d, e);
    }
  }

  /** `validateForm`: the message of the first failing check, or `None`
      when the form is valid. */
  function ValidateForm(f: SignUpForm): (r: Option<string>)
    ensures r.None? <==>
              !AllWhitespace(f.fullName) && !AllWhitespace(f.email) && EmailShape(f.email)
              && |f.password| >= 6
    ensures AllWhitespace(f.fullName) ==> r == Some("Full name is required")
    ensures !AllWhitespace(f.fullName) && AllWhitespace(f.email) ==> r == Some("Email is required")
    ensures !AllWhitespace(f.fullName) && !AllWhitespace(f.email) && !EmailShape(f.email) ==>
              r == Some("Invalid email format")
    ensures !AllWhitespace(f.fullName) && !AllWhitespace(f.email) && EmailShape(f.email) && f.password == "" ==>
              r == Some("Password is required")
    ensures !AllWhitespace(f.fullName) && !AllWhitespace(f.email) && EmailShape(f.email) && 0 < |f.password| < 6 ==>
              r == Some("Password must be at least 6 characters")
  {
    TrimEmptyIffBlank(f.fullName);
    TrimEmptyIffBlank(f.email);
    if Trim(f.fullName) == "" then Some("Full name is required")
    else if Trim(f.email) == "" then Some("Email is required")
    else if !EmailShape(f.email) then Some("Invalid email format")
    else if f.password == "" then Some("Password is required")
    else if |f.password| < 6 then Some("Password must be at least 6 characters")
    else None
  }

  /** `handleSubmit`: the sign-up request sent, if any. The form goes out
      unchanged, untrimmed. */
  function HandleSubmit(f: SignUpForm): (r: Option<SignUpForm>)
    ensures r.Some? ==> r.value == f
    ensures r.Some? <==> ValidateForm(f).None?
  {
    if ValidateForm(f).None? then Some(f) else None
  }

  /** Whatever is submitted has a non-blank name, an email matching the
      pattern and a password of at least six characters; a password made of
      spaces only is accepted. */
  lemma SubmittedFormValid(f: SignUpForm)
    requires HandleSubmit(f).Some?
    ensures Trim(f.fullName) != "" && Trim(f.email) != ""
    ensures PatternMatches(f.email)
    ensures |f.password| >= 6
  {
    TrimEmptyIffBlank(f.fullName);
    TrimEmptyIffBlank(f.email);
    EmailShapeIsPattern(f.email);
  }

  lemma SpacesPasswordAccepted()
    ensures HandleSubmit(SignUpForm("Ann", "a@b.c", "      ", "")).Some?
  {
    var f := SignUpForm("Ann", "a@b.c", "      ", "");
    assert !IsWhitespace(f.fullName[0]);
    assert !IsWhitespace(f.email[0]);
    assert ShapeAt(f.email, 1, 3);
  }
}
