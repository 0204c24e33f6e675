/**
 * The validation rules of the sign-up and sign-in forms and the role enumeration
 * (src/types/auth.types.ts). Each schema is modelled as the list of issues it reports;
 * an empty list means the input is accepted.
 */
module AuthTypes {
  import opened Wrappers

  /** RoleSchema: the closed enumeration of roles. */
  datatype Role = Admin | Owner | Staff

  function RoleName(r: Role): string
  {
    match r
    case Admin => "admin"
    case Owner => "owner"
    case Staff => "staff"
  }

  /** Parsing a string with RoleSchema. */
  function ParseRole(s: string): (r: Option<Role>)
    ensures r.Some? <==> s == "admin" || s == "owner" || s == "staff"
    ensures r.Some? ==> RoleName(r.value) == s
  {
    if s == "admin" then Some(Admin)
    else if s == "owner" then Some(Owner)
    else if s == "staff" then Some(Staff)
    else None
  }

  /** Every role survives a round trip through its name. */
  lemma RoleRoundTrip(r: Role)
    ensures ParseRole(RoleName(r)) == Some(r)
  {
  }

  // ---------------------------------------------------------------------------
  // The sign-up password pattern /^(?=.*[a-z])(?=.*[A-Z])(?=.*[^a-zA-Z0-9]).{8,}$/
  // under ECMAScript RegExp semantics without flags: `.` matches any character
  // except a line terminator, `^` and `$` anchor at the ends of the input.
  // ---------------------------------------------------------------------------

  predicate IsLineTerminator(c: char) { c == '\n' || c == '\r' || c == '\U{2028}' || c == '\U{2029}' }
  predicate IsLowerAscii(c: char) { 'a' <= c <= 'z' }
  predicate IsUpperAscii(c: char) { 'A' <= c <= 'Z' }
  predicate IsSpecial(c: char) { !IsLowerAscii(c) && !IsUpperAscii(c) && !('0' <= c <= '9') }

  /** What the pattern asks of a password, read declaratively. */
  ghost predicate SignUpPasswordSpec(s: string)
  {
    && |s| >= 8
    && (forall i :: 0 <= i < |s| ==> !IsLineTerminator(s[i]))
    && (exists i :: 0 <= i < |s| && IsLowerAscii(s[i]))
    && (exists i :: 0 <= i < |s| && IsUpperAscii(s[i]))
    && (exists i :: 0 <= i < |s| && IsSpecial(s[i]))
  }

  /** What one left-to-right pass over a password has seen. */
  datatype Scan = Scan(lower: bool, upper: bool, special: bool, terminator: bool)

  function ScanPassword(s: string): Scan
  {
    if s == [] then Scan(false, false, false, false)
    else
      var rest := ScanPassword(s[1..]);
      Scan(rest.lower || IsLowerAscii(s[0]), rest.upper || IsUpperAscii(s[0]),
           rest.special || IsSpecial(s[0]), rest.terminator || IsLineTerminator(s[0]))
  }

  /** The recogniser for the sign-up password pattern. */
  predicate MatchesSignUpPassword(s: string)
  {
    var scan := ScanPassword(s);
    |s| >= 8 && scan.lower && scan.upper && scan.special && !scan.terminator
  }

  lemma {:induction false} ScanPasswordSees(s: string)
    ensures ScanPassword(s).lower <==> exists i :: 0 <= i < |s| && IsLowerAscii(s[i])
    ensures ScanPassword(s).upper <==> exists i :: 0 <= i < |s| && IsUpperAscii(s[i])
    ensures ScanPassword(s).special <==> exists i :: 0 <= i < |s| && IsSpecial(s[i])
    ensures ScanPassword(s).terminator <==> exists i :: 0 <= i < |s| && IsLineTerminator(s[i])
  {
    if s != [] {
      ScanPasswordSees(s[1..]);
      forall i | 1 <= i < |s| ensures s[i] == s[1..][i - 1] { }
      if ScanPassword(s[1..]).lower { var j :| 0 <= j < |s[1..]| && IsLowerAscii(s[1..][j]); assert IsLowerAscii(s[j + 1]); }
      if ScanPassword(s[1..]).upper { var j :| 0 <= j < |s[1..]| && IsUpperAscii(s[1..][j]); assert IsUpperAscii(s[j + 1]); }
      if ScanPassword(s[1..]).special { var j :| 0 <= j < |s[1..]| && IsSpecial(s[1..][j]); assert IsSpecial(s[j + 1]); }
      if ScanPassword(s[1..]).terminator {
        var j :| 0 <= j < |s[1..]| && IsLineTerminator(s[1..][j]); assert IsLineTerminator(s[j + 1]);
      }
    }
  }

  /** The recogniser accepts exactly the passwords the pattern describes. */
  lemma SignUpPasswordCorrect(s: string)
    ensures MatchesSignUpPassword(s) <==> SignUpPasswordSpec(s)
  {
    ScanPasswordSees(s);
  }

  /** No digit is required: eight characters with a lower-case, an upper-case and a special one suffice. */
  lemma NoDigitRequired()
    ensures MatchesSignUpPassword("Abcdefg!")
  {
    var s := "Abcdefg!";
    assert IsUpperAscii(s[0]) && IsLowerAscii(s[1]) && IsSpecial(s[7]);
    SignUpPasswordCorrect(s);
  }

  /** A password with a line terminator never matches, whatever else it contains. */
  lemma {:induction false} LineTerminatorNeverMatches(s: string, i: nat)
    requires i < |s| && IsLineTerminator(s[i])
    ensures !MatchesSignUpPassword(s)
  {
    ScanPasswordSees(s);
  }

  // ---------------------------------------------------------------------------
  // The form schemas. zod reports every failing check of every field, in field
  // order; the `.refine` on the sign-up object runs after the field checks, since
  // failed string checks do not abort the object parse. zod's `.email()` check is
  // not modelled: whether the address is well formed is a parameter.
  // ---------------------------------------------------------------------------

  datatype Field = Name | Email | Password | PasswordConfirmation

  datatype Issue = Issue(path: Field, message: string)

  datatype SignUpForm = SignUpForm(name: string, email: string, password: string, passwordConfirmation: string)

  datatype SignInForm = SignInForm(email: string, password: string)

  const NameRequired := "Nome é obrigatório"
  const EmailRequired := "Email é obrigatório"
  const EmailInvalid := "Introduze um email válido"
  const PasswordRequired := "Password é obrigatório"
  const PasswordTooShort := "A password deve ter pelo menos 8 caracteres"
  const PasswordWeak := "A password deve conter pelo menos 8 caracteres, uma letra maiúscula, uma minúscula e um carácter especial"
  const PasswordsDiffer := "As duas passwords inseridas não são iguais"

  function When(cond: bool, issue: Issue): seq<Issue> { if cond then [issue] else [] }

  function EmailIssues(email: string, emailWellFormed: bool): seq<Issue>
  {
    When(|email| < 1, Issue(Email, EmailRequired)) + When(!emailWellFormed, Issue(Email, EmailInvalid))
  }

  /** SignUpOwnerUserSchema. */
  function SignUpIssues(f: SignUpForm, emailWellFormed: bool): (r: seq<Issue>)
    ensures r == [] <==>
      f.name != "" && f.email != "" && emailWellFormed
      && SignUpPasswordSpec(f.password) && f.password == f.passwordConfirmation
    ensures f.password != f.passwordConfirmation ==> Issue(PasswordConfirmation, PasswordsDiffer) in r
    ensures forall i :: 0 <= i < |r| && r[i].path == PasswordConfirmation ==>
      f.password != f.passwordConfirmation
  {
    SignUpPasswordCorrect(f.password);
    When(|f.name| < 1, Issue(Name, NameRequired))
    + EmailIssues(f.email, emailWellFormed)
    + When(|f.password| < 1, Issue(Password, PasswordRequired))
    + When(|f.password| < 8, Issue(Password, PasswordTooShort))
    + When(!MatchesSignUpPassword(f.password), Issue(Password, PasswordWeak))
    + When(f.password != f.passwordConfirmation, Issue(PasswordConfirmation, PasswordsDiffer))
  }

  /** SignInUserSchema: the password needs only eight characters. */
  function SignInIssues(f: SignInForm, emailWellFormed: bool): (r: seq<Issue>)
    ensures r == [] <==> f.email != "" && emailWellFormed && |f.password| >= 8
    ensures f.password == "" ==> Issue(Password, PasswordRequired) in r && Issue(Password, PasswordTooShort) in r
  {
    EmailIssues(f.email, emailWellFormed)
    + When(|f.password| < 1, Issue(Password, PasswordRequired))
    + When(|f.password| < 8, Issue(Password, PasswordTooShort))
  }

  /** A password that passes sign-up also passes sign-in, but not the other way round. */
  lemma SignInWeakerThanSignUp(email: string, password: string)
    requires email != ""
    ensures SignUpIssues(SignUpForm("n", email, password, password), true) == [] ==>
              SignInIssues(SignInForm(email, password), true) == []
    ensures SignInIssues(SignInForm(email, "abcdefgh"), true) == []
    ensures SignUpIssues(SignUpForm("n", email, "abcdefgh", "abcdefgh"), true) != []
  {
    var s := "abcdefgh";
    assert forall i :: 0 <= i < |s| ==> !IsUpperAscii(s[i]);
  }
}
