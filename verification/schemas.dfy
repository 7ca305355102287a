/** The two form schemas: the profile form and the sign-up form. Each rule is
    a minimum string length, except the email rule, which stands for the
    validation library's address check and is passed in as a predicate.
    Every failing rule reports its own message; the form is accepted when no
    rule fails. */
module Schemas {

  datatype Field = NameField | EmailField | DobField | UsernameField | PasswordField

  datatype Issue = Issue(field: Field, message: string)

  datatype ProfileForm = ProfileForm(name: string, email: string, dob: string, username: string)

  datatype SignupForm = SignupForm(name: string, email: string, username: string, dob: string, password: string)

  /** The messages the schemas attach to their rules. */
  const ProfileNameMessage: string := "Name must be at least 2 characters"
  const ProfileUsernameMessage: string := "Username must be 5 characters."
  const SignupNameMessage: string := "Full name must be at least 2 characters"
  const SignupUsernameMessage: string := "Username must be at least 5 characters"
  const EmailMessage: string := "Please enter a valid email address"
  const DobMessage: string := "Date of birth is required"
  const PasswordMessage: string := "Password must be at least 8 characters"

  /** `z.string().min(n, message)`: one issue when the string is too short. */
  function MinLength(field: Field, s: string, n: nat, message: string): (issues: seq<Issue>)
    ensures issues == [] <==> |s| >= n
    ensures issues != [] ==> issues == [Issue(field, message)]
    ensures forall x :: x in issues ==> x.field == field
  {
    if |s| < n then [Issue(field, message)] else []
  }

  function EmailRule(s: string, isEmail: string -> bool): (issues: seq<Issue>)
    ensures issues == [] <==> isEmail(s)
    ensures issues != [] ==> issues == [Issue(EmailField, EmailMessage)]
    ensures forall x :: x in issues ==> x.field == EmailField
  {
    if isEmail(s) then [] else [Issue(EmailField, EmailMessage)]
  }

  /** `profileSchema`, rules in declaration order. */
  function ProfileIssues(f: ProfileForm, isEmail: string -> bool): (issues: seq<Issue>)
    ensures issues == [] <==> |f.name| >= 2 && isEmail(f.email) && |f.dob| >= 1 && |f.username| >= 5
    ensures Issue(NameField, ProfileNameMessage) in issues <==> |f.name| < 2
    ensures Issue(UsernameField, ProfileUsernameMessage) in issues <==> |f.username| < 5
    ensures Issue(EmailField, EmailMessage) in issues <==> !isEmail(f.email)
    ensures Issue(DobField, DobMessage) in issues <==> f.dob == []
    ensures forall i :: 0 <= i < |issues| ==> issues[i].field != PasswordField
  {
    var name := MinLength(NameField, f.name, 2, ProfileNameMessage);
    var email := EmailRule(f.email, isEmail);
    var dob := MinLength(DobField, f.dob, 1, DobMessage);
    var username := MinLength(UsernameField, f.username, 5, ProfileUsernameMessage);
    name + email + dob + username
  }

  /** `signupSchema`, rules in declaration order. */
  function SignupIssues(f: SignupForm, isEmail: string -> bool): (issues: seq<Issue>)
    ensures issues == [] <==>
      |f.name| >= 2 && isEmail(f.email) && |f.username| >= 5 && |f.dob| >= 1 && |f.password| >= 8
    ensures Issue(PasswordField, PasswordMessage) in issues <==> |f.password| < 8
    ensures Issue(NameField, SignupNameMessage) in issues <==> |f.name| < 2
    ensures Issue(UsernameField, SignupUsernameMessage) in issues <==> |f.username| < 5
    ensures Issue(EmailField, EmailMessage) in issues <==> !isEmail(f.email)
    ensures Issue(DobField, DobMessage) in issues <==> f.dob == []
  {
    var name := MinLength(NameField, f.name, 2, SignupNameMessage);
    var email := EmailRule(f.email, isEmail);
    var username := MinLength(UsernameField, f.username, 5, SignupUsernameMessage);
    var dob := MinLength(DobField, f.dob, 1, DobMessage);
    var password := MinLength(PasswordField, f.password, 8, PasswordMessage);
    name + email + username + dob + password
  }

  /** A password of fewer than 8 characters is rejected whatever the other fields hold. */
  lemma ShortPasswordRejected(f: SignupForm, isEmail: string -> bool)
    requires |f.password| < 8
    ensures SignupIssues(f, isEmail) != []
    ensures forall g: SignupForm :: g.password == f.password ==> SignupIssues(g, isEmail) != []
  {
  }

  /** The sign-up schema is the profile schema's rules plus a password rule:
      a form the sign-up page accepts has profile fields the profile page
      accepts. */
  lemma SignupImpliesProfile(f: SignupForm, isEmail: string -> bool)
    requires SignupIssues(f, isEmail) == []
    ensures ProfileIssues(ProfileForm(f.name, f.email, f.dob, f.username), isEmail) == []
  {
  }
}
