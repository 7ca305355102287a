/** The sign-up page's submission: schema check, the account service call,
    and the page state, auth state and navigation that follow. The catch
    block reads `error.mesasge` (sic), a property the service's errors do not
    carry, so the fallback text is always shown. */
module Signup {

  import opened Types
  import opened Schemas
  import opened AuthSlice
  import ProtectedRoute

  datatype PageState = PageState(submitError: string, isSubmitting: bool)

  /** A thrown JavaScript value, seen as its string-valued properties. */
  datatype ErrorObject = ErrorObject(properties: map<string, string>)

  /** `new Error(message)`: it carries `message` and no `mesasge`. */
  function NewError(message: string): (e: ErrorObject)
    ensures "message" in e.properties && e.properties["message"] == message
    ensures "mesasge" !in e.properties
  {
    ErrorObject(map["message" := message])
  }

  /** `error[key] || fallback`: an absent or empty property falls back. */
  function PropertyOr(e: ErrorObject, key: string, fallback: string): (shown: string)
    ensures key in e.properties && e.properties[key] != "" ==> shown == e.properties[key]
    ensures key !in e.properties || e.properties[key] == "" ==> shown == fallback
  {
    if key in e.properties && e.properties[key] != "" then e.properties[key] else fallback
  }

  /** What `authService.createAccount` did: resolved with user data (which
      may be falsy) or threw. */
  datatype AccountResult = Returned(userData: Option<Account>) | Threw(error: ErrorObject)

  datatype Outcome = Outcome(page: PageState, auth: AuthState, navigateTo: Option<string>)

  const Fallback: string := "Registration failed. Please try again."

  /** `setIsSubmitting(true); setSubmitError('')`. */
  function BeginSubmit(s: PageState): (r: PageState)
    ensures r.isSubmitting && r.submitError == ""
  {
    PageState("", true)
  }

  /** The message the catch block shows, as written: it reads the misspelt
      property `mesasge`. */
  function CaughtMessage(e: ErrorObject): (shown: string)
    ensures "mesasge" !in e.properties ==> shown == Fallback
    ensures "mesasge" in e.properties && e.properties["mesasge"] != "" ==> shown == e.properties["mesasge"]
  {
    PropertyOr(e, "mesasge", Fallback)
  }

  /** Every error the account service throws is an `Error`, so the page
      always shows the fallback text. */
  lemma ServiceErrorsShowFallback(message: string)
    ensures CaughtMessage(NewError(message)) == Fallback
  {
  }

  /** The evidently intended message: the error's own message when it is
      non-empty, the fallback otherwise. */
  function CaughtMessageCorrected(e: ErrorObject): (shown: string)
    ensures "message" in e.properties && e.properties["message"] != "" ==> shown == e.properties["message"]
  {
    PropertyOr(e, "message", Fallback)
  }

  /** Handling of a submission whose form passed the schema. */
  function OnSubmit(s: PageState, auth: AuthState, result: AccountResult): (o: Outcome)
    ensures !o.page.isSubmitting
    ensures o.navigateTo.Some? <==> result.Returned? && result.userData.Some?
    ensures o.navigateTo.Some? ==> o.navigateTo.value == "/dashboard" && o.auth == Reduce(auth, LoginUser(result.userData))
    ensures o.navigateTo.None? ==> o.auth == auth
    ensures result.Threw? ==> o.page.submitError == CaughtMessage(result.error)
    ensures result.Returned? ==> o.page.submitError == ""
  {
    var started := BeginSubmit(s);
    match result
    case Returned(userData) =>
      if userData.Some? then
        Outcome(started.(isSubmitting := false), Reduce(auth, LoginUser(userData)), Some("/dashboard"))
      else
        Outcome(started.(isSubmitting := false), auth, None)
    case Threw(e) =>
      Outcome(PageState(CaughtMessage(e), false), auth, None)
  }

  /** The same handling with the corrected catch block. */
  function OnSubmitCorrected(s: PageState, auth: AuthState, result: AccountResult): (o: Outcome)
    ensures result.Threw? ==> o.page.submitError == CaughtMessageCorrected(result.error) && !o.page.isSubmitting
    ensures !result.Threw? ==> o == OnSubmit(s, auth, result)
  {
    match result
    case Threw(e) => Outcome(PageState(CaughtMessageCorrected(e), false), auth, None)
    case _ => OnSubmit(s, auth, result)
  }

  /** The server's reason never reaches the page: two errors with different
      messages produce the same outcome. */
  lemma ServerMessageIsLost(s: PageState, auth: AuthState, m1: string, m2: string)
    ensures OnSubmit(s, auth, Threw(NewError(m1))) == OnSubmit(s, auth, Threw(NewError(m2)))
    ensures OnSubmit(s, auth, Threw(NewError(m1))).page.submitError == Fallback
    ensures m1 != "" && m2 != "" && m1 != m2 ==>
      OnSubmitCorrected(s, auth, Threw(NewError(m1))) != OnSubmitCorrected(s, auth, Threw(NewError(m2)))
  {
  }

  /** The whole submission: `handleSubmit` runs the schema first and calls
      `onSubmit` only when the form is valid; otherwise nothing changes but
      the shown field issues. */
  function Submit(s: PageState, auth: AuthState, f: SignupForm, isEmail: string -> bool, result: AccountResult): (o: Outcome)
    ensures SignupIssues(f, isEmail) != [] ==> o == Outcome(s, auth, None)
    ensures SignupIssues(f, isEmail) == [] ==> o == OnSubmit(s, auth, result)
  {
    if SignupIssues(f, isEmail) != [] then Outcome(s, auth, None) else OnSubmit(s, auth, result)
  }

  /** A successful sign-up opens the session: the guard admits afterwards. */
  lemma SignupOpensSession(s: PageState, auth: AuthState, f: SignupForm, isEmail: string -> bool, user: Account)
    requires SignupIssues(f, isEmail) == []
    ensures ProtectedRoute.Guard(Submit(s, auth, f, isEmail, Returned(Some(user))).auth) == ProtectedRoute.RenderChildren
    ensures Submit(s, auth, f, isEmail, Returned(Some(user))).navigateTo == Some("/dashboard")
  {
  }

  /** A short password never reaches the account service, so the session
      and page are left as they were. */
  lemma ShortPasswordChangesNothing(s: PageState, auth: AuthState, f: SignupForm, isEmail: string -> bool, result: AccountResult)
    requires |f.password| < 8
    ensures Submit(s, auth, f, isEmail, result) == Outcome(s, auth, None)
  {
    ShortPasswordRejected(f, isEmail);
  }
}
