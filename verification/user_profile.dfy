/** The profile page: the local copy of the signed-in user, the save flow
    that merges the validated form into it, and the Save button's state. */
module UserProfile {

  import opened Types
  import opened Schemas

  /** The page's local user: the auth slice's user data plus its status. */
  datatype ProfileUser = ProfileUser(
    id: string,
    name: string,
    email: string,
    dob: string,
    picture: Option<string>,
    username: string,
    isAuthenticated: bool)

  function FormOf(u: ProfileUser): ProfileForm
  {
    ProfileForm(u.name, u.email, u.dob, u.username)
  }

  /** `{ ...user, ...data }`: the form's four fields overwrite the user's,
      everything else is kept. */
  function Merge(u: ProfileUser, f: ProfileForm): (r: ProfileUser)
    ensures FormOf(r) == f
    ensures r.id == u.id && r.picture == u.picture && r.isAuthenticated == u.isAuthenticated
  {
    u.(name := f.name, email := f.email, dob := f.dob, username := f.username)
  }

  /** Merging twice is merging once, a merge of the user's own values changes
      nothing, and only the last merge's form survives. */
  lemma MergeLaws(u: ProfileUser, f: ProfileForm, g: ProfileForm)
    ensures Merge(Merge(u, f), f) == Merge(u, f)
    ensures Merge(u, FormOf(u)) == u
    ensures Merge(Merge(u, f), g) == Merge(u, g)
  {
  }

  datatype PageState = PageState(user: ProfileUser, isEditing: bool, isSaving: bool, saveMessage: string)

  /** The Save button: `disabled={!isDirty || isSaving}`. */
  function SaveEnabled(isDirty: bool, isSaving: bool): (enabled: bool)
    ensures enabled <==> isDirty && !isSaving
    ensures isSaving ==> !enabled
  {
    !(!isDirty || isSaving)
  }

  /** The first two statements of `onSubmit`. */
  function BeginSave(s: PageState): (r: PageState)
    ensures r.isSaving && r.saveMessage == ""
    ensures r.user == s.user && r.isEditing == s.isEditing
  {
    s.(isSaving := true, saveMessage := "")
  }

  const SavedMessage: string := "Profile updated successfully!"

  const FailedMessage: string := "Failed to update profile. Please try again."

  /** A submission: the form must pass the schema before `onSubmit` runs.
      After a fixed delay standing in for an API call, the merged user is set
      and then written to `localStorage`; `storageThrows` says whether that
      write throws (storage full or disabled). A throw lands in the catch
      block after the user is already set: editing is left as it was and the
      failure message is shown. Either way saving ends. */
  function Submit(s: PageState, f: ProfileForm, isEmail: string -> bool, storageThrows: bool): (r: PageState)
    ensures ProfileIssues(f, isEmail) != [] ==> r == s
    ensures ProfileIssues(f, isEmail) == [] ==> r.user == Merge(s.user, f) && !r.isSaving
    ensures ProfileIssues(f, isEmail) == [] && !storageThrows ==>
      !r.isEditing && r.saveMessage == SavedMessage
    ensures ProfileIssues(f, isEmail) == [] && storageThrows ==>
      r.isEditing == s.isEditing && r.saveMessage == FailedMessage
  {
    if ProfileIssues(f, isEmail) != [] then s
    else
      var saving := BeginSave(s);
      var updated := saving.(user := Merge(saving.user, f));
      if storageThrows then
        updated.(saveMessage := FailedMessage, isSaving := false)
      else
        updated.(isEditing := false, saveMessage := SavedMessage, isSaving := false)
  }

  /** A submission of a valid form keeps the user's identity and session
      flag, holds the submitted values, and no longer holds the Save button
      disabled, whether or not the storage write throws. */
  lemma SavedSubmissionKeepsIdentity(s: PageState, f: ProfileForm, isEmail: string -> bool, storageThrows: bool)
    requires ProfileIssues(f, isEmail) == []
    ensures Submit(s, f, isEmail, storageThrows).user.id == s.user.id
    ensures Submit(s, f, isEmail, storageThrows).user.isAuthenticated == s.user.isAuthenticated
    ensures FormOf(Submit(s, f, isEmail, storageThrows).user) == f
    ensures SaveEnabled(true, Submit(s, f, isEmail, storageThrows).isSaving)
  {
  }

  /** A failing storage write changes only what the page says and whether it
      stays in edit mode: the shown user is the merged one either way, and
      the two messages differ. */
  lemma StorageFailureStillUpdatesUser(s: PageState, f: ProfileForm, isEmail: string -> bool)
    requires ProfileIssues(f, isEmail) == []
    ensures Submit(s, f, isEmail, true).user == Submit(s, f, isEmail, false).user
    ensures Submit(s, f, isEmail, true).saveMessage != Submit(s, f, isEmail, false).saveMessage
    ensures Submit(s, f, isEmail, true).isEditing == s.isEditing
  {
  }
}
