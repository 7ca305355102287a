/** The header bar: its own copy of `getInitials`, the theme toggle, and a
    local copy of the signed-in user that follows the auth slice only while
    the slice holds a user. */
module Header {

  import opened Types
  import Initials
  import AuthSlice

  /** The header's `getInitials`, written out again like the page does. */
  function GetInitials(name: string): (r: string)
    ensures |r| <= 2
  {
    Initials.Take2(Initials.Upper(Initials.FirstChars(Initials.Split(name, ' '))))
  }

  /** The header and the profile page show the same initials for every name. */
  lemma InitialsAgree(name: string)
    ensures GetInitials(name) == Initials.GetInitials(name)
    ensures GetInitials(name) == Initials.Take2(Initials.Upper(Initials.WordStarts(name, true)))
  {
    Initials.InitialsAreWordStarts(name);
  }

  /** `theme === 'dark' ? 'light' : 'dark'`. */
  function ToggleTheme(theme: string): (next: string)
    ensures next == "light" || next == "dark"
    ensures next == "light" <==> theme == "dark"
  {
    if theme == "dark" then "light" else "dark"
  }

  /** Toggling twice restores 'light' and 'dark'; any other stored theme
      (such as 'system') ends up 'light'. */
  lemma ToggleTwice(theme: string)
    ensures theme == "light" || theme == "dark" ==> ToggleTheme(ToggleTheme(theme)) == theme
    ensures theme != "light" && theme != "dark" ==> ToggleTheme(ToggleTheme(theme)) == "light"
  {
  }

  /** The effect on `selectedUser`: copy it only when it is truthy. */
  function SyncUser(local: Option<Account>, selected: Option<Account>): (r: Option<Account>)
    ensures selected.Some? ==> r == selected
    ensures selected.None? ==> r == local
  {
    if selected.Some? then selected else local
  }

  /** The local user after the slice has held `selections` in turn. */
  function Follow(local: Option<Account>, selections: seq<Option<Account>>): Option<Account>
    decreases |selections|
  {
    if selections == [] then local else Follow(SyncUser(local, selections[0]), selections[1..])
  }

  /** Reference definition: the last non-null selection, if any. */
  function LastSome(local: Option<Account>, selections: seq<Option<Account>>): Option<Account>
    decreases |selections|
  {
    if selections == [] then local
    else if selections[|selections| - 1].Some? then selections[|selections| - 1]
    else LastSome(local, selections[..|selections| - 1])
  }

  lemma {:induction false} FollowAppend(local: Option<Account>, selections: seq<Option<Account>>, next: Option<Account>)
    ensures Follow(local, selections + [next]) == SyncUser(Follow(local, selections), next)
    decreases |selections|
  {
    if selections == [] {
      assert selections + [next] == [next];
    } else {
      assert (selections + [next])[1..] == selections[1..] + [next];
      FollowAppend(SyncUser(local, selections[0]), selections[1..], next);
    }
  }

  /** The local user is the last non-null user the slice held; a null
      never clears it. */
  lemma {:induction false} FollowIsLastSome(local: Option<Account>, selections: seq<Option<Account>>)
    ensures Follow(local, selections) == LastSome(local, selections)
    decreases |selections|
  {
    if selections != [] {
      var init := selections[..|selections| - 1];
      var last := selections[|selections| - 1];
      assert selections == init + [last];
      FollowAppend(local, init, last);
      FollowIsLastSome(local, init);
    }
  }

  /** The profile dropdown is rendered only while a local user exists. */
  function ShowsDropdown(local: Option<Account>): (shown: bool)
    ensures shown <==> local != None
  {
    local.Some?
  }

  /** After a sign-in and a `logoutUser(null)` the header still shows the
      signed-in user's dropdown. */
  lemma LogoutKeepsHeaderUser(user: Account)
    ensures var auth1 := AuthSlice.Reduce(AuthSlice.Initial, AuthSlice.LoginUser(Some(user)));
      var auth2 := AuthSlice.Reduce(auth1, AuthSlice.LogoutUser(None));
      Follow(None, [auth1.userData, auth2.userData]) == Some(user)
      && ShowsDropdown(Follow(None, [auth1.userData, auth2.userData]))
  {
    FollowIsLastSome(None, [Some(user), None]);
    assert [Some(user), None][..1] == [Some(user)];
  }
}
