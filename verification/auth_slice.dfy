/** The auth slice: whether a session is open and the signed-in user's data.
    All four reducers, `logoutUser` included, set the status to true and the
    user data to the payload. */
module AuthSlice {

  import opened Types

  datatype AuthState = AuthState(status: bool, userData: Option<Account>)

  /** A payload may be null (`None`), e.g. `logoutUser(null)`. */
  datatype AuthAction =
    | InitUser(payload: Option<Account>)
    | LoginUser(payload: Option<Account>)
    | LogoutUser(payload: Option<Account>)
    | UpdateUser(payload: Option<Account>)

  const Initial: AuthState := AuthState(false, None)

  /** The store starts signed out with no user, and any single action signs
      in with its payload. */
  lemma InitialIsSignedOut(a: AuthAction)
    ensures !Initial.status && Initial.userData == None
    ensures Reduce(Initial, a) == AuthState(true, a.payload)
  {
  }

  function Reduce(s: AuthState, a: AuthAction): (r: AuthState)
    ensures r.status
    ensures r.userData == a.payload
  {
    match a
    case InitUser(p) => AuthState(true, p)
    case LoginUser(p) => AuthState(true, p)
    case LogoutUser(p) => AuthState(true, p)
    case UpdateUser(p) => AuthState(true, p)
  }

  /** The state after dispatching `actions` in order. */
  function Run(s: AuthState, actions: seq<AuthAction>): AuthState
    decreases |actions|
  {
    if actions == [] then s else Run(Reduce(s, actions[0]), actions[1..])
  }

  /** Once any action has been dispatched the status is true for good:
      the status after a run is the initial status or'ed with "something
      was dispatched". */
  lemma {:induction false} RunStatus(s: AuthState, actions: seq<AuthAction>)
    ensures Run(s, actions).status == (s.status || actions != [])
    decreases |actions|
  {
    if actions != [] {
      RunStatus(Reduce(s, actions[0]), actions[1..]);
    }
  }

  /** The user data after a non-empty run is the last action's payload. */
  lemma {:induction false} RunUserDataIsLastPayload(s: AuthState, actions: seq<AuthAction>)
    requires actions != []
    ensures Run(s, actions).userData == actions[|actions| - 1].payload
    decreases |actions|
  {
    if |actions| > 1 {
      RunUserDataIsLastPayload(Reduce(s, actions[0]), actions[1..]);
    }
  }

  /** Every reducer is idempotent and ignores the previous state. */
  lemma ReduceIdempotent(s: AuthState, t: AuthState, a: AuthAction)
    ensures Reduce(Reduce(s, a), a) == Reduce(s, a)
    ensures Reduce(s, a) == Reduce(t, a)
  {
  }

  /** Logging out after logging in leaves the session authenticated. */
  lemma LogoutKeepsSession(user: Account, p: Option<Account>)
    ensures Run(Initial, [LoginUser(Some(user)), LogoutUser(p)]) == AuthState(true, p)
  {
    RunUserDataIsLastPayload(Initial, [LoginUser(Some(user)), LogoutUser(p)]);
    RunStatus(Initial, [LoginUser(Some(user)), LogoutUser(p)]);
  }

  /** The evidently intended reducer: `logoutUser` closes the session. */
  function ReduceCorrected(s: AuthState, a: AuthAction): (r: AuthState)
    ensures r.status <==> !a.LogoutUser?
    ensures r.userData == a.payload
    ensures !a.LogoutUser? ==> r == Reduce(s, a)
  {
    match a
    case LogoutUser(p) => AuthState(false, p)
    case _ => Reduce(s, a)
  }

  function RunCorrected(s: AuthState, actions: seq<AuthAction>): AuthState
    decreases |actions|
  {
    if actions == [] then s else RunCorrected(ReduceCorrected(s, actions[0]), actions[1..])
  }

  /** With the corrected reducer the session is open exactly when the last
      action was not a logout. */
  lemma {:induction false} RunCorrectedStatus(s: AuthState, actions: seq<AuthAction>)
    requires actions != []
    ensures RunCorrected(s, actions).status <==> !actions[|actions| - 1].LogoutUser?
    decreases |actions|
  {
    if |actions| > 1 {
      RunCorrectedStatus(ReduceCorrected(s, actions[0]), actions[1..]);
    }
  }
}
