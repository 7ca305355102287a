# Auction dashboard read model in Dafny

This project models the pure logic inside an admin dashboard for an online
auction platform (a React single-page app). The pages show auctions, bids,
users and call logs from a Redux store that REST calls fill. The model lifts
that logic out of the components and slices as pure functions over immutable
datatypes, and proves properties about them:

- the auction status resolver (Upcoming / Active / Completed), which the
  Auctions page, the Bids page and the Dashboard's active-auction filter each
  implement;
- the read-model aggregates: bid totals and the average bid, the
  Winning/Outbid label, user counts and the average bid count, call-log
  status counts, the success rate and the status badge, the recent-bid list,
  and the Dashboard's sequential fetch-then-dispatch chain;
- `getInitials` (twice in the source), the profile and sign-up form schemas,
  the profile merge and the Save-button predicate;
- the Redux slices as state machines (auth, auctions, bids, call logs), the
  route guard, the header's theme toggle and its local copy of the user, and
  the sign-up submission flow.

Modelling choices:

- Timestamps are integers: the milliseconds a JavaScript `Date` compares by.
  There is a single `now` parameter.
- Amounts are JavaScript numbers, modelled as Dafny `real` (exact rationals).
- JavaScript division is total: `x / 0` is NaN or an infinity. `JsNumber.Number`
  models this, so the three unguarded averages are total functions that yield
  `NaN` on empty input. They have no precondition that excludes empty input.
- Fields the pages read with optional chaining (`bid?.auction?.currentBid?.amount`)
  are `Option`s, although `src/types/index.ts` declares them as required.
- Call-log statuses are kept as raw strings. The page compares strings, and the
  declared union (`'answered' | 'missed' | 'busy' | 'ongoing'`) does not contain
  the `'completed'` that the Answered count looks for.
- The Winning/Outbid label compares amounts (Bids.tsx:172-174), so two bids on
  one auction with equal amounts are both Winning (BidsPage.EqualAmountsBothWinning).
- The email check of the validation library is a parameter `isEmail: string -> bool`.
- The Users page reads a `UsersType` that `src/types/index.ts` does not
  declare. It is modelled as a user with a sequence of bid ids.
- `src/app/store.ts` imports a users slice whose reducer is assumed to replace
  one list wholesale, like the other three.
- `Dashboard` service responses are `Option`s. `None` stands for a falsy value
  and also for a thrown error, because both reach the same `catch`. An empty
  list is truthy.

Files: `types.dfy` (entities), `number.dfy` (JavaScript division),
`status.dfy`, `auctions_page.dfy`, `bids_page.dfy`, `users_page.dfy`,
`call_logs_page.dfy`, `dashboard.dfy`, `initials.dfy`, `schemas.dfy`,
`user_profile.dfy`, `header.dfy`, `signup.dfy`, `auth_slice.dfy`,
`list_slices.dfy`, `protected_route.dfy`.

## Model

| member | source | states |
|---|---|---|
| AuctionStatus.Resolve | src/components/pages/Auctions.tsx:43-51 | Upcoming exactly when now < startTime. Active exactly when startTime <= now <= endTime, with both ends inclusive. Completed exactly when the window has started and ended. The three cases are exclusive and cover every input. |
| AuctionStatus.InvertedWindowNeverActive | src/components/pages/Auctions.tsx:48-50 | When endTime < startTime the status is never Active: it is Upcoming before the start and Completed from then on. |
| AuctionStatus.ResolveMonotone | src/components/pages/Auctions.tsx:48-50 | As now increases the status never moves back, neither from Completed to Active nor from Active to Upcoming. This holds for inverted windows too. |
| AuctionStatus.BoundariesAreActive | src/components/pages/Auctions.tsx:49 | now == startTime and now == endTime are Active. One instant earlier is Upcoming and one instant later is Completed. |
| AuctionsPage.StatusColumn | src/components/pages/Auctions.tsx:100-117 | One badge per listed auction, in list order. Each row's badge is the status resolver's verdict for that auction at now, so a row is Active iff its window contains now. |
| AuctionsPage.Summary | src/components/pages/Auctions.tsx:176-220 | The dialog's bid count is `bids.length` and equals the number of history rows. The rows follow the stored bids in order, each with that bid's id, bidder name and amount. "No bids yet" is shown iff the history is empty. |
| BidsPage.TotalOfConcat | src/components/pages/Bids.tsx:49 | The total bid value of a concatenation is the sum of the parts' totals. |
| BidsPage.TotalBetweenExtremes | src/components/pages/Bids.tsx:49 | If every amount lies in [lo, hi], the total lies between count·lo and count·hi. |
| BidsPage.TotalNonNegative | src/components/pages/Bids.tsx:49 | The reduce `TotalBidValue`, over non-negative amounts, is non-negative, and it is zero iff every amount is zero. |
| BidsPage.AverageBid | src/components/pages/Bids.tsx:50 | The unguarded average is NaN exactly when there are no bids. Otherwise it is finite. |
| BidsPage.AverageWithin | src/components/pages/Bids.tsx:49-50 | If every amount lies in [lo, hi], the average of a non-empty list lies in [lo, hi] too. |
| BidsPage.AverageBidBetween | src/components/pages/Bids.tsx:50 | For a non-empty list the average lies between the smallest and the largest bid amount. |
| BidsPage.EmptyAverageIsNaN | src/components/pages/Bids.tsx:50-92 | With no bids the Average Bid card computes 0/0 = NaN. The guarded version gives 0. |
| BidsPage.AverageBidOrZero | src/components/pages/Bids.tsx:50 | Corrected average: 0 for no bids. Otherwise it lies between the smallest and largest amount, and it agrees with the unguarded average wherever that is finite. |
| BidsPage.BidAuctionStatus | src/components/pages/Bids.tsx:52-60 | The Bids page's duplicate resolver agrees with the Auctions page's resolver on every input. With no auction, reading the window fails. |
| BidsPage.BidLabel | src/components/pages/Bids.tsx:171-175 | Winning iff the auction and its current bid are present and the current bid's amount equals the bid's amount. Otherwise Outbid. With no auction the row's status cell throws first (Bids.tsx:155), so no label is shown. |
| BidsPage.EqualAmountsBothWinning | src/components/pages/Bids.tsx:172-174 | The label compares amounts, not ids. A bid with the same amount on the same auction as a Winning bid is also Winning. |
| BidsPage.AbsentCurrentBidIsOutbid | src/components/pages/Bids.tsx:172-174 | A bid on an auction with no current bid is labelled Outbid. |
| BidsPage.AbsentAuctionRowFails | src/components/pages/Bids.tsx:52-55 | A bid with no auction has no status badge: `getStatusBadge(bid?.auction)` at Bids.tsx:155 reads the window of an absent auction and throws, so the row never reaches its label. |
| UsersPage.WithBids | src/components/pages/Users.tsx:21 | The filter keeps exactly the users with at least one bid and is no longer than the list. |
| UsersPage.ActiveUsers | src/components/pages/Users.tsx:20-21 | activeUsers <= totalUsers. activeUsers is 0 iff no user has a bid. |
| UsersPage.TotalUsers | src/components/pages/Users.tsx:20 | totalUsers is 0 only for an empty list, and it is never less than the number of users with bids. |
| UsersPage.TotalBidCountZero | src/components/pages/Users.tsx:22 | The summed bid count `TotalBidCount` is 0 iff no user has a bid, that is, iff the Active Users card reads 0. |
| UsersPage.TotalBidCountBounded | src/components/pages/Users.tsx:22 | If no user has more than hi bids, the summed bid count is at most users·hi. |
| UsersPage.RoundedMean | src/components/pages/Users.tsx:22 | `Math.round(sum / n)` over naturals is the integer r with 2n·r <= 2·sum + n < 2n·(r+1): the nearest integer, with halves rounded up. |
| UsersPage.AverageBids | src/components/pages/Users.tsx:22 | The average is NaN exactly when there are no users. Otherwise it is the rounded mean of the bid counts over all users. |
| UsersPage.AverageBidsAtMostMax | src/components/pages/Users.tsx:22 | For at least one user the average lies between 0 and the largest per-user bid count. |
| UsersPage.AverageCountsInactiveUsers | src/components/pages/Users.tsx:22-69 | The denominator is all users, despite the "Per active user" caption. One user with two bids plus one with none gives 1, not 2. |
| UsersPage.NoUsersAverageIsNaN | src/components/pages/Users.tsx:22 | With no users the Average Bids card is NaN. |
| UsersPage.AverageBidsOrZero | src/components/pages/Users.tsx:22 | Corrected average: 0 with no users. Otherwise it equals the page's rounded mean and is at most the largest bid count. |
| UsersPage.Badge | src/components/pages/Users.tsx:120-121 | A row is badged Active iff that user has at least one bid. |
| UsersPage.ActiveBadgesMatchActiveUsers | src/components/pages/Users.tsx:21-121 | The number of Active badges in the table equals the Active Users card. |
| CallLogsPage.CountStatus | src/components/pages/CallLogs.tsx:21-23 | A status count is at most the number of logs. It is 0 iff no log has exactly that status string. |
| CallLogsPage.TotalCalls | src/components/pages/CallLogs.tsx:20 | totalCalls is 0 iff there are no logs, and no per-status count exceeds it. |
| CallLogsPage.AnsweredCalls | src/components/pages/CallLogs.tsx:21 | The Answered card counts logs with status 'completed': at most the number of logs, and 0 iff no log has that status. |
| CallLogsPage.MissedCalls | src/components/pages/CallLogs.tsx:22 | The Missed card is at most the number of logs, and 0 iff no log has status 'missed'. |
| CallLogsPage.OngoingCalls | src/components/pages/CallLogs.tsx:23 | The Ongoing card is at most the number of logs, and 0 iff no log has status 'ongoing'. |
| CallLogsPage.DistinctCountsBounded | src/components/pages/CallLogs.tsx:21-23 | Counts for three distinct status strings sum to at most the number of logs. |
| CallLogsPage.StatCardsBounded | src/components/pages/CallLogs.tsx:20-23 | answered + missed + ongoing <= totalCalls. |
| CallLogsPage.SuccessRate | src/components/pages/CallLogs.tsx:87 | The success rate before rounding is NaN exactly when there are no logs. Otherwise it is a percentage in [0, 100]. |
| CallLogsPage.NoCallsRateIsNaN | src/components/pages/CallLogs.tsx:87 | With no logs the caption computes 0/0·100 = NaN. |
| CallLogsPage.SuccessRateOrZero | src/components/pages/CallLogs.tsx:87 | Corrected rate: always in [0, 100]. It is 0 with no logs and agrees with the page's rate otherwise. |
| CallLogsPage.StatusBadge | src/components/pages/CallLogs.tsx:25-38 | Each badge is chosen iff its string matches: Answered iff 'completed', Missed iff 'missed', Busy iff 'busy', Ongoing iff 'ongoing'. Any other status, and only those, is shown verbatim. |
| CallLogsPage.DeclaredAnsweredIsIgnored | src/components/pages/CallLogs.tsx:21-36 | A log whose status is the declared 'answered' adds nothing to the Answered count. Its badge is the raw text "answered". |
| CallLogsPage.DeclaredLogsNeverAnswered | src/types/index.ts:85 | If every status is from the declared union, the Answered card reads 0 and a non-empty list has a success rate of 0. |
| Dashboard.FetchDashboardData | src/components/pages/Dashboard.tsx:37-63 | The chain completes iff every response is present, and then all four calls were issued in chain order. When it fails, the collection it failed at had no response. |
| Dashboard.ChainAbortsAtFirstMissing | src/components/pages/Dashboard.tsx:37-63 | The first absent response in chain order aborts the chain. The calls up to and including it are issued. Every earlier collection is dispatched with its response. It and every later collection keep their previous slices. |
| Dashboard.ChainCompletes | src/components/pages/Dashboard.tsx:37-63 | When all four responses are present, users, auctions, bids and call logs are requested in that order, and every slice holds its response. |
| Dashboard.RequestedIsPrefix | src/components/pages/Dashboard.tsx:37-63 | The calls issued always form a non-empty prefix of users, auctions, bids, callLogs. The last call issued is the failing one, if any. The chain fails iff some response is absent. |
| Dashboard.Cards | src/components/pages/Dashboard.tsx:100-130 | The Total Users and Call Logs cards equal the totals the Users and Call Logs pages show for the same slices. Before any dispatch all four cards read 0. |
| Dashboard.CardsAfterCompleteChain | src/components/pages/Dashboard.tsx:100-130 | After a complete chain the four stat cards show the lengths of the four responses. |
| Dashboard.RecentBids | src/components/pages/Dashboard.tsx:74 | The recent list has min(5, \|bids\|) entries. They are the first bids in stored order, unsorted. |
| Dashboard.RecentBidsIgnoresLater | src/components/pages/Dashboard.tsx:74 | Bids stored after the first five never appear in the recent list. |
| Dashboard.ActiveAuctions | src/components/pages/Dashboard.tsx:76-81 | An auction is kept iff its window contains now. The result is an order-preserving subsequence of the auctions and no longer than them. |
| Dashboard.ActiveFilterMatchesResolver | src/components/pages/Dashboard.tsx:76-81 | The Dashboard filter keeps exactly the auctions that the status resolver calls Active. |
| Dashboard.ActiveCountMatchesAuctionsPage | src/components/pages/Dashboard.tsx:76-81 | The Dashboard lists as many active auctions as the Auctions page shows Active badges. |
| Dashboard.InitialStore | src/app/features/auctionSlice.ts:5-7 | Before any dispatch, all four lists are empty. |
| Initials.Split | src/components/pages/UserProfile.tsx:123 | `split(' ')` always yields at least one piece, and no piece contains the separator. |
| Initials.JoinSplit | src/components/pages/UserProfile.tsx:123 | Joining the pieces with the separator gives back the input. |
| Initials.CharAt0 | src/components/pages/UserProfile.tsx:124 | `charAt(0)` is one character, the first, for a non-empty word, and "" for an empty one. |
| Initials.FirstChars | src/components/pages/UserProfile.tsx:124-125 | The joined first characters are never longer than the list of words, and exactly as long when no word is empty. |
| Initials.GetInitials | src/components/pages/UserProfile.tsx:121-128 | The initials have at most 2 characters. |
| Initials.FirstCharsAreWordStarts | src/components/pages/UserProfile.tsx:122-125 | The joined first characters of the pieces are exactly the characters that start a word. Empty pieces from leading or repeated spaces contribute nothing. |
| Initials.InitialsAreWordStarts | src/components/pages/UserProfile.tsx:122-127 | getInitials is the first two word-starting characters of the name, uppercased. |
| Initials.InitialsIgnoreLeadingSpace | src/components/pages/UserProfile.tsx:124 | A leading space does not change the initials. "" and " " both give "". |
| Initials.TwoWordInitials | src/components/pages/UserProfile.tsx:121-128 | Two words separated by one space give their two first characters, uppercased: "a b" shows "AB". |
| Initials.ThirdWordDropped | src/components/pages/UserProfile.tsx:127 | A third word contributes nothing because of `slice(0, 2)`: "a b c" shows "AB". |
| Initials.Upper | src/components/pages/UserProfile.tsx:126 | ASCII uppercasing keeps the length and maps each character on its own: a lowercase letter becomes the capital 32 code points below it, and every other character is unchanged. |
| Initials.Take2 | src/components/pages/UserProfile.tsx:127 | `slice(0, 2)` is the prefix of length min(2, \|s\|). |
| Header.GetInitials | src/components/layout/Header.tsx:57-64 | The header's copy of getInitials returns at most 2 characters. |
| Header.InitialsAgree | src/components/layout/Header.tsx:57-64 | The header's getInitials equals the profile page's on every name, and both equal the uppercased first two word starts. |
| Header.ToggleTheme | src/components/layout/Header.tsx:114 | The toggle always yields 'light' or 'dark', and yields 'light' exactly when the theme was 'dark'. |
| Header.ToggleTwice | src/components/layout/Header.tsx:114 | Toggling twice restores 'light' and 'dark'. Any other theme ends up as 'light'. |
| Header.SyncUser | src/components/layout/Header.tsx:37-43 | A non-null selected user replaces the local user. A null one leaves it unchanged. |
| Header.FollowIsLastSome | src/components/layout/Header.tsx:37-43 | After any sequence of selected users, the local user is the last non-null one (or the initial one). A later null never clears it. |
| Header.ShowsDropdown | src/components/layout/Header.tsx:74 | The profile dropdown is rendered iff the local user is non-null. |
| Header.LogoutKeepsHeaderUser | src/components/layout/Header.tsx:37-74 | After a login and a `logoutUser(null)` the header still holds the user and shows the dropdown. |
| Schemas.MinLength | src/components/pages/SignupPage.tsx:17-21 | A min-length rule reports exactly one issue, with its message, iff the string is shorter than the minimum. |
| Schemas.EmailRule | src/components/pages/UserProfile.tsx:23 | The email rule, shared by both schemas (also SignupPage.tsx:18), reports exactly one issue, 'Please enter a valid email address', iff the address fails the check. |
| Schemas.ProfileIssues | src/components/pages/UserProfile.tsx:21-26 | The profile form is accepted iff the name has >= 2 characters, the email passes the check, the dob is non-empty and the username has >= 5 characters. Each failing rule reports its own message, and none is about a password. |
| Schemas.SignupIssues | src/components/pages/SignupPage.tsx:16-22 | The sign-up form is accepted iff name >= 2, email passes, username >= 5, dob >= 1 and password >= 8 characters. Each failing rule reports its own message. |
| Schemas.ShortPasswordRejected | src/components/pages/SignupPage.tsx:21 | A password of fewer than 8 characters is rejected whatever the other fields hold. |
| Schemas.SignupImpliesProfile | src/components/pages/SignupPage.tsx:16-22 | The profile fields of a form the sign-up schema accepts pass the profile schema. |
| UserProfile.Merge | src/components/pages/UserProfile.tsx:98 | The merged user carries the form's name, email, dob and username. Its id, picture and isAuthenticated are unchanged. |
| UserProfile.MergeLaws | src/components/pages/UserProfile.tsx:98 | Merging is idempotent. Merging the user's own values changes nothing. Only the last merged form survives. |
| UserProfile.SaveEnabled | src/components/pages/UserProfile.tsx:282 | Save is enabled iff the form is dirty and not saving. |
| UserProfile.BeginSave | src/components/pages/UserProfile.tsx:91-92 | A save starts with isSaving set and the message cleared. The user and the editing flag are untouched. |
| UserProfile.Submit | src/components/pages/UserProfile.tsx:90-110 | An invalid form changes nothing. A valid one always ends with the merged user and saving off. If the storage write succeeds, editing is off and the success message shows. If it throws, editing is left as it was and the failure message shows. |
| UserProfile.SavedSubmissionKeepsIdentity | src/components/pages/UserProfile.tsx:90-110 | After submitting a valid form the id and isAuthenticated are unchanged and the form values are stored, whether or not the storage write throws. Save is no longer held disabled. |
| UserProfile.StorageFailureStillUpdatesUser | src/components/pages/UserProfile.tsx:98-106 | A throwing storage write still leaves the merged user on the page, because setUser runs before it. Only the message and the editing flag differ from the success path. |
| Signup.NewError | src/services/auth.ts:49 | An `Error` the account service throws has a `message` property and no `mesasge` property. |
| Signup.BeginSubmit | src/components/pages/SignupPage.tsx:61-62 | Every submission starts with isSubmitting set and submitError cleared. |
| Signup.CaughtMessage | src/components/pages/SignupPage.tsx:72 | The catch block reads `mesasge`. Any error without that property shows the fallback text; an error whose `mesasge` is a non-empty string shows that string. |
| Signup.ServiceErrorsShowFallback | src/components/pages/SignupPage.tsx:72 | Every error the service throws is shown as 'Registration failed. Please try again.'. |
| Signup.CaughtMessageCorrected | src/components/pages/SignupPage.tsx:72 | Corrected catch: a non-empty `message` is shown as is. |
| Signup.OnSubmit | src/components/pages/SignupPage.tsx:55-76 | isSubmitting is false afterwards on every path. loginUser is dispatched and '/dashboard' is navigated to iff the service returned truthy user data. A returned falsy value leaves no message. A thrown error shows the caught message. |
| Signup.OnSubmitCorrected | src/components/pages/SignupPage.tsx:71-75 | The corrected handler differs only on thrown errors, where it shows the corrected message and ends with isSubmitting false. |
| Signup.ServerMessageIsLost | src/components/pages/SignupPage.tsx:72 | As written, two errors with different messages give the same outcome. With the corrected catch they differ. |
| Signup.Submit | src/components/pages/SignupPage.tsx:38-40 | The schema runs first. An invalid form leaves the page and the session unchanged with no navigation. A valid one is handled by onSubmit. |
| Signup.SignupOpensSession | src/components/pages/SignupPage.tsx:67-70 | A valid sign-up that returns a user navigates to '/dashboard', and the route guard admits afterwards. |
| Signup.ShortPasswordChangesNothing | src/components/pages/SignupPage.tsx:21 | A password shorter than 8 never reaches the service. Session and page are unchanged. |
| AuthSlice.InitialIsSignedOut | src/app/features/authSlice.ts:3-6 | The initial state has status false and userData null. Any single action from it opens a session holding that action's payload. |
| AuthSlice.Reduce | src/app/features/authSlice.ts:12-27 | Every reducer, logoutUser included, sets status to true and userData to the payload. |
| AuthSlice.RunStatus | src/app/features/authSlice.ts:3-27 | After a run of actions, status is the initial status or "some action was dispatched". Once true it stays true. |
| AuthSlice.RunUserDataIsLastPayload | src/app/features/authSlice.ts:12-27 | After a non-empty run, userData is the last action's payload. |
| AuthSlice.ReduceIdempotent | src/app/features/authSlice.ts:12-27 | Applying an action twice equals applying it once. The result does not depend on the previous state. |
| AuthSlice.LogoutKeepsSession | src/app/features/authSlice.ts:20-23 | Login followed by logoutUser(p) leaves status true with userData p. |
| AuthSlice.ReduceCorrected | src/app/features/authSlice.ts:20-23 | Corrected reducer: status is true iff the action is not a logout. It agrees with the original on the other three actions. |
| AuthSlice.RunCorrectedStatus | src/app/features/authSlice.ts:12-27 | With the corrected reducer, the session is open after a run iff the last action was not a logout. |
| ListSlices.Initial | src/app/features/bidSlice.ts:5-7 | A list slice starts empty. |
| ListSlices.Set | src/app/features/bidSlice.ts:9-11 | The reducer makes the list equal to the payload. |
| ListSlices.LastWriteWins | src/app/features/callLogSlice.ts:9-11 | Setting a then b equals setting b. Setting the same payload twice equals setting it once. |
| ListSlices.SetForgetsPrevious | src/app/features/callLogSlice.ts:10 | Replacement is wholesale: the result does not depend on the previous list. |
| ListSlices.ReplayIsLastPayload | src/app/features/auctionSlice.ts:9-11 | After any non-empty sequence of set actions the list is the last payload. |
| ListSlices.SetAuctions | src/app/features/auctionSlice.ts:9-11 | setAuctions makes the list the payload, the same state as setting it on the empty initial slice. |
| ListSlices.SetBids | src/app/features/bidSlice.ts:10 | setBids makes the list the payload, the same state as setting it on the empty initial slice. |
| ListSlices.SetCallLogs | src/app/features/callLogSlice.ts:10 | setCallLogs makes the list the payload, the same state as setting it on the empty initial slice. |
| ListSlices.SetUsers | src/components/pages/Dashboard.tsx:39 | setUsers, as the Dashboard dispatches it, replaces the users list with the payload. |
| ProtectedRoute.Guard | src/components/layout/ProtectedRoute.tsx:8-16 | The children are rendered iff `auth.status` is true. Otherwise the result is a redirect to '/signin' with replace. |
| ProtectedRoute.GuardIgnoresUserData | src/components/layout/ProtectedRoute.tsx:9 | Two auth states with the same status get the same decision: userData is never read. |
| ProtectedRoute.GuardAfterActions | src/components/layout/ProtectedRoute.tsx:11-15 | From the initial auth state the guard redirects. After any non-empty run of auth actions, logoutUser included, it admits. |
| ProtectedRoute.LogoutStillAdmits | src/components/layout/ProtectedRoute.tsx:11-15 | After logoutUser(null) the guard admits. With the corrected reducer it redirects. |
| JsNumber.Divide | src/components/pages/Bids.tsx:50 | JavaScript division is finite iff the divisor is non-zero, and then the quotient times the divisor is the dividend. It is NaN iff both operands are 0. |

## Left out

- Fetching, HTTP and session cookies: `src/services/auth.ts`, `src/services/bidService.ts`, `src/services/configuration.ts` and `src/backend-api/configuration.ts` are I/O. The Dashboard's calls become a record of optional responses. The Auctions and Bids pages' own fetch effects are not modelled.
- Bid placement and cancellation: the pages contain no client-side bid validation, so no minimum-bid rule is modelled.
- Timestamp parsing and formatting (`new Date(...)`, `format`, `toLocaleString`). A timestamp string that does not parse gives an invalid Date, which makes every comparison false. This is not modelled: timestamps are always valid integers. The Dashboard calls `new Date()` once per auction; the model uses one `now`.
- Floating-point rounding: amounts and quotients are exact rationals. `Math.round` on the average bid (Bids.tsx:92) is left out.
- CallLogsPage.SuccessRate: states bounds on the percentage before `Math.round` rather than the rounded integer shown.
- Rendering, React state hooks, effects, NProgress, toasts, `setTimeout` (including clearing the profile save message after 3 s), `localStorage` writes (only whether the profile's write throws is modelled, as a parameter) and the call-log icons.
- Validation-library behaviour: the email check is a parameter. Dirty tracking, `reset` in the profile's cancel handler, and the profile page's initial `{...userData, isAuthenticated}` spread over a possibly null user are not modelled. Lengths count Dafny characters; a JavaScript string counts UTF-16 code units, which differ for characters outside the Basic Multilingual Plane.
- `toUpperCase` is modelled for ASCII letters only.
- A bid with no auction: its status cell throws while rendering and, with no error boundary in the app, the Bids page fails as a whole. The model records only the missing status (BidsPage.AbsentAuctionRowFails); BidsPage.BidLabel still assigns such a bid Outbid, a label the page never reaches.
- ListSlices.SetUsers: the users slice's source is not part of this model, so its reducer and its empty initial list (which Dashboard.InitialStore also uses) are an assumption, not a modelled promise.
- Store wiring (`src/app/store.ts`), which omits the auth reducer that the guard reads. Routing, the layout, the sidebar, the landing pages, `useFavicon` and the obsolete mock data are not part of this model.

## Findings

| source | as written | input that shows it | evidently intended | confidence | as-written member | corrected member |
|---|---|---|---|---|---|---|
| src/components/pages/Bids.tsx:50 | `averageBid = totalBidValue / bids.length`, no guard | no bids: 0/0 is NaN, and the card shows "$NaN" | show 0 when there are no bids | high; not executed | BidsPage.EmptyAverageIsNaN | BidsPage.AverageBidOrZero |
| src/components/pages/Users.tsx:22 | `Math.round(sum / totalUsers)`, no guard | no users: the Average Bids card shows NaN | show 0 when there are no users | high; not executed | UsersPage.NoUsersAverageIsNaN | UsersPage.AverageBidsOrZero |
| src/components/pages/CallLogs.tsx:87 | `Math.round((answeredCalls / totalCalls) * 100)`, no guard | no call logs: the caption reads "NaN% success rate" | show 0% when there are no calls | high; not executed | CallLogsPage.NoCallsRateIsNaN | CallLogsPage.SuccessRateOrZero |
| src/app/features/authSlice.ts:21 | `logoutUser` sets `status = true` | loginUser(u) then logoutUser(null): status stays true and the guard still admits | logout sets status to false | high; not executed | AuthSlice.LogoutKeepsSession | AuthSlice.ReduceCorrected |
| src/components/pages/SignupPage.tsx:72 | `error.mesasge \|\| 'Registration failed…'` | the service throws `new Error("…")` with the server's message, and the page shows only the fallback | show `error.message` when present | high; not executed | Signup.ServerMessageIsLost | Signup.CaughtMessageCorrected |

The Answered count on the Call Logs page counts the status 'completed'. The
declared status union has 'answered' instead (src/types/index.ts:85). The
mismatch is proved as a fact (CallLogsPage.DeclaredAnsweredIsIgnored and
CallLogsPage.DeclaredLogsNeverAnswered). It is not listed as a finding,
because the source does not show which string the backend actually sends.
