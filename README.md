# Safety alert client, modelled in Dafny

This project models the browser client of the safety-alert and
emergency-response platform. Citizens raise SOS help requests. Officers see
them on a dashboard, accept them and mark them resolved. Both sides chat on
a per-request thread. The backend canister is not modelled, only the shapes
it exchanges.

The model covers the decisions the client itself makes:

- the officer alert that compares pending request ids between polls;
- the shared query cache, which each successful mutation marks stale;
- the guards that fire when no backend actor exists;
- the registration form's checks, including the anchored mobile-number
  pattern, which gets a verified matcher;
- status and role gating: the status partition, who may accept or complete,
  and the status labels;
- the role redirects and the screen choice of the sign-in page;
- the chat's send rules and display order.

One module per source file:

| Module | File |
|---|---|
| `NotificationManager` | `NotificationManager.tsx` |
| `UseQueries` | `useQueries.ts` |
| `RegistrationForm` | `RegistrationForm.tsx` |
| `MobilePattern` | the regular expression on line 35 of `RegistrationForm.tsx` |
| `OfficerDashboard` | `OfficerDashboard.tsx` |
| `RequestDetailPage` | `RequestDetailPage.tsx` |
| `HelpRequestCard` | `HelpRequestCard.tsx` |
| `MessageThread` | `MessageThread.tsx` |
| `AuthPage` | `AuthPage.tsx` |
| `CitizenDashboard` | `CitizenDashboard.tsx` |
| `StatusBadge` | `StatusBadge.tsx` |

Shared modules:

- `Backend` holds the interface types from `backend.d.ts`.
- `Strings` holds `trim`, the whitespace class, `bigint.toString()` and `x || fallback`.
- `Routing` holds the routes, the two roles and the one officer/citizen dashboard rule.
- `RequestLists` holds the status filter.

Conventions of the model:

- **Mutable state becomes classes.** Where the source keeps it, mutable state
  is a class with fields updated by its methods:
  - the notifier's remembered ids: `NotificationManager.Manager`;
  - the query cache's stale flags: `UseQueries.QueryClient`;
  - the chat draft: `MessageThread.Thread`;
  - the chosen role: `AuthPage.Page`.
- **Backend replies are parameters.** Each backend reply, success or a thrown
  error with an optional message, is passed to the method that makes the
  call.
- **A ghost call log.** `QueryClient.sent` records every mutation call on
  the backend (register, saveCallerUserProfile, SOS, accept, complete,
  sendMessage), so that contracts can say which call was made and with
  which arguments. Query fetches are not logged: a query's data arriving
  is `QueryClient.Fetched`, and the query functions are functions of the
  backend's reply.
- **Prefix matching is assumed.** `invalidateQueries({queryKey})` is taken
  to mark stale every cached key that starts with the filter. This is the
  query library's default behaviour and is assumed, not derived
  (`UseQueries.Selects`).

## Model

| member | source | states |
|---|---|---|
| Backend.Status.Name | src/frontend/src/backend.d.ts:34-38 | each status member carries a non-empty run-time string |
| Backend.StatusNameInjective | src/frontend/src/backend.d.ts:34-38 | distinct status members carry distinct strings, so string tests are member tests |
| Strings.Trim | src/frontend/src/components/RegistrationForm.tsx:24 | `trim()` is empty exactly for all-whitespace input, keeps the middle slice, and leaves no whitespace at either end |
| Strings.DecimalString | src/frontend/src/components/NotificationManager.tsx:27 | `id.toString()` is a non-empty digit string with no leading zero |
| Strings.DecimalStringInjective | src/frontend/src/hooks/useQueries.ts:120 | distinct ids have distinct decimal strings; proved through `ParseDecimal(DecimalString(n)) == n` |
| Strings.StringOr | src/frontend/src/components/RegistrationForm.tsx:52 | `message \|\| fallback` is the message when non-empty, the fallback otherwise |
| Routing.Role.UserType | src/frontend/src/components/RegistrationForm.tsx:12 | the role's user-type string is "officer" exactly for the officer role, and "citizen" for the citizen role |
| Routing.DashboardFor | src/frontend/src/components/RegistrationForm.tsx:46-50 | the officer dashboard for exactly "officer", the citizen dashboard for every other string |
| Routing.DetailsRoute | src/frontend/src/components/HelpRequestCard.tsx:33 | the detail route's parameter is the id's non-empty digit string |
| Routing.DetailsRouteInjective | src/frontend/src/components/HelpRequestCard.tsx:33 | distinct requests get distinct detail routes |
| Routing.PathInjective | src/frontend/src/App.tsx:27-49 | distinct routes have distinct paths for every request parameter, and a detail path is "/request/" followed by its parameter |
| RequestLists.WithStatus | src/frontend/src/pages/OfficerDashboard.tsx:34-36 | the filter keeps exactly the requests with that status, as a sub-multiset of the input |
| RequestLists.WithStatusAppend | src/frontend/src/pages/OfficerDashboard.tsx:34-36 | the filter distributes over concatenation, so it keeps the original order |
| RequestLists.StatusPartition | src/frontend/src/pages/OfficerDashboard.tsx:34-36 | the three status lists together are a permutation of the fetched list |
| RequestLists.StatusCounts | src/frontend/src/pages/OfficerDashboard.tsx:34-36 | the three list lengths add up to the number of requests |
| RequestLists.StatusListsDisjoint | src/frontend/src/pages/OfficerDashboard.tsx:34-36 | no request is in two status lists |
| RequestLists.IdStrings | src/frontend/src/components/NotificationManager.tsx:27 | the i-th id string is the decimal string of the i-th request's id |
| UseQueries.QueryOptionsTable | src/frontend/src/hooks/useQueries.ts:5-128 | every query is enabled exactly with a present, settled actor; request lists poll every 5000 ms, messages every 3000 ms, the profile never |
| UseQueries.ProfileQueryFn | src/frontend/src/hooks/useQueries.ts:10-13 | without an actor the profile query throws "Actor not available"; otherwise it returns the backend's reply |
| UseQueries.ListQueryFn | src/frontend/src/hooks/useQueries.ts:63-66 | without an actor a list query returns the empty list; otherwise the backend's reply |
| UseQueries.ProfileHookFlags | src/frontend/src/hooks/useQueries.ts:18-22 | the profile is loading exactly while the actor or the query loads, and fetched exactly when an actor is present and the query has fetched |
| UseQueries.Invalidate | src/frontend/src/hooks/useQueries.ts:37 | one invalidation marks stale exactly the selected entries and changes nothing else |
| UseQueries.InvalidateAll | src/frontend/src/hooks/useQueries.ts:52-53 | a list of invalidations marks stale exactly the entries some filter selects |
| UseQueries.OnSuccessTable | src/frontend/src/hooks/useQueries.ts:36-112 | SOS marks stale exactly "helpRequests" and "myRequests"; accept and complete exactly "helpRequests"; register exactly "currentUserProfile" |
| UseQueries.StatusChangeRefreshesStatusLists | src/frontend/src/hooks/useQueries.ts:76 | under prefix matching, SOS, accept and complete also refresh every per-status list |
| UseQueries.SendMessageTouchesOnlyItsThread | src/frontend/src/hooks/useQueries.ts:139-141 | a sent message marks its own thread stale and leaves every key outside "messages" unchanged |
| UseQueries.OtherThreadUntouched | src/frontend/src/hooks/useQueries.ts:120 | another request's thread is never invalidated by a message sent to this one |
| UseQueries.InvalidateIdempotent | src/frontend/src/hooks/useQueries.ts:52-53 | invalidating twice with the same filters equals invalidating once |
| UseQueries.QueryClient.constructor | src/frontend/src/hooks/useQueries.ts:27 | the cache starts empty with no calls made |
| UseQueries.QueryClient.Fetched | src/frontend/src/hooks/useQueries.ts:61-69 | a fetched query's entry is cached and fresh; no call is logged |
| UseQueries.QueryClient.InvalidateQueries | src/frontend/src/hooks/useQueries.ts:37 | the cache becomes `Invalidate` of the old cache; no call is logged |
| UseQueries.QueryClient.Register | src/frontend/src/hooks/useQueries.ts:25-39 | no actor: throws with no call; otherwise register, then (only if that succeeded) save a profile with the same name, mobile and user type; the profile is invalidated only on success |
| UseQueries.QueryClient.SendSosRequest | src/frontend/src/hooks/useQueries.ts:42-56 | no actor: throws with no call; otherwise one SOS call with the location; the cache changes only on success |
| UseQueries.QueryClient.AcceptHelpRequest | src/frontend/src/hooks/useQueries.ts:86-99 | no actor: throws with no call; otherwise one accept call for the id; the cache changes only on success |
| UseQueries.QueryClient.CompleteHelpRequest | src/frontend/src/hooks/useQueries.ts:101-114 | no actor: throws with no call; otherwise one complete call for the id; the cache changes only on success |
| UseQueries.QueryClient.SendMessage | src/frontend/src/hooks/useQueries.ts:130-143 | no actor: throws with no call; otherwise one send call with the given arguments; only that thread is invalidated, only on success |
| MobilePattern.MatchDecides | src/frontend/src/components/RegistrationForm.tsx:35 | the backtracking matcher accepts exactly the strings in the pattern's declarative language |
| MobilePattern.TryRunsSound | src/frontend/src/components/RegistrationForm.tsx:35 | trying every run length of one repetition up to its longest finds a split exactly when one exists |
| MobilePattern.MatchesMobile | src/frontend/src/components/RegistrationForm.tsx:35-36 | `mobileRegex.test(mobile)` holds exactly for strings in the pattern's language |
| MobilePattern.PatternShape | src/frontend/src/components/RegistrationForm.tsx:35 | the pattern's digit runs are separated by digit-free classes and allow 3 to 17 digits in total |
| MobilePattern.DigitBounds | src/frontend/src/components/RegistrationForm.tsx:35 | a string in the language of separated digit runs has between their minimum and maximum digit counts |
| MobilePattern.AcceptedDigitCount | src/frontend/src/components/RegistrationForm.tsx:35 | every accepted mobile holds between 3 and 17 digits |
| MobilePattern.AcceptedAlphabet | src/frontend/src/components/RegistrationForm.tsx:35 | an accepted mobile uses only digits, '+', '(', ')', '-', '.' and whitespace, with '+' only first |
| MobilePattern.AcceptedStart | src/frontend/src/components/RegistrationForm.tsx:35 | an accepted mobile starts with '+', '(' or a digit |
| MobilePattern.AcceptedEnd | src/frontend/src/components/RegistrationForm.tsx:35 | an accepted mobile ends with a digit |
| MobilePattern.PaddedRejected | src/frontend/src/components/RegistrationForm.tsx:36 | a mobile with leading or trailing whitespace is rejected, since the pattern is tested untrimmed |
| MobilePattern.BlankRejected | src/frontend/src/components/RegistrationForm.tsx:29-36 | a blank mobile never matches the pattern |
| RegistrationForm.Validate | src/frontend/src/components/RegistrationForm.tsx:24-39 | submission passes exactly for a non-blank name and a mobile in the pattern's language; otherwise the first failing check's message; raw fields are passed on |
| RegistrationForm.NameCheckedFirst | src/frontend/src/components/RegistrationForm.tsx:24-27 | a blank name is rejected whatever the mobile is |
| RegistrationForm.PaddedMobileRejected | src/frontend/src/components/RegistrationForm.tsx:29-39 | whitespace around a valid number makes the submission fail |
| RegistrationForm.HandleSubmit | src/frontend/src/components/RegistrationForm.tsx:21-54 | a rejected form, and only a rejected form, is reported with its check's message, with no call and no cache change; otherwise register is called with the raw name and mobile and, if it succeeds, the profile is saved; the user lands on the role's dashboard exactly when both calls succeed; a failure reports the error's message or "Registration failed" (the missing-actor text without an actor); the cache is settled by the register outcome |
| RegistrationForm.RegisteredRoute | src/frontend/src/components/RegistrationForm.tsx:46-50 | after registering, officers go to the officer dashboard and citizens to the citizen one |
| NotificationManager.Alert.Body | src/frontend/src/components/NotificationManager.tsx:35 | the alert body starts with the number of new requests in decimal |
| NotificationManager.PendingIds | src/frontend/src/components/NotificationManager.tsx:25-27 | one id string per pending request |
| NotificationManager.PendingIdsExact | src/frontend/src/components/NotificationManager.tsx:25-27 | the pending ids are exactly the decimal ids of the pending requests |
| NotificationManager.NewIds | src/frontend/src/components/NotificationManager.tsx:29-31 | the new ids are exactly the current ids not in the previous list, each as often as in the current list |
| NotificationManager.Run | src/frontend/src/components/NotificationManager.tsx:22-43 | a citizen run changes nothing; an officer run remembers the current pending ids and alerts exactly when new ids exist and the previous list is non-empty; the count equals the number of new ids |
| NotificationManager.NewIdsExist | src/frontend/src/components/NotificationManager.tsx:29-33 | new ids exist exactly when some pending request's id is not remembered |
| NotificationManager.AlertExactly | src/frontend/src/components/NotificationManager.tsx:33 | an alert is raised exactly for an officer with a non-empty previous list and some pending id outside it |
| NotificationManager.RememberedExactly | src/frontend/src/components/NotificationManager.tsx:41 | after an officer run the remembered ids are exactly the current pending ids |
| NotificationManager.EmptyPreviousNeverAlerts | src/frontend/src/components/NotificationManager.tsx:13-33 | a run with an empty previous list, such as the first after mounting, never alerts |
| NotificationManager.SuppressedAfterDrain | src/frontend/src/components/NotificationManager.tsx:33-41 | once nothing is pending, the next run raises no alert even for a newly pending request |
| NotificationManager.RememberedNotReported | src/frontend/src/components/NotificationManager.tsx:29-31 | a remembered id is never counted as new |
| NotificationManager.SecondRunSilent | src/frontend/src/components/NotificationManager.tsx:29-41 | a second run on the same list raises no alert and remembers the same ids |
| NotificationManager.Manager.constructor | src/frontend/src/components/NotificationManager.tsx:13 | the remembered list starts empty |
| NotificationManager.Manager.Poll | src/frontend/src/components/NotificationManager.tsx:22-43 | one effect run: the alert and the new remembered list are those of `Run` from the old remembered list |
| NotificationManager.Replay | src/frontend/src/components/NotificationManager.tsx:22-43 | one alert slot per poll, all empty for a citizen |
| NotificationManager.RememberedBefore | src/frontend/src/components/NotificationManager.tsx:41 | before each later officer poll, the remembered list is the previous poll's pending ids |
| NotificationManager.ReplayStep | src/frontend/src/components/NotificationManager.tsx:22-43 | poll k of a sequence is one run from the list remembered before it |
| NotificationManager.ReplayAlerts | src/frontend/src/components/NotificationManager.tsx:13-41 | the first poll after mounting never alerts; later alerts depend only on the previous and current lists |
| NotificationManager.StillPendingNotCounted | src/frontend/src/components/NotificationManager.tsx:29-41 | a request pending at the previous poll is not counted as new, so one that stays pending is reported at most once |
| OfficerDashboard.Redirect | src/frontend/src/pages/OfficerDashboard.tsx:18-24 | no identity goes to sign-in; a loaded non-officer profile goes to the citizen dashboard; otherwise the page stays |
| OfficerDashboard.TabsCoverStatuses | src/frontend/src/pages/OfficerDashboard.tsx:34-36 | each status is listed by exactly one tab |
| OfficerDashboard.Badge | src/frontend/src/pages/OfficerDashboard.tsx:49-65 | Pending and Active show a badge exactly when their list is non-empty, equal to its length; Resolved never does |
| OfficerDashboard.TabPanel | src/frontend/src/pages/OfficerDashboard.tsx:68-117 | a spinner exactly while the requests load; the empty message exactly when loaded with no request of that status; otherwise that status's requests in order |
| OfficerDashboard.View | src/frontend/src/pages/OfficerDashboard.tsx:26-40 | a spinner exactly while the profile loads; otherwise the officer-mode notifier and the three tab panels |
| OfficerDashboard.TabsShowEachRequestOnce | src/frontend/src/pages/OfficerDashboard.tsx:34-36 | once loaded, the tabs together show every request exactly once |
| RequestDetailPage.FindIndex | src/frontend/src/pages/RequestDetailPage.tsx:22 | the first request whose decimal id equals the parameter; none exactly when no request has it |
| RequestDetailPage.Find | src/frontend/src/pages/RequestDetailPage.tsx:22 | the request `find` returns, at the first matching index |
| RequestDetailPage.FindById | src/frontend/src/pages/RequestDetailPage.tsx:22 | an id's decimal string finds the first request with that id, and the request itself when ids are distinct |
| RequestDetailPage.NonCanonicalParamNotFound | src/frontend/src/pages/RequestDetailPage.tsx:22 | a parameter that is empty, non-numeric or has a leading zero finds nothing |
| RequestDetailPage.Redirect | src/frontend/src/pages/RequestDetailPage.tsx:24-28 | the page redirects, to sign-in, exactly when there is no identity |
| RequestDetailPage.BackRoute | src/frontend/src/pages/RequestDetailPage.tsx:43-49 | Back goes to the officer dashboard exactly for a loaded officer profile, otherwise to the citizen dashboard |
| RequestDetailPage.CanComplete | src/frontend/src/pages/RequestDetailPage.tsx:65-66 | "Mark as Resolved" is offered exactly to an officer on an accepted request |
| RequestDetailPage.CanCompleteIgnoresAssignee | src/frontend/src/pages/RequestDetailPage.tsx:66 | the assigned officer plays no part in that decision |
| RequestDetailPage.SenderName | src/frontend/src/pages/RequestDetailPage.tsx:164 | the chat sender is the profile's name, or "User" when it is missing or empty |
| RequestDetailPage.View | src/frontend/src/pages/RequestDetailPage.tsx:51-164 | "not found" exactly when no request matches; otherwise the first matching request, the one `Find` returns, with its complete offer, chat id and sender name |
| RequestDetailPage.HandleComplete | src/frontend/src/pages/RequestDetailPage.tsx:30-41 | nothing happens without a request; otherwise exactly the request's id is completed; success is reported exactly when the call succeeded, a failure with the error's message or "Please try again"; the cache is settled by the complete outcome |
| HelpRequestCard.Buttons | src/frontend/src/components/HelpRequestCard.tsx:88-110 | a pending request's footer is exactly Accept (disabled while an accept is in flight) then View Details; any other request's is View Details alone |
| HelpRequestCard.FormatTimestamp | src/frontend/src/components/HelpRequestCard.tsx:36-39 | the same text, "Just now", for every timestamp |
| HelpRequestCard.ViewDetails | src/frontend/src/components/HelpRequestCard.tsx:32-34 | View Details opens the detail route named by the id's decimal string |
| HelpRequestCard.ViewDetailsFindsRequest | src/frontend/src/components/HelpRequestCard.tsx:33 | with distinct ids, the detail page finds the card's own request from that route |
| HelpRequestCard.HandleAccept | src/frontend/src/components/HelpRequestCard.tsx:19-30 | accept is called for exactly this request's id; the error's message, or "Please try again", is shown on failure |
| MessageThread.SendDisabled | src/frontend/src/components/MessageThread.tsx:111 | the send button is disabled exactly while sending or while the draft is blank |
| MessageThread.TriggersSend | src/frontend/src/components/MessageThread.tsx:48 | exactly Enter without Shift sends |
| MessageThread.Bubbles | src/frontend/src/components/MessageThread.tsx:76-77 | messages are shown newest first, each marked own exactly when its sender equals the sender name |
| MessageThread.BubblesReverseBack | src/frontend/src/components/MessageThread.tsx:76 | reading the shown list backwards gives the fetched list |
| MessageThread.View | src/frontend/src/components/MessageThread.tsx:64-97 | a spinner exactly while loading; the empty state exactly when loaded with no messages; otherwise the bubbles |
| MessageThread.Thread.constructor | src/frontend/src/components/MessageThread.tsx:16 | the draft starts empty |
| MessageThread.Thread.Edit | src/frontend/src/components/MessageThread.tsx:104 | typing replaces the draft |
| MessageThread.Thread.HandleSend | src/frontend/src/components/MessageThread.tsx:27-45 | a blank draft, and only a blank draft, is refused with "Please enter a message" and no call; otherwise the trimmed draft is sent to the current request id under the current sender name; a failure reports the error's message or "Please try again"; the cache is settled by the send outcome; the draft is cleared exactly on success |
| MessageThread.Thread.HandleKeyPress | src/frontend/src/components/MessageThread.tsx:47-52 | any key but a plain Enter changes nothing; a plain Enter behaves exactly as a send, with the same refusal, call, failure text, cache and draft, even while a send is in flight and the button is disabled |
| AuthPage.ScreenFor | src/frontend/src/pages/AuthPage.tsx:38-104 | signed out: sign-in; role choice exactly when signed in, settled, fetched, no profile and no role; the form exactly when signed in with a role; loading otherwise |
| AuthPage.Redirect | src/frontend/src/pages/AuthPage.tsx:19-28 | a signed-in user with a profile leaves for the dashboard of the profile's user type |
| AuthPage.Page.constructor | src/frontend/src/pages/AuthPage.tsx:15 | no role is chosen at first |
| AuthPage.Page.SelectRole | src/frontend/src/pages/AuthPage.tsx:80 | choosing a role records it |
| AuthPage.SignUpPath | src/frontend/src/pages/AuthPage.tsx:77-91 | a new user sees the role choice, then the form for the chosen role |
| CitizenDashboard.Redirect | src/frontend/src/pages/CitizenDashboard.tsx:15-21 | no identity goes to sign-in; exactly a loaded "officer" profile goes to the officer dashboard |
| CitizenDashboard.View | src/frontend/src/pages/CitizenDashboard.tsx:23-33 | a spinner exactly while loading; otherwise a citizen-mode notifier |
| CitizenDashboard.NotifierInert | src/frontend/src/pages/CitizenDashboard.tsx:33 | the notifier mounted here never alerts and never updates its memory |
| CitizenDashboard.RedirectsSettle | src/frontend/src/pages/CitizenDashboard.tsx:15-21 | for any loaded profile, exactly one dashboard keeps the user, and it is where sign-in sends them |
| CitizenDashboard.NoRoleRedirectWithoutProfile | src/frontend/src/pages/CitizenDashboard.tsx:18 | neither dashboard redirects a signed-in user whose profile is not loaded |
| StatusBadge.ConfigFor | src/frontend/src/components/StatusBadge.tsx:9-32 | pending, accepted and resolved get their label and classes; every other string gets "Unknown" |
| StatusBadge.ConfigsDistinct | src/frontend/src/components/StatusBadge.tsx:11-25 | the three statuses get pairwise distinct labels and classes, none of them "Unknown" |
| StatusBadge.LabelCapitalisesName | src/frontend/src/components/StatusBadge.tsx:11-25 | each label is the status string with its first letter capitalised |

## Left out

- **Backend behaviour.** The backend canister is not part of this model:
  - the request lifecycle it enforces (the accept race, pending → accepted → resolved, assignee recording);
  - the message log and its ordering;
  - the actor's creation and Internet Identity sign-in (`handleLogin`).

  Replies are parameters, and identity is a boolean.
- **Query-library internals.**
  - Prefix matching is an assumption (`UseQueries.Selects`).
  - Refetch timers exist only as their interval constants.
  - Retry, in-flight deduplication and loading flags are taken as inputs.
  - Polling is represented by repeated calls of `NotificationManager.Manager.Poll`.
- **The "myRequests" key.** SOS invalidates it, but no query under that key
  appears in the modelled files.
- **Browser notifications.** The permission effect (`NotificationManager.tsx`
  lines 15-20) and `useNotifications` are left out. `sendNotification` is
  represented by the returned `Alert` value.
- **Other browser APIs and markup files.** Geolocation, the SOS button and
  the location modal are left out, as are the landing page, layout, role
  selector and the router's component wiring. Markup, styling (except the status badge's
  classes), scrolling, spinners and success-toast texts are also left out.
- **Floating-point coordinates.** Their formatting and map links are not modelled.
- **Whitespace.** JavaScript's `\s` and `trim()` use the Unicode space
  separators of the engine's Unicode version. `Strings.IsWhitespace` lists
  them explicitly.
- **Negative ids.** Ids are naturals. The backend's `bigint` could in
  principle be negative, and `toString` would then carry a sign.
- MessageThread.Thread.HandleSend: the send is modelled as one atomic step.
  The source clears the draft after the `await`, which would also clear text
  typed while the send was in flight.
- MessageThread.Thread.HandleKeyPress: Enter is not guarded by the send's
  pending state, so pressing it during a send posts the draft a second
  time. The model shows that Enter sends while the button is disabled, but
  as sends are atomic it does not show two sends interleaving.
