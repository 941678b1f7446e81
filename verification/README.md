# Career-agent web client: session, guard and page state machines

This project models the client-side logic of a single-page career-coaching web
client. The client lets a user register or sign in, chat with an AI assistant
whose conversations the server persists, and submit a resume and a job
description for a match analysis. Almost all of the client is rendering. The
logic that remains is a handful of small state machines. Each one is written
here as an immutable record with pure transition functions:

- **Session store** (`AuthStore`): a token plus two derived flags, the
  authentication flag and the guest flag, changed by `setToken` and `logout`.
  The JWT decoder is a function parameter `string -> Option<Claims>`, where
  `None` means that decoding threw.
- **Route guard** (`ProtectedRoute`): a protected page renders, or the guard
  redirects to `/login`.
- **Chat page** (`ChatPage`): the history-loading effect, the input box, and
  the submit handler. The submit handler optimistically appends the user's
  message, then appends the reply or a fixed apology when the reply arrives.
- **Analyzer page** (`AnalyzerPage`): the blank-field check, the
  start/success/failure transitions, and the colour band of the match score.
- **Login and registration pages** (`LoginPage`, `RegisterPage`, and their
  shared request lifecycle `AuthForm`): field updates, and submit outcomes
  that feed the session store.
- **End-to-end flows** (`AppFlow`): a form page's outcome, passed through
  the store and then through the guard of the page it navigates to.
- **JavaScript semantics** (`Js`): absent values, string truthiness, the
  `a || fallback` idiom, and `String.prototype.trim`. `trim` removes the code
  points that the ECMAScript language specification lists under "White Space"
  and "Line Terminators".

Server responses are inputs to the transition functions. Navigation is an
output. JavaScript's `null` and `undefined` are both `None`. A string is
truthy exactly when it is present and non-empty.

Five points where the code's behaviour is easy to misread:

- The authentication flag is the *truthiness* of the token, not "the token
  is non-null". `setToken("")` stores `""` and leaves the session
  unauthenticated.
- The login and registration forms carry `noValidate`. Their `required`
  markers therefore block nothing, and every submit issues its request.
- A failed history load does not clear the message list in its `catch`. It
  navigates to `/chat`. The list is emptied when the effect runs again
  without a conversation id (`ChatPage.FailedLoadThenRerunClears`).
- A guest loses the conversation on screen right after its first reply. The
  reply navigates to `/chat/<id>`. That changes the effect's conversation id,
  and for a guest the effect empties the list instead of loading it
  (`ChatPage.GuestFirstReplyThenRerunClears`).
- This login page has no guest sign-in. A guest session arises only from a
  token whose claims mark it as a guest.

## Model

| member | source | states |
|---|---|---|
| AuthStore.Initial | src/store/authStore.js:8-10 | The store starts signed out: no token, not authenticated, not a guest. This state satisfies the store invariant. |
| AuthStore.SetTokenState | src/store/authStore.js:12-31 | Every result satisfies the invariant (authenticated iff the token is truthy; guest implies authenticated). A falsy token is stored as given and never decoded. A truthy token that fails to decode leaves the signed-out state. A decodable token is kept and authenticates. The guest flag is set iff the token decodes and its claims' `user.isGuest` is exactly `true`. |
| AuthStore.LogoutState | src/store/authStore.js:33-39 | Logout clears the token and both flags. |
| AuthStore.Apply | src/store/authStore.js:12-39 | Both events leave the store in a state that satisfies the invariant, whatever the prior state. |
| AuthStore.ReplayConsistent | src/store/authStore.js:12-39 | Every state reachable by any sequence of `setToken`/`logout` calls satisfies the invariant, from the initial state or from any consistent state. |
| AuthStore.ReplayIsLastEvent | src/store/authStore.js:26-39 | The store keeps no memory beyond its last event. After a non-empty event sequence, the state is what the last event yields from any start. |
| AuthStore.UndecodableIsLogout | src/store/authStore.js:19-30 | Setting a non-empty token that fails to decode leaves exactly the state `logout` leaves. |
| AuthStore.EmptyTokenStoredUnauthenticated | src/store/authStore.js:13-30 | The empty-string token is stored, but it authenticates nothing and is no guest. |
| AuthStore.LogoutIdempotent | src/store/authStore.js:33-39 | Logging out twice is the same as logging out once. |
| ProtectedRoute.Guard | src/components/ProtectedRoute.js:5-13 | The guard renders the children, unchanged, iff the session is authenticated. Otherwise it redirects to `/login`. It does exactly one of the two. |
| ProtectedRoute.GuardReadsOnlyAuthentication | src/components/ProtectedRoute.js:6-12 | Two sessions with the same authentication flag get the same decision, whatever their tokens and guest flags. |
| ProtectedRoute.GuardAdmitsTruthyTokens | src/components/ProtectedRoute.js:6-12 | In a consistent session, the guard admits exactly the sessions with a truthy token. A guest session is admitted like a full one. |
| ChatPage.Initial | src/pages/ChatPage.js:50-53 | The chat page mounts with no messages, empty input, and nothing loading. |
| ChatPage.Typed | src/pages/ChatPage.js:222 | Typing replaces the input text and changes nothing else. |
| ChatPage.HistoryOf | src/pages/ChatPage.js:105-108 | The history sent has one entry per message, in order, with the same role and parts. |
| ChatPage.HistoryIgnoresServerFields | src/pages/ChatPage.js:105-108 | The history depends only on each message's role and parts. Two lists that agree on those send the same history, whatever other fields server-loaded messages carry. |
| ChatPage.HistoryOfAppend | src/pages/ChatPage.js:105-108 | Appending a message to the list appends exactly its role and parts to the history. |
| ChatPage.Submit | src/pages/ChatPage.js:95-114 | A request is issued iff the input is not all whitespace. Whitespace-only input leaves the page untouched. Otherwise the page appends exactly one user message with the untrimmed input, clears the input, and starts loading. The request carries the untrimmed input and the conversation id. Its history holds the role and parts of exactly the messages that preceded the new one, one entry each, in order. |
| ChatPage.Receive | src/pages/ChatPage.js:117-134 | The earlier messages are kept as a prefix. Exactly one model message is appended: the reply text on success, or the fixed apology on failure. Loading stops. The page navigates to `/chat/<returned id>` iff the reply succeeded and there was no conversation id. |
| ChatPage.SubmitThenReceive | src/pages/ChatPage.js:99-131 | A full exchange puts the user's message and then its reply after the earlier messages. The request's history was the role and parts of exactly those earlier messages. The input ends empty and nothing is loading. |
| ChatPage.RunAppendOnly | src/pages/ChatPage.js:100-131 | Any interleaving of typing, submits and replies only ever appends to the message list. This includes a second submit before the first reply. |
| ChatPage.BeginHistoryLoad | src/pages/ChatPage.js:60-87 | History is fetched iff the token is truthy, a conversation id is present, and the session is not a guest. The fetch uses that id and token, and sets the history-loading flag. In every other case the list is emptied and nothing is loading. |
| ChatPage.FinishHistoryLoad | src/pages/ChatPage.js:68-80 | Loaded messages replace the list. A failure keeps the list and navigates to `/chat`. History loading stops either way. |
| ChatPage.FailedLoadThenRerunClears | src/pages/ChatPage.js:62-87 | A failed load navigates to `/chat`. Re-running the effect without a conversation id then empties the list and fetches nothing. |
| ChatPage.GuestFirstReplyThenRerunClears | src/pages/ChatPage.js:60-124 | For a guest, a first successful reply navigates to `/chat/<id>`. The effect then re-runs with that conversation id and empties the list, including the exchange just shown. |
| ChatPage.HistoryFetchNeedsFullSession | src/pages/ChatPage.js:62-82 | With a consistent session, history is fetched only for an authenticated, non-guest session. |
| AnalyzerPage.Initial | src/pages/AnalyzerPage.js:28-32 | The analyzer mounts with empty fields, no result, no error, and nothing loading. |
| AnalyzerPage.ResumeChanged | src/pages/AnalyzerPage.js:107 | Editing the resume changes only the resume text. |
| AnalyzerPage.JobDescriptionChanged | src/pages/AnalyzerPage.js:144 | Editing the job description changes only that text. |
| AnalyzerPage.Start | src/pages/AnalyzerPage.js:35-43 | No request is issued iff either field is all whitespace. In that case only the error changes, to the validation text. Otherwise the page starts loading, clears the error and the previous result, and sends both texts as typed. |
| AnalyzerPage.Finish | src/pages/AnalyzerPage.js:44-61 | Success stores the analysis and leaves the error alone. Failure shows the server's `msg` if truthy, else the fallback, and keeps the result. Loading stops either way. |
| AnalyzerPage.StartThenFinish | src/pages/AnalyzerPage.js:35-61 | A valid analysis ends with one of two outcomes. Either the result is shown with no error, or a non-empty error is shown with no result. Nothing is left loading. |
| AnalyzerPage.BlankFieldIsRejected | src/pages/AnalyzerPage.js:36-39 | A blank field never issues a request and always shows the validation text. Loading and the result are untouched. |
| AnalyzerPage.ScoreBand | src/pages/AnalyzerPage.js:222 | The gauge colour is success iff the score is above 75, warning iff it is in (50, 75], and error iff it is at most 50. |
| AnalyzerPage.ScoreBandMonotone | src/pages/AnalyzerPage.js:222 | A higher score never gets a worse colour. |
| AuthForm.Begin | src/pages/LoginPage.js:45-46 | Submitting starts loading with the error cleared. |
| AuthForm.Settle | src/pages/LoginPage.js:54-62 | A success passes the token through `setToken` and navigates to `/dashboard`. A failure leaves the session alone and shows the server message or the fallback. Loading stops either way. |
| LoginPage.Initial | src/pages/LoginPage.js:26-31 | The sign-in form starts with empty fields, no error, and nothing loading. |
| LoginPage.Changed | src/pages/LoginPage.js:39-41 | Editing a field sets that field and leaves the other field unchanged. |
| LoginPage.Submit | src/pages/LoginPage.js:43-50 | There is no validation. Every submit posts the form as held, starts loading, and clears the error. |
| LoginPage.Complete | src/pages/LoginPage.js:54-62 | A success stores the token via `setToken` and navigates to `/dashboard`, leaving the cleared error as it was. A failure leaves the session alone and shows the server message, or "Login failed, Please check your credentials.", so the error is never empty. Loading stops either way. |
| RegisterPage.Initial | src/pages/RegisterPage.js:27-33 | The registration form starts with empty fields, no error, and nothing loading. |
| RegisterPage.Changed | src/pages/RegisterPage.js:41-43 | Editing one of name, email or password sets that field and leaves the other two unchanged. |
| RegisterPage.Submit | src/pages/RegisterPage.js:45-51 | There is no validation. Every submit posts the form as held, starts loading, and clears the error. |
| RegisterPage.Complete | src/pages/RegisterPage.js:55-62 | A success stores the token via `setToken` and navigates to `/dashboard`, leaving the cleared error as it was. A failure leaves the session alone and shows the server message, or "Registration failed. Please try again.", so the error is never empty. Loading stops either way. |
| AppFlow.LoginSuccessThenGuard | src/pages/LoginPage.js:54-56 | A successful sign-in navigates to the dashboard. The dashboard's guard renders it iff the returned token is truthy and decodes. A token that fails to decode, is empty, or is missing ends with a redirect to `/login`. |
| AppFlow.RegisterSuccessThenGuard | src/pages/RegisterPage.js:55-56 | The same composition holds for a successful registration. |
| AppFlow.LoginFailureKeepsAccess | src/pages/LoginPage.js:57-59 | A failed sign-in leaves every guard decision as it was. |
| AppFlow.LogoutLocksOut | src/store/authStore.js:33-39 | After logout, every protected page redirects to `/login`. |
| Js.TrimStart | src/pages/ChatPage.js:97 | Leading-whitespace removal returns a suffix of the input. Every dropped character is whitespace, and the result does not start with whitespace. |
| Js.TrimEnd | src/pages/ChatPage.js:97 | Trailing-whitespace removal returns a prefix of the input. Every dropped character is whitespace, and the result does not end with whitespace. |
| Js.BlankIffAllWhitespace | src/pages/AnalyzerPage.js:36 | A string is empty after `trim()` iff every character is whitespace. |
| Js.TrimIsSlice | src/pages/ChatPage.js:97 | The trimmed text is a contiguous slice of the original. |
| Js.OrElse | src/pages/AnalyzerPage.js:55-58 | `msg \|\| fallback` is the message when it is truthy and the fallback otherwise, so it is non-empty whenever the fallback is. |

## Left out

- Rendering (JSX, MUI styling, markdown and syntax highlighting, the `language-` code-block pattern, the typing indicator, the show-password toggle): presentation only.
- Network I/O: each request is an output value and each response an input value. Absolute and relative endpoint URLs and the `x-auth-token` header are not modelled.
- JWT decoding internals: the decoder is an arbitrary function parameter.
- Persistence of the store in local storage and its rehydration at start-up: foreign-library I/O. Because every reachable state is consistent, a faithfully persisted state rehydrates to a consistent one.
- Asynchronous timing: requests are not matched to their responses, responses after unmount are not modelled, and effect re-runs happen only when called explicitly. `ChatPage.RunAppendOnly` still allows events in any order.
- ChatPage.Receive: the navigation after a first reply is modelled as a path only. The history reload that the new route's conversation id would trigger is modelled separately, by `ChatPage.BeginHistoryLoad`. A reply without a conversation id (which the code would turn into `/chat/undefined`) is not modelled.
- Router matching, including the two `/chat` route definitions in `src/App.js`: library behaviour.
- `Math.round` display of the score: floating-point formatting.
- AnalyzerPage.ScoreBand: the score is a mathematical real. A missing or NaN score, which the code's comparisons would place in the error band, is not modelled.
- AuthStore.SetTokenState: tokens are absent or strings. A non-string truthy value, which the decoder would reject, is not modelled.
- ChatPage.HistoryOf: the fields a server-loaded message carries beyond role and parts are represented by a single optional `serverId`. Their actual shape is defined by the server, which is not part of this model.
- ChatPage.Receive: a success response whose `reply` field is missing is not modelled. The code would append a message whose text is `undefined`.
- AnalyzerPage.Finish: the server's `msg` is absent or a string. A non-string truthy `msg`, which the code would show as the error, is not modelled.
- AuthForm.Settle: the server's `msg` is absent or a string. Non-string values are not modelled, and neither is a response whose body lacks `msg` for another reason.
- LoginPage.Changed: only the two rendered field names are modelled. An event with some other `name` would add a key to the form object.
- RegisterPage.Changed: only the three rendered field names are modelled, for the same reason.
- Navbar, dashboard, home page, chat layout, conversation sidebar, application entry point: presentation, or a fetch-and-render with no logic to state.
- Console logging and the chat window's scroll-to-bottom effect.
