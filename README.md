# Client logic of the robotics book site, in Dafny

The site is a documentation book with a thin client layer. This layer resolves the backend's origin, keeps a signed-in session in memory and in local storage, swaps a chapter's text for a personalized or translated variant, and submits the signup form. This project models these four pieces and proves what they promise.

- `ApiBaseUrl` (`api_base_url.dfy`) models `useApiBaseUrl` as a total function `Resolve` over an `Env` record. The record holds the localStorage override, the injected `window.__API_BASE_URL__`, the configured `customFields.apiBaseUrl`, the `sameOriginApi` flag, the page origin and hostname, and whether a `window` exists at all. The regex `/^(http|https):\/\//` becomes a prefix test. JavaScript `||` treats an empty string as absent (module `Js`).
- `AuthContext` (`auth_context.dfy`) models `AuthProvider` as a class. Its fields are `user`, `token`, a `storage` map standing for `localStorage`, and a log of the requests it sent. `useAuth` is the function `UseAuth`: the provider's value, or a failure outside a provider. `Restore`, `Login`, `Signup` and `Logout` are tied to the functions `Restored`, `SignedIn` and `SignedOut` over a `Session` value. Each backend reply is a parameter. A failure is a returned `Fail` value.
- `UserCodec` (`user_codec.dfy`) holds the `User` record. It replaces `JSON.stringify`/`JSON.parse` of a user with a concrete escaped-field encoding whose round trip is proved. All the session model needs is that decoding inverts encoding.
- `ChapterControls` (`chapter_controls.dfy`) models the panel as a class holding the five React state fields plus the displayed text. Each async handler awaits the `fetch` and then `response.json()`. One reply parameter stands for both awaits. `Begin…` runs the code before the first await and records the request. `End…` runs the code after the second. `Handle…` runs both in turn. `alert` and `window.location.href` are recorded.
- `SignupForm` (`signup_form.dfy`) models the languages parser as pure functions over `Js.Split`/`Js.Trim`. The form is a class. Its `HandleSubmit` calls `AuthProvider.Signup`.

Facts about the resolver's code that its own doc comment does not state:

- Same-origin mode is checked first. With a window and an absolute origin it returns the origin (book/src/hooks/useApiBaseUrl.ts:32-37). The priority list in the hook's doc comment (book/src/hooks/useApiBaseUrl.ts:5-10) does not mention this branch.
- The `||` chain takes the first truthy source, so an empty string is skipped (book/src/hooks/useApiBaseUrl.ts:39).
- A relative winner yields the default. It does not fall through to the next source, even when a later source is absolute (book/src/hooks/useApiBaseUrl.ts:43-46).

## Model

| member | source | states |
|---|---|---|
| `Js.Or` | book/src/hooks/useApiBaseUrl.ts:39 | `a \|\| b` is `a` when `a` is truthy and `b` when it is not; so it is truthy iff one of them is |
| `Js.OrElse` | book/src/components/ChapterControls/ChapterControls.tsx:50 | with a non-empty fallback literal, `a \|\| 'literal'` is never empty, so an error message built this way is always shown |
| `ApiBaseUrl.Resolve` | book/src/hooks/useApiBaseUrl.ts:12-49 | the result always starts with http:// or https://; in same-origin mode with a window and an absolute origin it is the origin; with no window it is the configured value if absolute, else 'http://localhost:8000' |
| `ApiBaseUrl.FirstTruthyAt` | book/src/hooks/useApiBaseUrl.ts:39 | the priority chain yields the value of the least-index non-empty source |
| `ApiBaseUrl.FirstTruthyNone` | book/src/hooks/useApiBaseUrl.ts:39 | with every source absent or empty, the chain yields its final default |
| `ApiBaseUrl.CandidateIsFirstTruthy` | book/src/hooks/useApiBaseUrl.ts:15-39 | `Candidate`, the left-associated `\|\|` chain, equals "first non-empty of localStorage, injected global, config, localhost-inferred, else the default" |
| `ApiBaseUrl.CandidateGuard` | book/src/hooks/useApiBaseUrl.ts:43-48 | outside same-origin mode an absolute candidate is returned unchanged and a relative one becomes exactly 'http://localhost:8000' |
| `ApiBaseUrl.RelativeOverrideForcesDefault` | book/src/hooks/useApiBaseUrl.ts:39-46 | a non-empty relative localStorage override yields the default even when later sources are absolute (no fall-through) |
| `ApiBaseUrl.RelativeInjectedForcesDefault` | book/src/hooks/useApiBaseUrl.ts:39-46 | the same for a winning relative `window.__API_BASE_URL__` |
| `ApiBaseUrl.SameOriginIgnoresSources` | book/src/hooks/useApiBaseUrl.ts:32-37 | in same-origin mode any two environments agreeing on the mode, window and origin resolve to that origin, whatever their other sources |
| `ApiBaseUrl.HostnameIrrelevant` | book/src/hooks/useApiBaseUrl.ts:27-29 | changing the page hostname never changes the result |
| `ApiBaseUrl.ResolveIsASource` | book/src/hooks/useApiBaseUrl.ts:32-48 | the result is the origin, the default, or the value of one of the non-empty sources |
| `UserCodec.Encode` | book/src/contexts/AuthContext.tsx:80 | the stored text of a user is non-empty and decodes (`JSON.parse`) to that same user |
| `UserCodec.EncodeInjective` | book/src/contexts/AuthContext.tsx:80 | distinct users are stored as distinct text |
| `AuthContext.SignedIn` | book/src/contexts/AuthContext.tsx:76-80 | after a successful login or signup, the in-memory token and user are the reply's and storage holds the token under `auth_token` and a text decoding to the user under `user`; no other key changes |
| `AuthContext.SignedOut` | book/src/contexts/AuthContext.tsx:102-107 | after logout, token and user are null, neither key is in storage, the session is not authenticated, and every other key is unchanged |
| `AuthContext.RestoreOnMount` | book/src/contexts/AuthContext.tsx:54-63 | on mount the stored session is adopted when both keys hold non-empty text and the user text decodes, and only then; otherwise token and user both stay null; storage is not written |
| `AuthContext.RestorePreservesConsistency` | book/src/contexts/AuthContext.tsx:54-63 | restoring keeps "user present iff token present" and keeps the held session readable from storage |
| `AuthContext.ReloadAfterSignIn` | book/src/contexts/AuthContext.tsx:54-80 | after a sign-in with a non-empty token, a fresh provider restoring from storage holds exactly the same session |
| `AuthContext.ReloadAfterSignOut` | book/src/contexts/AuthContext.tsx:54-63 | after logout, a fresh provider restoring from storage stays signed out |
| `AuthContext.SignOutUndoesSignIn` | book/src/contexts/AuthContext.tsx:76-80 | logging out after a sign-in leaves the same state as logging out alone |
| `AuthContext.SignInReplacesSession` | book/src/contexts/AuthContext.tsx:76-80 | a second sign-in replaces the first wholesale |
| `AuthContext.AuthenticatedAfterSignIn` | book/src/contexts/AuthContext.tsx:117 | after a sign-in, `isAuthenticated` holds exactly when the token is non-empty |
| `AuthContext.AuthProvider.constructor` | book/src/contexts/AuthContext.tsx:49-52 | the provider starts with null user and token over the given storage, using the resolved API origin |
| `AuthContext.AuthProvider.Restore` | book/src/contexts/AuthContext.tsx:54-63 | the mount effect moves the state to `Restored` of the old state (adopt the stored token and decoded user when both keys are non-empty, else change nothing) and sends nothing |
| `AuthContext.AuthProvider.Adopt` | book/src/contexts/AuthContext.tsx:76-80 | the success tail shared by login and signup moves the state to `SignedIn` with the reply's token and user |
| `AuthContext.AuthProvider.Login` | book/src/contexts/AuthContext.tsx:65-81 | posts the credentials to `/api/v1/auth/login`; a non-ok reply fails with 'Login failed' and changes neither state nor storage; an ok reply passes and leads to `SignedIn`, after which `isAuthenticated` holds exactly when the reply's token is non-empty |
| `AuthContext.AuthProvider.Signup` | book/src/contexts/AuthContext.tsx:83-100 | posts the payload to `/api/v1/auth/signup`; a non-ok reply fails with its `detail`, or 'Signup failed' when that is empty or absent, with nothing changed; the failure message is never empty; an ok reply has exactly the effect of an ok login, including on `isAuthenticated` |
| `AuthContext.AuthProvider.Logout` | book/src/contexts/AuthContext.tsx:102-107 | moves the state to `SignedOut`, after which `isAuthenticated` is false, and sends no request |
| `ChapterControls.Panel.constructor` | book/src/components/ChapterControls/ChapterControls.tsx:12-23 | the panel starts showing the original text with every flag false and no error |
| `ChapterControls.Panel.BeginPersonalize` | book/src/components/ChapterControls/ChapterControls.tsx:25-46 | without a user and a non-empty token it alerts, redirects to /login, sends nothing and changes no flag or content; otherwise it clears the error, sets `personalizing` and sends `originalContent` with `Bearer <token>` |
| `ChapterControls.Panel.EndPersonalize` | book/src/components/ChapterControls/ChapterControls.tsx:48-61 | success displays `personalized_content`, sets `showingPersonalized` and clears `showingTranslated`; failure sets `error` to `detail` or the default, never empty, and leaves content and flags alone; `personalizing` ends false |
| `ChapterControls.Panel.HandlePersonalize` | book/src/components/ChapterControls/ChapterControls.tsx:25-62 | the whole handler: without a user and non-empty token, alert, redirect to /login and nothing else; otherwise exactly one request to `/api/v1/content/personalize` with `Bearer <token>` carrying the chapter path and the original text, no alert or redirect, then the success effect or a non-empty error, with `personalizing` false at the end |
| `ChapterControls.Panel.BeginTranslate` | book/src/components/ChapterControls/ChapterControls.tsx:65-84 | clears the error, sets `translating`, and sends `originalContent` with target 'ur' and a Bearer header only when a non-empty token exists |
| `ChapterControls.Panel.EndTranslate` | book/src/components/ChapterControls/ChapterControls.tsx:86-99 | success displays `translated_content`, sets `showingTranslated` and clears `showingPersonalized`; failure sets `error` to `detail` or the default, never empty, and leaves content and flags alone; `translating` ends false |
| `ChapterControls.Panel.HandleTranslate` | book/src/components/ChapterControls/ChapterControls.tsx:64-100 | the whole handler: exactly one request to `/api/v1/content/translate` carrying the original text and target 'ur', with a Bearer header only for a non-empty token, no alert or redirect, then the success effect or a non-empty error, with `translating` false at the end |
| `ChapterControls.Panel.Reset` | book/src/components/ChapterControls/ChapterControls.tsx:102-107 | displays `originalContent`, clears both display flags and the error, sends nothing |
| `Js.Split` | book/src/components/Auth/SignupForm.tsx:28 | `split(',')` yields one more piece than there are commas, and no piece holds a comma |
| `Js.JoinSplit` | book/src/components/Auth/SignupForm.tsx:28 | joining the pieces with the separator gives the string back |
| `Js.SplitJoin` | book/src/components/Auth/SignupForm.tsx:28 | splitting pieces that hold no separator, once joined, gives the pieces back |
| `Js.TrimStart` | book/src/components/Auth/SignupForm.tsx:28 | drops exactly the leading whitespace: the rest is a suffix that does not start with whitespace |
| `Js.TrimEnd` | book/src/components/Auth/SignupForm.tsx:28 | drops exactly the trailing whitespace: the rest is a prefix that does not end with whitespace |
| `Js.Trim` | book/src/components/Auth/SignupForm.tsx:28 | `trim()` is an infix of its input with only whitespace around it, and neither starts nor ends with whitespace |
| `Js.TrimIdempotent` | book/src/components/Auth/SignupForm.tsx:28 | trimming twice is trimming once |
| `SignupForm.With` | book/src/components/Auth/SignupForm.tsx:58-147 | an input's `onChange` sets its own field and leaves every other field as it was |
| `SignupForm.ParseLanguages` | book/src/components/Auth/SignupForm.tsx:27-29 | an empty field yields `[]`; a non-empty one yields (number of commas + 1) entries, none holding a comma |
| `SignupForm.ParseLanguagesPieces` | book/src/components/Auth/SignupForm.tsx:27-29 | a non-empty field yields one entry per comma-separated piece, empty pieces kept, each being its piece with leading and trailing whitespace removed |
| `SignupForm.ParseLanguagesJoin` | book/src/components/Auth/SignupForm.tsx:27-29 | a list of languages without commas or surrounding whitespace, typed in joined by commas, is read back unchanged |
| `SignupForm.Form.constructor` | book/src/components/Auth/SignupForm.tsx:7-19 | the form opens with both experience levels 'beginner', every other field empty, no error and not loading |
| `SignupForm.Form.Change` | book/src/components/Auth/SignupForm.tsx:58-147 | an input's change updates only that field of the form data |
| `SignupForm.Form.BeginSubmit` | book/src/components/Auth/SignupForm.tsx:21-34 | before the call, `error` is cleared, `loading` is true, and the payload is `Payload` of the form data: every field as typed except `programming_languages`, replaced by `ParseLanguages` of it |
| `SignupForm.Form.EndSubmit` | book/src/components/Auth/SignupForm.tsx:36-41 | after the call, success redirects to /intro; failure shows the thrown message, or 'Signup failed' when it is empty, so the error is never empty; `loading` ends false |
| `SignupForm.Form.HandleSubmit` | book/src/components/Auth/SignupForm.tsx:21-42 | the whole submit: posts the payload through the provider; success signs in and redirects to /intro with no error; failure shows `detail` or 'Signup failed' (never empty), does not redirect and leaves the session as it was; `loading` ends false |

The class invariants are proved to hold across every method. For `AuthProvider`, `Valid()` says a user is held iff a token is, that a held session can be read back from storage, and that the API origin is absolute. For `Panel`, `Valid()` says at most one of `showingPersonalized`/`showingTranslated` is set, and that with neither set the original text is displayed.

## Left out

- Network failures are not modelled. A rejected `fetch` or a `response.json()` that throws would surface its own message. Every reply here is a well-formed parameter (`ok`, the body fields, an optional string `detail`).
- Restoring a stored user that does not parse is not modelled. The source sets the token and then throws inside the mount effect. The model leaves the session unchanged instead, so "user iff token" holds.
- `AuthContext.AuthProvider.Login`: a success reply is assumed to carry `access_token` and `user`. Missing fields (stored as "undefined" by the source) are not modelled.
- JSON text is replaced by the escaped-field encoding of `UserCodec`. Only the round trip is relied on, not the JSON syntax. A non-string `detail`, such as a list of validation errors, is not modelled.
- Only strings are modelled for `window.__API_BASE_URL__` and `customFields.apiBaseUrl`. A truthy non-string value would fail the absolute-URL test in the source and also yield the default. `sameOriginApi` is its `!!` value.
- Trim's whitespace is a fixed set: tab, LF, VT, FF, CR, space, NBSP, U+2028, U+2029 and U+FEFF. Other Unicode space separators that JavaScript also trims are not included.
- The API origin is resolved once, when a provider or panel is built. The source re-runs `useApiBaseUrl()` on every render (book/src/contexts/AuthContext.tsx:52, book/src/components/ChapterControls/ChapterControls.tsx:18), re-reading `localStorage.API_BASE_URL` each time. The model does not link `Env.storedOverride` to the provider's `storage`, so a later change of the override is not seen.
- Async behaviour is only partly captured. React rendering, batching of state updates, handlers closing over the `token` of an earlier render, and replies arriving after unmount are out. The split into `Begin…`/`End…` allows any order of calls, and the panel invariant holds for every order.
- A button's `disabled` attribute (`personalizing || showingPersonalized`, and the same for translate) is not a precondition. The handlers are modelled as callable in any state.
- Rendering (status messages, error boxes, CSS), `e.preventDefault()`, and storage changes made by other tabs are out.
- `book/src/theme/Root.tsx` hard-codes the chat origin and bypasses the resolver. The chat bot, the login form, the pages wrapping the forms, the navbar registration, the auth nav button, and the site and sidebar configuration are not part of this model: they hold no logic beyond rendering or data.
