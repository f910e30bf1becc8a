# intella — a verified model of the web client's session and UI logic

This project models the logic of the intella web client. It has two parts.

The authentication side covers:
- the authentication context: the mount probe, sign-in/up, OAuth, status check, sign-out and profile lookup;
- the OAuth callback page;
- the cookie/session-storage helpers, with their base64 session snapshot;
- the identity-provider helper functions;
- the route table with its authentication guard.

The interface side covers:
- the search page: URL state, filtering and match highlighting;
- the model picker's search and provider grouping;
- the message composer;
- the task list filter;
- the settings page's initials and panels;
- the sidebar's expand/collapse state.

The identity provider (Supabase) is an oracle: every reply it could give is a parameter. Every reply includes both `{data, error}` shapes, and a thrown exception where the page catches one. Clock readings (`now`) are parameters too, as are the page protocol, the session lifetime, the query string, and the sample lists the pages display.

Each file holds one module:
- `wrappers.dfy`: `Option`, `Result`, `Outcome`.
- `text.dfy`: the JavaScript string operations the components use. These are `trim`, ASCII case mapping, `indexOf`/`includes`, `split(" ")` with each part's first character, `slice` and first-occurrence `replace`.
- `lists.dfy`: `Array.prototype.filter` and order-preserving subsequences.
- `base64.dfy`: `btoa`, following section 4 of RFC 4648 on Latin-1 text, and `atob`, the forgiving decoder, with their round trip.
- `url.dfy`: `URLSearchParams.get` and the `||` default.
- `gateway.dfy`: the provider helper functions and the profile projection.
- `token_store.dfy`: the cookie jar and session storage, as a class over a `map`.
- `auth_context.dfy`: the authentication provider, as a class, plus a run of a whole call sequence.
- `auth_callback.dfy`: the callback page's decision, its timers and its view.
- `routes.dfy`: route matching, the guard, and what a path shows.
- `search.dfy`, `model_picker.dfy`, `chat.dfy`, `tasks.dfy`, `settings.dfy`, `sidebar.dfy`: the pages and components.

Components with state become classes. Their fields are the `useState` variables and their methods are the event handlers. Each handler's `ensures` ties the new state to a specification function, and the properties are proved as lemmas about those functions. Client methods such as `Run`, `Mount`, `SaveThenRead` and `ProjectsThenRecent` drive fresh objects through a scenario.

Where the prose description and the code differ, the model follows the code:
- The callback page's `error` query parameter only sets the message. The code exchange or session probe still runs. Its outcome alone decides the navigation, and it may overwrite the message.
- The callback page shows its error view when the message is truthy. An empty message counts as no message.
- `signOut` clears the user and navigates to `/auth`, but leaves the cookies alone.
- `getProfile` returns an all-absent profile, not an error, when no user resolves.
- Fallbacks written with `??` keep an empty string. Those written with `||` do not.
- The search filter ignores the selected source.
- Of the two catch-all routes in `App.tsx`, the guarded one comes first. The second (line 57) can never match.

## Model

| member | source | states |
|---|---|---|
| Text.TrimNonEmptyIffContent | src/components/chat/ChatInput.tsx:173-178 | a trimmed message is non-empty exactly when the message has a non-whitespace character |
| Text.IndexOf | apps/intella-app/src/pages/Search.tsx:199-203 | the result is the first index where the needle occurs, or absent exactly when it occurs nowhere |
| Text.IncludesIffOccurs | apps/intella-app/src/pages/Search.tsx:199-203 | `includes` holds exactly when the needle occurs somewhere; the empty needle is always included |
| Text.EmptyQueryMatchesAll | apps/intella-app/src/pages/Search.tsx:199-203 | an empty query matches every text, ignoring case |
| Text.JoinSplit | src/pages/Settings.tsx:47-52 | joining the parts of `split(" ")` gives back the name, and no part holds a space |
| Text.FirstLettersAreWordStarts | src/pages/Settings.tsx:47-52 | the first characters of the space-separated parts are exactly the word-start characters, never a space and never more than the name's length |
| Text.EmptyPartsIgnored | src/pages/Settings.tsx:49-50 | a leading space or a doubled space adds no word start |
| Text.Take | src/pages/Settings.tsx:52 | `slice(0, n)` is the prefix of length min(n, length) |
| Text.ReplaceFirst | src/pages/Settings.tsx:340 | the length is kept, a text without the character is unchanged, otherwise only its first occurrence is replaced |
| Lists.FilterIsSubsequence | apps/intella-app/src/pages/Search.tsx:199-203 | a filter's result keeps the original order |
| Lists.FilterNarrowing | src/pages/Tasks.tsx:89-95 | a stricter test keeps an order-preserving part of what a looser one keeps |
| Lists.FilterMultiplicity | apps/intella-app/src/pages/Search.tsx:199-203 | a filter keeps each passing item exactly as many times as the list holds it, and drops every other item |
| Lists.FilterEmptyIffNonePass | src/pages/Tasks.tsx:186 | a filter's result is empty exactly when no element passes |
| Base64.Btoa | apps/intella-app/src/lib/helpers.ts:47 | encoding succeeds exactly on Latin-1 text, gives a multiple of four digits, and is empty only for empty text |
| Base64.SextetsRoundTrip | apps/intella-app/src/lib/helpers.ts:47 | regrouping the 6-bit digits into bytes gives back the encoded bytes |
| Base64.AtobBtoa | apps/intella-app/src/lib/helpers.ts:57-62 | decoding what `btoa` produced gives back the original Latin-1 text |
| Gateway.OAuthRequestFor | apps/intella-app/src/integrations/supabase/helper.ts:24-34 | the OAuth request names the provider and redirects to the origin followed by `/auth/callback` |
| Gateway.ResetRequestFor | apps/intella-app/src/integrations/supabase/helper.ts:42-48 | the reset request carries the email and redirects to the origin followed by `/reset-password` |
| Gateway.GetCurrentUser | apps/intella-app/src/integrations/supabase/helper.ts:64-68 | the provider's user and error are handed back unchanged |
| Gateway.GetSession | apps/intella-app/src/integrations/supabase/helper.ts:70-74 | the provider's session and error are handed back unchanged |
| Gateway.DisplayName | apps/intella-app/src/integrations/supabase/helper.ts:85 | the name is the metadata name, else the full name, else the email, where an empty string still counts as present |
| Gateway.AvatarUrl | apps/intella-app/src/integrations/supabase/helper.ts:87 | the avatar is present exactly when either metadata field is, and the avatar URL wins |
| Gateway.ProfileFromUser | apps/intella-app/src/integrations/supabase/helper.ts:84-95 | a profile exists exactly when a name resolves; its short name is the name's word starts, has no space and is no longer than the name |
| TokenStore.Get | apps/intella-app/src/lib/helpers.ts:38-41 | a cookie reads back its value exactly while it is unexpired |
| TokenStore.WithToken | apps/intella-app/src/lib/helpers.ts:4-14 | the token reads back from now until `SESSION_DELTA` minutes later and never after; it is secure exactly on an https page, with SameSite=Lax; every other cookie is exactly as before |
| TokenStore.WithRefreshToken | apps/intella-app/src/lib/helpers.ts:16-27 | the refresh token reads back throughout the next 30 days and never after; it is secure exactly on an https page, with SameSite=Lax; every other cookie is exactly as before |
| TokenStore.Cleared | apps/intella-app/src/lib/helpers.ts:67-70 | the three session cookies are gone and every other cookie is kept as it was |
| TokenStore.ReadSnapshot | apps/intella-app/src/lib/helpers.ts:59-65 | a missing or empty cookie reads as no snapshot; a snapshot is exactly the base64 decoding of the cookie |
| TokenStore.SnapshotRoundTrip | apps/intella-app/src/lib/helpers.ts:43-65 | a saved non-empty snapshot reads back unchanged at any time within the session lifetime |
| TokenStore.ClearedReadsNothing | apps/intella-app/src/lib/helpers.ts:67-72 | after removal no token, refresh token or snapshot reads back, and removing twice is removing once |
| TokenStore.BrowserStore.SetToken | apps/intella-app/src/lib/helpers.ts:4-14 | the jar becomes `WithToken` of the old jar |
| TokenStore.BrowserStore.SetRefreshToken | apps/intella-app/src/lib/helpers.ts:16-27 | the jar becomes `WithRefreshToken` of the old jar |
| TokenStore.BrowserStore.GetCurrentSessionTokens | apps/intella-app/src/lib/helpers.ts:29-36 | each token is present exactly when its cookie exists and is unexpired, with the cookie's value |
| TokenStore.BrowserStore.GetToken | apps/intella-app/src/lib/helpers.ts:38-41 | the token is the visible value of the token cookie |
| TokenStore.BrowserStore.SaveCurrentSession | apps/intella-app/src/lib/helpers.ts:43-55 | the snapshot cookie is removed first; on Latin-1 text both the cookie and session storage hold the encoding, otherwise `btoa` throws and only the removal has happened |
| TokenStore.BrowserStore.SetCurrentSessionCookies | apps/intella-app/src/lib/helpers.ts:57 | on Latin-1 text a session cookie with the encoding is set, otherwise nothing changes |
| TokenStore.BrowserStore.GetCurrentSessionCookies | apps/intella-app/src/lib/helpers.ts:59-65 | the result is the snapshot read from the current jar |
| TokenStore.BrowserStore.RemoveAllCookies | apps/intella-app/src/lib/helpers.ts:67-72 | the jar is cleared and the snapshot leaves session storage |
| TokenStore.SaveThenRead | apps/intella-app/src/lib/helpers.ts:43-72 | a session saved and then read within its lifetime comes back; after removal nothing does |
| AuthContext.ProbedUser | apps/intella-app/src/contexts/AuthContext.tsx:15-30 | the probe's user is present exactly when a session is, and is that session's user |
| AuthContext.CredentialOutcome | apps/intella-app/src/contexts/AuthContext.tsx:36-48 | success exactly when there is no error and a session; a provider error is passed on; no session gives the local message |
| AuthContext.CredentialUser | apps/intella-app/src/contexts/AuthContext.tsx:36-48 | the user is replaced only by an error-free reply that carries one |
| AuthContext.SignInWithoutSession | apps/intella-app/src/contexts/AuthContext.tsx:36-70 | a reply with a user but no session signs the user in and still reports the no-session error |
| AuthContext.StatusOutcome | apps/intella-app/src/contexts/AuthContext.tsx:71-80 | success exactly when there is no error and a session; otherwise the provider error or "No session available" |
| AuthContext.ProfileOf | apps/intella-app/src/contexts/AuthContext.tsx:90-110 | no user gives an all-absent profile; otherwise id, email, display name and avatar of the user |
| AuthContext.ProfileAgreesWithProjection | apps/intella-app/src/contexts/AuthContext.tsx:90-110 | the context's profile agrees with the provider helper's projection whenever that one exists |
| AuthContext.AuthProvider.State | apps/intella-app/src/contexts/AuthContext.tsx:115-120 | `isAuthenticated` is exactly the presence of a user |
| AuthContext.AuthProvider.constructor | apps/intella-app/src/contexts/AuthContext.tsx:11-12 | no user, loading, nothing navigated |
| AuthContext.AuthProvider.CheckAuth | apps/intella-app/src/contexts/AuthContext.tsx:15-30 | the user is the probed user and loading ends |
| AuthContext.AuthProvider.SignIn | apps/intella-app/src/contexts/AuthContext.tsx:36-48 | the user and the result follow `CredentialUser` and `CredentialOutcome` with the sign-in message |
| AuthContext.AuthProvider.SignUp | apps/intella-app/src/contexts/AuthContext.tsx:58-70 | the same with the sign-up message |
| AuthContext.AuthProvider.Credential | apps/intella-app/src/contexts/AuthContext.tsx:36-70 | the shared body of sign-in and sign-up |
| AuthContext.AuthProvider.SignInWithOAuth | apps/intella-app/src/contexts/AuthContext.tsx:49-57 | passes exactly when the provider reports no error, and the user is untouched |
| AuthContext.AuthProvider.CheckAuthStatus | apps/intella-app/src/contexts/AuthContext.tsx:71-80 | the result is `StatusOutcome` of the reply, and the user is untouched |
| AuthContext.AuthProvider.SignOut | apps/intella-app/src/contexts/AuthContext.tsx:81-85 | whatever the provider replies, the user is cleared and `/auth` is navigated to |
| AuthContext.AuthProvider.ForgotPassword | apps/intella-app/src/contexts/AuthContext.tsx:86-89 | the provider's reply is handed back unchanged |
| AuthContext.AuthProvider.GetProfile | apps/intella-app/src/contexts/AuthContext.tsx:90-110 | the provider is asked only when no user is held; a provider error fails, otherwise the profile of the held or fetched user |
| AuthContext.SignedOutStaysSignedOut | apps/intella-app/src/contexts/AuthContext.tsx:36-85 | from no user, no call sequence without sign-in or sign-up produces a user |
| AuthContext.Run | apps/intella-app/src/contexts/AuthContext.tsx:11-120 | over any call sequence: loading only before the probe, authenticated exactly when a user is present, the final user as folded from the calls, one `/auth` navigation per sign-out |
| Url.ParamGet | apps/intella-app/src/pages/AuthCallback.tsx:12 | the first value under the key, absent exactly when no pair has it |
| Url.OrDefault | apps/intella-app/src/pages/Search.tsx:147-152 | a truthy value is kept, anything else gives the fallback |
| AuthCallback.ErrorParamMessage | apps/intella-app/src/pages/AuthCallback.tsx:17-22 | a message is set exactly when `error` is truthy: the description when truthy, else the generic text |
| AuthCallback.CallFor | apps/intella-app/src/pages/AuthCallback.tsx:28-32 | a truthy code is exchanged, otherwise the session is probed |
| AuthCallback.Decide | apps/intella-app/src/pages/AuthCallback.tsx:24-55 | home after 6 s exactly on a session, keeping the message; any error, exception or missing data goes to `/auth` after 4 s with its message |
| AuthCallback.ViewFor | apps/intella-app/src/pages/AuthCallback.tsx:57-76 | the error view exactly when the message is truthy, showing it |
| AuthCallback.CallbackPage.ApplyErrorParam | apps/intella-app/src/pages/AuthCallback.tsx:17-22 | the message is set from the query when there is one and kept otherwise |
| AuthCallback.CallbackPage.HandleAuthCallback | apps/intella-app/src/pages/AuthCallback.tsx:24-55 | one gateway call is recorded, one navigation scheduled, and the message follows `Decide` |
| AuthCallback.CallbackPage.Render | apps/intella-app/src/pages/AuthCallback.tsx:57-76 | the error view exactly when the current message is truthy |
| AuthCallback.Mount | apps/intella-app/src/pages/AuthCallback.tsx:12-76 | a mount makes exactly one gateway call and schedules exactly one navigation, home or `/auth` |
| App.PrivateRoutes | apps/intella-app/src/App.tsx:26-37 | the placeholder exactly while loading, then the page when authenticated, else the redirect to `/auth` |
| App.Match | apps/intella-app/src/App.tsx:47-57 | only `/auth` and `/auth/callback` are unguarded; a task id is one non-empty segment |
| App.Resolve | apps/intella-app/src/App.tsx:26-57 | unguarded pages always show; guarded ones go through `PrivateRoutes` |
| App.GuardProtectsEverything | apps/intella-app/src/App.tsx:26-57 | a guarded page shows only when loaded and authenticated, and the redirect target always shows the sign-in page |
| App.CallbackIsPublic | apps/intella-app/src/App.tsx:47-48 | the OAuth redirect path shows the callback page in every authentication state |
| Search.FilteredResults | apps/intella-app/src/pages/Search.tsx:199-203 | exactly the samples whose title or preview contains the query, ignoring case, each as often as in the samples and in order; an empty query keeps them all |
| Search.UrlParamsFor | apps/intella-app/src/pages/Search.tsx:155-160 | `q` is set exactly for a non-empty query, `source` exactly for a non-empty source other than "all", and nothing else |
| Search.UrlRoundTrip | apps/intella-app/src/pages/Search.tsx:147-160 | reading the written URL back restores the query and the source, with an empty source read as "all" |
| Search.ViewOf | apps/intella-app/src/pages/Search.tsx:206-348 | zero state exactly before a search, the empty state exactly when a search found nothing, otherwise the results |
| Search.SearchPage.constructor | apps/intella-app/src/pages/Search.tsx:147-152 | query and source from the URL, searched exactly when the query is non-empty |
| Search.SearchPage.SetQuery | apps/intella-app/src/pages/Search.tsx:233 | the query becomes the typed text |
| Search.SearchPage.Submit | apps/intella-app/src/pages/Search.tsx:176-182 | with a non-blank query the page is searched and the URL written; otherwise nothing changes |
| Search.SearchPage.KeyDown | apps/intella-app/src/pages/Search.tsx:184-189 | Enter submits; any other key changes nothing |
| Search.SearchPage.SourceChange | apps/intella-app/src/pages/Search.tsx:191-196 | the source always changes; the URL is rewritten only after a search |
| Search.SearchPage.ClearSearch | apps/intella-app/src/pages/Search.tsx:331-335 | the query, the searched flag and the URL are reset |
| Search.SearchPage.Render | apps/intella-app/src/pages/Search.tsx:199-206 | the view of the filtered samples, every listed result matching the query |
| Search.SubmitThenReload | apps/intella-app/src/pages/Search.tsx:147-182 | reloading the URL a submitted search wrote shows the same view as before the reload |
| Search.SplitAround | apps/intella-app/src/pages/Search.tsx:162-174 | the parts concatenate to the text, odd parts equal the query ignoring case, even parts contain no match |
| Search.Highlight | apps/intella-app/src/pages/Search.tsx:162-174 | an empty query leaves the text plain; otherwise the pieces spell the text and exactly the odd ones, which equal the query ignoring case, are marked |
| ModelPicker.FilteredModels | src/components/chat/ChatInput.tsx:158-161 | exactly the models whose name or provider contains the search, ignoring case, each as often as in the list and in order; an empty search keeps them all |
| ModelPicker.ProviderGroup | src/components/chat/ChatInput.tsx:163-170 | exactly one provider's surviving models, each as often as among the survivors and in order |
| ModelPicker.GroupByProvider | src/components/chat/ChatInput.tsx:157-171 | providers in the order list with a surviving model are the keys, without repeats and in list order, each mapped to its group; no keys exactly when no survivor's provider is listed |
| ModelPicker.NoGroupsIffNoneListed | src/components/chat/ChatInput.tsx:277 | the grouping is empty exactly when no surviving model has a listed provider |
| ModelPicker.Picker.constructor | src/components/chat/ChatInput.tsx:152-155 | the first model selected, the popover closed, the search empty |
| ModelPicker.Picker.SetOpen | src/components/chat/ChatInput.tsx:201 | the popover's open flag follows the request |
| ModelPicker.Picker.SetSearch | src/components/chat/ChatInput.tsx:222 | the search becomes the typed text |
| ModelPicker.Picker.CloseAutoFocus | src/components/chat/ChatInput.tsx:212 | closing clears the search |
| ModelPicker.Picker.Pick | src/components/chat/ChatInput.tsx:241-245 | the model becomes the selection, the popover closes and the search clears |
| ModelPicker.Picker.NoModelsFound | src/components/chat/ChatInput.tsx:277 | the notice shows exactly when no surviving model has a listed provider |
| ModelPicker.PickThenReopen | src/components/chat/ChatInput.tsx:241-245 | after a pick, reopening lists every model grouped by provider |
| Chat.SendButtonActive | apps/intella-app/src/components/ChatInterface.tsx:379-381 | active exactly when the message has a non-whitespace character |
| Chat.Composer.SetMessage | src/components/chat/ChatInput.tsx:186 | the message becomes the typed text |
| Chat.Composer.Send | src/components/chat/ChatInput.tsx:173-178 | a non-blank message is handed untrimmed to the callback and cleared when there is one; otherwise nothing happens |
| Chat.Composer.KeyDown | src/components/chat/ChatInput.tsx:190-195 | the newline is suppressed and the message sent exactly on Enter without Shift |
| Chat.TypeAndPressEnter | src/components/chat/ChatInput.tsx:173-195 | Enter sends exactly when Shift is up, there is a callback and the send button would be active |
| Chat.ConnectorsBar.Toggle | apps/intella-app/src/components/ChatInterface.tsx:394 | a click flips the dropdown |
| Chat.ConnectorsBar.DropdownShown | apps/intella-app/src/components/ChatInterface.tsx:423 | the dropdown shows exactly when the flag is set |
| Chat.ClickTwice | apps/intella-app/src/components/ChatInterface.tsx:394 | the first click opens the dropdown and the second closes it |
| Tasks.FilterLabel | src/pages/Tasks.tsx:127 | "All Status" exactly without a filter, otherwise the status's label |
| Tasks.FilterLabelInjective | src/pages/Tasks.tsx:127 | different filters show different labels |
| Tasks.FilteredTasks | src/pages/Tasks.tsx:89-95 | exactly the tasks that match the query and the filter, each as often as in the list and in order; no query and no filter keeps them all |
| Tasks.StatusFilterNarrows | src/pages/Tasks.tsx:89-95 | a status filter keeps an ordered part of the unfiltered result, all with that status |
| Tasks.NoTasksFoundIffNoneKept | src/pages/Tasks.tsx:186 | "No tasks found" shows exactly when no task passes |
| Tasks.TaskPath | src/pages/Tasks.tsx:146 | the target is `/task/` followed by the id |
| Tasks.TaskPathOpensTask | src/pages/Tasks.tsx:146 | for a one-segment id the target opens that task's page |
| Settings.Initials | src/pages/Settings.tsx:47-52 | at most two characters, no space, the upper-cased first two word starts of the name |
| Settings.InitialsIgnoreEmptyParts | src/pages/Settings.tsx:49-50 | leading and repeated spaces do not change the initials |
| Settings.PanelFor | src/pages/Settings.tsx:85-340 | the general panel exactly for "general", usage exactly for "usage", otherwise coming soon headed by the id with its first hyphen made a space |
| Settings.HeadingReplacesFirstHyphenOnly | src/pages/Settings.tsx:340 | only the first hyphen of the heading becomes a space |
| Sidebar.Toggled | src/components/Sidebar.tsx:82 | the clicked section closes exactly when it was the open one, and otherwise becomes the only open one |
| Sidebar.ToggledTwice | src/components/Sidebar.tsx:123 | two clicks on one header restore an open section and otherwise leave nothing open |
| Sidebar.HighlightsFor | src/components/Sidebar.tsx:71-152 | a main item, "All tasks" and Settings are each highlighted exactly when the path is their own target |
| Sidebar.HighlightsAgree | src/components/Sidebar.tsx:71-152 | at most one main item is highlighted; "All tasks" is highlighted exactly with Library, on `/tasks`; Settings never shares the highlight |
| Sidebar.TargetsArePrivatePages | src/components/Sidebar.tsx:29-33 | every sidebar target routes to its guarded page |
| Sidebar.LayoutFor | src/components/Sidebar.tsx:44-162 | collapsed means the narrow width and no logo, labels, sections or promotion; a list shows only inside its section, and never both lists |
| Sidebar.SidebarState.constructor | src/components/Sidebar.tsx:25 | the Recent list starts open |
| Sidebar.SidebarState.ClickProjects | src/components/Sidebar.tsx:82 | the state becomes `Toggled` for Projects |
| Sidebar.SidebarState.ClickRecent | src/components/Sidebar.tsx:123 | the state becomes `Toggled` for Recent |
| Sidebar.ProjectsThenRecent | src/components/Sidebar.tsx:82-132 | opening Projects hides Recent, closing it leaves none open, and opening Recent shows only Recent |

## Left out

- JSON: `JSON.stringify` and `JSON.parse` are not modelled. The session snapshot is JSON text handed in already serialised, and a decoded snapshot is returned as text.
- Regular expressions: `highlightText` builds a `RegExp` from the raw query.
- Search.Highlight: requires a query with no regular-expression metacharacters. With such characters the source's pattern means something else, or throws.
- Unicode case mapping: `toLowerCase` and `toUpperCase` are modelled on ASCII letters only.
- React mechanics: rendering, effects, memoisation and re-render timing are left out.
  - `getProfile` is memoised on a stale dependency list. The model reads the current user.
  - Handlers are treated as atomic. Overlapping asynchronous auth calls are not interleaved.
- Timers: the callback page's `setTimeout` calls are recorded as a target and a delay. No timer fires in the model.
- Cookies:
  - Expiry is compared to the millisecond, not at the one-second granularity of the `expires` attribute.
  - js-cookie's value encoding is assumed to round-trip.
  - `secure` and `sameSite` are recorded but not enforced.
- Browser storage: `sessionStorage` quota errors are left out.
- `SESSION_DELTA` is a parameter holding an integer. The `NaN` that `parseInt` yields for a malformed setting is not modelled.
- Routes: percent-decoding of paths is not modelled.
- The settings page's usage panel is left out: its credit figures are constants, the percentage is floating point, and the remaining-credits line (`src/pages/Settings.tsx:268`) subtracts one constant from another with nothing to state beyond the subtraction. `toLocaleString` formatting is left out too.
- Settings.Initials: JavaScript indexes strings by UTF-16 code unit, while the model's strings hold Unicode scalar values. For a name whose word starts outside the Basic Multilingual Plane (an emoji, say), `n[0]` and `slice(0, 2)` cut a surrogate pair, so the source yields a lone surrogate where the model yields the whole character.
- Gateway.ProfileFromUser: its short name has the same code-unit difference as `Settings.Initials`.
- Text.Take: `slice(0, n)` counts UTF-16 code units in the source and characters in the model; the two agree on text inside the Basic Multilingual Plane.
- Text.FirstChars: `n[0]` is the first UTF-16 code unit in the source and the first character in the model; the two agree on text inside the Basic Multilingual Plane.
- `Object.entries` lists integer-like keys before other keys. The model uses insertion order throughout, so a provider name that is a canonical array index would be listed out of order.
- The API client, the provider's network calls and its token refresh are left out. Only their replies enter the model.
- Pure presentation components, icons and styling are left out. These include the headers, the profile and credits dropdowns, the task steps and the chat messages.
