# Dilçi: route guards, admin login and the translation page, in Dafny

This project models the core of Dilçi, a Next.js translation app.

- **Role-aware route guard** (`src/middleware.ts`). It reads the session token, `user_role` and `company_status` cookies. It then lets a request through or redirects it.
- **Token-only route guard** (the top-level `middleware.ts`). It protects the admin area with the token alone.
- **Admin login and logout server actions** (`src/lib/actions.ts`). Login checks the password and writes cookies. Logout deletes them.
- **Translation page state** (`src/app/page.tsx`):
  - the text validation;
  - the submit, speak, copy, word-click and reset handlers;
  - the word cleaner `replace(/[...]/g, "").trim()`;
  - the `split(/(\s+)/)` segmentation that renders the original text as clickable words.
- **Text-to-speech flow** (`src/ai/flows/provide-text-to-speech.ts`). It cuts the base64 payload out of the model's data URL. It then returns a WAV data URI.

Modules:

| module | what it holds |
|---|---|
| `Cookies` | The cookie store as a map. A response's cookie writes are a list applied in order, so the last write wins. |
| `Routing` | The guard decision and the `config.matcher` form `/((?!p1\|p2\|...).*)`. |
| `RoleGuard` | The role-aware guard. |
| `TokenGuard` | The token-only guard. |
| `Actions` | The login and logout actions. |
| `Session` | The actions composed with both guards, and where the two guards disagree. |
| `WordText` | The page's string handling. |
| `Speech` | The text-to-speech flow. |
| `Page` | The page state and its handlers. |

Modelling choices:

- **Remote calls are inputs.**
  - The translation and contextual-information services become a `Page.Reply` (answer or failure), passed to the handler that awaits it.
  - The speech model's answer becomes an `Option<Speech.Media>`, passed to `Speech.Flow`. `Page.HandleSpeak` receives the flow's `Result`.
  - Base64 decoding and the WAV encoder are function parameters of `Speech.Flow`.
- **Truthiness.** A JavaScript truthy test on an optional string is `Cookies.Truthy`: the value is present and not empty.
- **White space.** `\s` and `String.prototype.trim` use the same character set, `Strings.IsSpace`. It is the ECMAScript WhiteSpace and LineTerminator code points.

Notes on the code's behaviour:

- **Admin area rule.** The role-aware guard sends every `/admin` page except `/admin/login` to the login page unless `user_role` is `admin`. It does not check the session token there. The token-only guard is the one that checks the token.
- **Pending page.** The role-aware guard's matcher also excludes `guide/pending`. Without that exclusion, an agent of a not-yet-active company would be redirected from the pending page to itself (`RoleGuard.PendingExclusionPreventsLoop`). The exclusion is a prefix, so every path that starts `/guide/pending` (`/guide/pending-list`, say) skips the agent check too (`RoleGuard.ExcludedPathsContinue`).
- **Password fallback.** When `ADMIN_PASSWORD` is unset or empty, the password `Admin2025` signs in (`Actions.FallbackPassword`).
- **Two guards.** Both guard files are modelled. `Session` states when they agree:
  - on admin pages past the login page;
  - on the admin login page;
  - outside the admin area.

## Model

| member | source | states |
|---|---|---|
| Cookies.Apply | src/lib/actions.ts:14-35 | After a response's cookie writes, a cookie no write touches keeps its value. A touched cookie holds what the last write to it left: the set value, or nothing after a delete. |
| Cookies.ApplyIdempotent | src/lib/actions.ts:14-35 | Replaying the same cookie writes leaves the store as one application left it. |
| RoleGuard.HomeFor | src/middleware.ts:31-35 | A signed-in user on an auth page goes to `/admin` exactly when the role is `admin`, and to `/guide` exactly when it is `agent`. Anyone else goes to `/home`. |
| RoleGuard.Decide | src/middleware.ts:5-38 | Every redirect goes to one of the six fixed targets. A redirect anywhere but a login page needs a role cookie or a non-empty token. |
| Routing.Screen | src/middleware.ts:40-44 | A request the matcher does not select never reaches the middleware and continues. A selected request gets the middleware's decision, so every redirect comes from a selected request. The token-only guard, `middleware.ts:24-29`, has the same shape. |
| RoleGuard.AdminAreaNeedsAdminRole | src/middleware.ts:15-17 | An `/admin`-prefixed page other than `/admin/login` redirects to `/admin/login` whenever the role is not `admin`, whatever the token. |
| RoleGuard.AdminLoginPageRule | src/middleware.ts:15-20 | `/admin/login` redirects to `/admin` if and only if the role is `admin`, and otherwise is shown. |
| RoleGuard.GuideNeedsAgentRole | src/middleware.ts:22-25 | Any path with the string prefix `/guide` redirects to `/login` unless the role is `agent`. |
| RoleGuard.GuidebookIsGuarded | src/middleware.ts:12-25 | The prefix test is a string prefix, so `/guidebook` is guarded like `/guide`. |
| RoleGuard.GuideCompanyStatus | src/middleware.ts:22-29 | An agent on a `/guide` path is sent to `/guide/pending` exactly when a non-empty company status other than `active` is set, and otherwise continues. |
| RoleGuard.AuthRoutesRedirectSignedIn | src/middleware.ts:31-37 | On the four auth pages, a non-empty token redirects to the role's home. Without one the page is shown. |
| RoleGuard.AreaTestsDisjoint | src/middleware.ts:11-13 | No path is both an admin path and a guide path, and no auth page is either. |
| RoleGuard.AreaOf | src/middleware.ts:11-13 | The path tests partition all paths into admin login page, admin area, guide area, auth page and other. Each class is characterised by an if-and-only-if. |
| RoleGuard.DecideByArea | src/middleware.ts:15-37 | The first-match rule chain equals an order-free policy defined per area. So rule order never matters across areas, and a path in no area continues. |
| RoleGuard.ExcludedPathsContinue | src/middleware.ts:40-44 | Any path `/` followed by an excluded prefix and anything else continues. |
| RoleGuard.NoSelfRedirect | src/middleware.ts:15-35 | No in-scope request is redirected to its own path. |
| RoleGuard.PendingExclusionPreventsLoop | src/middleware.ts:26-44 | `/guide/pending` is outside the matcher. Without that exclusion, an agent whose company is `pending` would be redirected from it to itself. |
| RoleGuard.ReadsThreeCookies | src/middleware.ts:6-9 | Two requests agreeing on the path and on the token, role and company-status cookies get the same decision. |
| RoleGuard.GuardAtTargets | src/middleware.ts:15-44 | The full decision the guard takes at each of its six redirect targets: when it redirects there and where to, as a function of the role, token and company-status cookies. |
| RoleGuard.RedirectsSettle | src/middleware.ts:15-44 | There is no redirect loop. Following redirects with unchanged cookies reaches a page the guard lets through within two redirects. |
| RoleGuard.InScopeByLeadingText | src/middleware.ts:42 | A path whose first characters rule out every excluded prefix is in the matcher's scope. |
| RoleGuard.TargetsInScope | src/middleware.ts:15-42 | Every redirect target except `/guide/pending` is in scope. The page each target lands in is given. |
| TokenGuard.Decide | middleware.ts:6-22 | Only `/admin`-prefixed paths are redirected, and only to `/admin/login` or `/admin`. An admin page past the login page is let through if and only if the token is non-empty. |
| TokenGuard.SameTokenCookie | middleware.ts:4 | This file's own token cookie name is the one the login action writes. |
| TokenGuard.AdminAreaNeedsToken | middleware.ts:13-21 | An admin page other than `/admin/login` redirects to `/admin/login` without a non-empty token, and continues with one. |
| TokenGuard.AdminLoginPageRule | middleware.ts:17-19 | `/admin/login` redirects to `/admin` with a non-empty token, and is shown otherwise. |
| TokenGuard.OutsideAdminContinues | middleware.ts:10-21 | Every path outside `/admin` continues, the guide pages included. |
| TokenGuard.ReadsTokenOnly | middleware.ts:8 | The decision depends on the path and the token cookie alone. |
| TokenGuard.ExcludedPathsContinue | middleware.ts:24-29 | Any path `/` followed by an excluded prefix and anything else continues. |
| TokenGuard.PendingPageInScope | middleware.ts:27 | `/guide/pending` is in this guard's scope, and it continues. |
| TokenGuard.NoSelfRedirect | middleware.ts:13-19 | No request is redirected to its own path. |
| TokenGuard.RedirectsSettle | middleware.ts:13-21 | After one redirect the request is let through. |
| Actions.EffectivePassword | src/lib/actions.ts:9 | The effective admin password is never empty. It is the configured one when that is non-empty, and otherwise `Admin2025`. |
| Actions.Login | src/lib/actions.ts:6-29 | Login succeeds if and only if the submitted password equals the effective admin password. A failure returns the wrong-password message and writes nothing. A success writes exactly the token and role cookies. |
| Actions.Logout | src/lib/actions.ts:31-35 | Logout writes touch exactly the token, role and company-status cookies, and every write is a deletion. |
| Actions.FailedLoginKeepsStore | src/lib/actions.ts:11-13 | A wrong password leaves the cookie store unchanged. |
| Actions.MissingPasswordFails | src/lib/actions.ts:7-13 | A form without a password field never signs in and changes no cookie. |
| Actions.FallbackPassword | src/lib/actions.ts:9-13 | With no configured password, `Admin2025` is the one password that signs in. |
| Actions.LoginCookieAttributes | src/lib/actions.ts:14-26 | The token cookie is httpOnly, `path=/`, `SameSite=Lax`, lives one day, and is secure exactly in production. The role cookie is `admin`, not httpOnly, `path=/`, `SameSite=Lax`, and lives one day. |
| Actions.SuccessfulLoginStore | src/lib/actions.ts:14-26 | After a successful login the store holds the session token and the admin role. Every other cookie, the company status included, is unchanged. |
| Actions.LoginIdempotent | src/lib/actions.ts:14-26 | Logging in twice with the same password leaves the store logging in once leaves. |
| Actions.LogoutStore | src/lib/actions.ts:31-35 | Logout removes exactly the token, role and company-status cookies from the store. |
| Actions.LogoutIdempotent | src/lib/actions.ts:31-35 | Logging out twice is logging out once. |
| Session.AdminPathsInScope | src/middleware.ts:40-44 | Every `/admin`-prefixed path is in the scope of both matchers. |
| Session.LoginOpensAdminArea | src/middleware.ts:15-17 | After a successful login, both guards let every admin page past the login page through. |
| Session.LoginRedirectsLoginPages | src/middleware.ts:18-35 | After a successful login, `/admin/login` and `/login` both send the visitor to `/admin`, and the token-only guard does the same for `/admin/login`. |
| Session.LogoutLocksAdminArea | src/lib/actions.ts:31-35 | After logout, both guards send every admin page past the login page to `/admin/login`. |
| Session.GuardsAgreeOnAdminAreaIff | middleware.ts:13-15 | On an admin page past the login page, the two guards decide alike if and only if "non-empty token" and "role is `admin`" are both true or both false. |
| Session.GuardsAgreeOnAdminLoginIff | middleware.ts:17-19 | On `/admin/login` the two guards decide alike if and only if "non-empty token" and "role is `admin`" are both true or both false. |
| Session.GuardsAgreeOutsideAdminIff | middleware.ts:10-21 | Outside `/admin`, the guards agree if and only if the role-aware guard lets the request through. |
| Session.DivergenceWitness | middleware.ts:13-15 | A token without a role reaches `/admin/dashboard` under the token-only guard but is redirected by the role-aware one. |
| WordText.StripPunct | src/app/page.tsx:132 | The punctuation-stripped word contains no character of the class `[.,/#!$%^&*;:{}=\-_`~()]`. |
| WordText.StripPunctKeepsOthers | src/app/page.tsx:132 | Stripping keeps every non-punctuation character exactly as many times as the word holds it. |
| WordText.StripPunctAppend | src/app/page.tsx:132 | Stripping distributes over concatenation, so the kept characters stay in order. |
| WordText.StripPunctFixedPoint | src/app/page.tsx:132 | Stripping leaves a word unchanged if and only if it contains no punctuation. |
| WordText.StripPunctAllSpace | src/app/page.tsx:132 | The stripped word is all white space if and only if the word holds only punctuation and white space. |
| WordText.StripPunctNoSpace | src/app/page.tsx:132 | Stripping a word without white space gives a word without white space. |
| WordText.Trim | src/app/page.tsx:132 | The trimmed text is the part of the input after its leading white space, followed by white space only. It neither starts nor ends with white space. |
| WordText.TrimFixedPoint | src/app/page.tsx:132 | A text that neither starts nor ends with white space trims to itself. |
| WordText.TrimEmpty | src/app/page.tsx:132 | Trimming gives the empty text if and only if the text is all white space. |
| WordText.TrimKeepsPunctFree | src/app/page.tsx:132 | Trimming a text without punctuation gives one without punctuation. |
| WordText.Clean | src/app/page.tsx:132 | The cleaned word has no punctuation and no white space at its ends. It is the stripped word with only white space removed from either end. |
| WordText.CleanIdempotent | src/app/page.tsx:132 | Cleaning a cleaned word changes nothing. |
| WordText.CleanEmpty | src/app/page.tsx:132-133 | A click is ignored for lack of a word if and only if the word holds nothing but punctuation and white space. |
| WordText.CleanWordWithoutSpace | src/app/page.tsx:132 | A word without white space is cleaned by removing its punctuation alone. |
| WordText.SegmentsShape | src/app/page.tsx:196 | The split has the shape the captured split produces. Words sit at even positions, maximal white-space runs at odd ones, and only the first and last piece may be empty. Joined, the pieces give the text back. |
| WordText.SegmentationUnique | src/app/page.tsx:196 | Any list of pieces of that shape for a text is exactly the split of that text. |
| WordText.TextsOfRender | src/app/page.tsx:196-205 | Rendering keeps each segment's text in place. |
| WordText.PieceKind | src/app/page.tsx:197-203 | A segment becomes a word button if and only if it is at an even position. |
| WordText.RenderAlternates | src/app/page.tsx:196-205 | The rendered text alternates word buttons and white-space spans, starting and ending with a button, and shows the original text exactly. |
| WordText.ClickedWordCleaning | src/app/page.tsx:200 | A clicked word button holds no white space. Its cleaned word is the button text without punctuation, and still holds no white space. |
| Speech.IndexOf | src/ai/flows/provide-text-to-speech.ts:49 | `indexOf` returns -1 if and only if the character is absent. Otherwise it returns the position of its first occurrence. |
| Speech.Payload | src/ai/flows/provide-text-to-speech.ts:48-51 | The payload is the suffix of the URL after its first comma, or the whole URL when it has none. |
| Speech.PayloadRoundTrip | src/ai/flows/provide-text-to-speech.ts:48-51 | For `header,payload` with no comma in the header, the extracted payload is `payload`. |
| Speech.ToWavFormat | src/ai/flows/provide-text-to-speech.ts:58-69 | Channels and sample rate are passed to the writer unchanged. The bit depth is eight times the sample width in bytes. |
| Speech.DefaultWavFormat | src/ai/flows/provide-text-to-speech.ts:60-68 | The defaults give mono, 24000 Hz, 16-bit audio. |
| Speech.Flow | src/ai/flows/provide-text-to-speech.ts:45-54 | The flow fails with "no media returned" if and only if the model returned no media. Otherwise the result is `data:audio/wav;base64,` followed by the WAV encoding of the decoded payload in the default format. |
| Speech.FlowEncodesPayload | src/ai/flows/provide-text-to-speech.ts:48-54 | For model media `header,payload`, the audio encoded is exactly the decoded `payload`. |
| Page.ValidateText | src/app/page.tsx:50-52 | A text is accepted if and only if it has 1 to 5000 characters. A rejection carries the message for the bound it breaks. |
| Page.ValidationBoundaries | src/app/page.tsx:51 | Both bounds are inclusive: 0 and 5001 characters are rejected, 1 and 5000 accepted. |
| Page.OnSubmit | src/app/page.tsx:83-102 | Submitting clears the audio. A result exists afterwards if and only if the service answered. It pairs the answer with the text that was sent for translation. Nothing else changes. |
| Page.SubmitForm | src/app/page.tsx:177 | An invalid text never reaches the handler and leaves the page as it was. A valid text runs `onSubmit`. A newly stored result is always of a valid text. |
| Page.SpeakRequest | src/app/page.tsx:104-108 | Speech is requested if and only if there is a non-empty translated text, and for that text. |
| Page.HandleSpeak | src/app/page.tsx:104-121 | The audio URL changes only when there is a translation and speech succeeded, and then becomes the returned data URI. Nothing else changes. |
| Page.HandleCopy | src/app/page.tsx:123-129 | Something is copied if and only if there is a non-empty translated text, and it is that text. |
| Page.WordRequest | src/app/page.tsx:131-145 | Contextual information is requested if and only if there is a result and the cleaned word is non-empty. The request carries the original text, the cleaned word and the detected language. |
| Page.OpenWord | src/app/page.tsx:135-137 | A click selects the cleaned word, clears the old information and opens the sheet. Nothing else changes. |
| Page.ShowContext | src/app/page.tsx:139-151 | The sheet shows the service's answer, or the fixed fallback message when the call failed. Nothing else changes. |
| Page.HandleWordClick | src/app/page.tsx:131-152 | A click that sends no request changes nothing. Otherwise the sheet is open on the cleaned word with the answer or the fallback. |
| Page.HandleReset | src/app/page.tsx:154-160 | Reset empties the text and forgets the result, audio, selected word and information. It keeps the target language and the sheet's state. |
| Page.ResetIsInitial | src/app/page.tsx:154-160 | Reset returns to the first-render state apart from target language and sheet, and resetting twice is resetting once. |
| Page.InitialInvariant | src/app/page.tsx:61-81 | The first-render state satisfies the page invariant. |
| Page.SubmitKeepsInvariant | src/app/page.tsx:83-102 | Submitting keeps the invariant: a stored result is of a valid text, and audio exists only with a result. |
| Page.SpeakKeepsInvariant | src/app/page.tsx:104-121 | Speaking keeps the invariant: audio is only set for a translation, and is a WAV data URI. |
| Page.WordClickKeepsInvariant | src/app/page.tsx:131-152 | A word click keeps the invariant: a selected word is a non-empty, already-clean word, and information is shown only for a selected word. |
| Page.NextKeepsInvariant | src/app/page.tsx:83-160 | Every page event keeps the invariant. |
| Page.RunKeepsInvariant | src/app/page.tsx:61-160 | Every state reached from the first render by any sequence of events satisfies the invariant. Each remote call is answered before the next event. |

The page invariant has five parts:

- a stored translation is of a text that passes validation;
- audio exists only with a translation and is a WAV data URI;
- a selected word is a non-empty cleaned word;
- information is shown only for a selected word;
- the target language is one of the seventeen the select offers.

## Left out

- **AI services:** the prompts, models and network calls of the translation, speech and contextual-information services. Each becomes a `Reply` or an `Option` input, because the model output is outside the program.
- **Encoders:** base64 decoding and the `wav` writer. They are function parameters of `Speech.Flow`, because they are library code. The writer's `error` event, which would reject `toWav`, is not modelled.
- **Rendering and browser effects:** the JSX, toasts, `console.error`, the `Audio` playback, the clipboard write and the loading flags of `useTransition`. These are effects with no state the page reads back.
- **Concurrency:** interleaving of the handlers' asynchronous continuations. Each remote call's continuation runs right after its synchronous part.
- Page.RunKeepsInvariant: the audio and information parts of the page invariant hold only when each continuation finishes before the next event. Interleaved events break them:
  - Reset while a speech call is pending. The reset button is never disabled, and the late `setAudioUrl` then leaves audio without a translation.
  - Close the sheet and reset while a context call is pending. The late `setContextualInfo` then leaves information without a selected word.
- **Buttons inside the form:** the speak, copy and reset buttons sit inside the `<form>` without `type="button"`. The `Button` component is not part of this model, so whether it defaults to `type="submit"` is not known here. The event model takes these clicks not to submit the form. If they did, each would also run `form.handleSubmit(onSubmit)`, and copy would re-translate.
- **String lengths:** lengths count Unicode scalar values, while JavaScript counts UTF-16 code units. A text with characters outside the Basic Multilingual Plane can pass `ValidateText` here and fail in the browser.
- **Matcher:** the `config.matcher` pattern is read as literal prefixes. The unescaped `.` in `favicon.ico` also matches any character, so a path like `/faviconXico` is excluded by the real matcher but in scope here.
- **Which guard runs:** which of the two middleware files Next.js loads depends on the project layout. Both are modelled and compared in `Session` instead.
- **Cookie deletion:** deletion is modelled as removal from the store. The expiring `Set-Cookie` header Next.js sends is not modelled, and `maxAge` expiry is not modelled either.
- **Password field:** a `password` form field holding a file is treated like a missing field (`None`). Both fail to sign in.
- **Other files:** `src/firebase/non-blocking-login.tsx`, `src/ai/dev.ts`, the other AI flow files and the categories list in `src/lib/constants.ts` are not part of this model. Only `AUTH_TOKEN_COOKIE` from that file is used.
