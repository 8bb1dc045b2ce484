# A verified model of the charting app's access gate, chart mount and signup flow

This project models the core of a small Next.js trading-chart application in
Dafny and proves properties of that model:

- **The edge gate** (`middleware.ts`, module `Gate`). It classifies the
  request path as protected (`/charts…`) or auth (`/auth…`), then decides
  among three outcomes: redirect an anonymous visitor to the login page,
  redirect a signed-in user away from the auth pages, or pass the request
  through. Each `setAll` call the identity backend makes while refreshing
  the session writes its cookies into the request and replaces the
  pass-through response with a fresh one carrying that call's cookies. The
  `config.matcher` exclusion predicate is modelled as well.
- **The chart mount effect** (`TradingViewChart.tsx`, module `ChartMount`).
  It loads the charting library and waits for the container to have a
  non-zero size, with at most ten rescheduled attempts. It then builds the
  chart with floored dimensions (400 by 300), loads the candles, follows
  resizes, and tears everything down on unmount. `State` and the `On…`
  transition functions are the specification. The `Controller` class holds
  the effect's closure variables, refs and component state, and each of its
  methods is proved to perform exactly the matching transition.
- **The signup endpoint** (`route.ts`, module `SignupRoute`). This is the
  early-return validator over the JSON body, followed by account creation
  and a best-effort profile insert. The backend's answers are inputs. The
  result is the reply together with the ordered list of backend calls made.
- **The testimonial carousel** (`animated-testimonials.tsx`, module
  `Testimonials`). It covers the active index moved by the arrows and by the
  autoplay tick, plus the pure placement rules: which card is active, each
  card's tilt, and the stacking order.
- **The signup form** (`SignUpCard.tsx`, module `SignUpForm`). It covers the
  form schema and the submit handler's steps through `isLoading`, `success`
  and the form-level error.

Shared helpers live in `strings.dfy` (module `Strings`) and `wrappers.dfy`
(module `Wrappers`):

- JavaScript `startsWith` / `endsWith`;
- `trim` over the ECMAScript whitespace and line-terminator set;
- `length` counted in UTF-16 code units;
- an `Option` type.

Three facts about the code that the model keeps:

- A successful signup is answered with status 200, the default of
  `NextResponse.json`.
- The sample series `defaultData` has twenty candles.
- The gate's two redirect responses are built fresh, so they carry none of
  the cookies `setAll` wrote. Only the pass-through response carries them,
  and only those of the last `setAll` call, since each call rebuilds it.

The following become inputs of the model:

- the backend calls: `getUser`, `auth.signUp`, and the profile insert;
- the measured container size;
- the outcome of the library import;
- the presence of `ResizeObserver`;
- the verdict of the email-format check.

Timers, resize notifications and unmount become events.

## Model

| member | source | states |
|---|---|---|
| Strings.LeadingSpace | src/app/api/auth/signup/route.ts:16 | the count of leading whitespace characters: every one of them is whitespace, and the character after them is not |
| Strings.TrailingSpace | src/app/api/auth/signup/route.ts:16 | the count of trailing whitespace characters: every one of them is whitespace, and the character before them is not |
| Strings.Trim | src/app/api/auth/signup/route.ts:16 | `trim()` returns the block of the input that starts at the first non-whitespace character; every character outside the block is whitespace, and the block starts and ends with non-whitespace |
| Strings.TrimKeepsClean | src/app/api/auth/signup/route.ts:43 | a string with no whitespace at either end is its own trim |
| Strings.TrimIdempotent | src/app/api/auth/signup/route.ts:72 | trimming twice gives the same result as trimming once |
| Strings.TrimAllSpace | src/app/api/auth/signup/route.ts:16 | a string made only of whitespace trims to the empty string |
| Strings.Utf16Length | src/components/auth/SignUpCard.tsx:22-24 | `length` lies between the number of characters and twice that number, and equals the character count when every character is in the Basic Multilingual Plane |
| Strings.Utf16LengthAppend | src/components/auth/SignUpCard.tsx:22-24 | the `length` of a concatenation is the sum of the lengths, so each character adds one code unit, or two above U+FFFF |
| Strings.AstralCharCountsTwice | src/components/auth/SignUpCard.tsx:22 | a character above U+FFFF counts as two code units toward the minimum length |
| Gate.SomePrefix | middleware.ts:42 | `routes.some(r => path.startsWith(r))` holds iff some listed route is a prefix of the path |
| Gate.IsProtectedRoute | middleware.ts:36-42 | a path is protected iff it starts with `/charts` |
| Gate.IsAuthRoute | middleware.ts:39-45 | a path is an auth route iff it starts with `/auth` |
| Gate.NeverBoth | middleware.ts:36-45 | no path is both protected and an auth route |
| Gate.PrefixNotSegment | middleware.ts:42-45 | matching is by string prefix, not by path segment: `/chartsX` and `/charts/btc` are protected, `/authority` is an auth route, and `/chart` is not protected |
| Gate.QueryGet | middleware.ts:60 | `searchParams.get` returns a value iff some pair has the name; that value belongs to the first pair with the name |
| Gate.AfterLoginTarget | middleware.ts:60 | `get('redirectTo') or '/charts'`: a non-empty `redirectTo` value is the target, an absent or empty one gives `/charts`; the target is never empty |
| Gate.Decide | middleware.ts:50-64 | an anonymous request for a protected path redirects to `/auth` with the single parameter `redirectTo` set to exactly the pathname; a signed-in request for an auth page redirects to the non-empty `redirectTo` value, or to `/charts` when that value is absent or empty; the request passes through iff neither of these applies |
| Gate.RedirectRowsDisjoint | middleware.ts:50-62 | the two redirect rows never compete for one path: the anonymous one always builds a login URL, the signed-in one always resolves a reference, and whenever one applies the other flag value passes through |
| Gate.Written | middleware.ts:18-24 | the cookies a list of writes leaves are keyed by exactly the names written |
| Gate.Overlay | middleware.ts:18 | the request jar after the writes holds the old names plus the written ones |
| Gate.WrittenSnoc | middleware.ts:22-24 | one more write updates the written cookies at exactly its name |
| Gate.OverlayUpdate | middleware.ts:18 | overlaying one more write is a single update of the jar |
| Gate.LastWriteWins | middleware.ts:18-24 | for each name, the last write of it is the one kept |
| Gate.UnwrittenKept | middleware.ts:18 | a cookie that no write names keeps its presence and its value in the request jar |
| Gate.Exchange.constructor | middleware.ts:5-7 | the exchange starts with the request's cookies and an empty pass-through response |
| Gate.Exchange.SetAll | middleware.ts:17-25 | after `setAll(cs)` the request jar is the old jar overlaid with the writes, and the response is a fresh pass-through carrying every written cookie together with its options |
| Gate.Replayed | middleware.ts:17-18 | the request jar after a sequence of `setAll` calls is the jar overlaid with each call's writes in turn; no cookie is ever removed |
| Gate.ResponseCookies | middleware.ts:19-24 | each `setAll` call replaces the pass-through response, so it carries exactly the names of the last call, and none when there was no call |
| Gate.ReplayedSnoc | middleware.ts:17-24 | one more `setAll` call overlays its writes on the request jar and leaves exactly its own cookies on the pass-through response |
| Gate.ReplayedKeepsWrites | middleware.ts:17-18 | every name written by any `setAll` call is in the forwarded request |
| Gate.EarlierCallDroppedFromResponse | middleware.ts:17-24 | a cookie written by an earlier `setAll` call and not rewritten by the last one reaches the forwarded request but not the pass-through response |
| Gate.Middleware | middleware.ts:4-65 | the forwarded request holds the writes of every `setAll` call in order; each redirect is exactly `Decide`'s target with no cookies; the pass-through response carries only the last call's cookies |
| Gate.PrefixAfterSlash | middleware.ts:76 | testing a prefix on the part after the leading `/` is the same as testing `/` plus that prefix on the whole path |
| Gate.SuffixAfterSlash | middleware.ts:76 | a suffix with no leading `/` ends the part after the leading `/` iff it ends the whole path |
| Gate.ExcludedAsset | middleware.ts:76 | the matcher's negative lookahead: the rest after `/` begins with one of the three asset prefixes or ends with one of the six image extensions, case-sensitively; such a rest has at least four characters |
| Gate.GateRuns | middleware.ts:76 | the matcher accepts `/` followed by anything that is not an excluded asset; an accepted path starts with `/`, and `/` itself is accepted |
| Gate.GateRunsIff | middleware.ts:76 | the gate runs on a path iff it starts with none of `/_next/static`, `/_next/image`, `/favicon.ico` and ends with none of `.svg`, `.png`, `.jpg`, `.jpeg`, `.gif`, `.webp` |
| Gate.ExcludedPrefixesOnPath | middleware.ts:76 | each excluded prefix, tested after the leading `/`, is the same test on the whole path |
| Gate.ExcludedExtensionsOnPath | middleware.ts:76 | each excluded extension, tested after the leading `/`, is the same test on the whole path |
| Gate.AssetPrefixesSkipGate | middleware.ts:69-76 | framework chunks and the favicon skip the gate |
| Gate.ImagesSkipGate | middleware.ts:76 | `.png` and `.webp` files skip the gate |
| Gate.EntersGate | middleware.ts:76 | a path whose second character is neither `_` nor `f`, and whose last character is none of `g`, `f`, `p`, enters the gate |
| Gate.FirstCharDiffers | middleware.ts:76 | a string whose first character differs from a pattern's does not start with that pattern |
| Gate.LastCharDiffers | middleware.ts:76 | a string whose last character differs from a pattern's does not end with that pattern |
| Gate.PagesEnterGate | middleware.ts:76 | `/charts` and `/auth` enter the gate, and so does `/logo.PNG`, because the extension test is case-sensitive |
| ChartMount.FormatData | src/components/charts/TradingViewChart.tsx:165-171 | the series has one point per candle, in the same order, with time, open, high, low and close copied unchanged |
| ChartMount.CandlesOf | src/components/charts/TradingViewChart.tsx:165-171 | reading the candles back out yields one candle per point |
| ChartMount.FormatDataLossless | src/components/charts/TradingViewChart.tsx:165-174 | the conversion loses nothing: reading the series back gives exactly the input data |
| ChartMount.DefaultDataLoaded | src/components/charts/TradingViewChart.tsx:33-54 | the sample series loads as twenty points, the first of which is the 2019-04-11 candle |
| ChartMount.ConstructDim | src/components/charts/TradingViewChart.tsx:107-108 | `Math.max(m or floor, floor)` (with JavaScript's logical or) is at least the floor, equals a measurement at or above the floor, and equals the floor for a smaller one |
| ChartMount.ResizeDim | src/components/charts/TradingViewChart.tsx:185-186 | `max(m, floor)` is at least both arguments and equal to one of them |
| ChartMount.ConstructAgreesWithResize | src/components/charts/TradingViewChart.tsx:107-186 | the construction and resize rules give the same dimension |
| ChartMount.Begin | src/components/charts/TradingViewChart.tsx:75-79 | `initChart` sets loading, clears the error and awaits the import |
| ChartMount.Mounted | src/components/charts/TradingViewChart.tsx:66-79 | the effect starts mounted, with no retries and no chart, loading and awaiting the import |
| ChartMount.Built | src/components/charts/TradingViewChart.tsx:107-205 | building creates one more chart, at least 400 wide and 300 high, carrying the formatted data; it stops loading, attaches the window listener and, when available, the observer; mount state, retry count and error are unchanged |
| ChartMount.OnImport | src/components/charts/TradingViewChart.tsx:79-108 | when unmounted or detached it changes nothing but the finished import; a zero dimension while fewer than ten retries were made schedules a retry and increments the count, and a retry is scheduled in no other case; the count never passes ten; at ten retries with a zero dimension the chart is built rather than failing; a non-zero measurement always builds the chart; a build creates one chart with floored dimensions and the formatted data, attaches the window listener and (when available) the observer, sets the refs and stops loading |
| ChartMount.OnFailure | src/components/charts/TradingViewChart.tsx:216-227 | a throw from the import sets the error to `Failed to load chart: ` plus the message or `Unknown error`, and stops loading, but only while mounted; no retry is scheduled |
| ChartMount.OnTimer | src/components/charts/TradingViewChart.tsx:94-98 | the timer calls `initChart` again only while mounted; after unmount it does nothing |
| ChartMount.OnResize | src/components/charts/TradingViewChart.tsx:183-193 | with a handler attached and a chart built, a resize sets the chart's width and height to `max(cw,400)` and `max(ch,300)`; otherwise nothing changes; it never creates a chart or changes its data |
| ChartMount.OnUnmount | src/components/charts/TradingViewChart.tsx:207-242 | cleanup clears the mounted flag, the timer and both refs; once the chart was built it also disconnects the observer, removes the window listener and removes the chart; nothing else changes |
| ChartMount.MountedInv | src/components/charts/TradingViewChart.tsx:67-79 | the initial state satisfies the controller invariant |
| ChartMount.StepKeepsInv | src/components/charts/TradingViewChart.tsx:73-242 | every possible event preserves the invariant (retry bound, at most one chart, handlers attached iff a chart exists, nothing alive after unmount) |
| ChartMount.RunAppend | src/components/charts/TradingViewChart.tsx:73-242 | running two event sequences one after the other equals running their concatenation |
| ChartMount.RunKeepsInv | src/components/charts/TradingViewChart.tsx:73-242 | every sequence of events preserves the invariant |
| ChartMount.EffectRunBounds | src/components/charts/TradingViewChart.tsx:70-108 | in any effect run, at most ten timers are scheduled, at most eleven measurements are taken and at most one chart is created; any chart is at least 400 by 300 and holds exactly the formatted data |
| ChartMount.UnmountedIsInert | src/components/charts/TradingViewChart.tsx:81-95 | after unmount, late imports, failures, timers and resizes leave the component state and refs unchanged |
| ChartMount.UnmountReleases | src/components/charts/TradingViewChart.tsx:232-242 | unmount leaves no timer, no chart, no observer, no window listener and no refs |
| ChartMount.ZeroPolls | src/components/charts/TradingViewChart.tsx:90-98 | `k` zero-size rounds are `2k` events |
| ChartMount.ZeroPollsState | src/components/charts/TradingViewChart.tsx:90-98 | after `k` zero-size rounds (k at most ten), the count is `k` and `initChart` is again awaiting the import |
| ChartMount.NeverSizedFallsBack | src/components/charts/TradingViewChart.tsx:100-108 | a container that never gets a size is measured eleven times and gets a 400 by 300 chart |
| ChartMount.SizedAfterRetries | src/components/charts/TradingViewChart.tsx:90-108 | a container that is zero-sized for `k` measurements (k at most ten) and then measures `w` by `h`, both non-zero, gets a chart of the floored measurement after `k` retries and `k+1` measurements |
| ChartMount.ImportAwaitedWhileLoading | src/components/charts/TradingViewChart.tsx:63-79 | every import is awaited while `isLoading` is true and before any chart exists, which is when the container is rendered hidden |
| ChartMount.Controller.constructor | src/components/charts/TradingViewChart.tsx:66-79 | mounting produces the `Mounted` state and satisfies the invariant |
| ChartMount.Controller.InitChart | src/components/charts/TradingViewChart.tsx:73-79 | the method performs `Begin` |
| ChartMount.Controller.ImportResolved | src/components/charts/TradingViewChart.tsx:79-108 | the method performs exactly `OnImport` and keeps the invariant |
| ChartMount.Controller.BuildChart | src/components/charts/TradingViewChart.tsx:107-207 | the construction sets the chart, refs, handlers and loading flag exactly as `OnImport` specifies, and assigns `cleanup` |
| ChartMount.Controller.ImportRejected | src/components/charts/TradingViewChart.tsx:216-227 | the method performs exactly `OnFailure` and keeps the invariant |
| ChartMount.Controller.FireTimer | src/components/charts/TradingViewChart.tsx:94-98 | the method performs exactly `OnTimer` and keeps the invariant |
| ChartMount.Controller.Resize | src/components/charts/TradingViewChart.tsx:183-202 | the method performs exactly `OnResize` and keeps the invariant |
| ChartMount.Controller.Unmount | src/components/charts/TradingViewChart.tsx:232-242 | the method performs exactly `OnUnmount` and keeps the invariant |
| SignupRoute.Truthy | src/app/api/auth/signup/route.ts:9-16 | JavaScript truthiness of a parsed JSON value, as `!email`, `!password` and `fullName &&` test it: false for a missing field, `null`, `false`, `0` and the empty string; true for every other value, including any object or array |
| SignupRoute.NameTooShort | src/app/api/auth/signup/route.ts:16 | the check throws iff the name is truthy and not a string, and rejects iff it is a non-empty string whose trim has fewer than two code units |
| SignupRoute.StoredName | src/app/api/auth/signup/route.ts:43-72 | `fullName?.trim()` with a fallback to null: absent gives null; a string gives its trim, or null when the trim is empty; any other value throws |
| SignupRoute.Post | src/app/api/auth/signup/route.ts:5-100 | an unreadable body gives 500 and a falsy email or password gives 400 `Email and password are required`; a short name gives 400; both checks come before any backend call, and calls happen iff both pass; once the clients exist and the name is stored, `auth.signUp` is called with the body's email and password and the stored name, and the profile insert follows exactly when a user came back, with that user's id and email and the same stored name; a failure to create the clients or to store the name stops after the client creation; the reply is a 200 success with the user iff sign-up returned a user and the insert did not throw; a sign-up error gives 400 with its message, a missing user gives 500 `Failed to create user`, and any throw gives 500 `Internal server error` |
| SignupRoute.ProfileErrorIgnored | src/app/api/auth/signup/route.ts:76-91 | a profile insert error leaves the whole outcome exactly as a successful insert would |
| SignupRoute.MissingNameAccepted | src/app/api/auth/signup/route.ts:16-43 | an absent, null or empty name passes the check and is stored as null |
| SignupRoute.BlankNameRejected | src/app/api/auth/signup/route.ts:16-21 | a name made only of spaces is rejected even though it is long |
| SignupRoute.FalsyNonStringName | src/app/api/auth/signup/route.ts:16-98 | a name of `false` or `0` passes the check, then throws at `fullName?.trim()` after the clients exist, which gives 500 |
| Testimonials.IsActive | src/components/ui/animated-testimonials.tsx:32-34 | a card is active iff its index is the active index; exactly one card of a deck is active (`Testimonials.ExactlyOneActive`) |
| Testimonials.Next | src/components/ui/animated-testimonials.tsx:24-26 | `(active+1) % n` stays in `[0,n)`; it is the next card, wrapping from the last card to 0 |
| Testimonials.Prev | src/components/ui/animated-testimonials.tsx:28-30 | `(active-1+n) % n` stays in `[0,n)`; it is the previous card, wrapping from 0 to the last card |
| Testimonials.PrevNextInverse | src/components/ui/animated-testimonials.tsx:24-30 | previous undoes next, and next undoes previous |
| Testimonials.NextN | src/components/ui/animated-testimonials.tsx:25 | repeated next presses stay in `[0,n)` |
| Testimonials.NextNOffset | src/components/ui/animated-testimonials.tsx:25 | up to a full tour, `k` presses land `k` cards on, wrapping once past the end |
| Testimonials.FullTour | src/components/ui/animated-testimonials.tsx:21-25 | `n` presses of next return to the starting card |
| Testimonials.ExactlyOneActive | src/components/ui/animated-testimonials.tsx:32-34 | exactly one index in `[0,n)` is active, namely `active` |
| Testimonials.RotationFor | src/components/ui/animated-testimonials.tsx:37-40 | a card's tilt is one of the ten listed values, between -10 and 8 |
| Testimonials.RotationPeriodic | src/components/ui/animated-testimonials.tsx:37-40 | tilts repeat every ten cards |
| Testimonials.ZIndex | src/components/ui/animated-testimonials.tsx:86-88 | an inactive card's `n+2-i` is at least 3 |
| Testimonials.InactiveStackOrder | src/components/ui/animated-testimonials.tsx:86-88 | inactive cards' zIndex strictly decreases with index |
| Testimonials.ActiveOnTop | src/components/ui/animated-testimonials.tsx:86-88 | with at most 37 cards the active card (zIndex 40) is above all others |
| Testimonials.ActiveCoveredInLargeDeck | src/components/ui/animated-testimonials.tsx:86-88 | with 39 cards, card 0 (zIndex 41) is above the active card 1 |
| Testimonials.Carousel.constructor | src/components/ui/animated-testimonials.tsx:14-22 | the first render has `active` 0 and is not yet hydrated |
| Testimonials.Carousel.Hydrate | src/components/ui/animated-testimonials.tsx:42-45 | the mount effect sets `isClient` and leaves `active` unchanged |
| Testimonials.Carousel.HandleNext | src/components/ui/animated-testimonials.tsx:24-26 | `active` becomes `Next(active, n)` and stays in range |
| Testimonials.Carousel.HandlePrev | src/components/ui/animated-testimonials.tsx:28-30 | `active` becomes `Prev(active, n)` and stays in range |
| Testimonials.Carousel.AutoplayTick | src/components/ui/animated-testimonials.tsx:47-52 | a tick happens only while autoplay is on and the component is hydrated, and it is exactly one `handleNext` |
| Testimonials.NextThenPrev | src/components/ui/animated-testimonials.tsx:24-30 | on a live carousel, next followed by previous restores `active` |
| SignUpForm.SchemaIssues | src/components/auth/SignUpCard.tsx:21-29 | the name issue is reported iff the untrimmed name has fewer than 2 code units; the email issue iff the address is invalid; the password issue iff the password has fewer than 8 code units; the mismatch issue iff the two passwords differ; at most one issue per field |
| SignUpForm.MismatchReportedOnConfirm | src/components/auth/SignUpCard.tsx:26-29 | the mismatch is reported on `confirmPassword` with the message `Passwords don't match` |
| SignUpForm.AcceptedIffRulesHold | src/components/auth/SignUpCard.tsx:21-29 | the form is accepted iff all four rules hold |
| SignUpForm.SpacesPassAsName | src/components/auth/SignUpCard.tsx:22 | since the form does not trim, two spaces pass as a name |
| SignUpForm.RootMessage | src/components/auth/SignUpCard.tsx:58-60 | the root error is the thrown `Error`'s message, or `Sign up failed` for any other thrown value |
| SignUpForm.SignUpCard.constructor | src/components/auth/SignUpCard.tsx:40-41 | the card starts not loading, with no success and no error |
| SignUpForm.SignUpCard.Submit | src/components/auth/SignUpCard.tsx:49-55 | possible only while the button is enabled; a form with issues is not submitted and nothing changes; a valid form sets `isLoading` and calls `signUp` with the raw email, password and name |
| SignUpForm.SignUpCard.Settle | src/components/auth/SignUpCard.tsx:55-63 | `success` is set only when the call completed; a throw sets the root error and leaves `success` alone; `isLoading` is false afterwards either way |

## Left out

- Supabase (`createServerClient`, `getUser`, `auth.signUp`, the profile insert) and the SSR cookie plumbing: their results are inputs (`Session`, `Backend`).
- URL resolution: the redirect target `new URL(redirectTo, request.url)` is kept as the raw reference string. Resolution against the request URL, and a reference pointing off-site, are not modelled.
- The matcher is an explicit string predicate, not regular-expression semantics. The unescaped `.` in `favicon.ico`, which also matches any character, and the behaviour of `.*` at line terminators are not modelled.
- Zod's `.email()` check: its verdict is the input `emailValid`. Refinements follow zod v3: the password-match refinement runs alongside the field issues, which do not abort validation.
- The `trim` whitespace set is the fixed ECMAScript set. Unicode normalisation and `String.length` beyond the UTF-16 count are not modelled.
- The charting library: `createChart`, `addSeries`, `setData`, `applyOptions`, `remove`, the colour options and the dynamic `import()`. The chart is a value holding its size and its series.
- The container's layout: the measurement is a free input of `ImportDone`. In the source the container carries `hidden` while `isLoading` is true (src/components/charts/TradingViewChart.tsx:264-269), and every import is awaited while it is true (`ChartMount.ImportAwaitedWhileLoading`). A `display: none` element measures 0 by 0, so the component uses up all ten retries and builds at 400 by 300, as `ChartMount.NeverSizedFallsBack` shows. The real size arrives later through `handleResize`. `ChartMount.SizedAfterRetries` describes runs in which the container is visible when measured; this component does not produce them.
- A throw from `createServerClient` or `getUser` in the gate: the middleware has no `try`/`catch` (middleware.ts:9-31), so such a throw propagates out of the middleware; `Session` models only a `getUser` call that returned.
- The `emailRedirectTo` option of the sign-up call (`${origin}/charts`): the `AuthSignUp` call records only the email, the password and the stored name, because the request origin is not modelled.
- Timer delays (100 ms), `ResizeObserver` and window events, and `clientWidth` / `clientHeight`: these become discrete events with natural-number measurements.
- Chart errors: only a throw from the dynamic import itself (`ImportFailed`) is modelled. A throw from `createChart`, `addSeries` or `setData` is not.
- Candle prices are JavaScript numbers, modelled as `real`; only copying is claimed of them.
- React-hook-form details: clearing the root error on the next submission, and the field-level error display, are not modelled.
- `src/contexts/AuthContext.tsx` is not part of this model. It is a thin wrapper over the backend, router navigation and toasts.
- Page and layout components, social login, the footer, `next.config.ts` and the type-only files are not part of this model.
- Console logging, JSX rendering and the motion animation parameters (opacity, scale, y offset, durations) are not modelled.
