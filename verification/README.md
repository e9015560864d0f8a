# LogoGen decision logic in Dafny

A model of the behaviour of a small Next.js logo generator once rendering and
I/O are stripped away:

- **The relay** `POST /api/generate-logo` (`GenerateLogoRoute`): checks for the
  `OPENAI_API_KEY`, sends one image-generation request carrying only the
  caller's prompt and fixed parameters (`n: 1`, `size: "1024x1024"`,
  `model: "dall-e-3"`), and maps the provider's answer to `{url}` or `{error}`.
  It is a pure function of the completion of `req.json()`, the key, and an
  abstract provider reply (`fetch` rejected, or answered with a status, a text
  body and a JSON body that may fail to parse).
- **The catch-block normaliser** (`ErrorMessages.Describe`), shared by the relay
  and the generate screen: an object's string `message`, else `"Unknown error"`.
- **The generate screen** (`LogoApp`): prompt, image url, loading flag and error;
  an atomic submit step, an atomic settle step driven by an abstract reply, the
  submit button's `disabled` guard, and an event machine over those.
- **The mock login** (`Login`): the submit step, the delayed callback's
  `email && password` check on the values captured at submit time, and the
  storage write, `onLogin` call and navigation it performs, returned as effects.
- **The two onboarding screens**: the four-slide version (`OnboardingSlides`)
  and the six-step wizard that collects a brand name, style, palette and aspect
  ratio (`OnboardingWizard`), both over the shared `Flow` of "still showing" or
  "left for /app by Next or Skip".
- `JsValues` gives the JavaScript semantics the handlers lean on: JSON-shaped
  values plus `undefined`, truthiness, `typeof`, `in`, property reads that throw
  on `null`/`undefined` with V8's message, `String(x)` and `Error` objects.
  `GenerateAndShow` connects the relay's answers to what the screen shows.

Step indices of both wizards are subset types (`i < |Steps|`), so every
`Steps[step]` lookup being in bounds is checked wherever a step is built.

## Model

| member | source | states |
|---|---|---|
| `ErrorMessages.Describe` | app/api/generate-logo/route.ts:35-38 | an object with a string `message` yields that message; every other thrown value (primitives, `null`, arrays, objects without a string `message`) yields "Unknown error" |
| `ErrorMessages.DescribeErrorObject` | app/app/page.tsx:23-29 | throwing `new Error(m)` and normalising it yields exactly `m` |
| `JsValues.DecimalIsIndex` | app/api/generate-logo/route.ts:33 | the key "0" of `data.data[0]` (any canonical decimal spelling of n) reads array element n |
| `JsValues.Get` | app/api/generate-logo/route.ts:33 | a property read throws exactly on `null`/`undefined`; on an object it yields the property or `undefined`; an in-range index key yields that element |
| `JsValues.Truthy` | app/app/page.tsx:23 | a value is falsy exactly when it is one of `undefined`, `null`, `false`, `0` or the empty string; this is the test applied to `data.error` before the fallback text and to the API key |
| `JsValues.TypeOf` | app/api/generate-logo/route.ts:36 | `typeof` is "object" exactly for `null`, arrays and objects, and "string" exactly for strings |
| `JsValues.HasProperty` | app/api/generate-logo/route.ts:36 | `key in v` on an object holds exactly for its own keys; on an array, an index key is in it exactly when it is below the length |
| `JsValues.IndexKeysPresent` | app/api/generate-logo/route.ts:36 | on an array, the decimal spelling of n is `in` it exactly when n is an index of it |
| `JsValues.FirstIndexKey` | app/api/generate-logo/route.ts:33 | the key "0" of `data.data[0]` denotes index 0 |
| `JsValues.ToString` | app/app/page.tsx:23 | `String(v)` as `new Error(v)` applies it: a string is itself, an object is "[object Object]", a non-negative number its decimal spelling |
| `GenerateLogoRoute.Destructure` | app/api/generate-logo/route.ts:6 | `const { prompt } = body` throws exactly when the body is `null` or `undefined`, and otherwise reads `prompt` |
| `GenerateLogoRoute.OutboundRequest` | app/api/generate-logo/route.ts:14-26 | the request goes to the generations endpoint with `Bearer <key>` and carries the prompt unchanged with n 1, size 1024x1024, model dall-e-3 |
| `GenerateLogoRoute.FirstImageUrl` | app/api/generate-logo/route.ts:33 | for any body whose `data` is a non-empty list the result is reading `url` of its first element; an empty list throws the read of `url` of `undefined`; a body without `data` throws the read of `0` of `undefined`; a `null`/`undefined` body throws |
| `GenerateLogoRoute.UrlEnvelope` | app/api/generate-logo/route.ts:33 | `{url}` never carries `error`; a defined url gives exactly the key `url`, an undefined one an empty object |
| `GenerateLogoRoute.Failure` | app/api/generate-logo/route.ts:34-39 | the catch block answers 500 with the normalised message |
| `GenerateLogoRoute.Relay` | app/api/generate-logo/route.ts:13-40 | every answer is an envelope with exactly one of `error` (a string) or `url`, or `{}` for an undefined url; the status is 200 exactly when there is no `error`, and it is ok exactly when it is 200 (a non-ok 304, which `new Response` refuses with a body, lands in the `catch` as 500) |
| `GenerateLogoRoute.Post` | app/api/generate-logo/route.ts:5-41 | the handler throws exactly when the request body fails to parse or is `null`/`undefined`; when it answers, a provider request was sent exactly when the key is set and non-empty, and the body is an envelope |
| `GenerateLogoRoute.MissingKeyAnswer` | app/api/generate-logo/route.ts:7-11 | an unset or empty key answers 500 `{error: "OpenAI API key not set."}` and sends nothing |
| `GenerateLogoRoute.OneRequestWithPrompt` | app/api/generate-logo/route.ts:6-26 | with a key, exactly one request is sent, carrying the body's `prompt` (or `undefined`) and the fixed parameters, and the answer is the reply's mapping |
| `GenerateLogoRoute.OnlyPromptForwarded` | app/api/generate-logo/route.ts:6-25 | two request bodies that agree on `prompt` produce the same request and answer, whatever other fields they carry |
| `GenerateLogoRoute.ProviderErrorPassedThrough` | app/api/generate-logo/route.ts:28-39 | a non-ok reply answers with the provider's status and its raw text as `error`, except 304: the `Response` constructor throws for that null body status and the `catch` answers 500 with the constructor's `TypeError` message |
| `GenerateLogoRoute.FirstImageServed` | app/api/generate-logo/route.ts:32-33 | an ok reply whose `data` lists at least one image object answers 200 with the envelope of that image's `url`, whatever other fields the body and the image carry (such as `created` or `revised_prompt`); a string url gives exactly `{url}` |
| `GenerateLogoRoute.EmptyImageListFails` | app/api/generate-logo/route.ts:13-39 | an ok reply whose `data` is an empty list, whatever else the body carries, answers 500 with V8's "Cannot read properties of undefined (reading 'url')" |
| `GenerateLogoRoute.EmptyListReadThrows` | app/api/generate-logo/route.ts:33 | reading `data.data[0].url` from any body whose `data` is an empty list throws V8's TypeError for reading `url` of `undefined` |
| `GenerateLogoRoute.RejectionNormalised` | app/api/generate-logo/route.ts:34-39 | a rejected call answers 500 with the thrown value's string `message`, or "Unknown error" |
| `GenerateLogoRoute.ParseFailureNotEnveloped` | app/api/generate-logo/route.ts:5-13 | a failure to parse the request body propagates as a throw, even when the key is missing |
| `LogoApp.Initial` | app/app/page.tsx:6-9 | the screen starts with an empty prompt, no image, not loading, no error |
| `LogoApp.Submit` | app/app/page.tsx:11-21 | submitting sets loading, clears error and image, keeps the prompt, and posts a body whose only field is the prompt |
| `LogoApp.Outcome` | app/app/page.tsx:16-24 | a rejection or an unparseable body is rethrown as is; a value is produced only from an ok reply, and for an object body it is `data.url` or `undefined`; a not-ok object body throws an `Error` whose string message is `String(data.error)` when that is truthy and "Failed to generate logo" otherwise |
| `LogoApp.Settle` | app/app/page.tsx:16-33 | settling always clears loading; a value from the `try` becomes the image url with the error untouched; a throw becomes the normalised error with the image untouched |
| `LogoApp.OkShowsUrl` | app/app/page.tsx:22-24 | an ok reply shows `data.url` (or `undefined`) and no error |
| `LogoApp.NotOkShowsError` | app/app/page.tsx:22-30 | a not-ok reply shows a non-empty string `data.error` verbatim, a missing or falsy one as "Failed to generate logo", and leaves the image untouched |
| `LogoApp.NotOkShowsStringOfError` | app/app/page.tsx:23 | a truthy non-string `data.error` is shown as `String` of it |
| `LogoApp.FailureNormalised` | app/app/page.tsx:25-30 | a rejected fetch or an unparseable body shows the same normalised message as the relay, "Unknown error" without a string `message` |
| `LogoApp.PressGenerateGuard` | app/app/page.tsx:52 | a press posts a request exactly when not loading and the prompt is non-empty, and otherwise changes nothing |
| `LogoApp.Handle` | app/app/page.tsx:11-52 | one event: the posted bodies only grow, by one exactly on a press of the enabled button; a settle is counted exactly when a request was pending; typing changes only the prompt; while idle only a press changes the image or the error |
| `LogoApp.HandleKeepsConsistent` | app/app/page.tsx:11-52 | every event keeps the screen consistent (see `RunConsistent`) |
| `LogoApp.RunConsistent` | app/app/page.tsx:11-52 | along any event sequence: one request is pending exactly while loading, a pending request shows neither image nor error, an error never shows beside an image, and every posted body is a non-empty prompt |
| `LogoApp.InitialConsistent` | app/app/page.tsx:6-9 | the initial screen is consistent |
| `LogoApp.EditDuringRequestKeepsPosted` | app/app/page.tsx:20 | editing the prompt while a request is pending changes the field but not the body already posted |
| `Login.Initial` | app/app/login.tsx:6-9 | the form starts empty, not loading, without error |
| `Login.Submit` | app/app/login.tsx:12-16 | submitting sets loading, clears the error, and arms the timer with the current email and password |
| `Login.Fire` | app/app/login.tsx:16-25 | with both captured fields non-empty: the flag `is_logged_in` = "true" is stored, `onLogin` is called if given, then navigation to /app; otherwise the error "Please enter email and password." and no effect; loading is cleared in both |
| `Login.PressLoginGuard` | app/app/login.tsx:67 | a press does nothing while loading and otherwise arms the timer with the current fields |
| `Login.Handle` | app/app/login.tsx:12-67 | one event: the effect log only grows, and only when the timer fires with a pending check; a new timer is armed only by a press while not loading, with the fields at that moment; typing changes only its own field |
| `Login.LoginsAppend` | app/app/login.tsx:17-20 | appending one successful login's effects keeps the effect log well-formed |
| `Login.HandleKeepsConsistent` | app/app/login.tsx:12-25 | every event keeps the screen consistent (see `RunConsistent`) |
| `Login.RunConsistent` | app/app/login.tsx:12-25 | along any event sequence: a timer is pending exactly while loading, no error shows meanwhile, and the effects are whole successful logins |
| `Login.LoginsShape` | app/app/login.tsx:17-20 | the first effect of any login is the flag write, and `onLogin` is never called when it was not given |
| `Login.LoginsNoCallback` | app/app/login.tsx:19 | without an `onLogin` prop the effect log holds no callback |
| `Login.StaleCredentials` | app/app/login.tsx:12-25 | the check uses the values seen at submit time: clearing the email while waiting still logs in |
| `OnboardingSlides.Start` | app/app/onboarding.tsx:29 | the screen opens on the first slide |
| `OnboardingSlides.HandleNext` | app/app/onboarding.tsx:31-39 | below the last slide, Next moves exactly one slide on; on the last it leaves for /app by Next from that slide |
| `OnboardingSlides.Handle` | app/app/onboarding.tsx:33-66 | one press: the screen leaves exactly on Skip or on Next from the last slide, always for /app and keeping the slide; otherwise it moves one slide on; Skip is the shared `Flow.HandleSkip` |
| `OnboardingSlides.NextsWalk` | app/app/onboarding.tsx:31-39 | from slide i, k presses reach slide i + k when it exists and otherwise leave by Next from the last slide |
| `OnboardingSlides.ThreeNextsThenStart` | app/app/onboarding.tsx:5-39 | Next is never guarded: three presses from the start reach the last slide, the fourth leaves |
| `OnboardingSlides.SkipAlwaysLeaves` | app/app/onboarding.tsx:41-43 | after any events, Skip has left the screen for /app (an instance of `Flow.SkipLeaves`) |
| `Flow.HandleSkip` | app/app/onboarding/page.tsx:68-70 | Skip leaves for /app from any state, carrying the state unchanged and persisting nothing (the same handler as app/app/onboarding.tsx lines 41-43) |
| `Flow.SkipLeaves` | app/app/onboarding/page.tsx:68-70 | for any screen whose Skip is `HandleSkip` and whose every exit goes to /app, any events followed by Skip have left for /app (the same handler as app/app/onboarding.tsx lines 41-43) |
| `OnboardingWizard.Start` | app/app/onboarding/page.tsx:51-55 | the wizard starts valid, on step 0 with an empty brand and "Modern", "Vibrant", "1:1" |
| `OnboardingWizard.HandleNext` | app/app/onboarding/page.tsx:57-66 | below step 5 Next increments the step and changes nothing else; on step 5 it leaves for /app by Next with the step unchanged |
| `OnboardingWizard.Choose` | app/app/onboarding/page.tsx:104-108 | an option click never changes the step or the brand |
| `OnboardingWizard.Handle` | app/app/onboarding/page.tsx:57-126 | one action: the wizard leaves exactly on Skip or on Next from the last step, always for /app with the state unchanged; the step changes only by an enabled Next, by one; the brand changes only by typing on the input step |
| `OnboardingWizard.BrandOnlyOnInput` | app/app/onboarding/page.tsx:79-88 | the brand changes only by typing, and only while the input step is showing |
| `OnboardingWizard.NextDisabledExactly` | app/app/onboarding/page.tsx:126 | Next is disabled exactly on step 1 with an empty brand |
| `OnboardingWizard.ChooseSetsNamedValue` | app/app/onboarding/page.tsx:98-108 | on the style, palette and aspect steps a click sets exactly that step's value and nothing else |
| `OnboardingWizard.HandleKeepsValid` | app/app/onboarding/page.tsx:57-126 | every user action keeps the selections inside their option lists and a brand present past step 1 |
| `OnboardingWizard.RunStaysValid` | app/app/onboarding/page.tsx:5-126 | along any event sequence from the start, style, palette and aspect stay members of their lists and every step past the input carries a non-empty brand |
| `OnboardingWizard.ByNextOnlyFromLast` | app/app/onboarding/page.tsx:57-66 | a run leaves by Next only from the last step |
| `OnboardingWizard.FinishCarriesBrand` | app/app/onboarding/page.tsx:79-126 | leaving by Next (not Skip) always carries a non-empty brand |
| `OnboardingWizard.BrandGate` | app/app/onboarding/page.tsx:79-126 | on the input step Next with nothing typed stays put, and after typing a name it advances to step 2 |
| `OnboardingWizard.SkipAlwaysLeaves` | app/app/onboarding/page.tsx:68-70 | after any events, Skip has left the wizard for /app (an instance of `Flow.SkipLeaves`) |
| `GenerateAndShow.RelayReplyShown` | app/app/page.tsx:22-30 | whatever the relay answers after a submit, the screen shows the url (status 200) or the relay's error text, with the fallback for an empty one, never both |
| `GenerateAndShow.MissingKeyShown` | app/api/generate-logo/route.ts:9-11 | without a key the screen shows "OpenAI API key not set." |
| `GenerateAndShow.PromptReachesProvider` | app/app/page.tsx:20 | the screen's prompt reaches the provider request unchanged |

## Left out

- Rendering, markup and CSS, except the `disabled` attributes and the conditional rendering of the input and option buttons that decide which events exist.
- `fetch`, `Response` construction and JSON (de)serialisation: the provider's and the relay's replies are abstract inputs, and a body is assumed to reach `res.json()` as the value the relay built.
- `process.env`, `router.push`, `window.location`, `localStorage` and `setTimeout`: the key is a parameter; navigation, storage and the callback are returned as values; the 800 ms delay is the `TimerFires` event.
- Async interleaving and React state batching: submit and settle are atomic steps.
- Browser form validation (`required`, `type="email"`): a press is treated as a submit whenever the button is enabled, so the login error branch stays reachable in the model.
- JavaScript numbers are integers; floating point and `NaN` are not modelled. Thrown functions, symbols and inherited properties are not modelled; the property reads in the handlers are of own data properties.
- The text `res.text()` on a non-ok provider reply is taken never to fail.
- Login.Fire: `localStorage.setItem` (which throws on a full quota or blocked storage) and the caller's `onLogin` are taken to return normally. In the program either throwing ends the callback before the navigation and `setLoading(false)`, leaving the button disabled with no timer pending.
- Login.HandleKeepsConsistent: the link "a timer is pending exactly while loading" relies on the callback running to its end, as `Login.Fire` assumes; after a throwing `setItem` or `onLogin` the program is loading with nothing pending.
- Login.RunConsistent: holds for runs in which every timer callback runs to its end, for the same reason as `Login.HandleKeepsConsistent`.
- A store of past generations: the code contains none; the only storage write is the login flag.
- The marketing page app/page.tsx and tailwind.config.js: static content and styling, no behaviour.
- The provider itself and the expiry of its image urls.
- `router.push` is asynchronous client navigation: the screen stays mounted until the route changes, so a second press can still run `handleNext` or `handleSkip`. `Flow.Run` delivers no event after the first navigation. In the program a further event may still change the step or a selection, or push /app again; no other route is ever pushed, so the stated properties are unaffected.
- `JsValues.Get` on a string counts Unicode scalar values, not UTF-16 code units, for `length` and index reads. No handler reads a string this way (`data.data[0].url` on a string is `undefined` either way).
- The text of the `TypeError` that `new Response` throws for a null body status is the runtime's; the model uses undici's wording ("Response constructor: Invalid response status code 304"). Other runtimes word it differently, and the relay's 500 answer carries whatever that text is.
