# GrowthProAI dashboard: a verified model of its view state

The GrowthProAI front end is one React component, `App` in `src/App.js`. It
has a form that takes a business name and a location. Submitting the form
posts both values to a backend, which returns a rating, a review count and a
marketing headline. The component stores that reply together with the two
form values and can re-request just the headline. Every submit, and every
regenerate while a record is stored, raises a success or error banner.

This project models the component's seven pieces of state and the handlers
that change them:

- `text.dfy`, module `Text`: `String.prototype.trim` over ECMA-262's
  whitespace and line-terminator characters. It proves that trimming leaves
  nothing exactly when the string is blank.
- `app_state.dfy`, module `AppState`: the state as a value (`View`) and each
  handler as a pure function.
  - `FieldErrors` (validation), `Submit`, `Regenerate` and the updater
    `WithHeadline`.
  - The requests each handler sends (`SubmitRequest`, `RegenerateRequest`).
  - The user events and their traces (`Step`, `Run`), with the invariants
    every reachable state keeps.
- `dashboard.dfy`, module `Dashboard`: class `App`. Its fields are the seven
  `useState` slots, and its methods run the handlers step by step (build the
  error map, raise the loading flag, store the reply, show the banner, lower
  the flag). Each method is proved to end in the state the matching `AppState`
  function gives.

Network calls are replaced by a parameter, `Response<T> = Ok(payload) | Fail`.
`Fail` stands for a non-2xx status, a network error or a body that cannot be
parsed: each of these ends in the handler's `catch`. Each handler returns the
request it sent, or `None` when it sent nothing. Handlers run atomically, so
one handler never sees another half-done. Rating and review count are kept as
opaque `JsonNumber` text and only compared for equality.

`AppState.Step` sends one user event to its handler: the `onChange` of
either field, the form's `onSubmit` or the regenerate button's `onClick`.
`AppState.Run` applies a sequence of such events, and the lemmas about
reachable states are stated over `Run`. `Dashboard.Session` is a verified
scenario on the class. It mounts, fills the form, fails one fetch, then
succeeds. It then clears the location field and regenerates. The
regenerate still sends the stored name and location and changes only the
headline.

## Model

| member | source | states |
|---|---|---|
| `Text.TrimStartIsSuffix` | src/App.js:24-28 | trim's leading pass keeps the suffix that starts at the first non-whitespace character and drops only whitespace |
| `Text.TrimEndIsPrefix` | src/App.js:24-28 | trim's trailing pass keeps the prefix that ends at the last non-whitespace character and drops only whitespace |
| `Text.TrimShape` | src/App.js:24-28 | `s.trim()` is a slice of `s` with only whitespace outside it and no whitespace at either of its ends; it is empty iff `s` is all whitespace |
| `Text.Trim` | src/App.js:24-28 | `!s.trim()` holds exactly when every character of `s` is whitespace |
| `Text.TrimIdempotent` | src/App.js:24-28 | trimming an already trimmed field changes nothing |
| `AppState.FieldErrors` | src/App.js:21-30 | the `name` entry is present iff the business name is blank, and the `location` entry iff the location is blank, chosen independently; entries carry their fixed messages; the map is empty iff both fields are filled |
| `AppState.BothFieldsEmpty` | src/App.js:24-30 | two empty fields give both errors and no request |
| `AppState.OnlyLocationBlank` | src/App.js:24-30 | a filled name and a blank location give exactly one error, keyed `location`, and no request |
| `AppState.SubmitRequest` | src/App.js:39-56 | a submit sends a request iff neither field is blank, and that request carries the form values at submit time |
| `AppState.Submit` | src/App.js:36-72 | a submit always replaces `errors` with the fresh map. If a field is blank, it changes neither `businessData` nor `isLoading` and shows the fill-in error. If a request went out, `isLoading` ends false; success stores `{data, businessName, location}` and shows the success banner, and failure keeps `businessData` and shows the load error |
| `AppState.CakeAndCoFetched` | src/App.js:52-63 | a successful fetch for "Cake & Co" in "Mumbai" stores exactly the payload paired with those two inputs |
| `AppState.WithHeadline` | src/App.js:89-99 | the updater maps a missing record to a missing one; from a present record it gives one with the new headline and the same rating, review count, name and location |
| `AppState.ProfileAndHeadlineDetermineRecord` | src/App.js:89-99 | a record is fixed by rating, reviews, name, location and headline, so the updater changes the headline and nothing else |
| `AppState.WithHeadlineLastWins` | src/App.js:89-99 | two headline updates in a row leave what the second alone would |
| `AppState.RegenerateRequest` | src/App.js:75-82 | a regenerate sends a request iff a record is stored, and it carries the stored name and location |
| `AppState.RegenerateIgnoresForm` | src/App.js:81 | the regenerate request does not depend on the current form fields |
| `AppState.Regenerate` | src/App.js:74-108 | without a record, regenerate changes no state at all; otherwise `isRegenerating` ends false, the form, `errors` and `isLoading` are kept and the record keeps its profile. Success sets the new headline and shows the success banner; failure keeps the record and shows the regenerate error |
| `AppState.StepKeepsReachable` | src/App.js:6-108 | every event keeps both flags down between handlers, keeps every error entry to its fixed message, and leaves any stored record with a non-blank name and location |
| `AppState.RunKeepsReachable` | src/App.js:6-108 | every state reachable from mount satisfies those invariants |
| `AppState.RegenerateRequestNeverBlank` | src/App.js:74-82 | every regenerate request the component can send carries a non-blank name and location |
| `AppState.StepKeepsProfile` | src/App.js:63-99 | a step that is not a successful submit of a filled form keeps any stored record's rating, reviews, name and location |
| `AppState.StoredDataComesFromFetch` | src/App.js:52-63 | a stored record's rating and reviews come from an earlier successful submit's payload, and its name and location are the form values at that submit |
| `AppState.OnlySubmitReplacesProfile` | src/App.js:74-108 | a sequence of edits and regenerates neither creates nor removes a record and never changes its rating, reviews, name or location |
| `Dashboard.App.constructor` | src/App.js:6-12 | the component mounts with empty fields, no record, both flags down, no errors and no banner |
| `Dashboard.App.SetBusinessName` | src/App.js:162 | typing in the name field changes the name and nothing else |
| `Dashboard.App.SetLocation` | src/App.js:179 | typing in the location field changes the location and nothing else |
| `Dashboard.App.ShowNotification` | src/App.js:16-17 | a new banner overwrites the single notification slot |
| `Dashboard.App.ValidateForm` | src/App.js:21-34 | `errors` becomes the fresh map from `FieldErrors`, whatever it held before, and the result is true iff that map is empty |
| `Dashboard.App.HandleSubmit` | src/App.js:36-72 | the step-by-step handler sends the request `SubmitRequest` gives and ends in the state `Submit` gives |
| `Dashboard.App.HandleRegenerateHeadline` | src/App.js:74-108 | the step-by-step handler sends the request `RegenerateRequest` gives and ends in the state `Regenerate` gives |

## Left out

- Rendering (`src/App.js:110-287`) is presentation only. The model keeps just
  the two `onChange` handlers that write the form fields.
- `disabled={isLoading}` and `disabled={isRegenerating}` on the buttons are
  not modelled. With atomic handlers the flags are never up between events,
  as `RunKeepsReachable` shows.
- The HTTP calls, their headers, `JSON.stringify`, `response.json()` and
  `encodeURIComponent` are network I/O and foreign calls. They are replaced by
  the `Response` parameter and by the `Request` value that records what was
  sent.
- The four-second `setTimeout` that clears the notification (`src/App.js:18`)
  is timer-driven and asynchronous, so it is not modelled. The notification is
  a single slot that each `ShowNotification` overwrites. The timers are never
  cancelled, so in the source an older timer can clear a newer banner early.
- Overlapping requests are not modelled. In the source a second submit or
  regenerate can start before the first resolves, and the last reply wins;
  here every handler is one atomic step.
- The source has no guard against stale replies, and the model follows the
  code.
- `console.log` and `console.error` are diagnostics only.
- `Response.Ok` carries a well-formed `Metrics` (exactly rating, reviews and
  headline) or `HeadlineReply` (a string headline). The source stores
  whatever JSON a 2xx reply holds. The spread `{...prev.data, ...}`
  (`src/App.js:94`) keeps any extra keys, and a reply without `headline`
  stores `undefined`. The model covers only replies that follow the backend's
  documented shape.
- `e.preventDefault()` (`src/App.js:37`) stops the browser's own form
  submission. It has no effect on component state and is not modelled.
- `isLoading` and `isRegenerating` being true while a request is in flight is
  not observable in the model. The methods raise and lower each flag within
  one call.
