# Enquiry submission pipeline: a Dafny model

This project models the resilient enquiry submission pipeline of a
motorcycle dealership web application, and proves properties of it. It has
two parts.

- **The request client** (`api.dfy`, module `Api`). `safeFetch` makes up to
  three physical attempts at a request, one at a time. The first response of
  any status ends the call and is returned unchanged. A timeout (`AbortError`)
  or a network error is followed by a wait of `1000 * 2^(N-1)` ms after
  attempt N, except after the last attempt. When all three attempts fail, the
  call throws a single "server sleeping" error. `createEnquiry` posts an
  enquiry through `safeFetch` and turns a response that is not ok into an
  error message: the body's `message`, or `HTTP <status>: Submission failed`.
- **The submission coordinator** (`enquiry_service.dfy`, module
  `EnquiryService`). `enquiryService.submit` writes one enquiry to the
  primary store (Supabase) and then posts it to the redundant endpoint (a
  Google Apps Script). It records one `{success, error?, data?}` entry per
  backend in a `results` record. It returns `{success: true, results, data}`
  when at least one backend saved the enquiry, and otherwise throws
  "All storage backends failed to save the enquiry".

`wrappers.dfy` holds the `Option` and `Result` datatypes that both use.

The network and the backends are inputs. The client receives one outcome
per physical attempt: `Responded(response)`, `TimedOut` or
`NetworkError(message)`. The coordinator receives the outcome of the
insert, the outcome of the post, and the script URL. Waits are lengths in
milliseconds, not timers. Thrown errors are `Failure(message)` values.

`SafeFetch` is a loop with an attempt counter, the list of waits made and
their running total. It is proved equal to `Expected`, a declarative
description of a call built from the first attempt that got a response.
`Submit` builds its `results` record step by step, as the source assigns
fields of a local object. It is proved equal to `SubmitOutcome`, which is
composed of one function per backend and the final `Decide`. The lemmas
state the properties about these specification functions.

The two writes do not depend on each other and could run concurrently; the
model follows the code, which awaits the insert before it makes the post.
The `results` record has exactly the two entries `supabase` and
`googleSheets` by its type, and both start as `Pending`, that is
`{success: false}`.

## Model

| member | source | states |
|---|---|---|
| `Api.FirstResponse` | src/lib/api.ts:14-34 | the position of the first attempt that got a response, with every earlier attempt a transport failure; none when no attempt got one |
| `Api.RetryDelay` | src/lib/api.ts:45 | the wait after a failed attempt is a whole number of seconds, at least 1 s, and exactly 1 s after the first attempt |
| `Api.Schedule` | src/lib/api.ts:44-48 | the waits after the first N failed attempts: N of them, the one after attempt k being `1000 * 2^(k-1)` ms |
| `Api.Expected` | src/lib/api.ts:8-56 | a call makes between 1 and 3 attempts; every attempt before the last made one failed; a returned response is exactly the one the last attempt got; a thrown error comes after exactly 3 failed attempts and carries the "server sleeping" message; the waits are one per failed attempt that is followed by another |
| `Api.SafeFetch` | src/lib/api.ts:8-56 | the retry loop makes exactly the call `Expected` describes: same result, same number of attempts, same waits in order; the accumulated wait is their sum |
| `Api.ScheduleTotal` | src/lib/api.ts:44-48 | the waits after n failures total `1000 * (2^n - 1)` ms, the geometric series `1000 * (2^0 + ... + 2^(n-1))` |
| `Api.BackoffDoubles` | src/lib/api.ts:45 | each wait is twice the wait before it |
| `Api.FirstResponseAt` | src/lib/api.ts:21-34 | an attempt that got a response after only failed attempts is the one that ends the call |
| `Api.ResponseEndsCall` | src/lib/api.ts:21-34 | a response at attempt k+1 after k failures is returned unchanged, whatever its status, after k+1 attempts and no further one |
| `Api.ExhaustedCall` | src/lib/api.ts:44-55 | three transport failures give the "server sleeping" error after exactly 3 attempts, with waits of 1000 and 2000 ms, 3000 ms in all |
| `Api.FirstResponseIgnoresFailureKind` | src/lib/api.ts:35-48 | which attempt gets the first response depends only on which attempts got a response |
| `Api.TransportFailuresAlike` | src/lib/api.ts:35-48 | a timeout and a network error are handled identically: swapping one kind of transport failure for the other changes neither the result, nor the attempts, nor the waits |
| `Api.TimeoutThenServerError` | src/lib/api.ts:21-48 | a timeout followed by an HTTP 500 returns that 500 response after 2 attempts and one 1000 ms wait |
| `Api.IsOk` | src/lib/api.ts:379 | `response.ok` holds exactly for the statuses of the 2xx class |
| `Api.DecimalString` | src/lib/api.ts:381 | the status is rendered as a non-empty string of decimal digits |
| `Api.DecimalStringValue` | src/lib/api.ts:381 | the rendered digits denote the status itself and have no leading zero unless the status is 0 |
| `Api.BodyMessage` | src/lib/api.ts:380-381 | the body's `message` is used exactly when the body parsed to a value with a non-empty string `message`; a body that does not parse counts as `{}` |
| `Api.SubmissionFailure` | src/lib/api.ts:379-381 | the error for a rejected submission is never empty: the body's message if it has one, else `HTTP <status>: Submission failed`; a `null` body makes reading `message` throw a TypeError |
| `Api.UnparseableServerError` | src/lib/api.ts:379-381 | an HTTP 500 whose body does not parse is reported as `HTTP 500: Submission failed` |
| `Api.CreateEnquiry` | src/lib/api.ts:369-389 | a terminal transport error is rethrown as it is; a response that is not ok becomes `SubmissionFailure`; an ok response yields the string-valued fields of its parsed body (`null` as none), and an ok body that does not parse throws its parse error |
| `EnquiryService.Configured` | server/services/enquiryService.js:43 | the redundant endpoint is used exactly when the URL is present, not empty and not the placeholder |
| `EnquiryService.FirstRow` | server/services/enquiryService.js:33 | the first returned row, or `{}` when the insert returned no rows or `null` |
| `EnquiryService.Accepted` | server/services/enquiryService.js:49 | a post saved the enquiry exactly when a 2xx reply came back whose `success` is true; a rejected post (transport error, timeout, or a reply of another status) never did |
| `EnquiryService.PrimaryResult` | server/services/enquiryService.js:22-39 | the primary entry succeeds exactly when the insert returned rows; it then holds the first row or `{}`; a returned or thrown error is recorded as the entry's error; an entry has an error exactly when it failed |
| `EnquiryService.RedundantResult` | server/services/enquiryService.js:41-62 | the redundant entry succeeds exactly when the URL is configured and a 2xx reply's `success` is true; without a usable URL (missing, empty or the placeholder) its error is "Not configured"; a rejected post (transport error, timeout, or a reply outside 2xx with axios's "Request failed with status code N") records that message as it is; any other 2xx reply records its non-empty `error`, else "Unknown response from Google Sheets"; it never holds data |
| `EnquiryService.Decide` | server/services/enquiryService.js:64-75 | the call returns exactly when one of the two entries succeeded, and then says `success: true` and carries the `results` unchanged; otherwise it throws "All storage backends failed to save the enquiry"; `data` is the primary entry's data when it has some, else the redundant entry's when it has some, else `{}` |
| `EnquiryService.SubmitOutcome` | server/services/enquiryService.js:14-76 | a returned value carries, for each backend, the entry that backend's own outcome determines |
| `EnquiryService.Submit` | server/services/enquiryService.js:14-76 | the step-by-step construction of `results` gives exactly `SubmitOutcome`; the post is made exactly when the URL is configured, whatever the insert did |
| `EnquiryService.AtLeastOnePolicy` | server/services/enquiryService.js:64-69 | for every combination of backend outcomes, `submit` returns exactly when the insert succeeded or the configured endpoint accepted the post; what it returns says `success: true`; otherwise it throws the all-failed message |
| `EnquiryService.DataPreference` | server/services/enquiryService.js:71-75 | the returned `data` is the first inserted row (or `{}`) when the insert succeeded, and `{}` when only the redundant endpoint did |
| `EnquiryService.PrimaryFailureIsolated` | server/services/enquiryService.js:23-62 | a failed insert, returned or thrown, leaves the outcome to the redundant endpoint alone, and a success then records the insert's error beside the endpoint's success |
| `EnquiryService.PrimaryOnlyScenario` | server/services/enquiryService.js:14-76 | insert succeeds, no script URL: success, the redundant entry says "Not configured", `data` is the inserted row |
| `EnquiryService.RedundantOnlyScenario` | server/services/enquiryService.js:14-76 | insert throws, the endpoint replies `{success: true}`: success, the primary entry carries the error, `data` is `{}` |
| `EnquiryService.BothFailScenario` | server/services/enquiryService.js:64-69 | insert rejected and the post not accepted: the call throws the all-failed message |

## Left out

- `window.fetch`, `AbortController` and `setTimeout` in `safeFetch`, and `axios.post` and the Supabase client in `submit`, are foreign I/O. Their outcomes are inputs, and waits are numbers of milliseconds. The 45 s per-attempt timeout and the 10 s post timeout are not modelled as durations: their expiry is the `TimedOut` or `PostFailed` outcome. `Replied` stands for a 2xx reply to the post only: `axios.post` is called without `validateStatus`, so a reply of any other status rejects with "Request failed with status code N" and is the `PostFailed` outcome carrying that message, whatever its body says.
- `Api.SubmissionFailure`: the TypeError thrown for a `null` body carries the engine's own wording; the model uses V8's.
- A response that arrives after its attempt timed out cannot reach the model: that attempt's outcome is `TimedOut`.
- `Api.SafeFetch`, `Api.Expected` and `Api.CreateEnquiry` take at least three attempt outcomes. This is not a demand of the source: the network answers every attempt, and at most three are used.
- All `console` logging is left out. This includes the `response.ok` branch in `safeFetch` and the different log lines for a timeout and a network error, which only choose what is logged.
- `lastError` in `safeFetch` is assigned and never read, so it is not modelled.
- Errors are modelled by their messages only. The error objects that `createEnquiry` rethrows and the stack traces are not modelled.
- JavaScript truthiness is modelled for strings only: a string is truthy when it is present and not empty. Only the string-valued fields of a parsed response body are kept; its other fields (numbers, booleans, objects, arrays) are dropped, so the reply `{success: true, results, data}` that the server sends is the empty record in `Api.CreateEnquiry`. The reply's `success` is an optional boolean, truthy only when true. A non-string `message` or `error`, a non-boolean `success`, and an error without a `message` are not modelled.
- The enquiry payload is not represented. Apart from its `enquiry_type`, which only feeds a log line, the pipeline passes it to both backends unchanged, and the backends are abstract outcomes here.
- The payload is assumed to be an object. A `null` or `undefined` payload makes `submit` (server/services/enquiryService.js:15) and `createEnquiry` (src/lib/api.ts:371) throw a TypeError when their first log line reads `enquiry_type`, before any backend or network call; no input of the model gives that throw.
- The other `bikeAPI` wrappers in src/lib/api.ts, `enquiryService.getAll`, the React pages and components, the serverless entry point and the environment loading are not part of this model. The script URL is an input to `Submit`.
