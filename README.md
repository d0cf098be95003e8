# RetryContext, modelled in Dafny

`RetryContext` (buidl-utils) wraps a fallible asynchronous function in a
bounded retry loop. It calls the function up to `maxRetries` times and passes
the same arguments each time. An attempt ends in one of four ways:

- a truthy result ends the loop with success;
- a falsy result is retried when `retryNullResults` is set;
- a thrown error is shown to an optional `continuationFilter`, and a defined
  falsy answer stops the retries;
- otherwise the error is retried, with a pause of `pauseBetweenTries`, until
  the budget is spent.

The outcome is handed to an error-first callback.

The model has five modules:

- `JsValues` (js_values.dfy): the JavaScript values the loop sees, with
  `Truthy` mirroring `!v`. It also has `Outcome`, which says whether a
  caller-supplied function returned a value or threw one.
- `RetryLoop` (retry_loop.dfy): pure reference functions. `Attempt` is one
  pass of the loop body. `RunFrom` is the whole loop from a counter value.
  `Dispatch` is the callback dispatch of `invoke`. Everything the loop does
  that can be seen from outside is an `Effect`: a call of the function, a
  filter consultation, a log line, a pause, a callback call. The effects are
  returned in order. A finished run also records which exit the loop took:
  success, filter veto, spent budget, or falling out of the `while`.
- `RetryContext` (retry_context.dfy): the class itself. Its configuration is
  fixed by the constructor. `Invoke` builds a fresh `Attempts` record (the
  source's `ctx`). `InvokeWithRetries` is the `while` loop over `ctx.tries`,
  with its early exits. Each method is proved equal to the reference
  functions.
- `RetryProperties` (retry_properties.dfy): what the loop promises, proved
  about `RunFrom`.
- `RetryScenarios` (retry_scenarios.dfy): the four scenarios of the
  repository's test file, plus three for the code's quirks, run through the
  class.

The wrapped function is a `(seq<Value>, nat) -> Outcome`. `fn(args, k)` is
how the call with arguments `args` settles when `k` calls came before it in
the same `invoke`. So a function that behaves differently on each attempt is
a script indexed by attempt, and a function that looks at its arguments can
tell whether they were forwarded. The continuation filter is a
`Value -> Outcome` and the callback a `(Value, Value) -> Outcome`.

The model follows the code as written, including these behaviours:

- The error after the loop (src/RetryContext.js:94) is reachable. It happens
  when every attempt returns a falsy result under `retryNullResults`, and
  when `maxRetries <= 0`, because then no call is made. Its message is only
  "Could not complete retry context": `Error` ignores the extra arguments.
- `props.pauseBetweenTries || 500` turns an explicit `0` into 500.
- `maxRetries` may be any number the schema accepts, including zero and
  negative values. The counter then stays at 0.
- The callback is called twice when its success-path call throws: a second
  time with its own error.

## Model

| member | source | states |
|---|---|---|
| RetryLoop.RunFrom | src/RetryContext.js:63-96 | the counter only grows; it never passes `maxRetries` unless it started beyond it; falling out of the loop leaves it at `max(start, maxRetries)`; any other exit happens after at least one call |
| JsValues.FalsyValues | src/RetryContext.js:69-79 | the values `!v` holds for are exactly `undefined`, `null`, `false`, `0` and `""`; errors and other objects are truthy |
| RetryLoop.VetoingAnswers | src/RetryContext.js:79 | a filter answer stops the retries exactly when it is `null`, `false`, `0` or `""`; `undefined`, a truthy answer or a throw does not |
| RetryLoop.Attempt | src/RetryContext.js:66-91 | one pass starts with the call; it retries exactly when its result is falsy under `retryNullResults`, or its error is not vetoed and budget is left, and then its last effect is the pause; a pass that finishes settles with the value returned or the error thrown, succeeds exactly when the call returned, and for an error stops on the filter exactly when the filter vetoes (see also AttemptAccounting and AttemptWithoutFilter) |
| RetryLoop.Dispatch | src/RetryContext.js:53-58 | the callback is called once or twice; the first call is `cb(null, r)` on success and `cb(e)` on failure; a second call, `cb(e2)` with the callback's own error, happens exactly when the success call throws; a failure calls it exactly once; `invoke`'s own promise is rejected exactly when the last callback call throws, with what it throws |
| RetryContext.RetryContext.constructor | src/RetryContext.js:22-31 | `name` is required and non-empty, and `maxRetries` is kept as given; `retryNullResults` is true only when true was given; `pauseBetweenTries` is never 0: it is the given number unless that is absent or 0, and then 500; the filter is kept as given |
| RetryContext.Attempts.constructor | src/RetryContext.js:48-52 | a fresh per-call record with counter 0, the function and the arguments |
| RetryContext.RetryContext.Invoke | src/RetryContext.js:47-59 | the effects of `invoke` are those of a loop run from counter 0, followed by the callback calls of the dispatch, and nothing after them; `invoke`'s own promise is rejected by whatever the last callback call throws |
| RetryContext.RetryContext.ConsultFilter | src/RetryContext.js:76-85 | the filter vetoes exactly when it returns a defined falsy value; a filter that throws is logged and does not veto; with no filter nothing happens |
| RetryContext.RetryContext.InvokeWithRetries | src/RetryContext.js:63-96 | the loop settles as the reference run from the counter's old value, with the same effects, and leaves the counter where that run ends |
| RetryProperties.AttemptAccounting | src/RetryContext.js:66-91 | one pass makes exactly one call, with the `invoke` arguments; it pauses once, for `pauseBetweenTries`, exactly when it retries |
| RetryProperties.Accounting | src/RetryContext.js:65-94 | over a run, the function is called once per counter increment, so at most `maxRetries` times from 0; every call gets the same arguments; every pause lasts `pauseBetweenTries`; there is one pause fewer than calls, or as many pauses as calls when the run falls out of the loop |
| RetryProperties.ExitCharacterization | src/RetryContext.js:65-94 | a run resolves exactly when the success exit was taken, with the value the last call returned, which the loop accepts; a filter veto or a spent budget fails with the error the last call threw (the budget exit only at `maxRetries`); falling out of the loop fails with the generic error; so the filter's own error is never the outcome |
| RetryProperties.EarlierAttemptsRetried | src/RetryContext.js:65-91 | every call of a run before its last was one that lets the loop go on: a falsy result under `retryNullResults`, or an error the filter did not veto; when the loop falls through, the last call was one too |
| RetryProperties.SkipRetried | src/RetryContext.js:65-91 | attempts that retry while budget remains only put their effects in front of the rest of the run |
| RetryProperties.FirstAcceptedResultEnds | src/RetryContext.js:68-74 | the first result the loop accepts ends the run at once with that value, after `k + 1` calls; with `k = 0`, a first call that succeeds is the only call |
| RetryProperties.FilterVetoEnds | src/RetryContext.js:76-81 | a defined falsy filter answer stops the run at once with that attempt's error; no later call or pause happens, whatever budget is left |
| RetryProperties.FinalFailedPass | src/RetryContext.js:86-90 | when the last allowed attempt throws and the filter does not veto, the run gives up with that error at `maxRetries`, and its last effect is the give-up log |
| RetryProperties.PersistentFailureExhausts | src/RetryContext.js:86-91 | a function that always throws, with no veto, is called exactly `maxRetries` times; the terminal error is the last attempt's error; the last effect is the give-up log, not a pause |
| RetryProperties.NullResultsFallThrough | src/RetryContext.js:65-94 | under `retryNullResults`, only falsy results spend every attempt, with one pause after each, and end in the generic error; with `maxRetries <= 0` no call is made |
| RetryProperties.AttemptWithoutFilter | src/RetryContext.js:75-91 | a pass whose error is not vetoed does what it would do with no filter, plus the filter's consultation and its failure log |
| RetryProperties.NonVetoingFilterIsTransparent | src/RetryContext.js:76-91 | a filter that never vetoes (answers `undefined`, truthy, or throws) gives the same calls, pauses, counter and outcome as no filter |
| RetryScenarios.PassSuccessThrough | src/RetryContext.test.js:5-25 | a function returning "Good" is called once, and the callback gets `(null, "Good")` |
| RetryScenarios.RetryFailingFn | src/RetryContext.test.js:27-46 | a function that always throws is called three times, and the callback gets its error |
| RetryScenarios.ForwardArgs | src/RetryContext.test.js:48-74 | the arguments "a1", "a2", "a3" reach the function in order, and the callback gets `(null, "a3")` after one call |
| RetryScenarios.ObeyContinuationFilter | src/RetryContext.test.js:76-97 | a filter answering `false` stops after one call, and the callback gets the error |
| RetryScenarios.NullResultsReachGenericError | src/RetryContext.js:94 | two null results under `retryNullResults`, with a pause of 0 given, mean two calls, two pauses of 500, and the generic error at the callback |
| RetryScenarios.NoBudgetNoCall | src/RetryContext.js:65 | with `maxRetries` 0 the function is never called, and the callback gets the generic error |
| RetryScenarios.ThrowingCallbackCalledTwice | src/RetryContext.js:53-58 | a callback that throws on `(null, r)` is called again with its own error |

## Left out

- Schema validation with `yup` (src/RetryContext.js:1, 4-9, 23): it is a
  foreign library. The constructor requires a non-empty `name`. The `Props`
  datatype gives the other options their types (an integer `maxRetries`, an
  optional boolean and an optional integer). The schema's casting in general
  is not modelled. The schema accepts a value it can cast, such as the string
  `"false"` for `retryNullResults` or `"500"` for a number, but the
  constructor keeps the value uncast. So `"false"` is stored as a truthy
  string and turns null-result retries on. Such values have no `Props`
  counterpart.
- Logger (src/RetryContext.js:11): each log call is a `Log` effect with its
  level, message and details. Formatting is not modelled, and the Logger
  module is not part of this model.
- `sleep` (src/index.js:4-8): each pause is a `Pause(ms)` effect. Time does
  not pass in the model.
- Promises and `await`: every call is taken to settle, and a settled call is
  its `Outcome`. A call that never settles is not modelled. The method
  binding in the constructor (src/RetryContext.js:33-36) is not modelled, and
  neither are concurrent `invoke` calls on one instance, which share no
  mutable state.
- `invoke`'s own promise is modelled only as rejected-or-not. The value it
  resolves to when the last callback call returns normally is left out.
- A `continuationFilter` that is present but not a function is given to the
  constructor as `None`. The JavaScript ignores such a value in the same way.
- The filter's answer depends only on the error. A filter whose answer
  changes from one call to the next is not modelled.
- Numbers are integers. NaN, fractions, symbols and bigints are left out, so
  truthiness is exact only for the values modelled.
- The message arguments `Error` ignores at src/RetryContext.js:94 are
  dropped, as JavaScript drops them.
