# MinilogAirbrake, modelled in Dafny

MinilogAirbrake is a stage of the minilog logging pipeline. It turns log calls at or above a configured severity into Airbrake notices. `setup` reads the options: it resolves the `errorThreshold`, throws when no `api_key` is given, creates the Airbrake client and, unless `handleExceptions` is exactly `false`, installs the client's uncaught-exception hook. `format(name, level, args)` drops a call whose level ranks below the threshold (it returns `false`). Otherwise it pushes one notice `{message, type, component, params: {data}, stack}` onto the back of the in-memory queue `errors` and returns `name`. `write` shifts the front notice off the queue and passes it to the client's `notify`. It adds a no-op callback unless `allowDeliveryToFail` is set. `end` calls `write` until the queue is empty.

Files:

- `wrappers.dfy`: `Option`, `Outcome` and `Result`. In `Options`, `None` is an absent key; in `Levels.Rank`, it is the `undefined` of a missing table entry; as the result of `Format`, it is the `false` the call returns. `Fail` and `Failure` stand for a thrown error.
- `levels.dfy`: the `errorLevels` table, threshold resolution, and the severity gate of `format`.
- `notices.dfy`: argument values, the notice record, the frame limit for the stack trace, and `Deliveries`, the list of `notify` calls that sending a queue front-first makes.
- `minilog.dfy`: the class `MinilogAirbrake` with the fields `setup` assigns and the queue `errors`, which `format`, `write` and `end` change in place. The Airbrake client in use is `client`. Calls into the Airbrake library are recorded in fields: every `createClient` call with its arguments (`created`), the number of `handleExceptions()` calls (`hookInstalls`), and every `notify` call with whether it got a callback (`notified`).
- `scenarios.dfy`: the cases of `tests/test.js` that use only notices, replayed on the instance the suite builds before each case, plus two further scenarios taken from `index.js` (an unknown level, and `format` followed by `end`). Each ensures states what the case checks, except that the literal payload strings at tests/test.js:137 and tests/test.js:149 are stated only as `stringify` of the trailing arguments, because the model leaves `JSON.stringify` uninterpreted. The case at tests/test.js:67-76 pushes an `Error` object onto the queue; it is not replayed, because the model's queue holds only notices.

Two behaviours of the code are worth spelling out:

- An unknown level name is not dropped: index.js:64 compares `threshold > undefined`, which is false, so the call is queued. `Levels.Reports` and `Scenarios.FormatUnknownLevel` state this.
- index.js takes nothing out of an `Error` argument: the first argument is always the message, and all later arguments, error objects included, go to `JSON.stringify`. tests/test.js:149 expects `'["foo"]'` for an error argument. The model states what the code computes (`Scenarios.FormatWithErrorArgument`) and assumes nothing about what `JSON.stringify` makes of an error.

## Model

| member | source | states |
|---|---|---|
| `Levels.Rank` | index.js:22 | a name has a rank iff it is one of the four level names, and the ranks are debug 1, info 2, warn 3, error 4 |
| `Levels.ResolveThreshold` | index.js:28-36 | a known level name becomes its rank; any other truthy number is kept; an absent, empty or zero option becomes 4 (`error`); the result is never 0 |
| `Levels.Reports` | index.js:64 | for a known level, a call passes iff its rank is at least the threshold; a level missing from the table always passes |
| `Notices.MakeNotice` | index.js:72-78 | the message is the first argument (`undefined` if there is none), the type is the level, the component is the name, the stack is the trace, and `params.data` serialises only the arguments after the first |
| `Notices.PayloadIgnoresMessage` | index.js:73-76 | replacing the first argument changes the notice's message and nothing else |
| `Notices.Deliveries` | index.js:49-59 | sending a queue front-first makes exactly one `notify` call per queued notice, in queue order, each with a callback iff delivery may not fail |
| `Notices.SendFront` | index.js:55-59 | the one-step unfolding of `Deliveries` that `End`'s loop uses: one `write` of the front notice, then draining the rest, adds exactly the calls for the whole queue to any call log |
| `Notices.DeliveriesAppend` | index.js:55-59 | draining two queues one after the other makes the same calls as draining their concatenation |
| `Minilog.MinilogAirbrake.Create` | index.js:16-20 | construction fails with the missing-key message iff there is no non-empty API key; otherwise the instance has an empty queue, one `createClient` call and a client built from `api_key`/`api_env`, the hook installed once unless `handleExceptions` is `false`, and the resolved threshold |
| `Minilog.MinilogAirbrake.Setup` | index.js:24-47 | the queue is always emptied and the options always stored; it throws `MinilogAirbrake requires an api_key for Airbrake` iff the key is missing or empty, and then neither creates a client nor installs a hook; otherwise it logs exactly one `createClient` call with `api_key`/`api_env`, uses that client, and adds one hook install unless `handleExceptions` is exactly `false` |
| `Minilog.MinilogAirbrake.Format` | index.js:63-81 | returns `false` (`None`) iff the gate drops the call, and then leaves the queue unchanged; otherwise returns `name` and the new queue is the old one plus exactly one notice at the back, built from the call; that notice's trace is captured with the configured `stackTraceLimit` when it is non-zero and with 20 frames when it is absent or zero (index.js:67) |
| `Minilog.MinilogAirbrake.Write` | index.js:49-53 | on a non-empty queue it removes exactly the front notice and records one `notify` call for it, with a callback iff `allowDeliveryToFail` is false; on an empty queue nothing changes |
| `Minilog.MinilogAirbrake.End` | index.js:55-59 | terminates with an empty queue, having made exactly the calls `Deliveries` gives for the queue held on entry: one per notice, in FIFO order |
| `Scenarios.EmptyApiKeyThrows` | tests/test.js:29-31 | `setup({api_key: ''})` throws the missing-key error |
| `Scenarios.SetupCreatesClient` | tests/test.js:33-53 | `setup({api_key: 'test'})` calls `createClient` exactly once, with key `test` (lines 33-39), and installs the hook once (lines 48-53) |
| `Scenarios.SetupWithoutHook` | tests/test.js:41-46 | with `handleExceptions: false` no hook is installed |
| `Scenarios.WriteSendsQueuedNotice` | tests/test.js:57-65 | a queued notice is sent once, with a callback, and leaves the queue |
| `Scenarios.WriteOnEmptyQueue` | tests/test.js:78-83 | `write` on an empty queue makes no `notify` call |
| `Scenarios.WriteWithoutCallback` | tests/test.js:85-94 | with `allowDeliveryToFail` set, the notice is sent without a callback |
| `Scenarios.EndDrainsQueue` | tests/test.js:98-108 | three queued notices give three sends, in order, and an empty queue |
| `Scenarios.FormatBelowThreshold` | tests/test.js:112-116 | under a `warn` threshold an `info` call returns `false` and queues nothing |
| `Scenarios.FormatAtOrAboveThreshold` | tests/test.js:118-128 | under a `warn` threshold, `error` and `warn` calls return the name and queue one notice |
| `Scenarios.FormatBuildsNotice` | tests/test.js:130-139 | the queued notice has the message, type, component, serialised trailing arguments and a trace of 20 frames |
| `Scenarios.FormatWithErrorArgument` | tests/test.js:141-151 | with an error as the second argument the message stays `'message'`, the type is `warn`, the component is `name`, and the payload serialises the error argument itself |
| `Scenarios.FormatUnknownLevel` | index.js:64 | a level name missing from the table is queued even under the default threshold |
| `Scenarios.FormatThenEnd` | index.js:55-81 | two accepted calls followed by `end` are sent in call order |

## Left out

- The Airbrake client (`airbrake.createClient`, `notify`, `handleExceptions`) is foreign code that talks to the network and hooks the process. Its calls are only recorded: a log of `createClient` calls with their arguments, a count of hook installs, and a log of `notify` calls. Delivery itself and its callback's behaviour are not modelled.
- `JSON.stringify` and the process-wide `Buffer.prototype.toJSON` override (index.js:3-5) are library and global behaviour. `Format` takes the serialisation as a parameter `stringify` and assumes nothing about it.
- Stack capture (index.js:67-70) is V8-specific. The assignment to the global `Error.stackTraceLimit`, the `'Trace'` name and `captureStackTrace` become one parameter `capture`, which maps the frame limit to a trace string.
- Minilog.MinilogAirbrake.Setup: requires a string `errorThreshold` to be empty or a known level name. The code keeps any other string as it is, and JavaScript's string-to-number comparison then decides the gate; that is not modelled.
- Minilog.MinilogAirbrake.Create: has the same restriction on `errorThreshold` as `Setup`.
- Numeric thresholds are integers. Fractional, `NaN` and other non-numeric truthy values (such as `true`) are not modelled.
- Level names that match inherited object keys (such as `toString`): for `format`'s level, the code finds a function or object in the table, `threshold >` it compares with `NaN` and is false, and the call is queued; the model treats the name as unknown and also queues the call, so the result is the same. For the `errorThreshold` option, such a name is excluded by `Levels.Supported` and is not modelled.
- `setup(undefined)` crashes at index.js:28 in the code. The model always receives an options record. It also stores copies of the option fields; the caller's own `options` object, which the code mutates in place, is not modelled.
- `allowDeliveryToFail` is a boolean. `handleExceptions` is absent, `true` or `false`. Other truthy or falsy values of these options are not modelled.
- Minilog.MinilogAirbrake.Write: requires a client to exist when the queue is non-empty, which holds for every instance `Create` returns. In the code, `write` with a non-empty queue on an instance that never had a client would throw a `TypeError`; on an empty queue index.js:50 skips the client, and so does the model.
- Minilog.MinilogAirbrake.End: has the same requirement as `Write`, for the same reason.
- The queue holds only notices. tests/test.js:62 and tests/test.js:91 push a record that has only a `message`; the scenarios take an arbitrary notice in its place. tests/test.js:73 pushes an `Error` object; that case is not modelled.
- Plumbing: the `instanceof` wrapper of the constructor (index.js:17), the `_isFormatted` flag (index.js:61), the ignored `str` argument of `write`, and the module export. The pass-through to later pipeline stages is done by minilog itself and is not part of this model.
