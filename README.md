# Bongo workflow machine and mock counter API — a Dafny model

This project models two pieces of a small browser console front-end.

**The Bongo machine** (`src/machines/bongoMachine.js`) is an XState machine with five states: `idle`, `waiting`, `command`, `process` and `done`. Its context has five fields: `processCount`, `startTime`, `endTime`, `processedResult` and `lastCommand`. Each state accepts a fixed set of events:

- `START` moves `idle` (or `done`) to `waiting` and records the start time.
- In `waiting`, `input.submit(data)` trims the data and raises `process.command` if the result is `"command"` or `"cmd"`, otherwise `process.data`. The raised event is handled before `send` returns.
- `process.data` enters `process`. Entry raises `processCount` by one and starts the `processDataActor` on `{data}`.
- `process.command` enters `command`. Entry emits a `notification` carrying the data.
- `complete(result)` leaves `command` for `done` and stores the result.
- The actor's success stores its output and the end time. Its failure records only the end time. Both move to `done`.
- `RESET` from `done` returns to `idle` and clears the counter, the times and the result. `lastCommand` is kept.
- Every event a state does not list is ignored.

**The mock API** (`src/mocks/handlers.js`) has a module-level `counter` that starts at 0:

- `GET /api/counter` increments the counter and answers `{count, message}`.
- `POST /api/reset` sets it back to 0.
- `GET /api/question` answers `"SQL:" + encodeURIComponent(question)`.

Files and modules:

- `BongoMachine.dfy` holds the pure part of the machine as functions: the raise classifier `ProceedToProcess`, the actor's result `ProcessDataActor`, the `assign` updaters and the transition table `Step`. `Drain` runs a FIFO queue of events to completion, and each step raises events of strictly smaller total weight, so it terminates. The running machine is the class `Machine`. Its fields `state`, `ctx`, `actor`, `queue` and `emitted` are updated by `Send`, whose drain loop is proved to compute exactly `Macrostep` (that is, `Drain` of the one sent event).
- `BongoProperties.dfy` states the machine's promises as lemmas about `Step` and `Macrostep`.
- `JsString.dfy` models `String.prototype.trim` and `toUpperCase`.
- `Decimal.dfy` models how `${n}` renders an integer.
- `UriComponent.dfy` models `encodeURIComponent`. Its partner is a percent-decoder, which is proved to give back `Utf8String` of the input. `Utf8`'s contract pins those bytes to UTF-8: shortest form, lead and continuation byte ranges, and the bits reading back as the code point.
- `MockHandlers.dfy` holds the class `MockApi`, whose field `counter` the handlers change in place.

Timestamps are opaque strings supplied by the caller. Each `Send` gets one `now`, used for `startTime`, `endTime` and nothing else. The actor's delay is not modelled. Its completion arrives as a later event, `ActorDone(output)` or `ActorError`. That event is applied only while the machine is in `process`, so a late completion is discarded. The invariant `Consistent` says an actor runs exactly while the state is `process`.

Where the code and its header comment disagree, the model follows the code. The comment (`src/machines/bongoMachine.js:25`) speaks of a `PROCEED` event. The code raises `process.data` or `process.command` (`src/machines/bongoMachine.js:99-108`). The `input.submit` transition has no target, and the state changes only through the raised event.

## Model

| member | source | states |
|---|---|---|
| `BongoMachine.ProceedToProcess` | src/machines/bongoMachine.js:92-110 | the raised event carries `trim(data)`, not the original; it is `process.command` exactly when the trimmed data is "command" or "cmd", otherwise `process.data` |
| `BongoMachine.ProcessDataActor` | src/machines/bongoMachine.js:51-55 | the actor's result has `originalData` equal to its input, `processedData` its upper-cased form character by character (same length), and the completion time as timestamp |
| `BongoMachine.ProcessCommandEmit` | src/machines/bongoMachine.js:125-145 | no contract of its own: `BongoProperties.CommandEntry` states that entering `command` emits exactly one `notification` with the event's data |
| `BongoMachine.IncrementCounter` | src/machines/bongoMachine.js:211-213 | no contract of its own: `BongoProperties.ProcessEntry` and `BongoProperties.ProcessCountStep` state that entering `process` raises `processCount` by exactly one |
| `BongoMachine.StoreProcessedResult` | src/machines/bongoMachine.js:207-209 | no contract of its own: `BongoProperties.ActorSucceeds` and `BongoProperties.ActorOutputStored` state that the actor's output becomes `processedResult` |
| `BongoMachine.ResetContext` | src/machines/bongoMachine.js:227-232 | no contract of its own: `BongoProperties.ResetFromDone` states the whole cleared context, with `lastCommand` kept |
| `BongoMachine.RecordStartTime` | src/machines/bongoMachine.js:234-236 | no contract of its own: `BongoProperties.StartFromIdle` and `BongoProperties.StartFromDone` state that START sets `startTime` to the send's time and nothing else |
| `BongoMachine.RecordEndTime` | src/machines/bongoMachine.js:238-240 | no contract of its own: `BongoProperties.ActorSucceeds` and `BongoProperties.ActorFails` state that both completions set `endTime` to the send's time |
| `BongoMachine.Step` | src/machines/bongoMachine.js:252-363 | no contract of its own (it is the transition table): `BongoProperties.NoOpIffUnlisted` states which events each state ignores, `BongoMachine.StepRaised` what it raises, `BongoMachine.StepPreservesConsistent` the actor invariant, and the per-state lemmas below each listed transition |
| `BongoMachine.Drain` | src/machines/bongoMachine.js:264-274 | no contract of its own: `BongoMachine.Machine.Send` is proved equal to it, and `BongoProperties.DrainPreservesConsistent`, `BongoProperties.DrainKeepsLastCommand` and `BongoProperties.DrainCountNeverDrops` state what any run of the raise queue keeps |
| `BongoMachine.Macrostep` | src/machines/bongoMachine.js:264-274 | no contract of its own: one `send(e)` is the drain of the queue `[e]`; `BongoProperties.SubmitSettles` gives its result for `input.submit`, where the raised event is handled before `send` returns |
| `BongoMachine.StepRaised` | src/machines/bongoMachine.js:264-266 | only `input.submit` raises anything, and it raises exactly the one classified event |
| `BongoMachine.StepPreservesConsistent` | src/machines/bongoMachine.js:328-350 | every transition keeps "an actor runs exactly while in `process`": entering `process` starts one, both completions end it |
| `BongoMachine.Machine.constructor` | src/machines/bongoMachine.js:243-251 | a new machine is `idle` with `processCount` 0, all nullable fields null, no actor and no notifications |
| `BongoMachine.Machine.Send` | src/machines/bongoMachine.js:242-364 | after `send(e)` the queue is empty again, state, context and actor equal the run to completion of `e` and everything it raised in FIFO order, and the notifications emitted on the way are appended in order |
| `BongoMachine.Machine.CompleteActor` | src/machines/bongoMachine.js:330-344 | the running actor finishes with its own output on the input it was invoked with: the machine is in `done`, with no actor, `endTime` set, and `processedResult` holding that input and its upper-cased copy |
| `BongoProperties.StartFromIdle` | src/machines/bongoMachine.js:253-258 | from `idle`, START moves to `waiting`, sets `startTime` to the send's time and changes no other context field |
| `BongoProperties.SubmitRaisesClassified` | src/machines/bongoMachine.js:264-266 | in `waiting`, `input.submit` has no target and changes nothing itself; it only raises the classified event |
| `BongoProperties.ClassifyPadded` | src/machines/bongoMachine.js:94-108 | white space around a trimmed word does not change the classification: "command" and "cmd" give `process.command`, every other word `process.data`, each carrying the bare word |
| `BongoProperties.CommandIsPaddedKeyword` | src/machines/bongoMachine.js:94-103 | conversely, a submission classified as a command is "command" or "cmd" with only white space around it |
| `BongoProperties.SubmitSettles` | src/machines/bongoMachine.js:264-274 | `input.submit(d)` in `waiting`, once `send` returns, has reached `command` (one notification with `trim(d)`, context untouched) or `process` (`processCount` + 1, actor started on `trim(d)`) |
| `BongoProperties.ProcessEntry` | src/machines/bongoMachine.js:328-336 | the only way into `process` is `process.data` from `waiting`; entering raises `processCount` by exactly one and starts one actor on the event's data |
| `BongoProperties.ProcessCountStep` | src/machines/bongoMachine.js:211-213 | a transition raises `processCount` by one exactly on entry to `process`, sets it to 0 exactly on RESET from `done`, and otherwise leaves it |
| `BongoProperties.ActorSucceeds` | src/machines/bongoMachine.js:337-344 | the actor's success moves `process` to `done`, stores its output as `processedResult`, sets `endTime` and ends the actor |
| `BongoProperties.ActorOutputStored` | src/machines/bongoMachine.js:330-344 | when the completion carries `processDataActor`'s result on the actor's own input, `done` stores that input as `originalData` and its upper-cased form as `processedData` |
| `BongoProperties.ActorFails` | src/machines/bongoMachine.js:345-348 | the actor's failure moves `process` to `done`, sets only `endTime` and leaves `processedResult` as it was |
| `BongoProperties.StaleCompletionIgnored` | src/machines/bongoMachine.js:330-349 | a completion or failure that arrives outside `process` changes nothing and emits nothing |
| `BongoProperties.CommandEntry` | src/machines/bongoMachine.js:286-301 | entering `command` emits exactly one `notification` carrying the event's data and changes no context |
| `BongoProperties.CommandExit` | src/machines/bongoMachine.js:316-326 | in `command`, the state changes if and only if the event is `complete(result)`, which moves to `done` with `processedResult = result`; nothing is emitted |
| `BongoProperties.ResetFromDone` | src/machines/bongoMachine.js:351-356 | RESET from `done` moves to `idle` with `processCount` 0 and `startTime`, `endTime`, `processedResult` null, keeping `lastCommand` |
| `BongoProperties.StartFromDone` | src/machines/bongoMachine.js:357-360 | START from `done` moves to `waiting` and sets only `startTime` |
| `BongoProperties.NoOpIffUnlisted` | src/machines/bongoMachine.js:252-363 | a transition changes nothing, raises nothing and emits nothing if and only if the event is not in the state's `on` block (or, in `process`, is not the actor's completion) |
| `BongoProperties.UnlistedIgnored` | src/machines/bongoMachine.js:252-363 | a sent event that the current state does not list leaves state, context and actor unchanged |
| `BongoProperties.DrainPreservesConsistent` | src/machines/bongoMachine.js:328-349 | running any queue of events to completion keeps "an actor runs exactly while in `process`" |
| `BongoProperties.DrainKeepsLastCommand` | src/machines/bongoMachine.js:245-251 | no run of events ever changes `lastCommand` |
| `BongoProperties.DrainCountNeverDrops` | src/machines/bongoMachine.js:227-232 | without a RESET among the sent events, `processCount` never decreases, raised events included |
| `BongoProperties.HelloActor` | src/machines/bongoMachine.js:51-55 | the actor on "hello" reports "hello" as original and "HELLO" as processed data |
| `BongoProperties.HelloRun` | src/machines/bongoMachine.js:253-344 | from a new machine, START then `input.submit("hello")` is in `process` with count 1 and the actor on "hello"; its completion gives `done` with "HELLO", the start and the end time |
| `BongoProperties.CmdRun` | src/machines/bongoMachine.js:94-103 | `input.submit(" cmd ")` from `waiting` ends in `command`, not `process`, and notifies "cmd" |
| `JsString.Trim` | src/machines/bongoMachine.js:94 | the result of `trim` neither starts nor ends with ECMAScript white space or a line terminator |
| `JsString.TrimSplit` | src/machines/bongoMachine.js:94 | the input is the result of `trim` with white space only before and after it |
| `JsString.TrimOfPadded` | src/machines/bongoMachine.js:94 | trimming a trimmed word padded with white space gives the word back (the converse of TrimSplit) |
| `JsString.ToUpperCase` | src/machines/bongoMachine.js:53 | `toUpperCase` keeps the length and maps each character to its upper-case form |
| `Decimal.NatToString` | src/mocks/handlers.js:38 | `${n}` is a non-empty run of decimal digits without a leading zero |
| `Decimal.NatToStringRoundTrip` | src/mocks/handlers.js:38 | reading the digits of `${n}` back gives `n` |
| `Decimal.NatToStringInjective` | src/mocks/handlers.js:38 | different numbers render as different digit strings |
| `Decimal.CanonicalDigitsAreNatToString` | src/mocks/handlers.js:38 | conversely, a non-empty digit string with no leading zero is `${n}` of its own value, so `${n}` is the only such spelling of `n` |
| `UriComponent.HexValue` | src/mocks/handlers.js:23 | reading an upper-case hex digit gives a value below 16 that writes back as the same digit |
| `UriComponent.Utf8` | src/mocks/handlers.js:23 | a code point takes 1, 2, 3 or 4 bytes exactly for the ranges below 0x80, 0x800, 0x10000 and above; the lead byte is below 0x80, in 0xC2-0xDF, 0xE0-0xEF or 0xF0-0xF4 by length, every further byte is a continuation byte 0x80-0xBF, and the independent `Utf8Value` reads the bytes back as the code point |
| `UriComponent.EncodeUriComponent` | src/mocks/handlers.js:23 | no contract of its own: `UriComponent.EncodeDecodeRoundTrip` (its decoding partner), `EncodeUriComponentIsEncoded`, `EncodeUnescapedIdentity` and `EncodeUriComponentAppend` state what it produces |
| `UriComponent.EncodeDecodeRoundTrip` | src/mocks/handlers.js:23 | percent-decoding `encodeURIComponent(s)` gives the UTF-8 bytes of `s` |
| `UriComponent.EncodeUriComponentIsEncoded` | src/mocks/handlers.js:23 | the encoding uses only the unescaped characters, `%` and upper-case hex digits |
| `UriComponent.EncodeUnescapedIdentity` | src/mocks/handlers.js:23 | a string of letters, digits and `- _ . ! ~ * ' ( )` is its own encoding |
| `UriComponent.EncodeUriComponentAppend` | src/mocks/handlers.js:23 | encoding works character by character, so it distributes over concatenation |
| `UriComponent.EncodeSpace` | src/mocks/handlers.js:23 | a space is encoded as `%20` |
| `UriComponent.EncodeNonAscii` | src/mocks/handlers.js:23 | `encodeURIComponent` gives `%C3%A9` for é, `%E2%82%AC` for € and `%F0%9F%98%80` for U+1F600 |
| `MockHandlers.CounterMessage` | src/mocks/handlers.js:36-39 | the message is "This is request number " followed by digits that read back as the count, with no leading zero |
| `MockHandlers.CounterMessageUnique` | src/mocks/handlers.js:36-39 | the contract of `CounterMessage` fixes the message: any string that meets it is `This is request number ${n}` |
| `MockHandlers.CounterMessagesOfTests` | src/components/Fetch/Fetch.test.jsx:56-81 | the messages for counts 1 and 2 are "This is request number 1" and "This is request number 2", the strings these tests expect; the tests read them from their own replacement counter handler (src/components/Fetch/Fetch.test.jsx:28-40), which builds the same message |
| `MockHandlers.SearchParam` | src/mocks/handlers.js:22 | `searchParams.get` is null exactly when no pair has the name, and otherwise the value of the first pair with it |
| `MockHandlers.EncodeNullable` | src/mocks/handlers.js:23 | no contract of its own: `MockHandlers.Answer` states that a null question is encoded as the string "null" and a present one as itself |
| `MockHandlers.Answer` | src/mocks/handlers.js:23 | the answer is "SQL:" followed by exactly `encodeURIComponent` of the question (of "null" when absent); that part uses only encoding characters and decodes to the UTF-8 of the question |
| `MockHandlers.AnswerExamples` | src/mocks/handlers.js:22-23 | the question "A" is answered "SQL:A", with nothing escaped, and a missing question "SQL:null" |
| `MockHandlers.MockApi.constructor` | src/mocks/handlers.js:4 | the counter starts at 0 |
| `MockHandlers.MockApi.GetCounter` | src/mocks/handlers.js:33-40 | each `GET /api/counter` raises the counter by exactly one and returns the new value as `count`, with the message built from the same value |
| `MockHandlers.MockApi.PostReset` | src/mocks/handlers.js:43-50 | `POST /api/reset` sets the counter to 0 and returns `count` 0 with "Counter reset to 0" |
| `MockHandlers.MockApi.GetQuestion` | src/mocks/handlers.js:20-30 | the question handler answers "SQL:" plus the encoded `question` parameter and cannot change the counter |
| `MockHandlers.FirstRequest` | src/components/Fetch/Fetch.test.jsx:43-58 | the first counter request of a fresh `handlers.js` counter returns count 1 and "This is request number 1", the values this test expects; the test itself runs against its own replacement handler (src/components/Fetch/Fetch.test.jsx:28-40), which starts at 0 and counts the same way |
| `MockHandlers.ResetThenCount` | src/mocks/handlers.js:43-50 | after a reset the next counter request returns 1, whatever the counter was before |

## Left out

- Logging (`console.log`, the `log` action, `logWaiting`, `logProcessing`, `logDone`) has no effect on state and is not modelled.
- Clock and delay: `new Date().toISOString()` is a caller-supplied `now`, and the actor's 1000 ms `setTimeout` is replaced by its completion arriving as a later event.
- XState's scheduler, its actor ids and its cancellation of invoked actors are not modelled. A completion is applied only while the machine is in `process`.
- `BongoMachine.Event`: `ActorDone(output)` carries any output the caller supplies. In the source the output is always `processDataActor`'s result on the invoke input. `Machine.CompleteActor` and `BongoProperties.ActorOutputStored` are the forms that carry this link. `Machine.Send` and `ActorSucceeds` also accept outputs that the source cannot produce.
- Notification listeners: `emit` is modelled as appending to the `emitted` log. Subscribing and unsubscribing (`bongoRef.on`) are not modelled.
- `complete(result)`: its payload is untyped in the source, and no caller sends it. The model gives it the same record type as the actor's output.
- Unnamed events: the event type lists only the events the machine names. In the source, an event of any other type is ignored in every state, as unlisted events are here.
- `commandCallbackActor`, `commandTransitionActor`, `emitNotification`, `processCommand2`, `processCommand3` and the commented-out blocks are never referenced by the machine's configuration, so they have no behaviour to model.
- A TypeError from `trim` when `input.submit` has no `data` is not modelled. Data is always a string here.
- `JsString.ToUpperCase`: one deliberate weakening. It upper-cases ASCII letters only. JavaScript's `toUpperCase` maps all of Unicode, and a few cases (such as `ß` to `SS`) change the length.
- `UriComponent.EncodeUriComponent`: a lone UTF-16 surrogate makes `encodeURIComponent` throw. That case cannot be expressed here, because Dafny characters are Unicode scalar values.
- `MockHandlers.SearchParam` works on the already-decoded query pairs. Parsing `request.url`, including percent-decoding and `+` as space, is not modelled.
- The counter is an unbounded natural number. JavaScript numbers lose precision past 2^53, and `${n}` switches to exponent notation from 10^21. Neither is modelled.
- The HTTP transport, MSW's request matching, `HttpResponse.json` serialisation and the test-only replacement of the counter handler are not modelled.
- These UI and infrastructure files are not part of this model:
  - the React components, which only map state to the DOM;
  - `useLocalStorage.js`, which is `localStorage` I/O;
  - `useQuestion.js` and `Fetch.jsx`, which are `fetch` and react-query plumbing;
  - `mocks/server.js`;
  - the ESLint configuration.
