# mock-hass-websocket: the scripted engine, in Dafny

mock-hass-websocket is a mock Home Assistant WebSocket server. A test gives it a
script, a list of steps loaded from YAML. A *send* step writes a JSON payload
to the client `at_ms` milliseconds after the run starts. An *expect* step waits
at most `timeout_ms` milliseconds for a client message that *deep-matches* a
pattern. While the script plays, a receiver task reads the client's frames.
It decodes each frame, logs it in the engine's history and puts it on a queue
that the expect steps consume. Every step that is sent is logged as well.

This project models that core and proves properties of the model:

- `match.dfy` (module `Match`): `deep_match`. A mapping pattern is a subset
  match, applied recursively. A list pattern matches position by position and
  needs the same length. Any other pattern is plain equality.
- `models.dfy` (module `Models`): the records of `models.py`, meaning the two
  kinds of step, the history entry and the script. Record construction from
  keyword fields is modelled as a validation that names the fields that fail.
- `loader.dfy` (module `Loader`): `load_script`, starting from the document
  YAML has already parsed. It turns each entry into a step by its `type`
  field.
- `engine_spec.dfy` (module `EngineSpec`): the engine as functions on a
  `State`. A state holds the engine's fields, the event-loop clock, the frames
  not yet read and the payloads written. These functions are the
  specification that the class is proved against, and the lemmas state what
  the engine promises.
- `engine.dfy` (module `Engine`): `class Engine`. Its fields are updated in
  place by methods with loops. Each method is proved to leave the state that
  the matching `EngineSpec` function computes.
- `scenarios.dfy` (module `Scenarios`): the engine scenarios of
  `tests/test_engine.py` and `tests/test_engine_buffering.py`, worked out on
  the model.
- `json.dfy` and `wrappers.dfy`: JSON values, `Option` and `Result`.

## Time and concurrency

Time is an integer clock counted in milliseconds. The peer's frames are a
sequence, and each frame carries the time it arrives and what `json.loads`
makes of it. The receiver task and the script player share one event loop.
In the model the receiver reads frames at two of the player's suspensions:

- while a send sleeps until its deadline;
- while an expect waits on an empty queue.

A frame read at clock `now` is processed at time `max(now, arrival)`. A wait
with deadline `d` is woken only by a frame that arrives before `d`, and it
returns as soon as that frame's message is queued. When no such frame
arrives, the clock ends at `d` and the step times out. The source's receiver
behaves differently when several frames arrive together; "## Left out" says
how.

## Code and tests disagree on expect

`_handle_expect` in `src/mock_hass_websocket/engine.py` drops every message
that does not match. `tests/test_engine_buffering.py` requires something
else. It requires a reorder buffer, `_skipped_packets`. Messages that did not
match go into the buffer, and a later expect looks in the buffer first. The
engine has no such attribute, and its own test suite expects behaviour it
does not have. The model keeps both versions:

- `EngineSpec.ExpectStep` and `Engine.Engine.HandleExpect` follow the code. The
  run uses them.
- `EngineSpec.ExpectBuffered` and `Engine.Engine.HandleExpectBuffered` follow
  the tests.
- `Scenarios.SourceDropsEarlyMessage` shows that the code as written fails
  the buffering test's second expect.
- `Scenarios.BufferedReordersTwo` and `Scenarios.BufferedReordersThree` show
  that the buffered version passes both buffering tests.

## Model

| member | source | states |
|---|---|---|
| Match.DeepMatch | src/mock_hass_websocket/engine.py:11-35 | every value matches itself as a pattern |
| Match.DictPatternIsSubsetMatch | src/mock_hass_websocket/engine.py:18-26 | a mapping pattern matches exactly the mappings that have every pattern key with a matching value (both directions) |
| Match.ExtraKeysIgnored | src/mock_hass_websocket/engine.py:21-26 | adding a key the pattern does not mention keeps a match |
| Match.MissingKeyFails | src/mock_hass_websocket/engine.py:21-23 | a received mapping without one of the pattern's keys does not match |
| Match.ListPatternIsPositional | src/mock_hass_websocket/engine.py:27-33 | a list pattern matches exactly the lists of the same length whose items match position by position (both directions) |
| Match.ScalarPatternIsEquality | src/mock_hass_websocket/engine.py:34-35 | a pattern that is neither a mapping nor a list matches only a value equal to it |
| Match.DeepMatchTransitive | src/mock_hass_websocket/engine.py:11-35 | matching is transitive: a value that matches a more specific pattern also matches a pattern that the specific one matches |
| Match.DeepMatchAntisymmetric | src/mock_hass_websocket/engine.py:11-35 | two values that match each other are equal |
| Match.DictExamples | tests/test_engine.py:8-12 | the mapping cases of test_deep_match_dict: extra keys allowed, missing keys and nested mismatches rejected |
| Match.ListAndScalarExamples | tests/test_engine.py:14-23 | the list and scalar cases of test_deep_match_list and test_deep_match_primitives |
| Models.DirectionName | src/mock_hass_websocket/models.py:23 | a direction is written as "sent" or "received", and "sent" only for Sent |
| Models.ParseDirection | src/mock_hass_websocket/models.py:23 | the direction literal accepts exactly "sent" and "received" |
| Models.DirectionRoundTrip | src/mock_hass_websocket/models.py:20-24 | writing a direction and reading it back gives the same direction, and the other way round |
| Models.FieldErrors | src/mock_hass_websocket/models.py:8-18 | no field fails exactly when the tag is the record's literal, the integer field holds an integer and the value field is present |
| Models.NewSend | src/mock_hass_websocket/models.py:8-12 | SendInteraction(**fields) succeeds exactly when type is "send", at_ms is an integer and payload is present, and then carries those values; otherwise it names at least one field, and names each of type, at_ms and payload exactly when that field fails |
| Models.NewExpect | src/mock_hass_websocket/models.py:14-18 | ExpectInteraction(**fields) succeeds exactly when type is "expect", timeout_ms is an integer (negative allowed) and match is present, and then carries those values; otherwise it names at least one field, and names each of type, timeout_ms and match exactly when that field fails |
| Models.DumpRoundTrip | src/mock_hass_websocket/models.py:8-18 | dumping a step to its fields and constructing the record again gives the same step |
| Models.ModelExamples | tests/test_models.py:5-31 | valid records; a wrong tag names "type"; a bare tag names "at_ms" and "payload"; a timeout of -10 is kept |
| Loader.ScriptEntries | src/mock_hass_websocket/loader.py:10 | a document that is not a mapping fails; a missing "script" key gives no entries; a list gives its items |
| Loader.ParseStep | src/mock_hass_websocket/loader.py:11-17 | one entry of the script as a step or an error; its contract is stated by ParseStepDispatch and ParseStepRoundTrip |
| Loader.ParseStepDispatch | src/mock_hass_websocket/loader.py:11-17 | an entry becomes a Send step exactly when its type is "send" and the record validates, an Expect step likewise for "expect"; any other type, or none, is an unknown type |
| Loader.ParseStepRoundTrip | src/mock_hass_websocket/loader.py:11-15 | an entry written from a step is loaded as that step |
| Loader.LoadScript | src/mock_hass_websocket/loader.py:5-19 | the script holds one step per entry, in order, exactly when every entry loads; otherwise it fails with the error of the first entry that does not load; a document without "script" gives an empty script |
| Loader.LoaderExamples | tests/test_loader.py:7-25 | the entries of test_load_script_valid load as the expected steps, and the entry of test_load_script_unknown_interaction_type is an unknown type |
| EngineSpec.FirstMatch | src/mock_hass_websocket/engine.py:93-111 | the index found holds an accepted message and every earlier one is rejected; None means that no message is accepted |
| EngineSpec.Clock | src/mock_hass_websocket/engine.py:120-131 | the clock after reading a run of frames is no earlier than the clock before and than every arrival among them |
| EngineSpec.ReceiveNext | src/mock_hass_websocket/engine.py:120-131 | one turn of the receiver loop on a state; its contract is stated by ReceiveNextFacts |
| EngineSpec.ReceiveNextFacts | src/mock_hass_websocket/engine.py:120-131 | a frame that decodes is logged as "received" at the current time and enqueued at the back; one that does not decode is dropped; no message is lost; the history gains exactly the receipts of the frames read, and the queue exactly those messages |
| EngineSpec.Deliver | src/mock_hass_websocket/engine.py:74-76 | the sleep of a send on a state, with the receiver running; its contract is stated by DeliverFacts |
| EngineSpec.DeliverStream | src/mock_hass_websocket/engine.py:74-76 | the sleep reads exactly the frames that arrived by t, a prefix of those waiting, and leaves the next one when it arrives later; it loses no message, keeps the buffer and ends at the later of the clock and t |
| EngineSpec.DeliverLogs | src/mock_hass_websocket/engine.py:74-76 | the "received" entries the sleep adds are, in order, the messages of exactly the frames it read that decode, and each joined the back of the queue |
| EngineSpec.DeliverFacts | src/mock_hass_websocket/engine.py:74-76 | a sleep until t reads exactly the frames that arrived by t, a prefix of those waiting, and stops before the first that arrives later; it loses no message, logs as "received" and enqueues, in arrival order, exactly the frames read that decode, and ends with the clock at t, or later when the clock was already past t |
| EngineSpec.SendStep | src/mock_hass_websocket/engine.py:68-84 | _handle_send on a state; its contract is stated by SendFacts |
| EngineSpec.SendLogs | src/mock_hass_websocket/engine.py:68-84 | a send adds to the history, besides its own "sent" entry, exactly the receipts of the frames its sleep read, each also enqueued |
| EngineSpec.SendFacts | src/mock_hass_websocket/engine.py:68-84 | the payload is written exactly once, never before start_time + at_ms, and logged as the history's new last "sent" entry after what was received during the sleep; the sleep reads exactly the frames that arrived by start_time + at_ms, a prefix of those waiting, and stops before the first that arrives later; the "received" entries before the send are exactly the frames read that decode, each also enqueued; a past deadline sends without waiting or reading |
| EngineSpec.WaitPacket | src/mock_hass_websocket/engine.py:101-103 | the wait on the packet queue on a state; its contract is stated by WaitPacketFacts |
| EngineSpec.WaitPacketStream | src/mock_hass_websocket/engine.py:101-103 | waiting leaves a non-empty queue alone, loses no message, stops with a message queued or no frame arrived before the deadline, and stays before the deadline |
| EngineSpec.WaitPacketLogs | src/mock_hass_websocket/engine.py:101-103 | the "received" entries the wait adds are, in order, the messages of exactly the frames it read that decode, and each joined the back of the queue |
| EngineSpec.WaitPacketReads | src/mock_hass_websocket/engine.py:101-103 | the wait reads the first n frames, all arrived before the deadline, and the clock is where reading them left it; from a non-empty queue it reads none; from an empty one it stops at the first frame that decodes, whose message is then the one queued |
| EngineSpec.WaitPacketFacts | src/mock_hass_websocket/engine.py:101-103 | waiting reads frames only while the queue is empty and only those that arrive before the deadline, loses no message, logs and enqueues each frame read that decodes, and leaves the clock before the deadline; from an empty queue it stops at the first frame that decodes, with at most that message queued and the clock where reading the frames left it |
| EngineSpec.WaitPacketKeeps | src/mock_hass_websocket/engine.py:101-103 | waiting keeps the start time and the writes, and only adds "received" entries to the history, in time order |
| EngineSpec.ExpectTurn | src/mock_hass_websocket/engine.py:90-111 | one pass of the loop of _handle_expect on a state; its contract is stated by ExpectTurnFacts, ExpectTurnKeeps, ExpectTurnTiming, ExpectTurnReads and ExpectTurnLogs |
| EngineSpec.ExpectTurnFacts | src/mock_hass_websocket/engine.py:93-111 | one pass of the loop either expires and takes nothing, or takes the head of the message stream and buffers it only in the buffered loop when it does not match |
| EngineSpec.ExpectTurnKeeps | src/mock_hass_websocket/engine.py:93-111 | one pass keeps the start time and the writes, and only adds "received" entries to the history, in time order |
| EngineSpec.ExpectTurnTiming | src/mock_hass_websocket/engine.py:90-111 | a pass with no budget left expires and changes nothing; with budget left, it expires only at the deadline with an empty queue and nothing arrived before it, and it takes a message only before the deadline |
| EngineSpec.ExpectTurnReads | src/mock_hass_websocket/engine.py:100-106 | a pass that takes a message from a non-empty queue takes its head without reading or advancing the clock; from an empty queue it reads frames up to the first that decodes, takes that message, leaves the queue empty and the clock where reading left it |
| EngineSpec.ExpectTurnLogs | src/mock_hass_websocket/engine.py:100-106 | a pass logs and enqueues each frame it reads that decodes, and takes at most the head of the queue |
| EngineSpec.ExpectTurnPrefix | src/mock_hass_websocket/engine.py:94-103 | whether or not it takes a message, a pass reads a prefix of the waiting frames, every one of which arrived before the deadline |
| EngineSpec.ExpectLoop | src/mock_hass_websocket/engine.py:90-115 | the loop of _handle_expect on a state, dropping or buffering what does not match; its contract is stated by ExpectLoopFacts, which includes that a queued match is taken without reading a frame or moving the clock, and by QueuedMatch |
| EngineSpec.ExpectLoopConsumes | src/mock_hass_websocket/engine.py:90-115 | the loop consumes messages in FIFO order and stops at the first that matches; the messages before it were dropped or, when buffered, appended to the buffer in order; the start time and the writes are kept |
| EngineSpec.ExpectLoopTiming | src/mock_hass_websocket/engine.py:90-115 | with budget left, the loop times out only at the deadline with an empty queue and no frame arrived before the deadline, and it matches only before the deadline |
| EngineSpec.ExpectLoopReads | src/mock_hass_websocket/engine.py:90-115 | on a match the loop has read the first n frames and no more, the clock is where reading them left it, the last frame read carries a matching message, and some frame was read whenever no queued message matched |
| EngineSpec.ExpectLoopPrefix | src/mock_hass_websocket/engine.py:90-115 | whether it matches or times out, the loop reads a prefix of the waiting frames, every one of which arrived before the deadline |
| EngineSpec.ExpectLoopEmpties | src/mock_hass_websocket/engine.py:93-108 | a match found when no queued message matched leaves the queue empty: the loop stops reading at the first frame whose message matches (under the model's wait rule, see "## Left out") |
| EngineSpec.ExpectLoopLogs | src/mock_hass_websocket/engine.py:90-115 | the loop logs and enqueues each frame it reads that decodes, and what it took is a prefix of the queue so extended |
| EngineSpec.ExpectLoopFacts | src/mock_hass_websocket/engine.py:90-115 | the loop consumes messages in FIFO order and stops at the first one that matches: it matched exactly when the last message consumed matches; the messages before it were dropped or, when buffered, appended to the buffer in order; the rest of the stream is untouched; it reads a prefix of the waiting frames, all arrived before the deadline, and the history gains the receipts of exactly those frames; with no budget left it times out at once and changes nothing, and otherwise it times out only at the deadline with nothing arrived before it; a match returns at once: on the clock reached by reading the frames it read, the last of which carries the match and leaves the queue empty when no queued message matched, and when a queued message matches and budget is left, it matches without reading a frame or moving the clock, the history unchanged and the queue cut after the first queued match |
| EngineSpec.QueuedMatch | src/mock_hass_websocket/engine.py:101-111 | with budget left and an accepted message already queued, the loop takes the first one at once and leaves the rest of the queue |
| EngineSpec.ExpectStep | src/mock_hass_websocket/engine.py:86-115 | _handle_expect as written, on a state; its contract is stated by ExpectTakesFirstMatch, ExpectNonPositiveTimeout and ExpectQueuedMatch |
| EngineSpec.ExpectTakesFirstMatch | src/mock_hass_websocket/engine.py:86-115 | _handle_expect as written returns on the first matching message and drops every earlier one; it leaves the buffer, the start time and the writes alone; it reads a prefix of the waiting frames, all arrived before start + timeout_ms, and logs exactly those; with a positive timeout it times out only at start + timeout_ms, with an empty queue and no frame arrived before then; it matches at the clock reached by reading the frames it read, the last of which carries the first match and leaves the queue empty; with a positive timeout and a match already queued, it matches without reading a frame or moving the clock, the history unchanged and the queue cut after that match |
| EngineSpec.ExpectNonPositiveTimeout | src/mock_hass_websocket/engine.py:95-99 | a budget of zero or less times out at once, with nothing dequeued, read or logged |
| EngineSpec.ExpectQueuedMatch | src/mock_hass_websocket/engine.py:101-111 | with a positive budget and a match already queued, the code as written drops the queued messages before the match and leaves the rest of the queue |
| EngineSpec.ExpectBuffered | tests/test_engine_buffering.py:7-54 | the expect with a reorder buffer the buffering tests require, on a state; its contract is stated by ExpectBufferedHit (a buffered match is taken and nothing else changes), ExpectBufferedMiss (with no buffered match, the live wait buffers what does not match, and a match already queued is taken without reading a frame), QueuedMatch and ExpectNonPositiveTimeout |
| EngineSpec.ExpectBufferedHit | tests/test_engine_buffering.py:25-27 | in the buffered variant, a buffered match ends the step at once: the first matching buffered message is removed and the others stay in order |
| EngineSpec.ExpectBufferedMiss | tests/test_engine_buffering.py:19-23 | in the buffered variant with no buffered match, every message consumed without matching is appended to the buffer in arrival order, and the match is the first one that matches; it reads a prefix of the waiting frames, all arrived before the deadline, and logs exactly those; with a positive timeout it times out only at the deadline with nothing arrived before it; it matches at the clock reached by reading the frames it read, the last of which carries the first match and leaves the queue empty when no queued message matched; with a positive timeout and a match already in the queue, it matches without reading a frame or moving the clock, the history unchanged and the queue cut after that match |
| EngineSpec.RunFrom | src/mock_hass_websocket/engine.py:52-64 | the loop of run over the remaining steps, on a state; its contract is stated by RunFromFacts |
| EngineSpec.Run | src/mock_hass_websocket/engine.py:44-66 | run on a state; its contract is stated by RunFacts |
| EngineSpec.RunFromSends | src/mock_hass_websocket/engine.py:52-64 | the steps run in order and the history stays in time order; a completed run wrote every send payload in order; a failed run failed at an expect step and wrote exactly the payloads of the send steps before it |
| EngineSpec.RunFromFails | src/mock_hass_websocket/engine.py:52-64 | a run fails at step k only when the steps before k completed and the expect of step k, from the state they left, timed out with the run's final state |
| EngineSpec.RunFromCompletes | src/mock_hass_websocket/engine.py:52-64 | a run completes only when every expect step matched, from the state the completed steps before it left |
| EngineSpec.RunFromLogs | src/mock_hass_websocket/engine.py:52-64 | the "received" entries a run adds are, in order, the messages of exactly the frames it read that decode, and each went onto the queue, from which the expects took a prefix |
| EngineSpec.RunFromFacts | src/mock_hass_websocket/engine.py:52-64 | all of RunFromSends, RunFromFails and RunFromCompletes: steps run in order, a failure is exactly an expect timing out after the earlier steps completed, and a completion met every expect and wrote every send payload in order |
| EngineSpec.RunFacts | src/mock_hass_websocket/engine.py:44-66 | run takes the start time from the clock and starts a fresh history; the history is in time order, and its "sent" entries are the script's send payloads on completion, or those before the failing expect step on failure; a failure is that expect timing out after the steps before it completed, and a completion met every expect; the "received" entries are, in arrival order, exactly the messages of the frames read, each of which joined the queue; the queue, the buffer, the unread frames and the writes are kept at the start; an empty script completes at once |
| Engine.Engine.constructor | src/mock_hass_websocket/engine.py:38-42 | a new engine has start time 0 and an empty queue and history |
| Engine.Engine.ReceiveFrame | src/mock_hass_websocket/engine.py:117-135 | one iteration of the receiver loop leaves the state ReceiveNext computes |
| Engine.Engine.SleepUntil | src/mock_hass_websocket/engine.py:74-76 | the sleep leaves the state Deliver computes |
| Engine.Engine.HandleSend | src/mock_hass_websocket/engine.py:68-84 | leaves the state EngineSpec.SendStep computes |
| Engine.Engine.WaitForPacket | src/mock_hass_websocket/engine.py:101-103 | leaves the state WaitPacket computes |
| Engine.Engine.ExpectPass | src/mock_hass_websocket/engine.py:93-111 | one pass of the loop ends the step or goes on exactly as ExpectTurn says |
| Engine.Engine.AwaitMatch | src/mock_hass_websocket/engine.py:93-115 | returns the outcome and leaves the state ExpectLoop computes |
| Engine.Engine.HandleExpect | src/mock_hass_websocket/engine.py:86-115 | returns the outcome and leaves the state EngineSpec.ExpectStep computes |
| Engine.Engine.HandleExpectBuffered | tests/test_engine_buffering.py:7-54 | returns the outcome and leaves the state ExpectBuffered computes |
| Engine.Engine.Run | src/mock_hass_websocket/engine.py:44-66 | returns the outcome and leaves the state EngineSpec.Run computes; the start time is the clock at the call, the history is in time order, and its "sent" entries are the script's send payloads, or those before the failing expect step; a failure is that expect timing out after the steps before it completed, and a completion met every expect; the "received" entries are exactly the messages of the frames read, in arrival order |
| Scenarios.EngineSendsOnce | tests/test_engine.py:26-39 | a script of one send at 10 ms writes that payload once, at 10 ms |
| Scenarios.EngineExpectSuccess | tests/test_engine.py:41-65 | an expect for {"type": "auth"} is met by {"type": "auth", "token": "abc"} |
| Scenarios.EngineExpectTimeout | tests/test_engine.py:67-81 | a message that arrives after 500 ms does not meet a 100 ms expect: the run fails at step 0 with the clock at 100 |
| Scenarios.EngineIgnoresMismatch | tests/test_engine.py:83-98 | a ping is logged and skipped, then the auth message completes the run |
| Scenarios.MsgMatch | tests/test_engine_buffering.py:10-11 | {"msg": a} matches {"msg": b} exactly when a = b |
| Scenarios.BufferedReordersTwo | tests/test_engine_buffering.py:7-27 | with B then A queued, the buffered variant matches A and buffers B, then takes B from the buffer |
| Scenarios.SourceDropsEarlyMessage | src/mock_hass_websocket/engine.py:105-111 | in the same scenario, the code as written drops B while matching A, and the expect for B then times out |
| Scenarios.BufferedReordersThree | tests/test_engine_buffering.py:30-54 | with 3, 2, 1 queued, the buffered variant meets the expects for 1, 2 and 3, and the buffer ends empty |
| Scenarios.BufferedFirst | tests/test_engine_buffering.py:43-45 | expecting 1 buffers 3 and 2 |
| Scenarios.BufferedSecond | tests/test_engine_buffering.py:47-50 | expecting 2 takes it from the buffer and leaves 3 |
| Scenarios.BufferedThird | tests/test_engine_buffering.py:52-54 | expecting 3 empties the buffer |
| Scenarios.BudgetStartsAtPreviousMatch | src/mock_hass_websocket/engine.py:86-103 | with A due within 500 ms arriving at 10 ms and B due within 100 ms arriving at 150 ms, the first expect returns at 10 ms, so the second gives up at 110 ms and the run fails at step 1 |
| Scenarios.FirstFrameMatchReturns | src/mock_hass_websocket/engine.py:103-108 | with A, X and A arriving at 10, 20 and 30 ms, an expect for A returns at 10 ms on the first A, logs only it and leaves the two later frames unread |

## Left out

- The YAML file: reading it and `yaml.safe_load` are not modelled. `Loader.LoadScript` starts from the parsed document, so a missing file and invalid YAML are left out.
- JSON text: encoding and decoding are not modelled. A frame carries the result of `json.loads` (a payload, or none for invalid JSON), and a send writes the payload itself rather than its `json.dumps` text.
- Concurrency: tasks are not modelled, and neither is the receiver's cancellation at the end of a run. The receiver runs only while the player sleeps in a send or waits in an expect, as described above. `await websocket.send` (src/mock_hass_websocket/engine.py:79) is another point at which the receiver could run, and the model does not let it run there.
- Time: the clock counts integer milliseconds rather than floating-point seconds of `loop.time()`. `at_ms / 1000.0` and `timeout_ms / 1000.0` become plain millisecond arithmetic.
- Logging (`logger.*`) is output only and is not modelled.
- The two timeout messages of `_handle_expect` are modelled as one outcome. The loop's own TimeoutError and the re-raised one from `wait_for` both become `TimedOut`, and the run fails with the step's pattern and timeout.
- The closing of the connection is not modelled. `ConnectionClosed` in the receiver and the sequence of frames simply running out look the same to the player.
- Errors from `websocket.send` are not modelled, because the connection is not modelled.
- The pydantic lax coercions are not modelled. An integer field accepts only a JSON integer, not a numeric string, a float with no fractional part or a boolean. Keys that a record does not declare are ignored, as pydantic ignores them.
- JSON numbers that are not integers are not modelled. `json.loads` and YAML both produce floats, and Python's `1 == 1.0` in the scalar match is lost; a JSON value here is null, a boolean, an integer, a string, a list or a mapping.
- Python's `==` between `True` and `1` does not apply to the scalar match. Booleans and integers are distinct JSON values here.
- `Loader.ScriptEntries`: iterating a non-empty mapping or string under "script" is modelled as the first entry's failing `.get`, because its entries are strings. Iterating any other value that is not a list is a single `NotIterable` error.
- EngineSpec.WaitPacket: the wait returns right after the first frame that decodes, even when more frames have already arrived by then. In the source, `_receiver_loop` (src/mock_hass_websocket/engine.py:120-131) does not suspend between frames that are already received: `async for` over buffered frames and `put` on the unbounded queue both return at once. So it logs and enqueues every such frame before the expect resumes. With A and B both arriving at 10 ms, an expect for A and then a send, the model logs R A and then S P and leaves B unread. The source logs R A, R B and S P, and leaves B in the queue. So receipts of frames that arrive together can be logged later than in the source, after the sends that follow, or not at all when the run ends first. Run outcomes are the same: a frame left unread is read by the next sleep or wait at the clock it has then, and the next expect takes its message in the same queue order as the source does. The "queue left empty" clauses of EngineSpec.ExpectLoopEmpties, ExpectTakesFirstMatch and ExpectBufferedMiss hold because of this rule.
- JSON mappings have string keys only. A YAML entry may have keys that are not strings, and then `SendInteraction(**item)` or `ExpectInteraction(**item)` (src/mock_hass_websocket/loader.py:13, 15) raises TypeError. Documents of that kind are outside the model.
- `server.py`, `main.py` and the persistence of the history are not part of this model.

## Findings

| source | as written | input that shows it | evidently intended | confidence | as-written member | corrected member |
|---|---|---|---|---|---|---|
| src/mock_hass_websocket/engine.py:105-111 | `_handle_expect` drops every dequeued message that does not match, and the engine has no `_skipped_packets` attribute | tests/test_engine_buffering.py:16-26: B then A queued, expect A, then expect B within 500 ms. The first expect matches A and drops B, and the second times out. The test already stops at line 22, where `engine._skipped_packets` raises AttributeError | a reorder buffer: a message that does not match is kept in `_skipped_packets`, and a later expect takes the first buffered match before it waits | not executed | Scenarios.SourceDropsEarlyMessage | EngineSpec.ExpectBuffered, with its properties proved in EngineSpec.ExpectBufferedHit, EngineSpec.ExpectBufferedMiss and Scenarios.BufferedReordersTwo |
