# Task relay over WebSocket: a verified model

This system relays free-form text tasks from WebSocket clients to one browser
automation agent. It broadcasts a status message and then the agent's result
to every connected client. The model covers four parts:

- the connection manager: the client registry, normalisation of frames, and fan-out broadcasts;
- the task handler: the staleness test, the one-at-a-time lock discipline, and the executor's two outcomes;
- the host and port resolution at start-up;
- the process-wide result store.

Modules, leaves first:

- `Wrappers` holds `Option` and `Result`.
- `Json` holds the decoded JSON values, and the result of `json.loads` as `ParseError | Parsed(v)`.
- `Config` covers how `initialize` picks the host and port. It includes a model of Python's `int()` on the port text.
- `Normalizer` covers the frame normalisation in `handle_connection`.
- `Server` is the `WebSocketServer` class. It holds the registry of connected clients, and a per-client outbox that `send_message` appends to.
- `Dispatch` is the decision rule of `handle_websocket_message`, written as a pure function. It says what the handler does with a record, given the watermark and what the executor does. Its side effects are a list of events (`Acquire`, `Broadcast`, `Execute`, `Release`). A small automaton over that list (`Free`, `Held`, `Violated`) states the lock discipline, including for runs of many calls.
- `Agent` holds the module-level state of agent.py in a class. That state is the watermark `last_task_completed_timestamp` and the lock `agent_lock`, held as a flag plus a ghost trace of events. The handler is a method proved against `Dispatch.Handle`.
- `App` is `handle_connection` with the agent's handler installed. It registers a client, handles its frames in order until one raises, and unregisters the client on every path.
- `SharedStateStore` is the singleton `SharedState` and its keyed store.

The environment is passed in as parameters:

- `json.loads(raw)` is a function `loads: string -> ParseResult`.
- `datetime.fromisoformat` is `fromIso: string -> Option<Time>`. That it reads every string `datetime.now().isoformat()` produces is a hypothesis of `App.ServeStamped`, not a property of the parameter.
- The reading of `datetime.now().isoformat()` is a string per frame.
- What `agent.run()` does is a value `ExecResult` per frame: it returns a final result, which may be `None`, or it raises.
- The process environment is a map.

The watermark `last_task_completed_timestamp` is set to `None` at agent.py:27 and declared `global` in the handler at agent.py:30, but nothing in the repository ever assigns it. The model follows the code. `Dispatch.Handle` proves that the watermark never changes, and `Dispatch.NothingDiscardedFromStart` proves that, from the initial state, no task is ever discarded.

## Model

| member | source | states |
|---|---|---|
| Normalizer.Normalize | websocket_server.py:29-41 | every record has "text" and "timestamp"; a JSON object with "text" keeps all its entries and gets a timestamp only when it has none; a frame that does not decode becomes `{"text": raw, "timestamp": now}`; a decoded value that is not such an object becomes the text itself |
| Normalizer.KeepsClientTimestamp | websocket_server.py:34-35 | a task object that already carries a timestamp passes through unchanged |
| Normalizer.NormalizeIdempotent | websocket_server.py:29-41 | a normalised record sent back as a JSON object is normalised to itself |
| Config.GetEnv | websocket_server.py:19-20 | `os.getenv(name, default)`: a variable that is set wins, even when empty |
| Config.ResolveHost | websocket_server.py:19 | a truthy host argument wins, then `WS_HOST`, then "localhost" |
| Config.ResolvePort | websocket_server.py:20 | a port argument other than `None` or 0 wins; otherwise `int()` of `WS_PORT`, or 8765 when unset; text `int()` rejects is the error case |
| Config.PyIntAccepts | websocket_server.py:20 | `int()` accepts the text exactly when, after stripping the space, tab, LF, VT, FF and CR characters around it, it is an optional sign followed by digits with single underscores between them; the value is that of the digits, negated after a minus sign |
| Config.PyIntRejectsLeadingJunk | websocket_server.py:20 | text that starts with a character that is not whitespace, a sign or a digit, and does not end in whitespace, is rejected by `int()` |
| Config.PyIntRejectsSeparator | websocket_server.py:20 | a U+001C separator before the digits is not skipped, so `int()` raises on it |
| Config.PyIntDecimal | websocket_server.py:20 | `int(str(n)) == n` for every natural number |
| Config.PyIntNegative | websocket_server.py:20 | `int("-" + str(n)) == -n` |
| Config.PyIntMinusDigits | websocket_server.py:20 | a minus sign followed by plain digits of value `v` reads as `-v` |
| Config.DefaultPortParses | websocket_server.py:20 | the default text "8765" reads as the default port 8765 |
| Server.WebSocketServer.constructor | websocket_server.py:10-16 | no clients, address localhost:8765, no current websocket |
| Server.WebSocketServer.Initialize | websocket_server.py:17-20 | the host is the resolved one; the port is the resolved one, or is unchanged (after the host was set) when `int()` raises |
| Server.WebSocketServer.SendMessage | websocket_server.py:49-55 | every connected client is sent the message exactly once and no other client anything; with no clients nothing changes |
| Server.DeliveredThen | websocket_server.py:49-55 | two broadcasts to the same registry deliver their messages in order |
| Dispatch.ReplyText | agent.py:54 | the reply is the final result followed by a space and U+1F680; a missing result prints as "None" |
| Dispatch.IsStale | agent.py:37 | no watermark means nothing is stale; a task stamped exactly at the watermark is not stale |
| Dispatch.ReadTask | agent.py:33-34 | the timestamp is read before the text; a missing key, a non-string timestamp or unparsable ISO text is the matching error; otherwise the task is the record's text and parsed time |
| Dispatch.Handle | agent.py:28-57 | no call changes the watermark |
| Dispatch.HandleProperties | agent.py:33-57 | a record that cannot be read raises with no effect; a stale task is dropped with no broadcast, no executor run and no lock; an accepted task takes the lock first, releases it last, runs the executor once on the text, and broadcasts "Processing..." then the reply on success, or only "Processing..." when the executor raises; the lock is free after every call |
| Dispatch.DispatchExecutesOnce | agent.py:44-52 | the executor runs exactly once, on the task text |
| Dispatch.DispatchSends | agent.py:51-56 | the broadcasts are "Processing..." and then the reply, and the reply is left out when the executor raises |
| Dispatch.DispatchReleases | agent.py:42-57 | the locked block takes the free lock and gives it back on both paths |
| Dispatch.ExecuteOnlyUnderLock | agent.py:42-56 | in any trace that keeps the lock discipline, every executor run and broadcast happens while the lock is held |
| Dispatch.NothingDiscardedFromStart | agent.py:27-39 | starting from the initial watermark, no call of any sequence is discarded and the watermark stays unset |
| Dispatch.ReplayLeavesLockFree | agent.py:26-57 | after any sequence of handler calls the lock is free |
| Agent.TaskAgent.constructor | agent.py:26-27 | no watermark, lock free, empty trace |
| Agent.TaskAgent.HandleWebsocketMessage | agent.py:28-57 | the outcome and events are those of `Dispatch.Handle` on the current watermark; the watermark is unchanged; connected clients are sent exactly the call's broadcasts; the lock is free again afterwards |
| Agent.TaskAgent.RunTask | agent.py:42-57 | the `async with agent_lock` block: its events are acquire, the locked body, release; the outcome is the reply or the executor's exception; clients are sent the call's broadcasts |
| Agent.TaskAgent.Locked | agent.py:43-56 | while the lock is held: "Processing..." is broadcast, then the reply when the executor returns |
| App.Serve | websocket_server.py:26-47 | at most one call per frame; only the last call can raise; frames are left unread only after a call raised |
| App.ServeOutcomes | websocket_server.py:29-43 | since every normalised record has both keys, no call raises a `KeyError`; from the initial watermark no frame is discarded |
| App.StampedRecordReads | websocket_server.py:34-40 | a record the server stamps itself can be read whenever the server's stamp parses; the call on it is then discarded, completed, or fails only because the executor raised, and without a watermark it is not discarded |
| App.ServeStamped | websocket_server.py:29-43 | when `fromIso` reads the server's own stamps, a frame the server stamps (one that is not an object with both "text" and "timestamp") never fails on its timestamp: it is discarded, completed, or fails only because the executor raised; from the initial watermark it is always dispatched |
| App.HandleFrame | websocket_server.py:29-45 | one pass of the `async for` loop: normalise the frame and run the handler on the record |
| App.ServeNext | websocket_server.py:27-45 | one loop iteration: the next call of `Serve` joins the calls made so far, and its events and broadcasts join theirs |
| App.ServeFrames | websocket_server.py:27-45 | the loop makes exactly the calls of `Serve`, in order, stopping at the first exception; the agent's trace and every client's outbox grow by exactly those calls' events and broadcasts |
| App.HandleConnection | websocket_server.py:22-47 | the client is registered and made the current websocket; while its frames are handled it receives every broadcast with the other members; afterwards it has left the registry on every path |
| SharedStateStore.Lookup | shared_state.py:28 | `dict.get`: the stored value exactly when the key is present |
| SharedStateStore.LookupAfterSet | shared_state.py:20-28 | after storing `v` under `k`, `k` yields `v` and every other key is as before |
| SharedStateStore.LookupAfterReset | shared_state.py:25-34 | after removing `k`, `k` yields nothing and every other key is as before |
| SharedStateStore.ResetAbsent | shared_state.py:33-34 | removing an absent key changes nothing |
| SharedStateStore.SharedState.constructor | shared_state.py:10-11 | a new instance starts not yet initialised |
| SharedStateStore.SharedState.Init | shared_state.py:14-18 | only the first `__init__` creates the empty store; later calls leave it as it is |
| SharedStateStore.SharedState.SetData | shared_state.py:20-23 | the value is stored under the key, overwriting any earlier value, and no other key changes |
| SharedStateStore.SharedState.GetData | shared_state.py:25-28 | the stored value, or `None` for an absent key; the store is not changed |
| SharedStateStore.SharedState.Reset | shared_state.py:30-34 | the key is removed; an absent key is a no-op; no other key changes |
| SharedStateStore.SharedStateClass.constructor | shared_state.py:6 | there is no instance before the first construction |
| SharedStateStore.SharedStateClass.New | shared_state.py:8-12 | the first call creates a fresh, uninitialised instance; every later call returns that same instance |
| SharedStateStore.SharedStateClass.Construct | shared_state.py:8-18 | `SharedState()` always yields the one instance; the first call gives it an empty store, and later calls keep the stored values |

## Left out

- The websockets library: accepting connections, `start` and `stop`, and the network itself. `client.send` is an append to the client's outbox. A send that fails is not modelled.
- Concurrency: connection handlers and handler calls run one after another, each to completion. `asyncio.gather` is a loop over the registry. A send that raises inside `gather`, the lock's fairness and interleaving between connections are not modelled.
- The lock is represented by the `busy` flag and the ghost trace. The waiting of a second caller on a held lock is not modelled.
- The executor (`Agent(...)`, the LLM, the browser, `browser.close()`): `agent.run()` is reduced to the per-frame `ExecResult`. An exception `browser.close()` or `Agent(...)` might raise is not modelled.
- `json.loads`: its decoding is not modelled, only its two kinds of result. The binary frames that the websockets library can yield are not modelled either.
- `datetime`: `fromisoformat` is a parameter and instants are integers. The `TypeError` from comparing naive and aware datetimes is not modelled.
- `set_message_handler` and the `iscoroutinefunction` branch: the model fixes the handler agent.py installs. The default no-op handler is not modelled.
- `wait_for_client_response`: `current_websocket` is assigned but never read by the modelled code.
- The logging `print` calls and `load_dotenv`.
- Config.PyInt: accepts only ASCII digits, and skips only the ASCII space, tab, LF, VT, FF and CR; like `int()`, it rejects U+001C-U+001F. Python's `int()` also accepts non-ASCII Unicode digits and skips non-ASCII whitespace, which the port text is not expected to contain.
- Config.PyInt: has no length limit. Since version 3.11, CPython raises `ValueError` on decimal text longer than 4300 digits; the model accepts such text.
- Normalizer.Normalize: dict key order is not represented, since records are maps.
- SharedStateStore.SharedState.GetData: the `Option` result tells a stored `None` apart from an absent key, while `dict.get` returns `None` for both.
- SharedStateStore.SharedState: the `asyncio.Lock` around each operation only serialises calls, and calls here already run one at a time.
