# MS-watcher in Dafny

MS-watcher watches a region of the screen. At each interval it takes a
screenshot, asks a vision model served by Ollama what the screenshot shows,
and posts the answer as an adaptive card to a Microsoft Teams webhook. The
program comes in two forms:

- a **control server** (`server.py`) with a remote **client** (`client.py`).
  They talk over TCP in newline-framed JSON: the client sends `start`/`stop`
  commands, and the server sends `{"log": ...}` lines back.
- a single-process **desktop watcher** (`MS-watcher.py`). It runs the same
  watch cycle behind a small window.

This project models the sequential logic of both forms and proves what it
promises:

- the newline framer both ends use: a `LineFramer` class whose `Feed` loop
  emits complete lines;
- the per-connection session state machine of `handle_client`: pure state
  functions, and a `Session` class that runs them over the framer;
- the worker's watch loop `auto_loop`: a method over oracle-supplied answers
  from `is_set()` and `wait()`;
- the decisions around the foreign calls (`analyze_image_ollama`,
  `notify_teams`, `perform_vision`), with each outcome of the foreign call
  passed in as a parameter;
- the client's receive loop, with its display filter, and its start/stop
  frames;
- the zone selector's rectangle normalisation;
- the desktop window's start/stop controller, which has no already-running
  check and no join.

Modules, one per file:

| module | file | models |
|---|---|---|
| `Wrappers` | wrappers.dfy | `Option` |
| `Json` | json.dfy | decoded JSON values; `dict.get` (last key wins), `tuple()`, truthiness, `str.strip()`/`isspace()`, `str()` of an integer |
| `Framing` | framing.dfy | `buffer.split('\n', 1)` framing; the `LineFramer` class |
| `Zone` | zone.dfy | `ZoneSelector.on_release`; what `select_zone` does once the selector has closed |
| `Protocol` | protocol.dfy | the wire objects; `send_log`; what the framing assumes of `json.dumps`/`json.loads` |
| `Vision` | vision.dfy | `analyze_image_ollama`, `notify_teams` and `perform_vision`, for both forms |
| `Watch` | watch.dfy | `auto_loop` |
| `Server` | server.dfy | `handle_client` |
| `Client` | client.dfy | `receive_logs`, `select_zone`, `start`, `stop` of the client |
| `Gui` | gui.dfy | `MS_Watcher.select_zone`/`start`/`stop` of the desktop watcher |
| `EndToEnd` | endtoend.dfy | the client and the server over one connection |

How the environment is abstracted:

- `json.loads` and `json.dumps` are function parameters (`loads`, `dumps`).
  The properties that need them to agree name the objects involved through
  `Protocol.RoundTrips`: the text of `v` is one non-blank line, and `loads`
  turns it back into `v`.
- A thread is an id.
  - `start` draws a fresh id.
  - `join` removes the joined id from the live set.
  - A thread that finishes by itself is an environment event (`TaskDied`).
    Examples: its prompt file cannot be opened, or its loop ended.
- Everything else the cycle depends on is a parameter:
  - whether the screenshot was taken;
  - the prompt text;
  - the Ollama reply or exception;
  - the timestamp;
  - the webhook status and body, or its exception.

Where the two forms differ, the code is followed:

- The desktop `notify_teams` calls its one-argument log callback with two
  arguments when the webhook post raises. That `TypeError` escapes, and the
  worker thread dies; `Vision.NotifyStep` models this.
- The desktop `start` has no already-running check, and its `stop` does not
  join. So two desktop workers can be alive at once (`Gui.StartTwiceRunsTwoWorkers`,
  `Gui.StopThenStartKeepsOldWorker`).
- The server's `stop` joins its worker, so a session never has two live
  workers (`Server.AtMostOneTask`).

The code differs from a loose reading of the protocol in two places:

- A malformed or non-object line does not get skipped. It ends the session.
- A truthy non-string `"log"` value ends the client's receive loop, because
  `message + "\n"` raises and the bare `except` breaks out.

## Model

| member | source | states |
|---|---|---|
| Json.Lookup | server.py:166 | `dict.get` on a decoded object: None exactly when no field has the key; otherwise the value of the last field with that key |
| Json.TupleOf | server.py:171 | `tuple()` of a `get` result: raises (None) exactly on a missing key, null, a bool or a number; an array gives its items; a string gives its one-character strings |
| Json.Strip | server.py:128 | `strip()`: a slice of the input that neither starts nor ends with whitespace, with only whitespace cut off on either side |
| Json.IntToString | server.py:100 | `str()` of an int: begins with `-` exactly for negatives; the rest is a non-empty run of decimal digits without a leading zero |
| Json.IntToStringValue | server.py:100 | the digits of `str(n)` denote the absolute value of n |
| Json.NatToStringRoundTrip | server.py:144 | the decimal text of a natural number reads back as that number |
| Json.IntToStringInjective | server.py:100 | different status codes are rendered as different texts |
| Framing.SplitFirst | server.py:163 | `split('\n', 1)`: a head with no newline, then the newline, then the tail, together the input |
| Framing.SplitFirstUnique | server.py:163 | that head/tail is the only such split |
| Framing.SplitLines | server.py:162-163 | the inner loop's result: lines without newlines plus a remainder without a newline, which re-framed give back the input |
| Framing.SplitLinesUnique | server.py:162-163 | any such decomposition is the one the loop produces |
| Framing.SplitChunked | server.py:155-163 | splitting `buffer + c1`, then the remainder `+ c2`, gives the lines and remainder of splitting `buffer + c1 + c2` |
| Framing.LineFramer.Feed | server.py:161-163 | after a chunk: the new buffer has no newline; the emitted lines (each without a newline), each followed by `\n`, then the new buffer, equal old buffer + chunk |
| Zone.OnRelease | client.py:123-127 | the zone has w, h >= 0; x, y are the minima of the press and release coordinates; x + w, y + h are the maxima |
| Zone.OnReleaseSymmetric | client.py:125-127 | swapping press and release gives the same zone |
| Zone.OnReleaseClick | MS-watcher.py:239-242 | press == release gives the zero-size zone at that point |
| Zone.OnReleaseSpans | MS-watcher.py:239-242 | both points lie in the zone, and each edge passes through one of them |
| Zone.AsJson | client.py:86 | the zone goes on the wire as the four integers x, y, w, h |
| Zone.SelectZone | client.py:68-80 | logs the prompt line; then a selected zone replaces the current one and is logged, while no selection keeps the old zone and logs "No zone selected" |
| Zone.ClickIsAccepted | client.py:75-78 | a zero-size zone from a click is accepted as the zone |
| Protocol.SendLog | server.py:136-141 | `send_log` always returns; a delivered message writes exactly `dumps({"log": m})` + `\n`, and a failed send writes nothing |
| Vision.AnalyzeEmptyPrompt | server.py:113-115 | an empty prompt gives the error object "LLM prompt is empty" and logs nothing |
| Vision.AnalyzeAnswer | server.py:123-131 | a reply gives its stripped "response" ("" when absent), after "Sending screenshot to Ollama..." and "Got an answer!" |
| Vision.AnalyzeException | server.py:132-134 | an exception inside the try gives the error object with `str(e)`, after only the "Sending" line |
| Vision.AnalyzeRaisesOnlyWithoutPrompt | server.py:109-111 | of the analysis' own inputs only an unreadable prompt file raises, since that read is outside the try; reading capture.png back (server.py:106-107, also outside the try) is part of `CycleEnv.captured` |
| Vision.CardPayloadFields | server.py:56-93 | the card's title text is the sender; its facts are exactly the "Horodatage:" fact with the timestamp, then `{"title": "Status", "value": messages}`, with messages unchanged |
| Vision.NotifySuccessCodes | server.py:96-100 | status 200 or 202, and no other, logs "Notification sent!"; any other logs "Teams notification error : {code} - {body}" |
| Vision.NotifyServerException | server.py:101-102 | a failed post on the server logs "Teams notification error : {e}" and returns normally |
| Vision.NotifyDesktopException | MS-watcher.py:102-103 | a failed post in the desktop watcher raises (two-argument call to a one-argument log) instead of logging |
| Vision.CaptureTarget | server.py:45-50 | no zone or an empty zone captures the full screen; a 4-item zone captures that region; any other length raises on unpacking |
| Vision.PerformVisionForwards | server.py:42-53 | a completed cycle captured the target chosen from the zone; it posted the analysis result unchanged as the Status fact under the instrument name; its logs are the analysis logs, then the notify logs |
| Vision.ServerCycleCompletes | server.py:51-53 | on the server, once the capture and the prompt read succeed, the cycle completes whatever Ollama and Teams do, and its last line reports the delivery |
| Vision.DesktopCycleRaisesOnPostFailure | MS-watcher.py:52-54 | in the desktop watcher a failed webhook post makes the whole cycle raise |
| Watch.WatchLoop | server.py:145-148 | the loop's logs, ending and cycle count are those of `Watch.Loop` over the oracle passes |
| Watch.AutoLoop | server.py:143-149 | the logs are the start line with the interval, the cycles' logs, and "Watcher stopped." exactly when the loop was left rather than a cycle raising; the first line is the start line, and the last is the stop line exactly on a normal exit |
| Watch.VisionNeverLogsStopLine | server.py:146 | no vision cycle, in either form, logs "Watcher stopped." |
| Watch.LoopNeverLogsStopLine | server.py:145-148 | the loop body never logs the stop line, so that line marks the loop's exit |
| Watch.LoopControl | MS-watcher.py:141-144 | no cycle starts when the flag is seen at entry or after a wait returned true; the loop ends at the first such event, at a cycle that raised, or when the passes run out |
| Watch.LoopLogs | MS-watcher.py:141-142 | the loop's logs are the logs of its cycles, concatenated in order |
| Watch.StopSetAtEntry | MS-watcher.py:140-145 | a flag already set at entry runs zero cycles and logs only the start and stop lines |
| Watch.LoopPrefix | server.py:147-148 | the passes after the loop has ended are never consulted |
| Watch.WaitTrueEndsLoop | MS-watcher.py:143-144 | once a wait has returned true, no further cycle starts |
| Watch.LoopEndsAtWait | server.py:147-148 | a pass whose wait returns true ends the loop, if nothing ended it before |
| Server.AtMostOneTask | server.py:167-175 | under the session invariant at most one worker is alive, and a live worker is the one last started |
| Server.Classify | server.py:164-166 | blank exactly for whitespace-only lines; not JSON exactly when `loads` fails; a message exactly for an object, with its `get("command")` and `get("zone")` |
| Server.IgnoredLines | server.py:164-180 | a blank line, or a command that is neither "start" nor "stop" (including a missing one), changes nothing and sends nothing |
| Server.StartWhileRunning | server.py:167-169 | start while the worker is alive only appends "Already running"; zone, flag and worker are unchanged |
| Server.StartWhenIdle | server.py:170-175 | start with no live worker stores `tuple(zone)`, clears the flag, makes a fresh worker the only one alive and appends "Watching!" |
| Server.StopInAnyState | server.py:176-180 | stop, even when idle, sets the flag, leaves no worker alive and appends "Stop requested" |
| Server.SessionEnders | server.py:165-182 | an unparsable line, a non-object line, and a start whose zone `tuple()` rejects all end the session |
| Server.EndOfSession | server.py:183-186 | at the end, the flag is set if a worker was alive; no worker is alive; the session is closed; nothing is sent |
| Server.OnLinePreservesInv | server.py:164-180 | each handled line keeps the session invariant |
| Server.EventsPreserveInv | server.py:151-186 | every chunk, the end of the session and any worker death keep the session invariant |
| Server.OnLinesAppend | server.py:162-163 | handling two lists of lines in turn equals handling their concatenation |
| Server.ChunkingIndependence | server.py:155-165 | receiving c1 then c2 has the same effect as receiving c1 + c2, and both leave the same buffer while the session is open |
| Server.Session.constructor | server.py:152-155 | a fresh session: flag clear, no worker, no zone, open, empty buffer |
| Server.Session.HandleLine | server.py:164-180 | handling one line moves the session to `OnLine` of its classification and keeps the invariant |
| Server.Session.Receive | server.py:158-180 | one chunk moves the session to `OnChunk`'s state: the lines are fed through the framer and handled in order until one closes the session |
| Server.Session.Close | server.py:183-186 | leaving the loop: set the flag and join a live worker, then close |
| Server.Session.EndOfStream | server.py:159-160 | an empty read (or a failed read or decode) ends the session as `OnEnd` describes |
| Server.Session.TaskDied | server.py:168 | a worker that finished by itself is no longer alive, so a later start spawns a new one |
| Client.ShowsLogMessage | client.py:60-64 | a `{"log": m}` line shows m exactly when m is non-empty, and the loop goes on |
| Client.LogLineOutcomes | client.py:60-66 | one non-blank line ends the loop exactly when it is unparsable, not an object, or has a truthy non-string "log"; it shows text exactly for a non-empty string "log" |
| Client.LogChunkingIndependence | client.py:51-59 | feeding c1 then c2 displays the same lines, and stops at the same point, as feeding c1 + c2 |
| Client.WatcherClient.constructor | client.py:15 | a connected client: no zone, nothing shown or sent, the receive loop running, empty buffer |
| Client.WatcherClient.ShowLogLine | client.py:60-64 | one line updates the display as `OnLogLine` describes; zone and socket output are untouched |
| Client.WatcherClient.ReceiveLogs | client.py:53-66 | one chunk goes through the framer; its lines are shown in order until the loop ends, as `OnLogChunk` describes |
| Client.WatcherClient.LogsEnded | client.py:55-56 | an empty read ends the receive loop and changes nothing else |
| Client.WatcherClient.SelectZone | client.py:68-80 | zone and log box change as `Zone.SelectZone` says; nothing is sent |
| Client.WatcherClient.Start | client.py:82-87 | with no zone it only warns and sends nothing; otherwise it sends exactly one `{"command": "start", "zone": zone}` frame |
| Client.WatcherClient.Stop | client.py:91-93 | it sends exactly one `{"command": "stop"}` frame |
| EndToEnd.NonEmpty | client.py:63 | the messages kept are exactly the non-empty ones, and never more than were given |
| EndToEnd.NonEmptyKeepsAll | client.py:63 | when no message is empty, all of them are kept, in order |
| EndToEnd.SelectedZoneIsCaptured | server.py:171 | a zone selected on the client survives the server's `tuple()` as the same four integers and is captured as that region (server.py:45-47), not the full screen and not a crash |
| EndToEnd.LogStreamFramed | server.py:138-139 | the server's log frames are the JSON lines of the messages, each followed by a newline |
| EndToEnd.ShowsAllLines | client.py:58-64 | the JSON lines of a message sequence show exactly its non-empty messages, in order |
| EndToEnd.ReceiveAllConcat | client.py:52-59 | feeding the chunks one by one ends as feeding their concatenation at once |
| EndToEnd.ClientShowsServerLogs | client.py:57-64 | whatever the chunking of the server's log frames, the client shows exactly the non-empty messages in order, keeps running, and has an empty buffer |
| EndToEnd.StartFrameStartsWatching | client.py:86-87 | the client's start frame, read by an idle session, stores the zone as four integers, starts a worker and answers "Watching!" |
| EndToEnd.StopFrameStops | client.py:92-93 | the client's stop frame, read by an open session, joins its worker and answers "Stop requested" |
| Gui.EventsPreserveInv | MS-watcher.py:199-201 | thread ids stay fresh: no live worker has an id above the last one started |
| Gui.StartWithoutZone | MS-watcher.py:196-198 | start with no zone changes neither the flag, the worker nor the log |
| Gui.StartRunsNewWorker | MS-watcher.py:199-204 | start with a zone clears the flag, adds a worker distinct from every live one and logs "Watching!" |
| Gui.StopDoesNotJoin | MS-watcher.py:206-210 | stop sets the flag and logs "Stop requested"; every live worker stays alive and the thread field is unchanged |
| Gui.StopThenStartKeepsOldWorker | MS-watcher.py:199-210 | stop then start before the old worker notices leaves it alive beside the new one, with the flag cleared |
| Gui.StartTwiceRunsTwoWorkers | MS-watcher.py:195-204 | with no already-running check a second start runs a second worker beside the first |
| Gui.Controller.constructor | MS-watcher.py:156-158 | a new window: no zone, flag clear, no worker |
| Gui.Controller.SelectZone | MS-watcher.py:181-193 | moves to `OnSelectZone` |
| Gui.Controller.Start | MS-watcher.py:195-204 | moves to `OnStart`; warns exactly when no zone was selected |
| Gui.Controller.Stop | MS-watcher.py:206-210 | moves to `OnStop` |
| Gui.Controller.TaskDied | MS-watcher.py:200-201 | a worker that left `auto_loop` is no longer alive |

## Left out

- TCP plumbing.
  - `bind`/`listen`/`accept` and the thread per connection are not modelled.
  - `connect` and its error box are not modelled.
  - `recv` is modelled only as the chunks it returns. `sendall` is modelled only as the bytes written.
  - A partial or failed `sendall` of a client command is not modelled.
- Threads and timing: real concurrency, `Event.wait` timing, and the order in which lines from a worker and from the handler interleave on one socket. Liveness and `wait` results are inputs.
- UTF-8 decoding of chunks. Chunks are strings, and a decoding error is the same end-of-loop event as an empty read.
- The JSON grammar: `json.loads`/`json.dumps` are parameters; JSON numbers are integers only (no floats).
- Foreign calls, replaced by their outcomes as parameters:
  - pyautogui screenshots and PIL `save`;
  - reading the screenshot file and its base64 encoding;
  - `requests.post` to Ollama and to Teams;
  - `datetime.now()`;
  - the text of `str(e)`.
- The request payload sent to Ollama (model name, prompt, image) is not modelled.
- `print` to stdout: nothing observable depends on it.
- `load_config` and the module-level settings: the interval and instrument name are fields of `Vision.Config`, and the interval is taken to be an integer.
- All tkinter widgets:
  - button enabling and disabling;
  - the warning and error boxes (`Start` returns whether the warning appeared);
  - drawing in `on_press`/`on_drag`;
  - window withdrawal while selecting.
- Vision.AnalyzeAnswer: a "response" that is not a string (`.strip()` raising inside the try) is covered only as an exception outcome (`Raised`), not as its own case.
- Gui: the lines the desktop worker writes to the shared log box are not merged into `Gui.ControllerState.log`. They are the `Watch.AutoLoop` logs of that worker.
