# PPPwn-WS supervisor, modelled in Dafny

PPPwn-WS is a small Node WebSocket server (`index.js`) that starts and stops
one `pppwn` worker process for remote clients. A client connects and presents
a shared secret in the `x-secret` header. It then sends the text `start` or
`stop`, and the server answers it alone with `STATUS: <result>`. Everything
the worker writes goes to every open client: standard output as
`LOG: <trimmed chunk>`, standard error as `ERROR:<trimmed chunk>` (no space
after the colon). When the worker exits, every open client gets
`STATUS: stopped`.

This project models that server as a pure state machine. The modules are:

- `Config` (`config.dfy`): resolves the secret and the worker's argv from
  the environment. The secret defaults to `HomeAssistant`. The argv is the
  command split on single spaces, or `["./pppwn", "-i", "eth0"]` when no
  command is set.
- `Text` (`text.dfy`): JavaScript's `trim`, with the exact ECMAScript
  whitespace and line-terminator set. Also `split` with a one-character
  separator, and its inverse `Join`.
- `Protocol` (`protocol.dfy`): command words, the line formats, a reader
  (`Classify`) that tells the formats apart, and the admission gate.
- `Clients` (`clients.dfy`): `wss.clients` as a sequence of connections with
  their `readyState`, and the broadcast filter that picks the OPEN ones.
- `Supervisor` (`supervisor.dfy`): the module-level `process` handle, with
  `startPPPwn`, `killPPPwn` and the child's `close` callback.
- `Server` (`server.dfy`): one event-loop callback per event (`Step`) and a
  run of events (`Run`). A step returns the new state plus the messages,
  hang-ups and OS effects it emits.
- `ServerProperties` (`properties.dfy`): properties of whole steps and runs.

Spawning and signalling are effects named by a process id. The state
allocates these ids from a counter, so two workers are never confused. The
state also tracks which children are still running and which have been sent
SIGTERM. This is what makes the close callback's behaviour visible:

- The callback never checks which child closed.
- Sequence: "stop" signals child 0, "start" spawns child 1, then child 0's
  close arrives.
- The handle is cleared and clients are told "stopped", yet child 1 keeps
  running unsignalled.
- `ServerProperties.StaleCloseLosesWorker` proves this trace. The model keeps
  the behaviour as written.

`index.js` has no `kill` or `status` command. It has no process-group
signalling and no SIGKILL escalation. It pushes no status on connect, and it
sends command replies to the requester only, not to everyone.

## Model

| member | source | states |
|---|---|---|
| Config.ResolveSecret | index.js:11 | A set, non-empty `SECRET_KEY` is used verbatim, otherwise `"HomeAssistant"`. Either way the secret is never empty. |
| Config.ResolveArgv | index.js:13 | A set command is split on every single space: joining the words with spaces gives the command back, and no word contains a space. Otherwise the argv is `["./pppwn","-i","eth0"]`. |
| Config.ResolveArgvOfJoin | index.js:13 | Joining an argv with spaces and resolving the result gives the same argv back. |
| Config.Configure | index.js:11-13 | The configured secret is never empty. |
| Text.Trim | index.js:52 | The result of `trim` neither starts nor ends with JavaScript whitespace, and is no longer than its input. |
| Text.TrimDecomposes | index.js:52 | The input is the trimmed string with only whitespace on either side. |
| Text.TrimOfPadded | index.js:56 | Surrounding a tight string with any whitespace and trimming gives that string back, so the result of `trim` is unique. |
| Text.TrimIdempotent | index.js:52 | Trimming twice is the same as trimming once. |
| Text.Split | index.js:13 | `split(" ")` returns at least one piece, no piece contains the separator, and joining the pieces gives the input back. |
| Text.SplitJoin | index.js:13 | Splitting a joined list of separator-free pieces gives those pieces back. |
| Protocol.ParseCommand | index.js:91-97 | Only the exact string `start` selects start, only `stop` selects stop, and every other text selects nothing. |
| Protocol.ParseCommandInvertsWord | index.js:91-94 | A text selects a command exactly when it is that command's word. |
| Protocol.Classify | index.js:52-60 | Reading a line back by its prefix: a recognised line renders to the same text, and a line is unrecognised exactly when it has none of the three prefixes. |
| Protocol.ClassifyFormatted | index.js:51-57 | A stdout chunk reads back as a LOG line and a stderr chunk as an ERROR line, each carrying the trimmed chunk. |
| Protocol.FormattedNotStatus | index.js:51-57 | Forwarded worker output never reads as a status line. |
| Protocol.StderrNeverUnauthorized | index.js:55-57 | Forwarded standard error is never the text `ERROR: Unauthorized`, because a trimmed chunk never starts with a space. |
| Protocol.Admit | index.js:76-82 | A non-empty secret admits exactly the connections whose `x-secret` equals it; an empty secret admits everyone; without the header only an empty secret admits. |
| Clients.Broadcast | index.js:22-28 | The clients sent to are exactly the members whose socket is OPEN, none twice, and there are no more of them than members. |
| Clients.Find | index.js:87 | The position of a client id in `wss.clients`, or the end when it is not a member. |
| Clients.AdvanceKeepsValid | index.js:24-25 | The line reads `readyState`. Moving only forward, and dropping a closed socket from `wss.clients`, are the `ws` library's behaviour, not `index.js`'s. Under them the client set stays well formed. |
| Clients.AdvanceKeepsOthers | index.js:24 | A state change of one socket leaves every other member in place. |
| Clients.AdvanceKeepsHandlers | index.js:87 | A state change never installs or removes a message handler. |
| Clients.AdvanceToClosed | index.js:24 | A closed socket is no longer a member (the `ws` library drops it from `wss.clients`), so broadcasts skip it. |
| Supervisor.Start | index.js:44-64 | With no handle, exactly one spawn of `argv[0]` with `argv[1..]` under a fresh pid, which becomes the handle; the result is "started". With a handle, the result is "already started" and nothing changes. A valid, orphan-free state stays so. |
| Supervisor.Stop | index.js:34-42 | With a handle, SIGTERM goes to that pid, the handle is cleared at once while the child still runs, and the result is "stopped". With no handle, the result is "already stopped" and nothing changes. |
| Supervisor.Closed | index.js:59-62 | The close callback clears the handle whichever child closed. It keeps the state valid, and keeps it orphan-free when the closing child was the held one or none was held. |
| Supervisor.StartIdempotent | index.js:45-47 | A second start returns "already started" and asks nothing of the OS. |
| Supervisor.StopIdempotent | index.js:34-42 | A second stop returns "already stopped" and sends no signal. |
| Supervisor.StopAfterStart | index.js:34-49 | Stopping a just-started worker signals exactly the child that was spawned, which keeps running until it closes. |
| Supervisor.StaleCloseOrphans | index.js:59-62 | The close of a child other than the held one leaves the held child running, unsignalled and unreachable by "stop". |
| Server.Publish | index.js:22-28 | A broadcast sends its text, and only it, to exactly the OPEN members, and to each of them once. |
| ServerProperties.StepPreservesValid | index.js:75-98 | Every event keeps the server state well formed: a valid supervisor, a valid client set, and ids below the next one. |
| ServerProperties.RunPreservesValid | index.js:75-98 | Any run of events keeps the state well formed. |
| ServerProperties.StartMessage | index.js:91-93 | "start" from a listening client with no worker held gives one spawn and then `STATUS: started` to that client alone. With a worker held it gives only `STATUS: already started`. |
| ServerProperties.StopMessage | index.js:94-96 | "stop" from a listening client with a worker held gives SIGTERM to it and then `STATUS: stopped` to that client alone. With none held it gives only `STATUS: already stopped`. |
| ServerProperties.OtherMessagesIgnored | index.js:87-98 | Any message other than exactly `start` or `stop` changes nothing and gets no reply. |
| ServerProperties.UnlistenedMessagesIgnored | index.js:76-87 | A connection without the message handler cannot run commands. |
| ServerProperties.StartTwiceSpawnsOnce | index.js:45-49 | Two "start" messages spawn one worker and get "started" and then "already started". |
| ServerProperties.StopTwiceSignalsOnce | index.js:34-41 | Two "stop" messages send one SIGTERM and get "stopped" and then "already stopped"; the child still runs. |
| ServerProperties.StepStatusTruthful | index.js:34-64 | Every status line an event produces agrees with the state it leaves: "started" or "already started" exactly when a worker is held. |
| ServerProperties.OutputFansOut | index.js:51-57 | A stdout chunk reaches exactly the open clients as `LOG: ` plus the trimmed chunk, and a stderr chunk as `ERROR:` plus the trimmed chunk. Each open client gets the line once, nothing else is sent, and the state does not change. |
| ServerProperties.CloseAlwaysStops | index.js:59-62 | The close of any running child clears the handle and tells exactly the open clients `STATUS: stopped`, each once. |
| ServerProperties.RefusedConnection | index.js:76-81 | With a non-empty secret and a wrong or missing header, the connection gets exactly `ERROR: Unauthorized` and is closed. It has no message handler and the supervisor is untouched. |
| ServerProperties.AdmittedConnection | index.js:76-87 | With the right header, or an empty secret, the connection is admitted silently with the message handler. |
| ServerProperties.ConfiguredServerChecksSecret | index.js:11-13 | A server configured from its environment always checks the header, because the resolved secret is never empty. |
| ServerProperties.StepKeepsSilenced | index.js:76-81 | A refused connection stays without a handler and gets nothing from any later event. |
| ServerProperties.SilencedHearsNothing | index.js:76-81 | Once refused, a connection gets no message from any run of events. |
| ServerProperties.RefusedHearsNothingMore | index.js:78-80 | After its refusal a connection never hears from the server again. |
| ServerProperties.StepKeepsNoOrphans | index.js:34-64 | Every event except the close of a child other than the held one keeps each running child held or signalled. |
| ServerProperties.RunKeepsNoOrphans | index.js:34-64 | A run with no such stale close leaves no orphaned child. |
| ServerProperties.StaleCloseLosesWorker | index.js:59-62 | Connect, start, stop, start, then the first child's close: the server holds no worker and has told the client "stopped", yet child 1 runs unsignalled. "stop" then only answers "already stopped", and "start" runs child 2 beside it. |

## Left out

- The `ws` transport: framing, the port and `req.socket.remoteAddress`. A connection is an id with a readyState. State changes of a socket arrive as `Transport` events.
- `child_process.spawn` and `kill`. They become `Spawn` and `Signal` effects on fresh pids. Only children that have spawned and not yet closed produce output or a close event.
- Spawn failure. The `error` event of a child has no handler in the source, and a failed spawn is not modelled.
- The exit code passed to the close callback. It is never read.
- Byte-level chunk decoding. `data.toString()` is taken to yield the chunk's characters, and multi-byte characters split across chunks are not modelled.
- dotenv loading and the port default. The model takes the environment as values, not as I/O.
- Console logging, and the try/catch around the broadcast. Neither changes state.
- A repeated `x-secret` header. Node joins repeated headers, so the header is modelled as one optional string.
- Not implemented by `index.js`: `kill`/`status` commands, process groups, SIGKILL escalation, a status push on connect, and replies broadcast to everyone.
