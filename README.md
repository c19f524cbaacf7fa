# LiveSplit One timer view: remote control

A Dafny model of the remote-control core of LiveSplit One's timer view
(`src/ui/TimerView.tsx`). The view drives a shared timer from two places.
One is its own buttons. The other is a peer connected over a WebSocket. A
command is one action name from a closed vocabulary of twelve, followed by
positional string arguments. On the wire it is one line with the tokens
separated by single spaces. Commands issued locally are run and then
echoed to the peer. Commands received from the peer are run but never
echoed back.

The model has six modules:

- `Options`: the optional values the view passes around.
- `Wire`: the codec, JavaScript's `split(" ")` and `join(" ")`, with both
  round-trip laws and the exact condition under which the round trip holds.
- `Timer`: the shared timer, kept opaque. A class records the log of
  `writeWith`/`readWith` accesses, with the operation each write asks for.
  It also holds the comparison and timing method that the sidebar reads.
- `Vocabulary`: the `Action` enum and its wire names, and the handler table
  and its lookup. It also holds the write each handler performs, given
  `TimeSpan.parse`.
- `Connection`: the WebSocket ready states, the connect button's label, the
  click rule, and a `Socket` class (ready state, the per-connection
  `wasConnected` flag, and the log of sent lines).
- `View`: the `TimerView` class. It holds the dispatcher
  (`getActionHandler`), the handler methods, the `onopen`/`onmessage`/`onclose`
  callbacks, the connect button's click handler, `connectToServer` and
  `updateSidebar`.

`TimerView.Valid()` is the class invariant. The current connection, if
there is one, is one of the view's sockets and is not CLOSED. Its
`wasConnected` flag is set exactly when it has left CONNECTING. Every other
socket the view has created is CLOSED. From this the callbacks prove that
the socket firing an event is the current connection. So at most one link
is live per view.

The view's dispatcher uses the own-key handler lookup (`Vocabulary.Lookup`),
which treats every unknown name as a silent no-op. The lookup as the source
writes it also finds names inherited from `Object.prototype`; it is modelled
separately, as recorded under "## Findings".

Foreign calls are parameters of the view:

- `TimeSpan.parse` is `parse: string -> Option<TimeSpan>`.
- Whether `new WebSocket(url)` accepts a URL is `urlAccepted: string -> bool`.
- The answer of `prompt` is an argument of the click handler.
- The page's `ws_url` parameter is an argument of the constructor.
- The transport's events are the callback methods, called one at a time.

## Model

| member | source | states |
|---|---|---|
| `Wire.Join` | src/ui/TimerView.tsx:319 | the joined line starts with the first token, and no tokens join to the empty line; `Wire.SplitJoin` shows `Split` undoes it on space-free tokens |
| `Wire.Encode` | src/ui/TimerView.tsx:319 | the sent line starts with the command name and is just that name when there are no arguments; `Wire.DecodeEncode` shows the receiver recovers the message |
| `Wire.Split` | src/ui/TimerView.tsx:282 | splitting on spaces yields at least one token, and no token holds a space |
| `Wire.Decode` | src/ui/TimerView.tsx:282 | the command and every argument of a decoded line are space-free tokens |
| `Wire.JoinSplit` | src/ui/TimerView.tsx:282 | joining the tokens of any split with single spaces gives back the split string |
| `Wire.SplitJoin` | src/ui/TimerView.tsx:319 | splitting the space-join of one or more space-free tokens gives back exactly those tokens |
| `Wire.DecodeEncode` | src/ui/TimerView.tsx:319 | decoding the encoding of a message whose tokens hold no space gives back its command and its arguments |
| `Wire.EncodeDecode` | src/ui/TimerView.tsx:282 | re-encoding any decoded line gives back that line |
| `Wire.RoundTripIffWellFormed` | src/ui/TimerView.tsx:319 | a message survives encode-then-decode if and only if none of its tokens holds a space |
| `Vocabulary.WireName` | src/ui/TimerView.tsx:42-55 | each action's string value is a non-empty lower-case word; `Vocabulary.WireNameInjective` shows no two actions share one |
| `Vocabulary.HandlerTable` | src/ui/TimerView.tsx:297-310 | every action's wire name is a key bound to that action's handler, and every key is the wire name of the action it is bound to |
| `Vocabulary.Lookup` | src/ui/TimerView.tsx:297-313 | a name finds a handler exactly when it is the wire name of one of the twelve actions, and then it finds that action's handler |
| `Vocabulary.LookupWireName` | src/ui/TimerView.tsx:297-310 | each action's wire name finds that action's handler in the table |
| `Vocabulary.WireNameInjective` | src/ui/TimerView.tsx:42-55 | no two actions share a wire name |
| `Vocabulary.LookupAsWritten` | src/ui/TimerView.tsx:313 | the object-literal lookup agrees with `Lookup` on every own entry, and otherwise finds an inherited member exactly for the `Object.prototype` names |
| `Vocabulary.PrototypeNameFaults` | src/ui/TimerView.tsx:313 | `__proto__`, `__defineGetter__` and `__defineSetter__` are no action names, yet the lookup as written finds members whose use raises a TypeError, while an inherited `toString` is found and harmless |
| `Vocabulary.HandlerWrite` | src/ui/TimerView.tsx:344-400 | a handler performs at most one write, and only the timer operation of its own action; it skips the write exactly when it is the `setgametime` or `setloadingtimes` handler and the duration does not parse; otherwise it writes the parsed duration |
| `Vocabulary.FixedHandlersIgnoreArguments` | src/ui/TimerView.tsx:344-374 | the ten handlers without a duration always write, their write depends on neither the arguments nor the parser, and `reset` passes `true` |
| `Vocabulary.DispatchWrite` | src/ui/TimerView.tsx:313-316 | a name outside the table causes no write; a name that is an action's wire name performs exactly that action's handler write |
| `Connection.ButtonLabel` | src/ui/TimerView.tsx:194-209 | no connection shows "Connect to Server"; each ready state gets its own label; "Disconnect" exactly when OPEN |
| `Connection.ClickDecision` | src/ui/TimerView.tsx:244-259 | a click closes exactly when the connection is OPEN, and connects exactly when there is no connection and the prompt returns a non-empty URL, which is the URL used; otherwise it does nothing |
| `Connection.LabelAgreesWithClick` | src/ui/TimerView.tsx:191-259 | the button reads "Disconnect" exactly when a click closes the link, and, for a connection that is not CLOSED, reads "Connect to Server" exactly when a click with a URL connects |
| `Connection.Socket.constructor` | src/ui/TimerView.tsx:263 | a new socket is CONNECTING to its URL, has not connected and has sent nothing |
| `Connection.Socket.Send` | src/ui/TimerView.tsx:319 | a send appends the line to the socket's log of sent lines |
| `Connection.Socket.Close` | src/ui/TimerView.tsx:247 | `close()` moves a CONNECTING or OPEN socket to CLOSING and leaves a CLOSING or CLOSED one alone |
| `Timer.SharedTimer.WriteWith` | src/ui/TimerView.tsx:324-326 | a write access appends exactly one write of the given operation to the timer's log |
| `Timer.SharedTimer.ReadComparisonAndTimingMethod` | src/ui/TimerView.tsx:227-232 | a read access returns the current comparison and timing method and logs one read |
| `View.WireNameIsToken` | src/ui/TimerView.tsx:42-55 | every wire name is a single space-free token |
| `View.PeerReplaysLocalAction` | src/ui/TimerView.tsx:312-322 | the line a view sends for an action with space-free arguments makes a receiving peer perform the very write the sender performed |
| `View.TimerView.ConnectionState` | src/ui/TimerView.tsx:194 | the displayed state is absent exactly when there is no connection, and otherwise is the connection's ready state; in a valid view it is never CLOSED, so the button reads "Connect to Server" exactly when there is no connection |
| `View.TimerView.constructor` | src/ui/TimerView.tsx:62-75 | the sidebar state starts empty; with a `ws_url` the view connects to it at once, or records the failure notification if the URL is refused |
| `View.TimerView.ConnectToServer` | src/ui/TimerView.tsx:261-268 | an accepted URL yields a fresh CONNECTING socket that becomes the connection; a refused URL leaves no connection and adds one "Failed to connect" notification; the invariant is kept |
| `View.TimerView.HandleClickConnectOrDisconnect` | src/ui/TimerView.tsx:244-259 | the click does what `ClickDecision` says and never sends on the connection: closing keeps the socket as the connection (now CLOSING) until `onclose`; ignoring changes nothing; connecting behaves as `ConnectToServer`, with a fresh CONNECTING socket that has not connected and has sent nothing |
| `View.TimerView.RunHandler` | src/ui/TimerView.tsx:344-400 | running a handler adds to the timer's log exactly the write `HandlerWrite` gives, and nothing else (no reads) |
| `View.TimerView.Dispatch` | src/ui/TimerView.tsx:312-322 | the timer gets exactly the write `DispatchWrite` gives. With emitting on and a connection present, exactly one line, the space-join of the name and arguments, is sent, found name or not. With emitting off, or with no connection, nothing is sent. The connection and its state are unchanged. The lookup is the own-key one, so an inherited name such as `__proto__` is a no-op here where the source throws (see "## Findings") |
| `View.TimerView.LocalAction` | src/ui/TimerView.tsx:94-121 | a local button runs its action's handler and, when there is a connection, sends exactly the action's wire name |
| `View.TimerView.OnOpen` | src/ui/TimerView.tsx:269-274 | only the current connection can open; it becomes OPEN, its `wasConnected` flag is set, and one "Connected" notification fires |
| `View.TimerView.OnClose` | src/ui/TimerView.tsx:288-294 | the closing socket is the current connection; the field is reset to none, and the "Closed connection" notification fires exactly when that socket had opened |
| `View.TimerView.OnMessage` | src/ui/TimerView.tsx:278-287 | a text message is decoded and its write applied; nothing is ever sent back (echo suppression) and the connection stays OPEN; a non-text payload does nothing. A line naming an inherited member such as `__proto__` is a silent no-op here, where the source throws a TypeError out of `onmessage`; timer and socket end in the same state either way |
| `View.TimerView.UpdateSidebar` | src/ui/TimerView.tsx:225-242 | with the sidebar hidden nothing is read or changed; otherwise one read is made, the state takes the read values, and it reports an update exactly when either value changed |

## Left out

- WebSocket transport: the handshake, error events and the `onerror` notification are not modelled. The transport's state changes are the callback methods, each with the ready state the browser guarantees before firing it.
- `Connection.Socket.Send`: records every line handed to `send` whatever the ready state. It does not model that browsers throw InvalidStateError for a send while CONNECTING, or that they silently discard sends once CLOSING.
- `View.TimerView.OnClose`: the browser sets CLOSED and fires `close` as two steps; the model takes them as one step, because events are delivered one at a time.
- `View.TimerView.ConnectToServer`: when `new WebSocket(url)` throws, the source shows the notification and rethrows to its caller. The model returns `false` instead. It also requires that there is no connection, which both of its callers ensure.
- `View.TimerView.constructor`: when the page's `ws_url` is refused, the source rethrows out of the constructor and the view is never built. The model builds it with no connection and the failure notification.
- `Vocabulary.HandlerWrite`: when `setgametime` or `setloadingtimes` arrives without an argument, the source passes `undefined` to `TimeSpan.parse`. The model treats that as a failed parse, with no write.
- `TimeSpan.parse`, the timer engine's operations and `TimeSpan.with` are foreign code. They are an opaque type, an uninterpreted parser and a log of requested operations.
- Notifications are a log of `Toast` values. `prompt`, `URLSearchParams`, `forceUpdate`, `setState` re-rendering and all JSX beyond the connect button's label are not modelled.
- `switchToPreviousComparison`, `switchToNextComparison` and `setCurrentTimingMethod` are not modelled. Each is a single pass-through write with no logic of its own.
- `View.TimerView.LocalAction` accepts any action. The page binds only `splitorstart`, `undo`, `togglepause`, `skip` and `reset` to controls.
- View lifecycle: the model has no mount or unmount. The source has no teardown either, so an unmounted view's socket stays open and its `onmessage` keeps writing to the shared timer. A remount with `ws_url` opens a second socket. The one-live-link invariant holds per view only.
- `View.TimerView.Dispatch`: uses the corrected own-key lookup. So a remote `__proto__`, `__defineGetter__` or `__defineSetter__` line is a no-op, where the source raises a TypeError out of `onmessage`. That behaviour is modelled only by `Vocabulary.LookupAsWritten`.
- Concurrency: the host delivers events one at a time, so the model is a sequence of method calls.
- `src/util/SplitsIO.ts` is an HTTP client and is not part of this model. Neither are `src/layout/KeyValueGeneric.tsx` (rendering), `src/type-definitions/css-animation-sync.d.ts` or `src/util/json/GetRunnerPBsResponse.ts` (type declarations).

## Findings

| source | as written | input that shows it | evidently intended | confidence | as-written member | corrected member |
|---|---|---|---|---|---|---|
| src/ui/TimerView.tsx:297-313 | the handler table is a plain object literal, so `ACTION_HANDLER_MAP[action]` also finds members inherited from `Object.prototype` | remote line `__proto__`: the lookup yields `Object.prototype`, which has no `bind`, so a TypeError escapes `onmessage`. `__defineGetter__` and `__defineSetter__` likewise throw when called with strings | an unknown name finds no handler and the message is silently ignored (an own-key lookup) | medium, not executed | `Vocabulary.LookupAsWritten` (discrepancy in `Vocabulary.PrototypeNameFaults`) | `Vocabulary.Lookup` |
