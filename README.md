# IdeProtocolClient, modelled in Dafny

This project models the protocol client of the Continue IntelliJ extension.
The client connects the editor to the Continue server over one WebSocket and exchanges
`{messageType, data}` envelopes with it. The repository holds two near-identical copies of the
client: the continuedev one and the bishwenduk029 one. Both are one class, `IdeProtocolClient`, so the model
is one Dafny class parameterised by `Edition`. It is also parameterised by `Reading`, which says how the continuedev
`showDiff` handler reads its step index: as written, or as corrected (see "## Findings"). What the model covers:

- **Pending requests.** `sendAndReceive` stores a fresh single-assignment future under the message type and
  sends one envelope. A received message completes and removes the future under its own type.
  The table is keyed by type, so a second request of a type still pending replaces the first.
  The first future is then never completed (`pending_table.dfy`, and the class in `protocol_client.dfy`).
- **Inbound dispatch.** The `when` chain of the continuedev copy has eleven types plus `else`. The
  bishwenduk029 copy has two stubbed queries. Each maps a received message to an optional reply
  and to calls into the editor (`dispatch.dfy`).
- **Payload builders.** These are the envelope, the two `DefaultTextSelectionStrategy` payloads
  (`text_selection.dfy`) and the session id taken from a `getSessionId` reply.
- **`getMachineUniqueID`.** It formats the first hardware address as dash-separated upper-case
  hexadecimal (`machine_id.dfy`).
- **Failure fan-out.** Every registered listener is told about a connection failure.

Values are the object graphs the client handles (`json_values.dfy`). A number the JSON library parses into
a `Map<String, Any>` is a double (`JDouble`). An `Int` that the client puts into a payload is a `JInt`.
A cast in a handler can fail. Examples are `data["filepath"] as String` and the cast of `data` to a map.
Such a failure throws inside the coroutine that handles the message. The model calls this
reaction `Aborted`: no reply, no editor call, and no pending request completed.

The editor host is an `Ide` value passed to `OnMessage`. It holds the network interfaces' hardware addresses,
the paths the file system resolves (each with the text of its document, if there is one) and the open files.
The socket is the append-only `outbox` of frames sent. Calls into the editor and the web view go to the
`effects` log. Calls of the failure listeners go to the `notified` log.

Behaviours of the code worth noting:
- In the continuedev copy, a failed cast stops the handling of a message before its pending request is
  completed. As written, this happens to every `showDiff` the server sends (see "## Findings").
- No operation abandons a pending request on a timeout. The only bounded wait is the drain of the send queue
  before `getSessionId` is sent.
- The session id is never absent after a `getSessionId` reply. A missing field gives the text `"null"`.
  The id is set again on every call, not once.
- Listeners are a list, not a set. A listener added twice is told twice.

## Model

| member | source | states |
|---|---|---|
| `JsonValues.Frame` | intellij-extension/src/main/kotlin/com/github/continuedev/continueintellijextension/continue/IdeProtocolClient.kt:204-208 | a sent frame is an object with exactly the keys `messageType` and `data`, holding the given type and payload unchanged |
| `JsonValues.FrameOfParsed` | intellij-extension/src/main/kotlin/com/github/continuedev/continueintellijextension/continue/IdeProtocolClient.kt:204-208 | every value that reads as an envelope is the frame of that envelope (the converse of `ParseFrame`) |
| `JsonValues.ParseFrame` | intellij-extension/src/main/kotlin/com/github/bishwenduk029/continueintellijextension/continue/IdeProtocolClient.kt:132-136 | reading a frame back gives the type and payload it was built from |
| `JsonValues.MessageType` | intellij-extension/src/main/kotlin/com/github/continuedev/continueintellijextension/continue/IdeProtocolClient.kt:128 | the discriminator is present exactly when the `messageType` field holds a string, and it is that string |
| `JsonValues.DataObject` | intellij-extension/src/main/kotlin/com/github/continuedev/continueintellijextension/continue/IdeProtocolClient.kt:129 | `data` is usable exactly when it is an object |
| `MachineId.HexPair` | intellij-extension/src/main/kotlin/com/github/continuedev/continueintellijextension/continue/IdeProtocolClient.kt:51 | a byte formats as two upper-case hex digits, and they read back to the same signed byte |
| `MachineId.MacText` | intellij-extension/src/main/kotlin/com/github/continuedev/continueintellijextension/continue/IdeProtocolClient.kt:50-52 | an address of n bytes formats to 3n-1 characters (none for no bytes), all hex digits or dashes |
| `MachineId.FirstMac` | intellij-extension/src/main/kotlin/com/github/continuedev/continueintellijextension/continue/IdeProtocolClient.kt:45-55 | an address is found exactly when some interface reports one, and it is the address of the first interface that reports one |
| `MachineId.MacTextSnoc` | intellij-extension/src/main/kotlin/com/github/continuedev/continueintellijextension/continue/IdeProtocolClient.kt:50-52 | each further byte appends a dash and its two digits: no trailing dash |
| `MachineId.GetMachineUniqueId` | intellij-extension/src/main/kotlin/com/github/continuedev/continueintellijextension/continue/IdeProtocolClient.kt:41-58 | the loop returns the first address's text, and `"No MAC Address Found"` exactly when no interface has one |
| `MachineId.ParseMacText` | intellij-extension/src/main/kotlin/com/github/continuedev/continueintellijextension/continue/IdeProtocolClient.kt:50-52 | the identifier reads back to the address's bytes |
| `MachineId.MacTextInjective` | intellij-extension/src/main/kotlin/com/github/continuedev/continueintellijextension/continue/IdeProtocolClient.kt:41-58 | different addresses give different identifiers |
| `TextSelection.ContinuedevPayload` | intellij-extension/src/main/kotlin/com/github/continuedev/continueintellijextension/continue/IdeProtocolClient.kt:341-358 | the payload has the one key `highlightedCode`, an array of exactly one object with `filepath`, `contents` (the selected text) and `range` |
| `TextSelection.ContinuedevPayloadComplete` | intellij-extension/src/main/kotlin/com/github/continuedev/continueintellijextension/continue/IdeProtocolClient.kt:341-358 | text, path and all four coordinates can be read back from that payload |
| `TextSelection.BishwendukPayload` | intellij-extension/src/main/kotlin/com/github/bishwenduk029/continueintellijextension/continue/IdeProtocolClient.kt:193-213 | the payload has keys `type` (`"highlightedCode"`), `rangeInFile` and `filesystem`, and `filesystem` maps the path, and nothing else, to the selected text |
| `TextSelection.BishwendukPayloadComplete` | intellij-extension/src/main/kotlin/com/github/bishwenduk029/continueintellijextension/continue/IdeProtocolClient.kt:193-213 | text, path and all four coordinates can be read back from that payload |
| `PendingTable.Register` | intellij-extension/src/main/kotlin/com/github/continuedev/continueintellijextension/continue/IdeProtocolClient.kt:103-105 | a fresh unresolved future is stored under the type; an earlier future under that type is orphaned; orphans stay orphaned |
| `PendingTable.Settle` | intellij-extension/src/main/kotlin/com/github/continuedev/continueintellijextension/continue/IdeProtocolClient.kt:170-173 | the future under the type is completed with the whole message and the key removed; every other entry and every other future is unchanged |
| `PendingTable.ReplyCompletesMatching` | intellij-extension/src/main/kotlin/com/github/continuedev/continueintellijextension/continue/IdeProtocolClient.kt:170-173 | a reply completes exactly the matching future; every other pending request stays pending and unresolved |
| `PendingTable.UnmatchedReplyDropped` | intellij-extension/src/main/kotlin/com/github/continuedev/continueintellijextension/continue/IdeProtocolClient.kt:171-172 | a reply with no pending entry leaves the table unchanged |
| `PendingTable.RequestThenReply` | intellij-extension/src/main/kotlin/com/github/continuedev/continueintellijextension/continue/IdeProtocolClient.kt:99-109 | a request followed by a reply of its type completes that request with the reply as received |
| `PendingTable.OrphanedForever` | intellij-extension/src/main/kotlin/com/github/continuedev/continueintellijextension/continue/IdeProtocolClient.kt:104-105 | an orphaned future stays unresolved after any sequence of later requests and replies |
| `PendingTable.SecondRequestOrphansFirst` | intellij-extension/src/main/kotlin/com/github/bishwenduk029/continueintellijextension/continue/IdeProtocolClient.kt:54-55 | after a second request of the same type, the first future is never completed, whatever follows |
| `Dispatch.ReadFileText` | intellij-extension/src/main/kotlin/com/github/continuedev/continueintellijextension/continue/IdeProtocolClient.kt:242-247 | `readFile` gives `""` when the path has no file or no document, and the document text otherwise |
| `Dispatch.SaveFileEffects` | intellij-extension/src/main/kotlin/com/github/continuedev/continueintellijextension/continue/IdeProtocolClient.kt:249-257 | the document is saved exactly when the path resolves to a file that has a document; otherwise no call is made |
| `Dispatch.SetFileOpenEffects` | intellij-extension/src/main/kotlin/com/github/continuedev/continueintellijextension/continue/IdeProtocolClient.kt:259-273 | the file is opened or closed, as `open` says, exactly when the path resolves; otherwise no call is made |
| `Dispatch.ContinuedevReaction` | intellij-extension/src/main/kotlin/com/github/continuedev/continueintellijextension/continue/IdeProtocolClient.kt:128-168 | a reply is sent exactly for `workspaceDirectory`, `uniqueId`, `readFile` and `visibleFiles`, under the message's own type. A command sends nothing and makes at most one editor call. A null, unknown or `connected` type does nothing. A message aborts exactly when `data` is not an object, or when its type's handler finds a field of the wrong kind (`ArgumentsFit`) |
| `Dispatch.ContinuedevQueryReplies` | intellij-extension/src/main/kotlin/com/github/continuedev/continueintellijextension/continue/IdeProtocolClient.kt:131-152 | `workspaceDirectory` is answered with the client's workspace path, `uniqueId` with the machine identifier, `visibleFiles` with the open files' paths in order |
| `Dispatch.ReadFileReply` | intellij-extension/src/main/kotlin/com/github/continuedev/continueintellijextension/continue/IdeProtocolClient.kt:145-148 | an inbound `readFile` is answered with one `readFile` frame whose `contents` is the document text, or `""` |
| `Dispatch.CommandEffects` | intellij-extension/src/main/kotlin/com/github/continuedev/continueintellijextension/continue/IdeProtocolClient.kt:150-165 | `saveFile`, `setFileOpen`, `showVirtualFile`, `showMessage` and `highlightCode` send nothing and make exactly the editor call their arguments name |
| `Dispatch.BishwendukReaction` | intellij-extension/src/main/kotlin/com/github/bishwenduk029/continueintellijextension/continue/IdeProtocolClient.kt:78-101 | `workspaceDirectory` gets exactly `{workspaceDirectory: "/fake/path"}` and `uniqueId` gets exactly `{uniqueId: "NOT_UNIQUE"}`. Every other type sends nothing. Nothing aborts and nothing reaches the editor |
| `Dispatch.React` | intellij-extension/src/main/kotlin/com/github/continuedev/continueintellijextension/continue/IdeProtocolClient.kt:130-173 | for either copy, a reply carries the message's type, and a message without a type does nothing |
| `Dispatch.ShowDiffAsWritten` | intellij-extension/src/main/kotlin/com/github/continuedev/continueintellijextension/continue/IdeProtocolClient.kt:143 | as written, the step index is accepted only when it is a boxed `Int` |
| `Dispatch.ShowDiffAsWrittenAlwaysFails` | intellij-extension/src/main/kotlin/com/github/continuedev/continueintellijextension/continue/IdeProtocolClient.kt:143 | as written, every `showDiff` the parser can produce fails its cast |
| `Dispatch.ShowDiffCounterexample` | intellij-extension/src/main/kotlin/com/github/continuedev/continueintellijextension/continue/IdeProtocolClient.kt:143 | a concrete `showDiff` push that the code as written rejects and the corrected reading accepts |
| `Dispatch.NumberToInt` | intellij-extension/src/main/kotlin/com/github/continuedev/continueintellijextension/continue/IdeProtocolClient.kt:143 | a whole number in `Int` range converts to itself, whether it arrives as an `Int` or a double |
| `Dispatch.ShowDiffArgs` | intellij-extension/src/main/kotlin/com/github/continuedev/continueintellijextension/continue/IdeProtocolClient.kt:143 | the corrected reading accepts exactly string `filepath` and `replacement` with a numeric `step_index`, and passes both strings unchanged |
| `Dispatch.ShowDiffPassesStepIndex` | intellij-extension/src/main/kotlin/com/github/continuedev/continueintellijextension/continue/IdeProtocolClient.kt:143 | under the corrected reading a whole-number step index reaches the diff call unchanged |
| `Dispatch.ShowDiffAsWrittenAborts` | intellij-extension/src/main/kotlin/com/github/continuedev/continueintellijextension/continue/IdeProtocolClient.kt:142-143 | as written, every `showDiff` the parser can produce aborts its handler |
| `Dispatch.ShowDiffCorrectedShows` | intellij-extension/src/main/kotlin/com/github/continuedev/continueintellijextension/continue/IdeProtocolClient.kt:142-143 | under the corrected reading, a `showDiff` with two strings and a number shows the diff and sends nothing |
| `Dispatch.ReadingsAgreeElsewhere` | intellij-extension/src/main/kotlin/com/github/continuedev/continueintellijextension/continue/IdeProtocolClient.kt:128-168 | the two readings give the same reaction to every message whose type is not `showDiff` |
| `ProtocolClient.SessionIdOf` | intellij-extension/src/main/kotlin/com/github/continuedev/continueintellijextension/continue/IdeProtocolClient.kt:90-91 | the session id is `data.sessionId` as text: the string itself, `"true"`/`"false"`, or `"null"` when the field or `data` is missing or null |
| `ProtocolClient.Notices` | intellij-extension/src/main/kotlin/com/github/continuedev/continueintellijextension/continue/IdeProtocolClient.kt:182 | one notice per registered listener, in registration order, each with the failure |
| `ProtocolClient.IdeProtocolClient.constructor` | intellij-extension/src/main/kotlin/com/github/continuedev/continueintellijextension/continue/IdeProtocolClient.kt:60-78 | a new client has sent nothing, has no pending requests, no listeners and no session id |
| `ProtocolClient.IdeProtocolClient.SendMessage` | intellij-extension/src/main/kotlin/com/github/continuedev/continueintellijextension/continue/IdeProtocolClient.kt:204-208 | appends exactly one frame `{messageType, data}` to the socket |
| `ProtocolClient.IdeProtocolClient.SendAndReceive` | intellij-extension/src/main/kotlin/com/github/continuedev/continueintellijextension/continue/IdeProtocolClient.kt:99-109 | registers a fresh unresolved future under the type, orphaning any earlier one, and sends exactly one frame |
| `ProtocolClient.IdeProtocolClient.OnMessage` | intellij-extension/src/main/kotlin/com/github/continuedev/continueintellijextension/continue/IdeProtocolClient.kt:122-174 | sends the dispatch reply and makes the editor calls, then completes and removes only the future under the message's type. A null type completes nothing. An aborted message changes nothing. Orphans stay orphaned |
| `ProtocolClient.IdeProtocolClient.AddEventListener` | intellij-extension/src/main/kotlin/com/github/continuedev/continueintellijextension/continue/IdeProtocolClient.kt:192-194 | appends the listener to the list |
| `ProtocolClient.IdeProtocolClient.OnFailure` | intellij-extension/src/main/kotlin/com/github/continuedev/continueintellijextension/continue/IdeProtocolClient.kt:177-183 | every registered listener is told once, in order; no pending request is touched |
| `ProtocolClient.IdeProtocolClient.OnTextSelected` | intellij-extension/src/main/kotlin/com/github/continuedev/continueintellijextension/continue/IdeProtocolClient.kt:218-240 | sends one `highlightedCodePush` frame (`highlightedCode` in the bishwenduk029 copy) and sends the identical payload to the web view under `highlightedCode` |
| `ProtocolClient.IdeProtocolClient.RequestSessionId` | intellij-extension/src/main/kotlin/com/github/continuedev/continueintellijextension/continue/IdeProtocolClient.kt:86-88 | one empty `getSessionId` request, registered like any other |
| `ProtocolClient.IdeProtocolClient.AdoptSessionId` | intellij-extension/src/main/kotlin/com/github/continuedev/continueintellijextension/continue/IdeProtocolClient.kt:88-93 | once the reply has arrived, the session id is set to the text taken from it |
| `ProtocolClient.SecondRequestOrphaned` | intellij-extension/src/main/kotlin/com/github/continuedev/continueintellijextension/continue/IdeProtocolClient.kt:104-105 | two requests of one type and a reply of that type: the second completes with the whole reply, the first stays unresolved |
| `ProtocolClient.SessionHandshake` | intellij-extension/src/main/kotlin/com/github/continuedev/continueintellijextension/continue/IdeProtocolClient.kt:80-93 | a fresh client sends exactly one `getSessionId` request, and a reply with `sessionId` sets the session id to it |
| `ProtocolClient.ShowDiffLeftPending` | intellij-extension/src/main/kotlin/com/github/continuedev/continueintellijextension/continue/IdeProtocolClient.kt:142-143 | as written, a parsed `showDiff` push leaves a pending `showDiff` request unresolved |
| `ProtocolClient.ShowDiffCompletes` | intellij-extension/src/main/kotlin/com/github/continuedev/continueintellijextension/continue/IdeProtocolClient.kt:142-143 | under the corrected reading, the same push shows the diff and completes the pending request with the whole message |

## Findings

| source | as written | input that shows it | evidently intended | confidence | as-written member | corrected member |
|---|---|---|---|---|---|---|
| intellij-extension/src/main/kotlin/com/github/continuedev/continueintellijextension/continue/IdeProtocolClient.kt:143 | `data["step_index"] as Int`; the JSON library parses every number in a `Map<String, Any>` as a `Double`, so the cast throws | `{"messageType":"showDiff","data":{"filepath":"/a","replacement":"x","step_index":0}}`: no diff is shown, and a pending `showDiff` request is never completed | read the step index as a number and convert it, `(data["step_index"] as Number).toInt()` | not executed; high | `Dispatch.ShowDiffAsWritten` | `Dispatch.ShowDiffArgs` |

The client carries both readings (`Reading`). `Dispatch.ShowDiffAsWrittenAborts` and `ProtocolClient.ShowDiffLeftPending`
show the consequence of the code as written. `Dispatch.ShowDiffCorrectedShows` and `ProtocolClient.ShowDiffCompletes`
show the corrected behaviour.

## Left out

- The WebSocket itself: connecting, `serverUrl`, `connect`/`disconnect` and `onOpen` are not modelled. A send on a closed socket is not modelled either. Every send is appended to `outbox`.
- Coroutines and threads are not modelled: `launch`, `async`, `Dispatchers.Main` and `invokeLater`. Each operation runs to completion, one at a time.
- The 10-second `withTimeoutOrNull` wait for the send queue to drain (`queueSize`) is timing, so it is not modelled. `getSessionIdAsync` is split into the request (`RequestSessionId`) and the code after `await` (`AdoptSessionId`). The second runs only once the future is completed. An orphaned request never gets there.
- JSON text is not modelled, and neither are frames that do not parse into a map. The model works on the parsed values.
- `highlightCode` stores the `rangeInFile` value as received. Converting it to the `RangeInFile` record, and the failures that can raise, are not modelled. Only a `rangeInFile` that is not an object, or a `color` that is not a string, aborts.
- The editor calls `saveFile`, `setFileOpen`, `showVirtualFile`, `showMessage`, `highlightCode` and `DiffManager.showDiff` are entries in the `effects` log. Their internals are not modelled. Neither are exceptions they throw later on the UI thread.
- `dispatchEventToWebview` is an entry in the `effects` log. `println` logging is not modelled.
- `NetworkInterface` enumeration is not modelled. The interfaces' hardware addresses are an input sequence.
- `LocalFileSystem` and `FileDocumentManager` lookups are not modelled. Files are a map from path to optional document text. Open editors are a sequence of paths.
- `TextSelectionStrategy` is an interface. The model uses a function value instead, and `DefaultStrategy` gives each copy's default.
- Kotlin's `toString` of a session id that is a number, list or map is the `show` parameter, because JVM formatting is not modelled.
- Listeners are identified by numbers. What a listener does with the error is not modelled.
- Dispatch.ContinuedevReaction: its own contract classifies each type as reply, command, silent or abort, and states exactly when a message aborts. The exact replies and editor calls are stated in `ContinuedevQueryReplies`, `ReadFileReply`, `CommandEffects`, `ShowDiffAsWrittenAborts` and `ShowDiffCorrectedShows`.
